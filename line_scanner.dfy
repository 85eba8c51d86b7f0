/** The character-level scanner of the tool: IsHexDigit and ParseLine, with
    the index variables, flags and fixed-size buffers of md5sum.cpp,
    each proved to compute the functions of LineSpec. */
module LineScanner {
  import opened Digests
  import opened LineSpec

  /** IsHexDigit: linear search of "0123456789abcdefABCDEF" (the loop stops
      at the literal's terminating NUL, here its length). */
  method IsHexDigit(c: char) returns (b: bool)
    ensures b <==> IsHex(c)
  {
    var s := HexAlphabet;
    var i := 0;
    while i < |s|
      invariant 0 <= i <= |s|
      invariant forall j :: 0 <= j < i ==> s[j] != c
    {
      if c == s[i] {
        return true;
      }
      i := i + 1;
    }
    HexAlphabetIndex(c);
    return false;
  }

  /** The tag-style scan of ParseLine (MD5 (file) = 05b04f49...): from
      `i`, find the first '(', copy up to ')' into cFileName, then copy the
      hex digits of the rest of the line into cDigest. */
  method ScanTagStyle(zLine: string, i0: nat, cFileName: array<char>, cDigest: array<char>)
    requires IsTagStyle(zLine) && |zLine| >= 32 && i0 == TagStart(zLine)
    requires |RawDigest(zLine)| <= 128 && |RawName(zLine)| <= 511
    requires cFileName.Length == 512 && cDigest.Length == 129
    requires HoldsPadded(cFileName[..], "") && HoldsPadded(cDigest[..], "")
    modifies cFileName, cDigest
    ensures HoldsPadded(cFileName[..], RawName(zLine))
    ensures HoldsPadded(cDigest[..], RawDigest(zLine))
  {
    var len := |zLine|;
    var i := i0;
    ghost var scanned := false;
    while i < len
      invariant TagStart(zLine) <= i <= len + 1
      invariant !scanned ==> i <= len && Find(zLine, i, '(') == TagOpen(zLine)
      invariant !scanned ==> HoldsPadded(cFileName[..], "") && HoldsPadded(cDigest[..], "")
      invariant scanned ==> i == len + 1 && TagOpen(zLine) < len
      invariant scanned ==> HoldsPadded(cFileName[..], RawName(zLine))
      invariant scanned ==> HoldsPadded(cDigest[..], RawDigest(zLine))
      decreases len + 1 - i
    {
      if zLine[i] == '(' {
        ghost var open := i;
        assert open == TagOpen(zLine);
        i := i + 1;
        i := ReadTagName(zLine, i, cFileName);
        assert i == TagClose(zLine);
        ReadTagDigest(zLine, i, cDigest);
        i := len;
        scanned := true;
      }
      i := i + 1;
    }
    if !scanned {
      assert TagOpen(zLine) == len;
    }
  }

  /** The file-name loop of the tag-style scan: copy characters from
      `i0` up to ')' or the end of the line; returns where it stopped. */
  method ReadTagName(zLine: string, i0: nat, cFileName: array<char>) returns (i: nat)
    requires i0 <= |zLine| && Find(zLine, i0, ')') - i0 <= 511
    requires cFileName.Length == 512 && HoldsPadded(cFileName[..], "")
    modifies cFileName
    ensures i == Find(zLine, i0, ')')
    ensures HoldsPadded(cFileName[..], zLine[i0..i])
  {
    var len := |zLine|;
    ghost var close := Find(zLine, i0, ')');
    i := i0;
    var k := 0;
    while i < len && zLine[i] != ')'
      invariant i0 <= i <= close && k == i - i0
      invariant Find(zLine, i, ')') == close
      invariant HoldsPadded(cFileName[..], zLine[i0..i])
    {
      ghost var before := cFileName[..];
      HoldsPaddedWrite(before, zLine[i0..i], zLine[i]);
      assert zLine[i0..i + 1] == zLine[i0..i] + [zLine[i]];
      cFileName[k] := zLine[i];
      assert cFileName[..] == before[k := zLine[i]];
      i := i + 1;
      k := k + 1;
    }
  }

  /** The digest loop of the tag-style scan, advancing on every character:
      '=' and ' ' are skipped, hex digits are appended, the rest skipped. */
  method ReadTagDigest(zLine: string, close: nat, cDigest: array<char>)
    requires close <= |zLine| && |KeepHex(zLine[close..])| <= 128
    requires cDigest.Length == 129 && HoldsPadded(cDigest[..], "")
    modifies cDigest
    ensures HoldsPadded(cDigest[..], KeepHex(zLine[close..]))
  {
    var len := |zLine|;
    var i := close;
    var k := 0;
    while i < len
      invariant close <= i <= len
      invariant k == |KeepHex(zLine[close..i])|
      invariant HoldsPadded(cDigest[..], KeepHex(zLine[close..i]))
    {
      KeepHexStep(zLine, close, i);
      if zLine[i] == '=' || zLine[i] == ' ' {
        i := i + 1;
      } else {
        var hex := IsHexDigit(zLine[i]);
        if zLine[i] != '\n' && hex {
          KeepHexMono(zLine, close, i + 1, len);
          assert zLine[close..len] == zLine[close..];
          ghost var before := cDigest[..];
          HoldsPaddedWrite(before, KeepHex(zLine[close..i]), zLine[i]);
          cDigest[k] := zLine[i];
          assert cDigest[..] == before[k := zLine[i]];
          k := k + 1;
        }
        i := i + 1;
      }
    }
    assert zLine[close..i] == zLine[close..];
  }

  /** The default-style scan of ParseLine (05b04f49... *file): the leading
      hex run goes to cDigest; after it spaces are skipped, the first other
      character is consumed, and the rest except newlines goes to cFileName.
      The binary flag is tested after the index has been incremented, so it
      is never set. */
  method ScanDefaultStyle(zLine: string, ghost n: nat, ghost m: nat, cFileName: array<char>, cDigest: array<char>)
    returns (isBinary: bool)
    requires n == HexEnd(zLine, 0) <= 128 && m == SpaceEnd(zLine, n)
    requires m < |zLine| ==> |DropNewlines(zLine[m + 1..])| <= 511
    requires cFileName.Length == 512 && cDigest.Length == 129
    requires HoldsPadded(cFileName[..], "") && HoldsPadded(cDigest[..], "")
    modifies cFileName, cDigest
    ensures HoldsPadded(cFileName[..], if m < |zLine| then DropNewlines(zLine[m + 1..]) else "")
    ensures HoldsPadded(cDigest[..], zLine[..n])
    ensures !isBinary
  {
    var len := |zLine|;
    var i := 0;
    var k, j := 0, 0;
    var bEndReadDigest := false;
    var bStartReadFilename := false;
    ghost var digest, name := "", "";
    isBinary := false;
    while i < len
      invariant 0 <= i <= len
      invariant ScanState(bEndReadDigest, bStartReadFilename, digest, name) == DefaultScan(zLine, i)
      invariant k == |digest| && j == |name|
      invariant HoldsPadded(cDigest[..], digest)
      invariant HoldsPadded(cFileName[..], name)
      invariant !isBinary
    {
      DefaultScanFits(zLine, i + 1);
      assert DefaultScan(zLine, i + 1) == ScanStep(DefaultScan(zLine, i), zLine[i]);
      var hex := IsHexDigit(zLine[i]);
      if !bEndReadDigest && hex {
        ghost var before := cDigest[..];
        HoldsPaddedWrite(before, digest, zLine[i]);
        cDigest[k] := zLine[i];
        assert cDigest[..] == before[k := zLine[i]];
        k := k + 1;
        digest := digest + [zLine[i]];
      } else {
        bEndReadDigest := true;
        if !bStartReadFilename {
          if zLine[i] != ' ' {
            bStartReadFilename := true;
          }
        } else if zLine[i] != '\n' {
          ghost var before := cFileName[..];
          HoldsPaddedWrite(before, name, zLine[i]);
          cFileName[j] := zLine[i];
          assert cFileName[..] == before[j := zLine[i]];
          j := j + 1;
          name := name + [zLine[i]];
          var atJ := if j < cFileName.Length then cFileName[j] else '\0';
          if j == 0 && atJ == '*' {
            isBinary := true;
          }
        }
      }
      i := i + 1;
    }
    DefaultScanMeaning(zLine, len);
    if m < len {
      assert zLine[m + 1..len] == zLine[m + 1..];
      assert name == DropNewlines(zLine[m + 1..]);
    } else {
      assert name == "";
    }
    assert digest == zLine[..n];
  }

  /** ParseLine: None where md5sum.cpp returns false; otherwise the
      algorithm, digest, file name and binary flag it stores. The tag-style
      digest loop advances on every character (see the findings). */
  method ParseLine(cLine: string) returns (r: Option<Record>)
    requires FitsBuffers(CString(cLine))
    ensures r == Parse(CString(cLine))
  {
    var zLine := CString(cLine);
    var len := |zLine|;
    if len < 32 {
      return None;
    }

    var cFileName := new char[512](_ => '\0');
    var cDigest := new char[129](_ => '\0');

    var alg: AlgHash;
    var isBinary: bool;
    var i := 0;
    RawFieldsHaveNoNul(zLine);
    if StartsWith(zLine, "MD5") || StartsWith(zLine, "SHA") {
      if StartsWith(zLine, "MD5") {
        alg, i := MD5, 3;
      } else if StartsWith(zLine, "SHA1") {
        alg, i := SHA1, 5;
      } else if StartsWith(zLine, "SHA256") {
        alg, i := SHA256, 6;
      } else if StartsWith(zLine, "SHA384") {
        alg, i := SHA384, 6;
      } else if StartsWith(zLine, "SHA512") {
        alg, i := SHA512, 6;
      } else {
        alg := UnknownAlg;
      }
      assert alg == RawAlg(zLine) && i == TagStart(zLine);
      ScanTagStyle(zLine, i, cFileName, cDigest);
      isBinary := false;
      CStringOfPadded(cDigest[..], RawDigest(zLine));
      CStringOfPadded(cFileName[..], RawName(zLine));
    } else {
      var first := IsHexDigit(zLine[0]);
      if !first {
        return None;
      }
      ghost var n, m := DigestEnd(zLine), MarkerIndex(zLine);
      assert RawDigest(zLine) == zLine[..n];
      assert RawName(zLine) == if m < len then DropNewlines(zLine[m + 1..]) else "";
      isBinary := ScanDefaultStyle(zLine, n, m, cFileName, cDigest);
      CStringOfPadded(cDigest[..], RawDigest(zLine));
      CStringOfPadded(cFileName[..], RawName(zLine));
      alg := AlgOfLength(|CString(cDigest[..])|);
      assert alg == RawAlg(zLine);
    }

    var digestLen := |CString(cDigest[..])|;
    if || (alg == MD5 && digestLen != 32)
       || (alg == SHA1 && digestLen != 40)
       || (alg == SHA256 && digestLen != 64)
       || (alg == SHA384 && digestLen != 96)
       || (alg == SHA512 && digestLen != 128)
       || alg == UnknownAlg
    {
      return None;
    }
    r := Some(Record(alg, CString(cDigest[..]), CString(cFileName[..]), isBinary));
  }
}
