/** What the line parser promises, stated about LineSpec.Parse: the shape of
    every accepted record, when each style is accepted, the lines the tool
    itself prints (DigestFile) read back, and the two ways the default-style
    scan departs from the printed format. */
module LineProperties {
  import opened Digests
  import opened LineSpec

  /** The lengths of the five supported digests. */
  predicate IsDigestLength(n: nat) {
    n == 32 || n == 40 || n == 64 || n == 96 || n == 128
  }

  predicate AllHex(s: string) {
    forall j :: 0 <= j < |s| ==> IsHex(s[j])
  }

  /** Every accepted line names a known algorithm and carries a hex digest of
      exactly that algorithm's length; the binary flag is never set. */
  lemma ParseSound(z: string)
    ensures Parse(z).Some? ==>
      && |z| >= 32
      && Parse(z).value.alg != UnknownAlg
      && |Parse(z).value.digest| == DigestLength(Parse(z).value.alg)
      && IsDigestLength(|Parse(z).value.digest|)
      && AllHex(Parse(z).value.digest)
      && !Parse(z).value.isBinary
  {
    if Parse(z).Some? {
      if IsTagStyle(z) {
        KeepHexOnlyHex(z[TagClose(z)..]);
        var d := Parse(z).value.digest;
        assert forall j :: 0 <= j < |d| ==> d[j] in d;
      }
    }
  }

  /** Default style: a line is accepted exactly when it is long enough, starts
      with a hex digit and its leading hex run has one of the five lengths;
      the digest is that whole run and the algorithm is read off its length. */
  lemma DefaultStyleParse(z: string)
    requires !IsTagStyle(z)
    ensures Parse(z).Some? <==> |z| >= 32 && IsHex(z[0]) && IsDigestLength(HexEnd(z, 0))
    ensures Parse(z).Some? ==>
      var d := Parse(z).value.digest;
      && d <= z && AllHex(d)
      && (|d| < |z| ==> !IsHex(z[|d|]))
      && Parse(z).value.alg == AlgOfLength(|d|)
  {
  }

  /** In particular a run of 33 hex digits is not a digest. */
  lemma HexRunOf33Rejected(z: string)
    requires |z| >= 33 && AllHex(z[..33]) && (|z| == 33 || !IsHex(z[33]))
    ensures Parse(z) == None
  {
    assert !IsTagStyle(z) by {
      assert IsHex(z[0]);
    }
    HexEndAt(z, 0, 33);
  }

  /** Tag style: a line is accepted exactly when its prefix names a known
      algorithm and the hex digits after ')' have that algorithm's length; an
      unknown "SHA..." prefix is always rejected. */
  lemma TagStyleParse(z: string)
    requires IsTagStyle(z)
    ensures Parse(z).Some? <==>
      |z| >= 32 && TagAlg(z) != UnknownAlg && |RawDigest(z)| == DigestLength(TagAlg(z))
    ensures Parse(z).Some? ==> Parse(z).value.alg == TagAlg(z) && !Parse(z).value.isBinary
    ensures TagAlg(z) == UnknownAlg ==> Parse(z) == None
  {
  }

  // Reading back the lines DigestFile prints

  /** The tag-style line: "MD5 (file) = digest". */
  function FormatTag(algName: string, file: string, digest: string): (line: string)
    ensures |line| == |algName| + |file| + |digest| + 6
  {
    algName + " (" + file + ") = " + digest
  }

  /** The default-style line: digest, a space, then '*' for binary mode or a
      space for text mode, then the file name. */
  function FormatDefault(digest: string, binary: bool, file: string): (line: string)
    ensures |line| == |digest| + |file| + 2
  {
    digest + [' ', if binary then '*' else ' '] + file
  }

  /** A tag-style line the tool prints, followed by its delimiter, parses back
      to the algorithm, file name and digest it was printed from. */
  lemma TagRoundTrip(alg: AlgHash, file: string, digest: string, delim: string)
    requires alg != UnknownAlg && |digest| == DigestLength(alg) && AllHex(digest)
    requires ')' !in file && forall j :: 0 <= j < |delim| ==> !IsHex(delim[j])
    ensures Parse(FormatTag(AlgName(alg), file, digest) + delim) == Some(Record(alg, digest, file, false))
  {
    var tail := ") = " + digest + delim;
    var z := FormatTag(AlgName(alg), file, digest) + delim;
    assert z == AlgName(alg) + " (" + file + tail;
    TagLineShape(alg, file, tail);
    KeepHexOfTail(digest, delim);
  }

  /** After the ')' of a printed tag line, only the digest is collected when
      the delimiter holds no hex digit. */
  lemma KeepHexOfTail(digest: string, delim: string)
    requires AllHex(digest) && forall j :: 0 <= j < |delim| ==> !IsHex(delim[j])
    ensures KeepHex(") = " + digest + delim) == digest
  {
    KeepHexOfPunctuation();
    KeepHexAppend(") = ", digest);
    KeepHexAll(digest);
    KeepHexAppend(") = " + digest, delim);
    KeepHexNone(delim);
  }

  /** The name loop stops at the first ')', so a printed tag line for a file
      named `a)b` (such as `x (1).txt`) names only `a`; when `b` and the
      delimiter hold no hex digit, the line is accepted for the file `a`. */
  lemma TagNameEndsAtFirstParen(alg: AlgHash, a: string, b: string, digest: string, delim: string)
    requires alg != UnknownAlg && ')' !in a
    ensures var z := FormatTag(AlgName(alg), a + ")" + b, digest) + delim;
      && RawName(z) == a
      && (Parse(z).Some? ==> Parse(z).value.name == a)
    ensures (&& |digest| == DigestLength(alg) && AllHex(digest)
             && (forall j :: 0 <= j < |b| ==> !IsHex(b[j]))
             && (forall j :: 0 <= j < |delim| ==> !IsHex(delim[j])))
      ==> Parse(FormatTag(AlgName(alg), a + ")" + b, digest) + delim) == Some(Record(alg, digest, a, false))
  {
    var tail := ")" + b + ") = " + digest + delim;
    var z := FormatTag(AlgName(alg), a + ")" + b, digest) + delim;
    assert z == AlgName(alg) + " (" + a + tail;
    TagLineShape(alg, a, tail);
    if && AllHex(digest)
       && (forall j :: 0 <= j < |b| ==> !IsHex(b[j]))
       && (forall j :: 0 <= j < |delim| ==> !IsHex(delim[j]))
    {
      KeepHexAfterCut(b, digest, delim);
    }
  }

  /** The digest collected after the first ')' of such a line, when the rest
      of the name and the delimiter hold no hex digit. */
  lemma KeepHexAfterCut(b: string, digest: string, delim: string)
    requires AllHex(digest)
    requires forall j :: 0 <= j < |b| ==> !IsHex(b[j])
    requires forall j :: 0 <= j < |delim| ==> !IsHex(delim[j])
    ensures KeepHex(")" + b + ") = " + digest + delim) == digest
  {
    KeepHexOfPunctuation();
    var s1 := ")" + b;
    KeepHexAppend(")", b);
    KeepHexNone(b);
    assert KeepHex(s1) == [];
    var s2 := s1 + ") = ";
    KeepHexAppend(s1, ") = ");
    assert KeepHex(s2) == [];
    var s3 := s2 + digest;
    KeepHexAppend(s2, digest);
    KeepHexAll(digest);
    assert KeepHex(s3) == digest;
    KeepHexAppend(s3, delim);
    KeepHexNone(delim);
  }

  /** Where the scan finds the parentheses of a line that starts like a
      printed tag-style line. */
  lemma TagLineShape(alg: AlgHash, file: string, tail: string)
    requires alg != UnknownAlg && ')' !in file && |tail| > 0 && tail[0] == ')'
    ensures var z := AlgName(alg) + " (" + file + tail;
      && IsTagStyle(z) && TagAlg(z) == alg
      && TagOpen(z) == |AlgName(alg)| + 1 < |z|
      && TagClose(z) == |AlgName(alg)| + 2 + |file| < |z|
      && z[TagClose(z)..] == tail
      && RawName(z) == file
      && RawDigest(z) == KeepHex(tail)
  {
    var p := AlgName(alg);
    var z := p + " (" + file + tail;
    var o := |p| + 1;
    var c := o + 1 + |file|;
    assert z[..|p|] == p;
    TagPrefix(alg, z);
    FindAt(z, TagStart(z), '(', o);
    assert forall j :: o + 1 <= j < c ==> z[j] == file[j - o - 1];
    FindAt(z, o + 1, ')', c);
    assert z[o + 1..c] == file;
    assert z[c..] == tail;
  }

  /** The prefix of a printed tag line selects the algorithm it names, and the
      scan for '(' starts no later than the '(' after the name. */
  lemma TagPrefix(alg: AlgHash, z: string)
    requires alg != UnknownAlg && |z| > |AlgName(alg)| + 1
    requires z[..|AlgName(alg)|] == AlgName(alg) && z[|AlgName(alg)|] == ' ' && z[|AlgName(alg)| + 1] == '('
    ensures IsTagStyle(z) && TagAlg(z) == alg
    ensures TagStart(z) <= |AlgName(alg)| + 1
    ensures forall j :: TagStart(z) <= j < |AlgName(alg)| + 1 ==> z[j] != '('
  {
    var p := AlgName(alg);
    StartsWithSame(z, p, "MD5");
    StartsWithSame(z, p, "SHA");
    StartsWithSame(z, p, "SHA1");
    StartsWithSame(z, p, "SHA256");
    StartsWithSame(z, p, "SHA384");
    StartsWithSame(z, p, "SHA512");
    if alg != MD5 {
      assert !StartsWith(p, "MD5") by { assert p[0] != 'M'; }
    }
    if alg != MD5 && alg != SHA1 {
      assert !StartsWith(p, "SHA1") by { assert p[3] != '1'; }
      assert StartsWith(p, "SHA384") ==> p[4] == '8';
      assert StartsWith(p, "SHA256") ==> p[4] == '5';
    }
  }

  /** A string that begins with `p` begins with a shorter `q` exactly when
      `p` does. */
  lemma StartsWithSame(z: string, p: string, q: string)
    requires |p| <= |z| && z[..|p|] == p
    ensures |q| <= |p| ==> (StartsWith(z, q) <==> StartsWith(p, q))
  {
    if |q| <= |p| {
      assert z[..|q|] == p[..|q|];
    }
  }

  /** A default-style line printed in binary mode parses back to its digest
      and file name; the binary flag, though, comes back false. */
  lemma DefaultRoundTrip(digest: string, file: string, delim: string)
    requires IsDigestLength(|digest|) && AllHex(digest)
    requires '\n' !in file && (delim == "" || delim == "\n")
    ensures Parse(FormatDefault(digest, true, file) + delim)
      == Some(Record(AlgOfLength(|digest|), digest, file, false))
  {
    var tail := file + delim;
    var rest := ['*'] + tail;
    var z := FormatDefault(digest, true, file) + delim;
    assert z == digest + " " + rest;
    DefaultLineShape(digest, " ", rest);
    assert rest[1..] == tail;
    DropNewlinesAppend(file, delim);
    DropNewlinesNone(file);
    assert DropNewlines(delim) == [] by {
      if delim == "\n" {
        assert delim[..0] == [];
      }
    }
    assert DropNewlines(rest[1..]) == file;
  }

  /** In text mode the marker is a space, which the scan skips like the
      separator; the first character of the file name is then consumed as the
      marker, so a name not starting with a space loses its first character. */
  lemma TextMarkerLosesFirstChar(digest: string, file: string)
    requires IsDigestLength(|digest|) && AllHex(digest)
    requires |file| > 0 && file[0] != ' ' && '\n' !in file
    ensures Parse(FormatDefault(digest, false, file))
      == Some(Record(AlgOfLength(|digest|), digest, file[1..], false))
  {
    assert FormatDefault(digest, false, file) == digest + "  " + file;
    DefaultLineShape(digest, "  ", file);
    assert forall c :: c in file[1..] ==> c in file;
    DropNewlinesNone(file[1..]);
  }

  /** The fields of a line made of a digest, a run of spaces and the rest:
      the scan consumes the first character of the rest as the marker. */
  lemma DefaultLineShape(digest: string, gap: string, rest: string)
    requires IsDigestLength(|digest|) && AllHex(digest)
    requires forall j :: 0 <= j < |gap| ==> gap[j] == ' '
    requires |gap| > 0 && |rest| > 0 && rest[0] != ' '
    ensures var z := digest + gap + rest;
      && Parse(z) == Some(Record(AlgOfLength(|digest|), digest, DropNewlines(rest[1..]), false))
  {
    var z := digest + gap + rest;
    DefaultLineScan(digest, gap, rest);
    assert z[..|digest|] == digest;
    assert z[|digest| + |gap| + 1..] == rest[1..];
  }

  /** Where the default-style scan finds the end of the digest and the
      marker in such a line. */
  lemma DefaultLineScan(digest: string, gap: string, rest: string)
    requires IsDigestLength(|digest|) && AllHex(digest)
    requires forall j :: 0 <= j < |gap| ==> gap[j] == ' '
    requires |gap| > 0 && |rest| > 0 && rest[0] != ' '
    ensures var z := digest + gap + rest;
      && |z| >= 32 && IsHex(z[0]) && !IsTagStyle(z)
      && DigestEnd(z) == |digest| && MarkerIndex(z) == |digest| + |gap| < |z|
  {
    var z := digest + gap + rest;
    var n := |digest|;
    var m := n + |gap|;
    assert IsHex(z[0]);
    assert !IsTagStyle(z);
    HexEndAt(z, 0, n);
    SpaceEndAt(z, n, m);
  }

  // The tag-style digest loop as the source writes it

  /** Position and number of stored digits in the tag-style digest loop. */
  datatype TagLoop = TagLoop(i: nat, k: nat)

  /** One iteration of that loop as written: the index moves only past '='
      and ' '; a hex digit is stored without moving on, and any other
      character leaves everything as it is. */
  function TagDigestStepAsWritten(z: string, s: TagLoop): (t: TagLoop)
    requires s.i < |z|
    ensures z[s.i] != '=' && z[s.i] != ' ' ==> t.i == s.i
  {
    if z[s.i] == '=' || z[s.i] == ' ' then s.(i := s.i + 1)
    else if z[s.i] != '\n' && IsHex(z[s.i]) then s.(k := s.k + 1)
    else s
  }

  /** The state after `t` iterations; the loop stops at the string's end. */
  function TagDigestRunAsWritten(z: string, s: TagLoop, t: nat): TagLoop
    requires s.i <= |z|
    decreases t
  {
    if t == 0 || s.i == |z| then s
    else
      var s' := TagDigestStepAsWritten(z, s);
      if s'.i <= |z| then TagDigestRunAsWritten(z, s', t - 1) else s'
  }

  /** Once the index reaches a character other than '=' and ' ', it stays
      there for ever; on a hex digit the store index would grow with every
      iteration. */
  lemma {:induction false} TagDigestLoopStuck(z: string, s: TagLoop, t: nat)
    requires s.i < |z| && z[s.i] != '=' && z[s.i] != ' '
    ensures TagDigestRunAsWritten(z, s, t).i == s.i
    ensures TagDigestRunAsWritten(z, s, t).k
      == s.k + (if z[s.i] != '\n' && IsHex(z[s.i]) then t else 0)
    decreases t
  {
    if t > 0 {
      TagDigestLoopStuck(z, TagDigestStepAsWritten(z, s), t - 1);
    }
  }

  /** The loop starts on the ')' that ends the file name, so on every
      tag-style line with both parentheses it never ends. */
  lemma TagDigestLoopNeverEnds(z: string, t: nat)
    requires IsTagStyle(z) && TagOpen(z) < |z| && TagClose(z) < |z|
    ensures TagDigestRunAsWritten(z, TagLoop(TagClose(z), 0), t).i == TagClose(z) < |z|
  {
    TagDigestLoopStuck(z, TagLoop(TagClose(z), 0), t);
  }

  /** A line the tool prints with --tag is such a line. */
  lemma PrintedTagLineHangs(alg: AlgHash, file: string, digest: string)
    requires alg != UnknownAlg && ')' !in file
    ensures var z := FormatTag(AlgName(alg), file, digest);
      IsTagStyle(z) && TagOpen(z) < |z| && TagClose(z) < |z|
  {
    var z := FormatTag(AlgName(alg), file, digest);
    assert z == AlgName(alg) + " (" + file + (") = " + digest);
    TagLineShape(alg, file, ") = " + digest);
  }

  // Helpers about the scanning functions

  lemma {:induction false} HexEndAt(z: string, i: nat, e: nat)
    requires i <= e <= |z| && (e == |z| || !IsHex(z[e]))
    requires forall j :: i <= j < e ==> IsHex(z[j])
    ensures HexEnd(z, i) == e
    decreases e - i
  {
    if i < e {
      HexEndAt(z, i + 1, e);
    }
  }

  lemma {:induction false} SpaceEndAt(z: string, i: nat, e: nat)
    requires i <= e <= |z| && (e == |z| || z[e] != ' ')
    requires forall j :: i <= j < e ==> z[j] == ' '
    ensures SpaceEnd(z, i) == e
    decreases e - i
  {
    if i < e {
      SpaceEndAt(z, i + 1, e);
    }
  }

  lemma {:induction false} FindAt(z: string, i: nat, c: char, e: nat)
    requires i <= e < |z| && z[e] == c
    requires forall j :: i <= j < e ==> z[j] != c
    ensures Find(z, i, c) == e
    decreases e - i
  {
    if i < e {
      FindAt(z, i + 1, c, e);
    }
  }

  /** The punctuation of a tag line holds no hex digit. */
  lemma KeepHexOfPunctuation()
    ensures KeepHex(")") == [] && KeepHex(") = ") == []
  {
    KeepHexNone(")");
    KeepHexNone(") = ");
  }

  lemma {:induction false} KeepHexAppend(a: string, b: string)
    ensures KeepHex(a + b) == KeepHex(a) + KeepHex(b)
    decreases |b|
  {
    if b == [] {
      assert a + b == a;
    } else {
      var b' := b[..|b| - 1];
      assert (a + b)[..|a + b| - 1] == a + b';
      KeepHexAppend(a, b');
    }
  }

  lemma {:induction false} KeepHexAll(s: string)
    requires AllHex(s)
    ensures KeepHex(s) == s
    decreases |s|
  {
    if s != [] {
      KeepHexAll(s[..|s| - 1]);
    }
  }

  lemma {:induction false} KeepHexNone(s: string)
    requires forall j :: 0 <= j < |s| ==> !IsHex(s[j])
    ensures KeepHex(s) == []
    decreases |s|
  {
    if s != [] {
      KeepHexNone(s[..|s| - 1]);
    }
  }

  lemma {:induction false} DropNewlinesAppend(a: string, b: string)
    ensures DropNewlines(a + b) == DropNewlines(a) + DropNewlines(b)
    decreases |b|
  {
    if b == [] {
      assert a + b == a;
    } else {
      var b' := b[..|b| - 1];
      assert (a + b)[..|a + b| - 1] == a + b';
      DropNewlinesAppend(a, b');
    }
  }

  lemma {:induction false} DropNewlinesNone(s: string)
    requires '\n' !in s
    ensures DropNewlines(s) == s
    decreases |s|
  {
    if s != [] {
      assert forall c :: c in s[..|s| - 1] ==> c in s;
      DropNewlinesNone(s[..|s| - 1]);
    }
  }
}
