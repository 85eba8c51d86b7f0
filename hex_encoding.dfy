/** The digest engine (ComputeFileDigest): the cryptographic provider is an
    oracle that yields the hash bytes of a file, or nothing when the file
    cannot be opened; the part modelled is the conversion of those bytes
    into the hex string the tool prints and compares. */
module HexEncoding {
  import opened Digests

  newtype byte = x: int | 0 <= x < 256

  /** pbHash has room for 64 bytes, the size of a SHA-512 hash. */
  type HashValue = h: seq<byte> | |h| <= 64

  /** The provider seen from the tool: file name, algorithm and binary mode
      to the hash bytes, or None when the file cannot be opened. */
  type FileHasher = (string, AlgHash, bool) -> Option<HashValue>

  const HexDigits: string := "0123456789abcdef"

  /** `b & 0xF` for a byte. */
  function LowNibble(b: byte): (k: nat)
    ensures k < 16
  {
    (b % 16) as nat
  }

  /** `b >> 4 & 0xF` for a byte. */
  function HighNibble(b: byte): (k: nat)
    ensures k < 16
  {
    (b / 16) as nat
  }

  /** The tool's hex form of a hash: two characters per byte, the low
      nibble first. */
  function EncodeLowFirst(hash: seq<byte>): (s: string)
    ensures |s| == 2 * |hash|
  {
    if hash == [] then []
    else [HexDigits[LowNibble(hash[0])], HexDigits[HighNibble(hash[0])]] + EncodeLowFirst(hash[1..])
  }

  /** Encoding works byte by byte, so it distributes over concatenation. */
  lemma {:induction false} EncodeLowFirstAppend(a: seq<byte>, b: seq<byte>)
    ensures EncodeLowFirst(a + b) == EncodeLowFirst(a) + EncodeLowFirst(b)
  {
    if a != [] {
      assert (a + b)[1..] == a[1..] + b;
      EncodeLowFirstAppend(a[1..], b);
    } else {
      assert a + b == b;
    }
  }

  /** Position 2i holds the low nibble of byte i and position 2i+1 its high
      nibble; every character is a lower-case hex digit. */
  lemma {:induction false} EncodeLowFirstAt(hash: seq<byte>, i: nat)
    requires i < |hash|
    ensures EncodeLowFirst(hash)[2 * i] == HexDigits[LowNibble(hash[i])]
    ensures EncodeLowFirst(hash)[2 * i + 1] == HexDigits[HighNibble(hash[i])]
  {
    if i > 0 {
      EncodeLowFirstAt(hash[1..], i - 1);
    }
  }

  lemma {:induction false} EncodeLowFirstAlphabet(hash: seq<byte>)
    ensures forall c :: c in EncodeLowFirst(hash) ==> c in HexDigits
  {
    if hash != [] {
      EncodeLowFirstAlphabet(hash[1..]);
    }
  }

  /** The value of a lower-case hex digit. */
  function HexValue(c: char): Option<nat> {
    if '0' <= c <= '9' then Some(c as nat - '0' as nat)
    else if 'a' <= c <= 'f' then Some(c as nat - 'a' as nat + 10)
    else None
  }

  lemma HexValueOfDigit(k: nat)
    requires k < 16
    ensures HexValue(HexDigits[k]) == Some(k)
  {
  }

  /** Inverse of EncodeLowFirst: pairs of lower-case hex digits, low nibble
      first. */
  function DecodeLowFirst(s: string): Option<seq<byte>> {
    if s == [] then Some([])
    else if |s| == 1 then None
    else match (HexValue(s[0]), HexValue(s[1]), DecodeLowFirst(s[2..]))
      case (Some(lo), Some(hi), Some(rest)) =>
        if lo < 16 && hi < 16 then Some([(hi * 16 + lo) as byte] + rest) else None
      case _ => None
  }

  /** The printed digest determines the hash bytes. */
  lemma {:induction false} DecodeEncodeLowFirst(hash: seq<byte>)
    ensures DecodeLowFirst(EncodeLowFirst(hash)) == Some(hash)
  {
    if hash != [] {
      var b := hash[0];
      var s := EncodeLowFirst(hash);
      HexValueOfDigit(LowNibble(b));
      HexValueOfDigit(HighNibble(b));
      assert s[2..] == EncodeLowFirst(hash[1..]);
      DecodeEncodeLowFirst(hash[1..]);
      assert (HighNibble(b) * 16 + LowNibble(b)) as byte == b;
      assert [b] + hash[1..] == hash;
    }
  }

  /** The usual hex form of a hash (as printed by GNU md5sum and sha*sum):
      the high nibble first. */
  function EncodeHighFirst(hash: seq<byte>): (s: string)
    ensures |s| == 2 * |hash|
  {
    if hash == [] then []
    else [HexDigits[HighNibble(hash[0])], HexDigits[LowNibble(hash[0])]] + EncodeHighFirst(hash[1..])
  }

  /** Exchange the two characters of every pair. */
  function SwapPairs(s: string): (r: string)
    requires |s| % 2 == 0
    ensures |r| == |s|
    ensures forall i :: 0 <= i < |s| / 2 ==> r[2 * i] == s[2 * i + 1] && r[2 * i + 1] == s[2 * i]
  {
    if s == [] then []
    else
      var r := [s[1], s[0]] + SwapPairs(s[2..]);
      assert forall i :: 1 <= i < |s| / 2 ==> r[2 * i] == s[2 * i + 1] && r[2 * i + 1] == s[2 * i] by {
        forall i | 1 <= i < |s| / 2
          ensures r[2 * i] == s[2 * i + 1] && r[2 * i + 1] == s[2 * i]
        {
          assert r[2 * i] == SwapPairs(s[2..])[2 * (i - 1)];
          assert r[2 * i + 1] == SwapPairs(s[2..])[2 * (i - 1) + 1];
        }
      }
      r
  }

  /** The tool's digests are the usual ones with each pair of characters
      exchanged, so they agree only on bytes whose two nibbles are equal. */
  lemma {:induction false} LowFirstIsSwappedHighFirst(hash: seq<byte>)
    ensures EncodeLowFirst(hash) == SwapPairs(EncodeHighFirst(hash))
  {
    if hash != [] {
      LowFirstIsSwappedHighFirst(hash[1..]);
      var h := EncodeHighFirst(hash);
      assert h[2..] == EncodeHighFirst(hash[1..]);
    }
  }

  /** The empty file's MD5 hash begins with the byte 0xd4, which the tool
      prints as "4d" where md5sum prints "d4". */
  lemma ByteOrderExample()
    ensures EncodeLowFirst([0xd4]) == "4d" && EncodeHighFirst([0xd4]) == "d4"
  {
    assert LowNibble(0xd4) == 4 && HighNibble(0xd4) == 13;
  }

  /** ComputeFileDigest: ask the provider for the hash, then write its hex
      form into the zero-filled 129-character buffer cHashStr and read that
      buffer back as a C string. */
  method ComputeFileDigest(file: string, alg: AlgHash, isBinaryMode: bool, hasher: FileHasher)
    returns (ok: bool, digest: string)
    ensures ok <==> hasher(file, alg, isBinaryMode).Some?
    ensures ok ==> digest == EncodeLowFirst(hasher(file, alg, isBinaryMode).value)
    ensures !ok ==> digest == ""
  {
    var provided := hasher(file, alg, isBinaryMode);
    if provided.None? {
      return false, "";
    }
    var pbHash := provided.value;
    var cHashStr := new char[129](_ => '\0');
    var i := 0;
    while i < |pbHash|
      invariant 0 <= i <= |pbHash|
      invariant HoldsPadded(cHashStr[..], EncodeLowFirst(pbHash[..i]))
    {
      ghost var done := EncodeLowFirst(pbHash[..i]);
      EncodeLowFirstAppend(pbHash[..i], [pbHash[i]]);
      assert pbHash[..i + 1] == pbHash[..i] + [pbHash[i]];
      var k := LowNibble(pbHash[i]);
      var low := HexDigits[k];
      k := HighNibble(pbHash[i]);
      var high := HexDigits[k];
      ghost var before := cHashStr[..];
      cHashStr[2 * i] := low;
      cHashStr[2 * i + 1] := high;
      assert cHashStr[..] == before[2 * i := low][2 * i + 1 := high];
      HoldsPaddedPair(before, done, low, high);
      assert EncodeLowFirst(pbHash[..i + 1]) == done + [low, high];
      i := i + 1;
    }
    assert pbHash[..i] == pbHash;
    EncodeLowFirstAlphabet(pbHash);
    CStringOfPadded(cHashStr[..], EncodeLowFirst(pbHash));
    ok, digest := true, CString(cHashStr[..]);
  }
}
