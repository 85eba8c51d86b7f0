/** Definitions shared by every part of the digest tools: the algorithm
    enumeration, digest lengths and names, and the conversion of a
    NUL-terminated character buffer into a string. */
module Digests {

  datatype Option<+T> = None | Some(value: T)

  /** The AlgHash enumeration: the five CryptoAPI algorithms and UNKNOWN_ALG. */
  datatype AlgHash = MD5 | SHA1 | SHA256 | SHA384 | SHA512 | UnknownAlg

  /** Number of hex characters in a digest of `alg`; UnknownAlg has none. */
  function DigestLength(alg: AlgHash): nat {
    match alg
    case MD5 => 32
    case SHA1 => 40
    case SHA256 => 64
    case SHA384 => 96
    case SHA512 => 128
    case UnknownAlg => 0
  }

  /** The name printed for `alg` (`_digest_alg_name`, also the tag-style prefix). */
  function AlgName(alg: AlgHash): string {
    match alg
    case MD5 => "MD5"
    case SHA1 => "SHA1"
    case SHA256 => "SHA256"
    case SHA384 => "SHA384"
    case SHA512 => "SHA512"
    case UnknownAlg => ""
  }

  /** The algorithm a default-style digest of `n` hex characters denotes:
      the one algorithm whose digests have that length, or UnknownAlg. */
  function AlgOfLength(n: nat): (alg: AlgHash)
    ensures alg != UnknownAlg ==> DigestLength(alg) == n
    ensures forall a: AlgHash :: a != UnknownAlg && DigestLength(a) == n ==> alg == a
  {
    match n
    case 32 => MD5
    case 40 => SHA1
    case 64 => SHA256
    case 96 => SHA384
    case 128 => SHA512
    case _ => UnknownAlg
  }

  /** The final validity test of ParseLine: true when a digest of `n`
      characters cannot belong to `alg`. */
  function LengthMismatch(alg: AlgHash, n: nat): (bad: bool)
    ensures bad <==> alg == UnknownAlg || n != DigestLength(alg)
  {
    || (alg == MD5 && n != 32)
    || (alg == SHA1 && n != 40)
    || (alg == SHA256 && n != 64)
    || (alg == SHA384 && n != 96)
    || (alg == SHA512 && n != 128)
    || alg == UnknownAlg
  }

  /** The string a C character buffer denotes: everything before the first
      NUL, or the whole buffer when it holds none. */
  function CString(s: seq<char>): (r: string)
    ensures |r| <= |s| && r == s[..|r|]
    ensures '\0' !in r
    ensures |r| < |s| ==> s[|r|] == '\0'
  {
    if s == [] || s[0] == '\0' then [] else [s[0]] + CString(s[1..])
  }

  /** `a` is a zero-filled buffer into which `s` has been written from index 0. */
  ghost predicate HoldsPadded(a: seq<char>, s: string) {
    |s| <= |a| && a[..|s|] == s && forall j :: |s| <= j < |a| ==> a[j] == '\0'
  }

  /** Writing one more character after the written part keeps the buffer padded. */
  lemma HoldsPaddedWrite(a: seq<char>, s: string, c: char)
    requires HoldsPadded(a, s) && |s| < |a|
    ensures HoldsPadded(a[|s| := c], s + [c])
  {
    assert a[|s| := c][..|s| + 1] == s + [c];
  }

  /** Writing two more characters after the written part keeps the buffer
      padded. */
  lemma HoldsPaddedPair(a: seq<char>, s: string, c: char, d: char)
    requires HoldsPadded(a, s) && |s| + 1 < |a|
    ensures HoldsPadded(a[|s| := c][|s| + 1 := d], s + [c, d])
  {
    HoldsPaddedWrite(a, s, c);
    HoldsPaddedWrite(a[|s| := c], s + [c], d);
    assert s + [c] + [d] == s + [c, d];
  }

  /** Reading a padded buffer back as a C string yields what was written. */
  lemma CStringOfPadded(a: seq<char>, s: string)
    requires HoldsPadded(a, s) && '\0' !in s
    ensures CString(a) == s
    decreases |s|
  {
    if s != [] {
      assert s[0] in s;
      assert HoldsPadded(a[1..], s[1..]);
      CStringOfPadded(a[1..], s[1..]);
    }
  }
}
