/** What ParseLine extracts from one manifest line, stated as functions of
    the line rather than as the character loop the tool runs. A line is the
    string the C buffer holds (no NUL inside). */
module LineSpec {
  import opened Digests

  /** The characters of "0123456789abcdefABCDEF". */
  predicate IsHex(c: char) {
    '0' <= c <= '9' || 'a' <= c <= 'f' || 'A' <= c <= 'F'
  }

  /** The table IsHexDigit searches. */
  const HexAlphabet: string := "0123456789abcdefABCDEF"

  /** Where a hex digit sits in HexAlphabet. */
  function HexIndex(c: char): int {
    if c <= '9' then c as int - '0' as int
    else if c <= 'F' then c as int - 'A' as int + 16
    else c as int - 'a' as int + 10
  }

  /** The hex digits are exactly the characters of HexAlphabet. */
  lemma HexAlphabetIndex(c: char)
    ensures IsHex(c) ==> 0 <= HexIndex(c) < |HexAlphabet| && HexAlphabet[HexIndex(c)] == c
  {
  }

  /** One parsed checksum line: algorithm, expected digest, file name, mode. */
  datatype Record = Record(alg: AlgHash, digest: string, name: string, isBinary: bool)

  predicate StartsWith(z: string, p: string) {
    |p| <= |z| && z[..|p|] == p
  }

  /** Tag (BSD) style is chosen by a leading "MD5" or "SHA". */
  predicate IsTagStyle(z: string) {
    StartsWith(z, "MD5") || StartsWith(z, "SHA")
  }

  /** Algorithm named by the tag-style prefix. */
  function TagAlg(z: string): AlgHash {
    if StartsWith(z, "MD5") then MD5
    else if StartsWith(z, "SHA1") then SHA1
    else if StartsWith(z, "SHA256") then SHA256
    else if StartsWith(z, "SHA384") then SHA384
    else if StartsWith(z, "SHA512") then SHA512
    else UnknownAlg
  }

  /** Index where the tag-style scan for '(' starts. */
  function TagStart(z: string): nat {
    if StartsWith(z, "MD5") then 3
    else if StartsWith(z, "SHA1") then 5
    else if StartsWith(z, "SHA256") || StartsWith(z, "SHA384") || StartsWith(z, "SHA512") then 6
    else 0
  }

  /** First index at or after `i` holding `c`, or |z| when there is none. */
  function Find(z: string, i: nat, c: char): (r: nat)
    requires i <= |z|
    ensures i <= r <= |z|
    ensures r < |z| ==> z[r] == c
    ensures forall j :: i <= j < r ==> z[j] != c
    decreases |z| - i
  {
    if i == |z| || z[i] == c then i else Find(z, i + 1, c)
  }

  /** End of the run of hex digits starting at `i`. */
  function HexEnd(z: string, i: nat): (r: nat)
    requires i <= |z|
    ensures i <= r <= |z|
    ensures r < |z| ==> !IsHex(z[r])
    ensures forall j :: i <= j < r ==> IsHex(z[j])
    decreases |z| - i
  {
    if i == |z| || !IsHex(z[i]) then i else HexEnd(z, i + 1)
  }

  /** End of the run of spaces starting at `i`. */
  function SpaceEnd(z: string, i: nat): (r: nat)
    requires i <= |z|
    ensures i <= r <= |z|
    ensures r < |z| ==> z[r] != ' '
    ensures forall j :: i <= j < r ==> z[j] == ' '
    decreases |z| - i
  {
    if i == |z| || z[i] != ' ' then i else SpaceEnd(z, i + 1)
  }

  /** The hex digits of `s`, in order. */
  function KeepHex(s: string): (r: string)
    ensures |r| <= |s|
  {
    if s == [] then []
    else KeepHex(s[..|s| - 1]) + (if IsHex(s[|s| - 1]) then [s[|s| - 1]] else [])
  }

  lemma {:induction false} KeepHexOnlyHex(s: string)
    ensures forall c :: c in KeepHex(s) ==> IsHex(c)
  {
    if s != [] {
      KeepHexOnlyHex(s[..|s| - 1]);
    }
  }

  /** `s` without its newline characters. */
  function DropNewlines(s: string): (r: string)
    ensures |r| <= |s|
    ensures '\n' !in r
  {
    if s == [] then []
    else DropNewlines(s[..|s| - 1]) + (if s[|s| - 1] != '\n' then [s[|s| - 1]] else [])
  }

  lemma {:induction false} DropNewlinesSubset(s: string)
    ensures forall c :: c in DropNewlines(s) ==> c in s
  {
    if s != [] {
      DropNewlinesSubset(s[..|s| - 1]);
      assert forall c :: c in s[..|s| - 1] ==> c in s;
    }
  }

  // Tag style: NAME (file) = digest

  function TagOpen(z: string): nat {
    Find(z, if TagStart(z) <= |z| then TagStart(z) else |z|, '(')
  }

  function TagClose(z: string): nat {
    if TagOpen(z) < |z| then Find(z, TagOpen(z) + 1, ')') else |z|
  }

  // Default style: digest, spaces, one marker character, file name

  function DigestEnd(z: string): nat {
    HexEnd(z, 0)
  }

  function MarkerIndex(z: string): nat {
    SpaceEnd(z, HexEnd(z, 0))
  }

  /** The characters the scan collects into cDigest. */
  function RawDigest(z: string): string {
    if IsTagStyle(z) then
      (if TagOpen(z) < |z| then KeepHex(z[TagClose(z)..]) else "")
    else z[..DigestEnd(z)]
  }

  /** The characters the scan collects into cFileName. */
  function RawName(z: string): string {
    if IsTagStyle(z) then
      (if TagOpen(z) < |z| then z[TagOpen(z) + 1..TagClose(z)] else "")
    else if MarkerIndex(z) < |z| then DropNewlines(z[MarkerIndex(z) + 1..])
    else ""
  }

  /** The algorithm the scan settles on before the length check. */
  function RawAlg(z: string): AlgHash {
    if IsTagStyle(z) then TagAlg(z) else AlgOfLength(DigestEnd(z))
  }

  /** The line does not overrun the 129-character digest buffer or the
      512-character name buffer (each keeps room for its terminating NUL).
      Lines rejected before the scan need no bound. */
  predicate FitsBuffers(z: string) {
    || |z| < 32
    || (!IsTagStyle(z) && !IsHex(z[0]))
    || (|RawDigest(z)| <= 128 && |RawName(z)| <= 511)
  }

  /** ParseLine's result: None for a rejected line. */
  function Parse(z: string): Option<Record> {
    if |z| < 32 then None
    else if !IsTagStyle(z) && !IsHex(z[0]) then None
    else if LengthMismatch(RawAlg(z), |RawDigest(z)|) then None
    else Some(Record(RawAlg(z), RawDigest(z), RawName(z), false))
  }

  /** The flags and collected text of the default-style loop after it has
      looked at the first `i` characters of `z`. */
  datatype ScanState = ScanState(endDigest: bool, startName: bool, digest: string, name: string)

  /** One iteration of the default-style loop on character `c`. */
  function ScanStep(st: ScanState, c: char): ScanState {
    if !st.endDigest && IsHex(c) then st.(digest := st.digest + [c])
    else if !st.startName then st.(endDigest := true, startName := c != ' ')
    else if c != '\n' then st.(endDigest := true, name := st.name + [c])
    else st.(endDigest := true)
  }

  function DefaultScan(z: string, i: nat): ScanState
    requires i <= |z|
  {
    if i == 0 then ScanState(false, false, "", "")
    else ScanStep(DefaultScan(z, i - 1), z[i - 1])
  }

  /** The default-style loop collects the leading hex run as the digest,
      consumes the first non-space character after it, and collects the rest
      (without newlines) as the name. */
  lemma DefaultScanMeaning(z: string, i: nat)
    requires i <= |z|
    ensures var st := DefaultScan(z, i);
      var n := HexEnd(z, 0);
      var m := SpaceEnd(z, n);
      && (st.endDigest <==> i > n)
      && st.digest == z[..if i < n then i else n]
      && (st.startName <==> i > m)
      && st.name == (if i > m then DropNewlines(z[m + 1..i]) else "")
  {
    DefaultScanFlags(z, i);
    DefaultScanDigest(z, i);
    DefaultScanName(z, i);
  }

  /** The digest ends at the first non-hex character; the name starts after
      the first non-space character that follows. */
  lemma {:induction false} DefaultScanFlags(z: string, i: nat)
    requires i <= |z|
    ensures DefaultScan(z, i).endDigest <==> i > HexEnd(z, 0)
    ensures DefaultScan(z, i).startName <==> i > SpaceEnd(z, HexEnd(z, 0))
  {
    var n := HexEnd(z, 0);
    if i > 0 {
      var p := i - 1;
      DefaultScanFlags(z, p);
      if p < n {
        HexEndFrom(z, 0, p);
      } else if p <= SpaceEnd(z, n) {
        SpaceEndFrom(z, n, p);
      }
    }
  }

  lemma {:induction false} DefaultScanDigest(z: string, i: nat)
    requires i <= |z|
    ensures DefaultScan(z, i).digest == z[..if i < HexEnd(z, 0) then i else HexEnd(z, 0)]
  {
    var n := HexEnd(z, 0);
    if i > 0 {
      var p := i - 1;
      DefaultScanFlags(z, p);
      DefaultScanDigest(z, p);
      if p < n {
        assert z[..i] == z[..p] + [z[p]];
      }
    }
  }

  lemma {:induction false} DefaultScanName(z: string, i: nat)
    requires i <= |z|
    ensures var m := SpaceEnd(z, HexEnd(z, 0));
      DefaultScan(z, i).name == (if i > m then DropNewlines(z[m + 1..i]) else "")
  {
    var m := SpaceEnd(z, HexEnd(z, 0));
    if i > 0 {
      var p := i - 1;
      DefaultScanFlags(z, p);
      DefaultScanName(z, p);
      if p == m {
        assert z[m + 1..i] == [];
      } else if p > m {
        DropNewlinesStep(z, m + 1, p);
      }
    }
  }

  /** While the line fits the buffers, so does every intermediate state. */
  lemma DefaultScanFits(z: string, i: nat)
    requires i <= |z| && HexEnd(z, 0) <= 128
    requires SpaceEnd(z, HexEnd(z, 0)) < |z| ==> |DropNewlines(z[SpaceEnd(z, HexEnd(z, 0)) + 1..])| <= 511
    ensures |DefaultScan(z, i).digest| <= 128 && |DefaultScan(z, i).name| <= 511
  {
    DefaultScanMeaning(z, i);
    var m := SpaceEnd(z, HexEnd(z, 0));
    if i > m {
      DropNewlinesMono(z, m + 1, i, |z|);
      assert z[m + 1..|z|] == z[m + 1..];
    }
  }

  /** Inside a hex run, the run seen from a later start ends at the same place. */
  lemma {:induction false} HexEndFrom(z: string, a: nat, i: nat)
    requires a <= |z| && a <= i <= HexEnd(z, a)
    ensures HexEnd(z, i) == HexEnd(z, a)
    decreases i - a
  {
    if a < i {
      HexEndFrom(z, a + 1, i);
    }
  }

  lemma {:induction false} SpaceEndFrom(z: string, a: nat, i: nat)
    requires a <= |z| && a <= i <= SpaceEnd(z, a)
    ensures SpaceEnd(z, i) == SpaceEnd(z, a)
    decreases i - a
  {
    if a < i {
      SpaceEndFrom(z, a + 1, i);
    }
  }

  // Facts the scanner's loop invariants rely on

  /** Neither collected field can hold a NUL when the line holds none. */
  lemma RawFieldsHaveNoNul(z: string)
    requires '\0' !in z
    ensures '\0' !in RawDigest(z) && '\0' !in RawName(z)
  {
    if IsTagStyle(z) && TagOpen(z) < |z| {
      KeepHexOnlyHex(z[TagClose(z)..]);
    }
    if !IsTagStyle(z) && MarkerIndex(z) < |z| {
      var tail := z[MarkerIndex(z) + 1..];
      DropNewlinesSubset(tail);
      assert forall c :: c in tail ==> c in z;
    }
  }

  lemma {:induction false} KeepHexMono(z: string, a: nat, i: nat, j: nat)
    requires a <= i <= j <= |z|
    ensures |KeepHex(z[a..i])| <= |KeepHex(z[a..j])|
    decreases j - i
  {
    if i < j {
      KeepHexMono(z, a, i, j - 1);
      KeepHexStep(z, a, j - 1);
    }
  }

  lemma {:induction false} DropNewlinesMono(z: string, a: nat, i: nat, j: nat)
    requires a <= i <= j <= |z|
    ensures |DropNewlines(z[a..i])| <= |DropNewlines(z[a..j])|
    decreases j - i
  {
    if i < j {
      DropNewlinesMono(z, a, i, j - 1);
      DropNewlinesStep(z, a, j - 1);
    }
  }

  /** Growing a slice by one character grows KeepHex by that character if
      it is a hex digit. */
  lemma KeepHexStep(z: string, a: nat, i: nat)
    requires a <= i < |z|
    ensures KeepHex(z[a..i + 1]) == KeepHex(z[a..i]) + (if IsHex(z[i]) then [z[i]] else [])
  {
    assert z[a..i + 1][..i - a] == z[a..i];
  }

  lemma DropNewlinesStep(z: string, a: nat, i: nat)
    requires a <= i < |z|
    ensures DropNewlines(z[a..i + 1]) == DropNewlines(z[a..i]) + (if z[i] != '\n' then [z[i]] else [])
  {
    assert z[a..i + 1][..i - a] == z[a..i];
  }
}
