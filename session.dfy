/** DigestCheck (--check): every line of a checksum file is classified, four
    counters and two flags record what happened, and the verdict is read off
    them. The manifest is the sequence of lines the reads return (None when
    it cannot be opened); the file contents behind each listed name come from
    the FileHasher oracle. */
module Session {
  import opened Digests
  import opened LineSpec
  import opened HexEncoding
  import opened LineScanner

  /** What one manifest line amounts to. */
  datatype Outcome = Comment | Malformed | Unreadable | Mismatched | Matched

  /** The line is a comment when its first character is '#'; otherwise it is
      parsed, a line that fails to parse or names another algorithm than the
      selected one is malformed, and a well-formed line is checked against
      the hash of the file it names. Comparison is exact. */
  function Classify(line: string, alg: AlgHash, hasher: FileHasher): Outcome {
    if |line| > 0 && line[0] == '#' then Comment
    else match Parse(CString(line))
      case None => Malformed
      case Some(rec) =>
        if rec.alg != alg then Malformed
        else match hasher(rec.name, alg, rec.isBinary)
          case None => Unreadable
          case Some(h) => if EncodeLowFirst(h) != rec.digest then Mismatched else Matched
  }

  /** The counters and flags of DigestCheck. */
  datatype Tally = Tally(
    misformatted: nat,
    improperlyFormatted: nat,
    mismatched: nat,
    openOrReadFailures: nat,
    properlyFormatted: bool,
    matched: bool)

  const Fresh := Tally(0, 0, 0, 0, false, false)

  /** `u` has come from `t` by counting: no counter went down, no flag was
      cleared. */
  predicate Below(t: Tally, u: Tally) {
    && t.misformatted <= u.misformatted
    && t.improperlyFormatted <= u.improperlyFormatted
    && t.mismatched <= u.mismatched
    && t.openOrReadFailures <= u.openOrReadFailures
    && (t.properlyFormatted ==> u.properlyFormatted)
    && (t.matched ==> u.matched)
  }

  /** The effect of one line on the tally. A comment changes nothing; a
      malformed line bumps both malformed counters; any other line sets the
      well-formed flag and records exactly one of its three results: an
      unreadable file, a mismatch, or a match. */
  function Count(t: Tally, o: Outcome): (u: Tally)
    ensures Below(t, u)
    ensures o == Comment ==> u == t
    ensures u.misformatted == t.misformatted + (if o == Malformed then 1 else 0)
    ensures u.improperlyFormatted == t.improperlyFormatted + (if o == Malformed then 1 else 0)
    ensures u.openOrReadFailures == t.openOrReadFailures + (if o == Unreadable then 1 else 0)
    ensures u.mismatched == t.mismatched + (if o == Mismatched then 1 else 0)
    ensures u.matched == (t.matched || o == Matched)
    ensures u.properlyFormatted == (t.properlyFormatted || o in {Unreadable, Mismatched, Matched})
  {
    match o
    case Comment => t
    case Malformed => t.(misformatted := t.misformatted + 1, improperlyFormatted := t.improperlyFormatted + 1)
    case Unreadable => t.(properlyFormatted := true, openOrReadFailures := t.openOrReadFailures + 1)
    case Mismatched => t.(properlyFormatted := true, mismatched := t.mismatched + 1)
    case Matched => t.(properlyFormatted := true, matched := true)
  }

  /** The outcome of every line, in order. */
  function Outcomes(lines: seq<string>, alg: AlgHash, hasher: FileHasher): (os: seq<Outcome>)
    ensures |os| == |lines|
  {
    if lines == [] then []
    else Outcomes(lines[..|lines| - 1], alg, hasher) + [Classify(lines[|lines| - 1], alg, hasher)]
  }

  /** The tally after the lines have been read in order. */
  function Run(lines: seq<string>, alg: AlgHash, hasher: FileHasher): Tally {
    if lines == [] then Fresh
    else Count(Run(lines[..|lines| - 1], alg, hasher), Classify(lines[|lines| - 1], alg, hasher))
  }

  /** DigestCheck's return value. */
  predicate Verdict(t: Tally, strict: bool) {
    && t.properlyFormatted
    && t.matched
    && t.mismatched == 0
    && t.openOrReadFailures == 0
    && (!strict || t.improperlyFormatted == 0)
  }

  /** Reading one more line counts its outcome. */
  lemma RunStep(lines: seq<string>, i: nat, alg: AlgHash, hasher: FileHasher)
    requires i < |lines|
    ensures Run(lines[..i + 1], alg, hasher) == Count(Run(lines[..i], alg, hasher), Classify(lines[i], alg, hasher))
  {
    assert lines[..i + 1][..i] == lines[..i];
  }

  /** Reading more lines never lowers a counter or clears a flag. */
  lemma {:induction false} RunMonotone(lines: seq<string>, i: nat, alg: AlgHash, hasher: FileHasher)
    requires i <= |lines|
    ensures Below(Run(lines[..i], alg, hasher), Run(lines, alg, hasher))
    decreases |lines| - i
  {
    if i < |lines| {
      var prev := lines[..|lines| - 1];
      assert lines[..i] == prev[..i];
      RunMonotone(prev, i, alg, hasher);
    } else {
      assert lines[..i] == lines;
    }
  }

  /** The two malformed-line counters are always equal. */
  lemma {:induction false} MalformedCountersAgree(lines: seq<string>, alg: AlgHash, hasher: FileHasher)
    ensures Run(lines, alg, hasher).misformatted == Run(lines, alg, hasher).improperlyFormatted
  {
    if lines != [] {
      MalformedCountersAgree(lines[..|lines| - 1], alg, hasher);
    }
  }

  /** Each counter counts the lines with its outcome; the flags say whether
      some line was well formed, and whether some line matched. */
  lemma {:induction false} RunCounts(lines: seq<string>, alg: AlgHash, hasher: FileHasher)
    ensures var t := Run(lines, alg, hasher);
      var m := multiset(Outcomes(lines, alg, hasher));
      && t.misformatted == m[Malformed]
      && t.improperlyFormatted == m[Malformed]
      && t.mismatched == m[Mismatched]
      && t.openOrReadFailures == m[Unreadable]
      && (t.matched <==> m[Matched] > 0)
      && (t.properlyFormatted <==> m[Unreadable] + m[Mismatched] + m[Matched] > 0)
  {
    if lines != [] {
      var prev := lines[..|lines| - 1];
      RunCounts(prev, alg, hasher);
      var o := Classify(lines[|lines| - 1], alg, hasher);
      assert multiset(Outcomes(lines, alg, hasher)) == multiset(Outcomes(prev, alg, hasher)) + multiset{o};
    }
  }

  /** The check succeeds exactly when some line matched, no line mismatched,
      every listed file could be read and, under --strict, no line was
      malformed. */
  lemma VerdictMeaning(lines: seq<string>, alg: AlgHash, strict: bool, hasher: FileHasher)
    ensures var m := multiset(Outcomes(lines, alg, hasher));
      Verdict(Run(lines, alg, hasher), strict) <==>
        && m[Matched] > 0
        && m[Mismatched] == 0
        && m[Unreadable] == 0
        && (!strict || m[Malformed] == 0)
  {
    RunCounts(lines, alg, hasher);
  }

  /** A manifest of nothing but comments is a failed check. */
  lemma {:induction false} AllCommentsFails(lines: seq<string>, alg: AlgHash, strict: bool, hasher: FileHasher)
    requires forall j :: 0 <= j < |lines| ==> |lines[j]| > 0 && lines[j][0] == '#'
    ensures Run(lines, alg, hasher) == Fresh
    ensures !Verdict(Run(lines, alg, hasher), strict)
  {
    if lines != [] {
      AllCommentsFails(lines[..|lines| - 1], alg, strict, hasher);
    }
  }

  /** A line that matches carries the computed digest, which is written in
      lower-case hex. */
  lemma MatchedDigestIsLowerHex(line: string, alg: AlgHash, hasher: FileHasher)
    requires Classify(line, alg, hasher) == Matched
    ensures Parse(CString(line)).Some?
    ensures forall c :: c in Parse(CString(line)).value.digest ==> c in HexDigits
  {
    var rec := Parse(CString(line)).value;
    EncodeLowFirstAlphabet(hasher(rec.name, alg, rec.isBinary).value);
  }

  /** Digests are compared exactly and the tool writes them in lower case,
      so a line whose digest holds an upper-case hex letter never matches. */
  lemma UpperCaseDigestNeverMatches(line: string, alg: AlgHash, hasher: FileHasher)
    requires Parse(CString(line)).Some?
    requires var d := Parse(CString(line)).value.digest;
      exists j :: 0 <= j < |d| && 'A' <= d[j] <= 'F'
    ensures Classify(line, alg, hasher) != Matched
  {
    var d := Parse(CString(line)).value.digest;
    var j :| 0 <= j < |d| && 'A' <= d[j] <= 'F';
    assert d[j] in d && d[j] !in HexDigits;
    if Classify(line, alg, hasher) == Matched {
      MatchedDigestIsLowerHex(line, alg, hasher);
    }
  }

  /** The work DigestCheck does on one line that is not a comment: parse it,
      and for a well-formed line compute the digest of the named file and
      compare it with the expected one. */
  method CheckLine(cLine: string, alg: AlgHash, hasher: FileHasher) returns (outcome: Outcome)
    requires FitsBuffers(CString(cLine)) && !(|cLine| > 0 && cLine[0] == '#')
    ensures outcome == Classify(cLine, alg, hasher)
  {
    var parsed := ParseLine(cLine);
    if parsed.None? || parsed.value.alg != alg {
      return Malformed;
    }
    var rec := parsed.value;
    var read, digestComputed := ComputeFileDigest(rec.name, alg, rec.isBinary, hasher);
    if !read {
      outcome := Unreadable;
    } else if digestComputed != rec.digest {
      outcome := Mismatched;
    } else {
      outcome := Matched;
    }
  }

  /** DigestCheck: None stands for a checksum file that cannot be opened,
      which fails at once. Otherwise each line is classified and counted as
      above; the tally is returned beside the verdict for the messages the
      tool prints from it. */
  method DigestCheck(manifest: Option<seq<string>>, alg: AlgHash, strict: bool, hasher: FileHasher)
    returns (ok: bool, tally: Tally)
    requires manifest.Some? ==> forall j :: 0 <= j < |manifest.value| ==> FitsBuffers(CString(manifest.value[j]))
    ensures manifest.None? ==> !ok && tally == Fresh
    ensures manifest.Some? ==> tally == Run(manifest.value, alg, hasher) && (ok <==> Verdict(tally, strict))
  {
    if manifest.None? {
      return false, Fresh;
    }
    var lines := manifest.value;
    var nMisformattedLines: nat, nImproperlyFormattedLines: nat := 0, 0;
    var nMismatchedChecksums: nat, nOpenOrReadFailures: nat := 0, 0;
    var bProperlyFormattedLines, bMatchedChecksums := false, false;
    var i := 0;
    while i < |lines|
      invariant 0 <= i <= |lines|
      invariant Tally(nMisformattedLines, nImproperlyFormattedLines, nMismatchedChecksums,
        nOpenOrReadFailures, bProperlyFormattedLines, bMatchedChecksums) == Run(lines[..i], alg, hasher)
    {
      var cLine := lines[i];
      RunStep(lines, i, alg, hasher);
      i := i + 1;
      if |cLine| > 0 && cLine[0] == '#' {
        continue;
      }
      ghost var before := Tally(nMisformattedLines, nImproperlyFormattedLines, nMismatchedChecksums,
        nOpenOrReadFailures, bProperlyFormattedLines, bMatchedChecksums);
      var outcome := CheckLine(cLine, alg, hasher);
      if outcome == Malformed {
        nMisformattedLines := nMisformattedLines + 1;
        nImproperlyFormattedLines := nImproperlyFormattedLines + 1;
      } else {
        bProperlyFormattedLines := true;
        if outcome == Unreadable {
          nOpenOrReadFailures := nOpenOrReadFailures + 1;
        } else if outcome == Mismatched {
          nMismatchedChecksums := nMismatchedChecksums + 1;
        } else {
          bMatchedChecksums := true;
        }
      }
      assert Tally(nMisformattedLines, nImproperlyFormattedLines, nMismatchedChecksums,
        nOpenOrReadFailures, bProperlyFormattedLines, bMatchedChecksums) == Count(before, outcome);
    }
    assert lines[..i] == lines;
    tally := Tally(nMisformattedLines, nImproperlyFormattedLines, nMismatchedChecksums,
      nOpenOrReadFailures, bProperlyFormattedLines, bMatchedChecksums);
    ok := bProperlyFormattedLines
      && bMatchedChecksums
      && nMismatchedChecksums == 0
      && nOpenOrReadFailures == 0
      && (!strict || nImproperlyFormattedLines == 0);
  }
}
