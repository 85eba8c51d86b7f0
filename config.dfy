/** The global options of the tools (global_options_struct): the defaults,
    the algorithm chosen from the program's own file name (InitMain), the
    effect of each command-line option (the switch in main) and the checks
    for options that do not go together (DisposeOptionConflict). */
module Config {
  import opened Digests

  /** The options as main's switch sees them, after tokenising. */
  datatype OptionCode =
    | Binary | Check | Text | Warn | Zero | IgnoreMissing | Quiet | Status | Strict | Tag
    | Help | Version
    | Operand(arg: string)
    | Unrecognised(hasError: bool)

  /** How hashes are printed: binary_flag (how often --binary was given),
      binary or text mode, the BSD tag style and the line delimiter. */
  datatype Output = Output(binaryFlag: nat, binary: bool, bsdTag: bool, delim: string)

  /** The --check switch and the options that only mean something with it. */
  datatype Checking = Checking(doCheck: bool, warn: bool, quiet: bool, statusOnly: bool,
    ignoreMissing: bool, strict: bool)

  /** The state of global_options_struct. */
  datatype Options = Options(output: Output, checking: Checking, id: Identity)

  /** The program name the tool runs under, the algorithm it implements and
      the standard its help text cites. */
  datatype Identity = Identity(programName: string, alg: AlgHash, algName: string, lectureRef: string)

  /** The values the constructor sets. */
  const Defaults := Options(
    Output(0, true, false, "\n"),
    Checking(false, false, false, false, false, false),
    Identity("md5sum", MD5, "MD5", "RFC 1321"))

  // Choosing the algorithm from the program name

  /** The part of a path after its last backslash. */
  function BaseName(path: string): string {
    if path == [] || path[|path| - 1] == '\\' then []
    else BaseName(path[..|path| - 1]) + [path[|path| - 1]]
  }

  /** BaseName is the longest suffix without a backslash. */
  lemma {:induction false} BaseNameMeaning(path: string)
    ensures var r := BaseName(path);
      && |r| <= |path| && r == path[|path| - |r|..]
      && '\\' !in r
      && (|r| < |path| ==> path[|path| - |r| - 1] == '\\')
  {
    if path != [] && path[|path| - 1] != '\\' {
      var init := path[..|path| - 1];
      BaseNameMeaning(init);
      var r := BaseName(init);
      assert init[|init| - |r|..] + [path[|path| - 1]] == path[|path| - |r| - 1..];
    }
  }

  /** `name` without the text from its last '.' on; a '.' in the first
      position is not looked at. */
  function StripExtension(name: string): (r: string)
    ensures r <= name
    ensures |r| < |name| ==> 0 < |r| && name[|r|] == '.'
    ensures forall j :: |r| < j < |name| ==> name[j] != '.'
    ensures |r| == |name| ==> forall j :: 0 < j < |name| ==> name[j] != '.'
  {
    StripFrom(name, |name|)
  }

  /** StripExtension looking only at positions 1 .. end - 1. */
  function StripFrom(name: string, end: nat): (r: string)
    requires end <= |name|
    ensures r <= name && (|r| == |name| || 0 < |r| < end)
    ensures |r| < |name| ==> name[|r|] == '.'
    ensures forall j :: |r| < j < end ==> name[j] != '.'
    ensures |r| == |name| ==> forall j :: 0 < j < end ==> name[j] != '.'
    decreases end
  {
    if end <= 1 then name
    else if name[end - 1] == '.' then name[..end - 1]
    else StripFrom(name, end - 1)
  }

  function LowerChar(c: char): char {
    if 'A' <= c <= 'Z' then (c as int - 'A' as int + 'a' as int) as char else c
  }

  /** ASCII lower case. */
  function ToLower(s: string): (r: string)
    ensures |r| == |s| && forall j :: 0 <= j < |s| ==> r[j] == LowerChar(s[j])
  {
    if s == [] then [] else [LowerChar(s[0])] + ToLower(s[1..])
  }

  /** The five names InitMain recognises, anything else being md5sum. */
  function IdentityOf(name: string): (id: Identity)
    ensures id.alg != UnknownAlg && id.algName == AlgName(id.alg)
    ensures id.programName == ProgramName(id.alg) && id.lectureRef == LectureRef(id.alg)
    ensures name in {"md5sum", "sha1sum", "sha256sum", "sha384sum", "sha512sum"} ==> id.programName == name
    ensures name == ProgramName(id.alg) || id.alg == MD5
  {
    if name == "md5sum" then Identity("md5sum", MD5, "MD5", "RFC 1321")
    else if name == "sha1sum" then Identity("sha1sum", SHA1, "SHA1", "FIPS-180-1")
    else if name == "sha256sum" then Identity("sha256sum", SHA256, "SHA256", "FIPS-180-2")
    else if name == "sha384sum" then Identity("sha384sum", SHA384, "SHA384", "FIPS-180-2")
    else if name == "sha512sum" then Identity("sha512sum", SHA512, "SHA512", "FIPS-180-2")
    else Identity("md5sum", MD5, "MD5", "RFC 1321")
  }

  /** The executable name of each tool (md5sum for an unknown algorithm). */
  function ProgramName(alg: AlgHash): string {
    match alg
    case MD5 => "md5sum"
    case SHA1 => "sha1sum"
    case SHA256 => "sha256sum"
    case SHA384 => "sha384sum"
    case SHA512 => "sha512sum"
    case UnknownAlg => "md5sum"
  }

  /** The standard each tool's help text cites. */
  function LectureRef(alg: AlgHash): string {
    match alg
    case MD5 => "RFC 1321"
    case SHA1 => "FIPS-180-1"
    case SHA256 => "FIPS-180-2"
    case SHA384 => "FIPS-180-2"
    case SHA512 => "FIPS-180-2"
    case UnknownAlg => "RFC 1321"
  }

  /** What InitMain makes of argv[0]. */
  function Identify(argv0: string): Identity {
    IdentityOf(ToLower(StripExtension(BaseName(argv0))))
  }

  /** Each tool's own name selects it. */
  lemma IdentityOfOwnName(alg: AlgHash)
    requires alg != UnknownAlg
    ensures IdentityOf(ProgramName(alg)).alg == alg
  {
  }

  /** A directory part of argv[0]: empty, or ending in a backslash. */
  predicate IsDirectory(dir: string) {
    dir == [] || dir[|dir| - 1] == '\\'
  }

  /** An extension part of argv[0]: empty, or a '.' followed by characters
      other than '.' and '\\'. */
  predicate IsExtension(ext: string) {
    ext == [] || (ext[0] == '.' && '.' !in ext[1..] && '\\' !in ext[1..])
  }

  /** Every tool recognises itself under its own name, whatever the
      directory (or none), the extension (or none) and the case of the
      letters. */
  lemma IdentifyOwnName(alg: AlgHash, dir: string, stem: string, ext: string)
    requires alg != UnknownAlg && ToLower(stem) == ProgramName(alg)
    requires IsDirectory(dir) && IsExtension(ext)
    ensures Identify(dir + stem + ext).alg == alg
    ensures Identify(dir + stem + ext).programName == ProgramName(alg)
  {
    CharKept(stem, '\\');
    CharKept(stem, '.');
    assert '\\' !in ProgramName(alg) && '.' !in ProgramName(alg);
    StemOfPath(dir, stem, ext);
    IdentityOfOwnName(alg);
  }

  /** The directory and the extension are cut off. */
  lemma StemOfPath(dir: string, stem: string, ext: string)
    requires |stem| > 0 && '\\' !in stem && '.' !in stem
    requires IsDirectory(dir) && IsExtension(ext)
    ensures StripExtension(BaseName(dir + stem + ext)) == stem
  {
    var file := stem + ext;
    assert dir + stem + ext == dir + file;
    if ext == [] {
      assert file == stem;
      BaseNameOfPlain(dir, file);
      StemWithoutDot(stem);
    } else {
      var rest := ext[1..];
      assert ext == "." + rest;
      assert file == stem + "." + rest;
      NoCharInAppend(stem + ".", rest, '\\');
      BaseNameOfPlain(dir, file);
      StemOfFile(stem, rest);
    }
  }

  /** A name without a '.' keeps all of itself. */
  lemma StemWithoutDot(stem: string)
    requires '.' !in stem
    ensures StripExtension(stem) == stem
  {
  }

  lemma StemOfFile(stem: string, ext: string)
    requires |stem| > 0 && '.' !in ext
    ensures StripExtension(stem + "." + ext) == stem
  {
    var file := stem + "." + ext;
    forall j | |stem| < j < |file|
      ensures file[j] != '.'
    {
      assert file[j] == ext[j - |stem| - 1];
    }
    StripAtLastDot(file, |stem|);
    assert file[..|stem|] == stem;
  }

  /** Lower-casing keeps every character that is not an upper-case
      letter. */
  lemma CharKept(s: string, c: char)
    requires !('A' <= c <= 'Z')
    ensures c in s ==> c in ToLower(s)
  {
    if c in s {
      var j :| 0 <= j < |s| && s[j] == c;
      assert ToLower(s)[j] == c;
    }
  }

  lemma NoCharInAppend(a: string, b: string, c: char)
    requires c !in a && c !in b
    ensures c !in a + b
  {
    assert forall j :: 0 <= j < |a + b| ==> (a + b)[j] == if j < |a| then a[j] else b[j - |a|];
  }

  lemma {:induction false} BaseNameOfPlain(dir: string, file: string)
    requires IsDirectory(dir) && '\\' !in file
    ensures BaseName(dir + file) == file
    decreases |file|
  {
    if file == [] {
      assert dir + file == dir;
    } else {
      var f := file[..|file| - 1];
      assert (dir + file)[..|dir + file| - 1] == dir + f;
      assert forall c :: c in f ==> c in file;
      BaseNameOfPlain(dir, f);
    }
  }

  /** The extension starts at the last '.'. */
  lemma StripAtLastDot(name: string, k: nat)
    requires 0 < k < |name| && name[k] == '.'
    requires forall j :: k < j < |name| ==> name[j] != '.'
    ensures StripExtension(name) == name[..k]
  {
    StripFromAt(name, |name|, k);
  }

  lemma {:induction false} StripFromAt(name: string, end: nat, k: nat)
    requires 0 < k < end <= |name| && name[k] == '.'
    requires forall j :: k < j < end ==> name[j] != '.'
    ensures StripFrom(name, end) == name[..k]
    decreases end
  {
    if end - 1 > k {
      StripFromAt(name, end - 1, k);
    }
  }

  /** Lower-casing twice is lower-casing once (InitMain lower-cases the name
      inside and again after the extension test). */
  lemma ToLowerIdempotent(s: string)
    ensures ToLower(ToLower(s)) == ToLower(s)
  {
  }

  /** The first half of InitMain: the part of argv[0] after the last
      backslash, cut at its last '.' (searching down to position 1), in
      lower case. */
  method ProgramNameOf(argv0: string) returns (programName: string)
    ensures programName == ToLower(StripExtension(BaseName(argv0)))
  {
    ghost var stem := StripExtension(BaseName(argv0));
    programName := BaseName(argv0);
    if programName != "" {
      var pos := |programName| - 1;
      ghost var name := programName;
      while pos != 0
        invariant 0 <= pos < |name| && programName == name
        invariant StripFrom(name, pos + 1) == stem
      {
        if programName[pos] == '.' {
          programName := programName[..pos];
          break;
        }
        pos := pos - 1;
      }
      assert programName == stem;
      programName := ToLower(programName);
    }
    ToLowerIdempotent(stem);
    programName := ToLower(programName);
  }

  // The options

  /** Effect of an option that does not end the program. The verbosity
      options clear each other, --tag forces binary mode, and only --binary
      is counted by SetBinaryFlag. */
  function ApplyCode(o: Options, c: OptionCode): Options {
    var out, chk := o.output, o.checking;
    match c
    case Binary => o.(output := out.(binary := true, binaryFlag := out.binaryFlag + 1))
    case Check => o.(checking := chk.(doCheck := true))
    case Text => o.(output := out.(binary := false))
    case Warn => o.(checking := chk.(statusOnly := false, warn := true, quiet := false))
    case Zero => o.(output := out.(delim := ""))
    case IgnoreMissing => o.(checking := chk.(ignoreMissing := true))
    case Quiet => o.(checking := chk.(statusOnly := false, warn := false, quiet := true))
    case Status => o.(checking := chk.(statusOnly := true, warn := false, quiet := false))
    case Strict => o.(checking := chk.(strict := true))
    case Tag => o.(output := out.(bsdTag := true, binary := true))
    case Help => o
    case Version => o
    case Operand(_) => o
    case Unrecognised(_) => o
  }

  /** The exit status an option ends the program with: --help and --version
      print and exit successfully, a token the option parser reports as an
      error exits with failure; an unrecognised token without an error is
      ignored. */
  function ExitOf(c: OptionCode): Option<int> {
    match c
    case Help => Some(0)
    case Version => Some(0)
    case Unrecognised(hasError) => if hasError then Some(1) else None
    case _ => None
  }

  /** Where reading the options leaves the tool. */
  datatype Reading = Reading(opts: Options, operands: seq<string>, exit: Option<int>)

  /** Options read in order from `o`, stopping at the first that exits. */
  function ReadAll(o: Options, codes: seq<OptionCode>): (r: Reading)
    ensures r.exit.Some? <==> exists j :: 0 <= j < |codes| && ExitOf(codes[j]).Some?
    ensures r.exit.Some? ==> r.exit.value in {0, 1}
    decreases |codes|
  {
    if codes == [] then Reading(o, [], None)
    else if ExitOf(codes[0]).Some? then Reading(o, [], ExitOf(codes[0]))
    else
      var rest := ReadAll(ApplyCode(o, codes[0]), codes[1..]);
      assert forall j :: 1 <= j < |codes| ==> codes[j] == codes[1..][j - 1];
      var first := if codes[0].Operand? then [codes[0].arg] else [];
      rest.(operands := first + rest.operands)
  }

  /** The options applied in order, ignoring exits. */
  function ApplyAll(o: Options, codes: seq<OptionCode>): Options
    decreases |codes|
  {
    if codes == [] then o else ApplyAll(ApplyCode(o, codes[0]), codes[1..])
  }

  /** The operands in order. */
  function Operands(codes: seq<OptionCode>): seq<string>
    decreases |codes|
  {
    if codes == [] then []
    else (if codes[0].Operand? then [codes[0].arg] else []) + Operands(codes[1..])
  }

  /** When nothing exits, reading the options applies them all and keeps the
      operands in order. */
  lemma {:induction false} ReadAllApplies(o: Options, codes: seq<OptionCode>)
    requires forall j :: 0 <= j < |codes| ==> ExitOf(codes[j]).None?
    ensures ReadAll(o, codes).opts == ApplyAll(o, codes)
    ensures ReadAll(o, codes).operands == Operands(codes)
    decreases |codes|
  {
    if codes != [] {
      ReadAllApplies(ApplyCode(o, codes[0]), codes[1..]);
    }
  }

  /** Applying one more option at the end. */
  lemma {:induction false} ApplyAllSnoc(o: Options, codes: seq<OptionCode>, c: OptionCode)
    ensures ApplyAll(o, codes + [c]) == ApplyCode(ApplyAll(o, codes), c)
    decreases |codes|
  {
    if codes == [] {
      assert codes + [c] == [c];
    } else {
      assert (codes + [c])[1..] == codes[1..] + [c];
      ApplyAllSnoc(ApplyCode(o, codes[0]), codes[1..], c);
    }
  }

  predicate IsVerbosity(c: OptionCode) {
    c == Warn || c == Quiet || c == Status
  }

  /** The last of --warn, --quiet and --status given, if any. */
  function LastVerbosity(codes: seq<OptionCode>): (r: Option<OptionCode>)
    ensures r.Some? ==> IsVerbosity(r.value) && r.value in codes
  {
    if codes == [] then None
    else if IsVerbosity(codes[|codes| - 1]) then Some(codes[|codes| - 1])
    else LastVerbosity(codes[..|codes| - 1])
  }

  /** The three verbosity flags as the option that sets them. */
  function Verbosity(c: Checking): Option<OptionCode> {
    if c.warn then Some(Warn) else if c.quiet then Some(Quiet) else if c.statusOnly then Some(Status) else None
  }

  /** At most one of the three verbosity flags is set. */
  predicate OneVerbosity(c: Checking) {
    && !(c.warn && c.quiet) && !(c.warn && c.statusOnly) && !(c.quiet && c.statusOnly)
  }

  /** A verbosity option leaves only its own flag set; any other option
      leaves the three flags alone. */
  lemma ApplyCodeVerbosity(o: Options, c: OptionCode)
    requires OneVerbosity(o.checking)
    ensures OneVerbosity(ApplyCode(o, c).checking)
    ensures Verbosity(ApplyCode(o, c).checking) == if IsVerbosity(c) then Some(c) else Verbosity(o.checking)
  {
  }

  /** After any options, from the default checking options (whatever
      InitMain chose as identity), exactly the flag of the last verbosity
      option is set, and none when there was none. */
  lemma {:induction false} LastVerbosityWins(o: Options, codes: seq<OptionCode>)
    requires o.checking == Defaults.checking
    ensures var c := ApplyAll(o, codes).checking;
      OneVerbosity(c) && Verbosity(c) == LastVerbosity(codes)
    decreases |codes|
  {
    if codes != [] {
      var init, last := codes[..|codes| - 1], codes[|codes| - 1];
      LastVerbosityWins(o, init);
      ApplyAllSnoc(o, init, last);
      assert init + [last] == codes;
      ApplyCodeVerbosity(ApplyAll(o, init), last);
    }
  }

  predicate IsMode(c: OptionCode) {
    c == Binary || c == Text || c == Tag
  }

  /** The last of --binary, --text and --tag given, if any. */
  function LastMode(codes: seq<OptionCode>): (r: Option<OptionCode>)
    ensures r.Some? ==> IsMode(r.value) && r.value in codes
  {
    if codes == [] then None
    else if IsMode(codes[|codes| - 1]) then Some(codes[|codes| - 1])
    else LastMode(codes[..|codes| - 1])
  }

  /** How many times `c` occurs. */
  function Occurrences(codes: seq<OptionCode>, c: OptionCode): nat {
    if codes == [] then 0
    else Occurrences(codes[..|codes| - 1], c) + (if codes[|codes| - 1] == c then 1 else 0)
  }

  /** One option's effect on the output mode. */
  lemma ApplyCodeOutput(o: Options, c: OptionCode)
    ensures var out := ApplyCode(o, c).output;
      && out.binary == (if c == Text then false else if IsMode(c) then true else o.output.binary)
      && out.bsdTag == (o.output.bsdTag || c == Tag)
      && out.binaryFlag == o.output.binaryFlag + (if c == Binary then 1 else 0)
  {
  }

  /** From the default output options (whatever InitMain chose as
      identity): binary mode holds unless --text came after every --binary
      and --tag; --tag is remembered; binaryFlag counts --binary (and not
      --text). */
  lemma {:induction false} ModeOptions(o: Options, codes: seq<OptionCode>)
    requires o.output == Defaults.output
    ensures var out := ApplyAll(o, codes).output;
      && (out.binary <==> LastMode(codes) != Some(Text))
      && (out.bsdTag <==> Tag in codes)
      && out.binaryFlag == Occurrences(codes, Binary)
    decreases |codes|
  {
    if codes != [] {
      var init, last := codes[..|codes| - 1], codes[|codes| - 1];
      ModeOptions(o, init);
      ApplyAllSnoc(o, init, last);
      assert init + [last] == codes;
      ApplyCodeOutput(ApplyAll(o, init), last);
      assert Tag in codes <==> Tag in init || last == Tag;
    }
  }

  // Conflicting options

  /** The combinations DisposeOptionConflict rejects, in the order it tests
      them. */
  datatype Conflict =
    | TagWithText
    | ZeroWithCheck
    | TagWithCheck
    | BinaryWithCheck
    | IgnoreMissingWithoutCheck
    | StatusWithoutCheck
    | WarnWithoutCheck
    | QuietWithoutCheck
    | StrictWithoutCheck

  predicate Violates(o: Options, c: Conflict) {
    var out, chk := o.output, o.checking;
    match c
    case TagWithText => out.bsdTag && !out.binary
    case ZeroWithCheck => out.delim != "\n" && chk.doCheck
    case TagWithCheck => out.bsdTag && chk.doCheck
    case BinaryWithCheck => out.binaryFlag != 0 && chk.doCheck
    case IgnoreMissingWithoutCheck => chk.ignoreMissing && !chk.doCheck
    case StatusWithoutCheck => chk.statusOnly && !chk.doCheck
    case WarnWithoutCheck => chk.warn && !chk.doCheck
    case QuietWithoutCheck => chk.quiet && !chk.doCheck
    case StrictWithoutCheck => chk.strict && !chk.doCheck
  }

  /** The conflicts in the order they are tested. */
  const ConflictOrder: seq<Conflict> := [TagWithText, ZeroWithCheck, TagWithCheck, BinaryWithCheck,
    IgnoreMissingWithoutCheck, StatusWithoutCheck, WarnWithoutCheck, QuietWithoutCheck, StrictWithoutCheck]

  /** The first conflict in ConflictOrder that `o` shows, which is the one
      reported before the tool exits with failure. */
  function FirstConflict(o: Options): Option<Conflict> {
    FirstConflictFrom(o, 0)
  }

  function FirstConflictFrom(o: Options, i: nat): Option<Conflict>
    requires i <= |ConflictOrder|
    decreases |ConflictOrder| - i
  {
    if i == |ConflictOrder| then None
    else if Violates(o, ConflictOrder[i]) then Some(ConflictOrder[i])
    else FirstConflictFrom(o, i + 1)
  }

  /** FirstConflict is None exactly when no conflict holds, and otherwise
      one that holds, with none holding before it. */
  lemma FirstConflictMeaning(o: Options)
    ensures var r := FirstConflict(o);
      && (r.None? <==> forall j :: 0 <= j < |ConflictOrder| ==> !Violates(o, ConflictOrder[j]))
      && (r.Some? ==> exists k :: (0 <= k < |ConflictOrder| && ConflictOrder[k] == r.value
        && Violates(o, r.value) && forall j :: 0 <= j < k ==> !Violates(o, ConflictOrder[j])))
  {
    FirstConflictFromMeaning(o, 0);
  }

  lemma {:induction false} FirstConflictFromMeaning(o: Options, i: nat)
    requires i <= |ConflictOrder|
    ensures var r := FirstConflictFrom(o, i);
      && (r.None? <==> forall j :: i <= j < |ConflictOrder| ==> !Violates(o, ConflictOrder[j]))
      && (r.Some? ==> exists k :: (i <= k < |ConflictOrder| && ConflictOrder[k] == r.value
        && Violates(o, r.value) && forall j :: i <= j < k ==> !Violates(o, ConflictOrder[j])))
    decreases |ConflictOrder| - i
  {
    if i < |ConflictOrder| && !Violates(o, ConflictOrder[i]) {
      FirstConflictFromMeaning(o, i + 1);
    }
  }

  /** --tag followed later by --text (with no --binary or --tag after it) is
      rejected; --text followed by --tag is not, because --tag switches
      binary mode back on. */
  lemma TagTextConflict(o: Options, codes: seq<OptionCode>)
    requires o.output == Defaults.output
    ensures Violates(ApplyAll(o, codes), TagWithText) <==> Tag in codes && LastMode(codes) == Some(Text)
  {
    ModeOptions(o, codes);
  }

  /** --text is not counted by SetBinaryFlag, so --text with --check passes
      the test that rejects --binary with --check. */
  lemma TextWithCheckAccepted()
    ensures FirstConflict(ApplyAll(Defaults, [Text, Check])).None?
    ensures FirstConflict(ApplyAll(Defaults, [Binary, Check])) == Some(BinaryWithCheck)
  {
    var o := ApplyAll(Defaults, [Text, Check]);
    assert o == Defaults.(output := Defaults.output.(binary := false), checking := Defaults.checking.(doCheck := true));
    var p := ApplyAll(Defaults, [Binary, Check]);
    assert p == Defaults.(output := Defaults.output.(binaryFlag := 1), checking := Defaults.checking.(doCheck := true));
    assert !Violates(p, ConflictOrder[0]) && !Violates(p, ConflictOrder[1]) && !Violates(p, ConflictOrder[2]);
  }

  /** global_options_struct, the one object whose fields main updates. */
  class GlobalOptions {
    var binaryFlag: nat
    var binary: bool
    var warn: bool
    var doCheck: bool
    var bsdTag: bool
    var quiet: bool
    var statusOnly: bool
    var ignoreMissing: bool
    var strict: bool
    var delim: string
    var digestAlg: AlgHash
    var programName: string
    var algLectureRef: string
    var digestAlgName: string

    /** The state as a value. */
    function Snapshot(): Options
      reads this
    {
      Options(
        Output(binaryFlag, binary, bsdTag, delim),
        Checking(doCheck, warn, quiet, statusOnly, ignoreMissing, strict),
        Identity(programName, digestAlg, digestAlgName, algLectureRef))
    }

    constructor()
      ensures Snapshot() == Defaults
    {
      binary, doCheck, warn, bsdTag, quiet, statusOnly := true, false, false, false, false, false;
      ignoreMissing, strict, delim, binaryFlag := false, false, "\n", 0;
      digestAlg, programName, algLectureRef, digestAlgName := MD5, "md5sum", "RFC 1321", "MD5";
    }

    /** Chooses the algorithm from the program's file name: the part after
        the last backslash, without its extension, in lower case. Only the
        name, the algorithm, its name and its reference change. */
    method InitMain(argv0: string)
      modifies this
      ensures Snapshot().output == old(Snapshot().output)
      ensures Snapshot().checking == old(Snapshot().checking)
      ensures Snapshot().id == Identify(argv0)
    {
      programName := ProgramNameOf(argv0);

      if programName == "md5sum" {
        digestAlg, digestAlgName, algLectureRef := MD5, "MD5", "RFC 1321";
      } else if programName == "sha1sum" {
        digestAlg, digestAlgName, algLectureRef := SHA1, "SHA1", "FIPS-180-1";
      } else if programName == "sha256sum" {
        digestAlg, digestAlgName, algLectureRef := SHA256, "SHA256", "FIPS-180-2";
      } else if programName == "sha384sum" {
        digestAlg, digestAlgName, algLectureRef := SHA384, "SHA384", "FIPS-180-2";
      } else if programName == "sha512sum" {
        digestAlg, digestAlgName, algLectureRef := SHA512, "SHA512", "FIPS-180-2";
      } else {
        digestAlg, digestAlgName, algLectureRef := MD5, "MD5", "RFC 1321";
        programName := "md5sum";
      }
    }

    method SetBinaryFlag()
      modifies this
      ensures Snapshot() == old(Snapshot()).(output := old(Snapshot()).output.(binaryFlag := old(binaryFlag) + 1))
    {
      binaryFlag := binaryFlag + 1;
    }

    /** One turn of main's switch: update the options, or say with which
        status the program exits, leaving them as they were. */
    method Apply(code: OptionCode) returns (exit: Option<int>)
      modifies this
      ensures exit == ExitOf(code)
      ensures Snapshot() == ApplyCode(old(Snapshot()), code)
    {
      exit := None;
      match code
      case Binary =>
        binary := true;
        SetBinaryFlag();
      case Check =>
        doCheck := true;
      case Text =>
        binary := false;
      case Warn =>
        statusOnly, warn, quiet := false, true, false;
      case Zero =>
        delim := "";
      case IgnoreMissing =>
        ignoreMissing := true;
      case Quiet =>
        statusOnly, warn, quiet := false, false, true;
      case Status =>
        statusOnly, warn, quiet := true, false, false;
      case Strict =>
        strict := true;
      case Tag =>
        bsdTag, binary := true, true;
      case Help =>
        exit := Some(0);
      case Version =>
        exit := Some(0);
      case Operand(_) =>
      case Unrecognised(hasError) =>
        if hasError {
          exit := Some(1);
        }
    }

    /** main's option loop: options in order until one exits; operands are
        collected in order. */
    method ReadOptions(codes: seq<OptionCode>) returns (operands: seq<string>, exit: Option<int>)
      modifies this
      ensures var r := ReadAll(old(Snapshot()), codes);
        exit == r.exit && (exit.None? ==> Snapshot() == r.opts && operands == r.operands)
    {
      operands := [];
      exit := None;
      var i := 0;
      while i < |codes|
        invariant 0 <= i <= |codes| && exit.None?
        invariant var r := ReadAll(Snapshot(), codes[i..]);
          ReadAll(old(Snapshot()), codes) == r.(operands := operands + r.operands)
      {
        assert codes[i..][1..] == codes[i + 1..];
        var code := codes[i];
        if code.Operand? {
          operands := operands + [code.arg];
        }
        exit := Apply(code);
        if exit.Some? {
          return;
        }
        i := i + 1;
      }
    }

    /** Reports the first conflicting combination, if any; the tool then
        exits with failure. Nothing changes. */
    method DisposeOptionConflict() returns (conflict: Option<Conflict>)
      ensures conflict == FirstConflict(Snapshot())
    {
      if bsdTag && !binary {
        return Some(TagWithText);
      }
      if delim != "\n" && doCheck {
        return Some(ZeroWithCheck);
      }
      if bsdTag && doCheck {
        return Some(TagWithCheck);
      }
      if binaryFlag != 0 && doCheck {
        return Some(BinaryWithCheck);
      }
      if ignoreMissing && !doCheck {
        return Some(IgnoreMissingWithoutCheck);
      }
      if statusOnly && !doCheck {
        return Some(StatusWithoutCheck);
      }
      if warn && !doCheck {
        return Some(WarnWithoutCheck);
      }
      if quiet && !doCheck {
        return Some(QuietWithoutCheck);
      }
      if strict && !doCheck {
        return Some(StrictWithoutCheck);
      }
      return None;
    }
  }
}
