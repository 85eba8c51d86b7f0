# md5sum / sha*sum checksum tools — a Dafny model

`md5sum.cpp` builds one Windows executable that behaves as `md5sum`, `sha1sum`,
`sha256sum`, `sha384sum` or `sha512sum`. Which one depends on the name it is run
under. It prints the digest of each file it is given, in the GNU style
(`<hex>  file` or `<hex> *file`) or the BSD style (`MD5 (file) = <hex>`). With
`--check` it reads such lines back from a checksum file and verifies each listed
file against them.

This project models the core of that program:

- **`Digests`** (`digests.dfy`): the algorithms, their digest lengths and names,
  and the final length test of ParseLine. It also holds C strings: the text
  before the first NUL of a buffer, and what a zero-filled buffer holds after
  characters are written into its front.
- **`HexEncoding`** (`hex_encoding.dfy`): the hex loop of ComputeFileDigest.
  It writes the low nibble of each byte first, and `LowFirstIsSwappedHighFirst`
  relates it to the conventional high-nibble-first encoding. The cryptographic
  provider is a function parameter (`FileHasher`) that yields the hash bytes of
  a file, or nothing when the file cannot be opened.
- **`LineSpec`** (`line_spec.dfy`): what ParseLine extracts from one line, as
  functions of the line:
  - the tag prefix;
  - the file name between `(` and `)`;
  - the hex digits after it;
  - for the GNU style, the leading hex run, the separator, the marker
    character and the name.

  `Parse` combines them with the length test. `DefaultScan` is the GNU-style
  loop, character by character.
- **`LineScanner`** (`line_scanner.dfy`): `IsHexDigit` and `ParseLine` in the
  source's own form. They use index variables, the two flags, and the
  zero-filled arrays `cFileName[512]` and `cDigest[129]`. Each is proved to
  compute the `LineSpec` functions.
- **`LineProperties`** (`line_properties.dfy`), which proves:
  - when each style is accepted (both directions);
  - that every accepted line carries a digest of its algorithm's length;
  - that binary-mode lines, and with the corrected loop tag-style lines
    whose file name holds no ')', read back to the same digest and file name;
  - the two ways the GNU-style scan departs from that format;
  - that the tag-style digest loop, as written, never ends (see Findings).
- **`Session`** (`session.dfy`): DigestCheck. Each line is classified as a
  comment, malformed, unreadable, mismatched or matched. There are four
  counters and two flags, and the verdict is read off them. The method is
  proved to compute `Run` over the lines, and lemmas relate the counters to
  the number of lines of each kind.
- **`Config`** (`config.dfy`): `global_options_struct` as a class with the
  source's fields. It holds:
  - the constructor's defaults;
  - InitMain, which picks the algorithm from `argv[0]`;
  - SetBinaryFlag;
  - one turn of main's option switch (`Apply`) and the option loop
    (`ReadOptions`);
  - DisposeOptionConflict.

  Lemmas state what a whole command line leaves set.

The model keeps the following behaviours of md5sum.cpp as written and proves
them as lemmas. Several of them make `--check` fail on inputs it is meant to
accept.

- The digest is printed low nibble first. For example, the byte 0xd4 comes
  out as "4d", so the tool's digests differ from those of other md5sum
  implementations, and its own checksum files only agree with itself.
- In a GNU-style line, the character after the spaces is taken as the mode
  marker and dropped. For a text-mode line (`<hex>  file`), that character
  is the first character of the file name. So
  `d41d8cd98f00b204e9800998ecf8427e  empty.txt` is read as naming
  `mpty.txt`. Every line the tool prints with `--text`, and every line GNU
  md5sum prints by default, then fails with an open or read error (or names
  another file).
- The test `j == 0` that would set the binary flag of a `*` line comes right
  after `j++` (md5sum.cpp:576-580), so it is never true. Every file listed
  in a checksum file is therefore hashed in text mode (md5sum.cpp:732).
- In a tag-style line the file name ends at the first ')' (md5sum.cpp:519),
  so `MD5 (a (1).txt) = …` names the file `a (1`. That line checks the
  wrong file, or is rejected when the rest of the name holds hex letters
  (`LineProperties.TagNameEndsAtFirstParen`).
- `--text` does not count towards the `--binary`/`--check` conflict, because
  only `--binary` calls SetBinaryFlag.
- `--ignore-missing` changes only how a missing file is reported
  (md5sum.cpp:737). The verdict at md5sum.cpp:787-791 still fails on any
  file that cannot be opened, although the help text (md5sum.cpp:251)
  promises not to fail for missing files. `Session.Verdict` does not take
  the option.
- `DigestCheck` compares the recomputed digest with the one in the line
  exactly (md5sum.cpp:741), so an upper-case digest in a checksum file never
  matches (`Session.UpperCaseDigestNeverMatches`).

The tag-style digest loop is evidently wrong and is listed under Findings.
The model proves that the loop as written never ends. Everything else, from
`ParseLine` and `Parse` up to `Session.Classify` and `DigestCheck`, uses the
corrected loop. Where md5sum.cpp hangs on a tag-style line, the model
classifies the line instead.

## Model

| member | source | states |
|---|---|---|
| Digests.AlgOfLength | md5sum.cpp:585-607 | a digest of n hex characters selects the one algorithm with that digest length, and UnknownAlg for every other length |
| Digests.LengthMismatch | md5sum.cpp:609-620 | the final test rejects a line exactly when the algorithm is unknown or the digest length differs from that algorithm's |
| Digests.CString | md5sum.cpp:464 | a C string is the longest NUL-free prefix of its buffer, and a NUL follows it when it is shorter than the buffer |
| Digests.CStringOfPadded | md5sum.cpp:622-623 | a zero-filled buffer with `s` written at its start reads back as exactly `s` |
| Digests.HoldsPaddedWrite | md5sum.cpp:520-522 | writing one character just after the written part keeps the rest of the buffer zero |
| Digests.HoldsPaddedPair | md5sum.cpp:431-435 | writing the two hex characters of a byte just after the written part keeps the rest of the buffer zero |
| HexEncoding.ComputeFileDigest | md5sum.cpp:362-447 | succeeds exactly when the provider yields a hash; the digest is then the hash bytes written low nibble first, and is empty otherwise |
| HexEncoding.EncodeLowFirstAt | md5sum.cpp:429-437 | characters 2i and 2i+1 are the hex digits of the low and the high nibble of byte i |
| HexEncoding.EncodeLowFirstAppend | md5sum.cpp:429-437 | encoding works byte by byte: the encoding of a concatenation is the concatenation of the encodings |
| HexEncoding.EncodeLowFirstAlphabet | md5sum.cpp:428-436 | the output uses only the characters of "0123456789abcdef" |
| HexEncoding.DecodeEncodeLowFirst | md5sum.cpp:429-437 | nothing is lost: decoding the output two characters at a time, low nibble first, gives back the hash bytes |
| HexEncoding.LowFirstIsSwappedHighFirst | md5sum.cpp:431-435 | the output is the conventional high-nibble-first hex with the two characters of every byte swapped |
| HexEncoding.SwapPairs | md5sum.cpp:431-435 | swapping pairs keeps the length and exchanges characters 2i and 2i+1 |
| HexEncoding.ByteOrderExample | md5sum.cpp:431-435 | the byte 0xd4 is printed as "4d", where the usual hex is "d4" |
| LineSpec.Find | md5sum.cpp:515-524 | the first position at or after i holding c, or the end of the line |
| LineSpec.HexEnd | md5sum.cpp:560-566 | the end of the hex run starting at i |
| LineSpec.SpaceEnd | md5sum.cpp:567-574 | the end of the run of spaces starting at i |
| LineSpec.KeepHexOnlyHex | md5sum.cpp:526-538 | the digest collected after ')' holds only hex digits |
| LineSpec.DropNewlinesSubset | md5sum.cpp:575-579 | the file name holds only characters of the line, and no newline |
| LineSpec.DefaultScanMeaning | md5sum.cpp:556-583 | after i characters, the GNU-style loop has the leading hex run as digest; the first non-space character after the run is consumed; the rest, without newlines, is the name |
| LineSpec.DefaultScanFlags | md5sum.cpp:560-574 | bEndReadDigest is set exactly past the hex run, and bStartReadFilename exactly past the first non-space character after it |
| LineSpec.DefaultScanDigest | md5sum.cpp:562-566 | the digest collected so far is the part of the hex run already seen |
| LineSpec.DefaultScanName | md5sum.cpp:567-579 | the name collected so far is what follows the consumed character, without newlines |
| LineSpec.DefaultScanFits | md5sum.cpp:473-477 | when the whole line fits the two buffers, so does every intermediate state of the scan |
| LineSpec.RawFieldsHaveNoNul | md5sum.cpp:464 | fields cut from a C string contain no NUL, so they read back unchanged from the buffers |
| LineScanner.IsHexDigit | md5sum.cpp:449-460 | true exactly for 0-9, a-f and A-F |
| LineScanner.ReadTagName | md5sum.cpp:519-524 | copies the file name up to ')' or the end of the line into cFileName, and stops on that character |
| LineScanner.ReadTagDigest | md5sum.cpp:526-538 | corrected loop: cDigest receives exactly the hex digits after ')' |
| LineScanner.ScanTagStyle | md5sum.cpp:513-541 | the name is the text between the first '(' after the prefix and the next ')'; the digest is the hex digits after it |
| LineScanner.ScanDefaultStyle | md5sum.cpp:544-583 | cDigest holds the leading hex run; cFileName holds the text after the marker without newlines (empty when no marker); the binary flag stays false |
| LineScanner.ParseLine | md5sum.cpp:462-629 | returns exactly `Parse` of the line: None where the source returns false, otherwise the algorithm, digest, file name and binary flag it stores |
| LineProperties.ParseSound | md5sum.cpp:462-629 | every accepted line is at least 32 characters long, has a known algorithm and an all-hex digest of that algorithm's length, and is not binary |
| LineProperties.DefaultStyleParse | md5sum.cpp:544-620 | a GNU-style line is accepted exactly when it has 32 characters or more, starts with a hex digit, and its hex run has one of the five lengths; the digest is that maximal run and the algorithm follows from its length |
| LineProperties.HexRunOf33Rejected | md5sum.cpp:585-620 | a hex run of 33 characters is rejected |
| LineProperties.TagStyleParse | md5sum.cpp:479-620 | a line starting "MD5" or "SHA" is accepted exactly when its prefix names a known algorithm and the hex digits after ')' have that algorithm's length; an unknown "SHA..." prefix is always rejected |
| LineProperties.TagPrefix | md5sum.cpp:479-512 | a line beginning with an algorithm's name and " (" is tag style with that algorithm, and no '(' lies between the prefix and the name |
| LineProperties.TagLineShape | md5sum.cpp:513-524 | on `<alg> (<file>)...` the first '(' and the next ')' are found around the file name |
| LineProperties.FormatTag | md5sum.cpp:642-645 | the --tag output line has six characters besides name, file and digest |
| LineProperties.FormatDefault | md5sum.cpp:652-655 | the GNU output line has two characters besides digest and file |
| LineProperties.TagRoundTrip | md5sum.cpp:637-645 | with the corrected digest loop, a printed --tag line whose file name holds no ')', plus any delimiter without hex digits, parses back to the algorithm, digest and file |
| LineProperties.TagNameEndsAtFirstParen | md5sum.cpp:519-524 | a printed --tag line for a file named `a)b` names only `a`; when `b` and the delimiter hold no hex digit, the line is accepted as a line for the file `a` |
| LineProperties.KeepHexAfterCut | md5sum.cpp:526-538 | after the first ')', only the printed digest is collected when the rest of the name and the delimiter hold no hex digit |
| LineProperties.DefaultRoundTrip | md5sum.cpp:646-655 | a binary-mode line printed by DigestFile, with a "\n" or empty delimiter, parses back to its digest and file name |
| LineProperties.TextMarkerLosesFirstChar | md5sum.cpp:567-577 | a text-mode line `<hex>  file` parses to the name without its first character |
| LineProperties.DefaultLineShape | md5sum.cpp:556-583 | a line made of a digest, spaces and a rest parses to that digest and the rest after its first character, without newlines |
| LineProperties.TagDigestStepAsWritten | md5sum.cpp:526-538 | the loop as written moves the index only past '=' and ' ' |
| LineProperties.TagDigestLoopStuck | md5sum.cpp:526-538 | once on another character the index never moves again; on a hex digit the store index grows on every iteration |
| LineProperties.TagDigestLoopNeverEnds | md5sum.cpp:513-538 | on a tag line with both parentheses, the loop starts on ')' and never reaches the end of the line |
| LineProperties.PrintedTagLineHangs | md5sum.cpp:642-645 | every line printed with --tag whose file name holds no ')' is such a line |
| Session.Count | md5sum.cpp:716-750 | a comment changes nothing; a malformed line adds one to each malformed counter; an unreadable file adds one to nOpenOrReadFailures, a mismatch one to nMismatchedChecksums, and a match sets bMatchedChecksums; every line that is neither sets bProperlyFormattedLines; no counter decreases and no flag is cleared |
| Session.RunMonotone | md5sum.cpp:700-752 | reading more lines never lowers a counter or clears a flag |
| Session.MalformedCountersAgree | md5sum.cpp:719-720 | nMisformattedLines and nImproperlyFormattedLines are always equal |
| Session.RunCounts | md5sum.cpp:712-750 | each counter is the number of lines with its outcome; each flag says whether such a line exists |
| Session.VerdictMeaning | md5sum.cpp:787-791 | the check succeeds exactly when some line matched, none mismatched, none named an unreadable file and, under --strict, none was malformed |
| Session.AllCommentsFails | md5sum.cpp:712-713 | a checksum file of comments only leaves every counter at zero and fails |
| Session.MatchedDigestIsLowerHex | md5sum.cpp:741-744 | a line counted as a match parses, and its digest holds only the characters 0-9 and a-f |
| Session.UpperCaseDigestNeverMatches | md5sum.cpp:741-744 | a line whose digest holds an upper-case hex letter is never counted as a match, because the computed digest is lower case and the comparison is exact |
| Session.CheckLine | md5sum.cpp:716-750 | the outcome of one non-comment line is its classification |
| Session.DigestCheck | md5sum.cpp:660-792 | an unopenable file fails at once; otherwise the counters are `Run` of the lines and the result is the verdict on them |
| Config.BaseNameMeaning | md5sum.cpp:96-98 | the program name is the longest suffix of argv[0] without a backslash |
| Config.StripExtension | md5sum.cpp:100-111 | the name is cut at its last '.', and a '.' in the first position is ignored |
| Config.ToLower | md5sum.cpp:112-117 | ASCII lower case, character by character |
| Config.ToLowerIdempotent | md5sum.cpp:112-117 | lower-casing twice is lower-casing once |
| Config.ProgramNameOf | md5sum.cpp:96-117 | the name InitMain compares is argv[0] after the last backslash, without extension, in lower case |
| Config.IdentityOf | md5sum.cpp:119-156 | each of the five names is kept as the program name and selects its own algorithm, algorithm name and reference (RFC 1321, FIPS-180-1, FIPS-180-2); any other name becomes md5sum with MD5 |
| Config.IdentityOfOwnName | md5sum.cpp:119-156 | each tool's own name selects its algorithm |
| Config.StemOfPath | md5sum.cpp:96-111 | the directory and the extension, when present, are cut off argv[0] |
| Config.IdentifyOwnName | md5sum.cpp:94-157 | each tool recognises itself under its own name, with or without a directory, with or without an extension, and in any letter case |
| Config.ReadAll | md5sum.cpp:822-880 | the option loop ends with an exit status exactly when some option exits, and that status is 0 or 1 |
| Config.ReadAllApplies | md5sum.cpp:822-880 | when no option exits, the loop applies every option in order and keeps the operands in order |
| Config.ApplyAllSnoc | md5sum.cpp:822-880 | applying one more option at the end is one more turn of the switch |
| Config.ApplyCodeVerbosity | md5sum.cpp:836-856 | --warn, --quiet and --status each leave only their own flag set |
| Config.LastVerbosityWins | md5sum.cpp:836-856 | starting from the default checking options, whatever identity InitMain chose, after any command line exactly the flag of the last verbosity option is set, or none |
| Config.ApplyCodeOutput | md5sum.cpp:826-863 | one option's effect on binary mode, the tag flag and binary_flag |
| Config.ModeOptions | md5sum.cpp:826-863 | starting from the default output options, whatever identity InitMain chose, binary mode holds unless --text came after every --binary and --tag; --tag is remembered; binary_flag counts --binary only |
| Config.FirstConflictMeaning | md5sum.cpp:162-225 | the reported conflict is None exactly when no conflict holds, and otherwise the first one in test order |
| Config.TagTextConflict | md5sum.cpp:164-169 | starting from the default output options, --tag is rejected as text mode exactly when --tag was given and --text was the last mode option |
| Config.TextWithCheckAccepted | md5sum.cpp:183-188 | --text --check is accepted, while --binary --check is rejected |
| Config.GlobalOptions.constructor | md5sum.cpp:88-92 | the defaults: binary mode, newline delimiter, md5sum / MD5 / RFC 1321, all other flags off |
| Config.GlobalOptions.InitMain | md5sum.cpp:94-157 | the name, algorithm, algorithm name and reference become those of argv[0]; all other options are unchanged |
| Config.GlobalOptions.SetBinaryFlag | md5sum.cpp:158-161 | binary_flag grows by one and nothing else changes |
| Config.GlobalOptions.Apply | md5sum.cpp:824-878 | one turn of the switch: the new options are `ApplyCode` of the old; --help and --version exit with 0, an option error with 1 |
| Config.GlobalOptions.ReadOptions | md5sum.cpp:822-880 | main's loop: the exit status of `ReadAll`, and otherwise its options and operands |
| Config.GlobalOptions.DisposeOptionConflict | md5sum.cpp:162-225 | reports the first violated combination in the source's order, or none; nothing changes |

## Left out

- CryptoAPI hashing and file reading are a function parameter that yields the hash bytes or nothing. The digest algorithms themselves are not modelled.
- Reading the checksum file is left out. The manifest is given as the sequence of lines `_fgetts` returns, or None when the file cannot be opened. The 1024-character chunking of long lines, the close and read-error check after the loop, and standard input as "-" are not modelled.
- Messages and output streams (`errs`, `outs`, Usage and Version text) are left out. The model keeps only the exit status they lead to.
- Option tokenising (the `option` class) is left out. The switch sees an already classified `OptionCode`.
- ParseFileName, SplitFileName and VerifyFile (wildcard expansion of operands) are left out. Operands are kept as given.
- main's early exit when there are no arguments (md5sum.cpp:798-802) is not modelled.
- main's exit status is left out. `std::for_each` calls a copy of `_run`, so `main` always returns EXIT_SUCCESS whatever DigestCheck and DigestFile report; the model stops at their results.
- DigestFile's output is only modelled as the two line formats (`FormatTag`, `FormatDefault`), used by the round-trip lemmas.
- The `nLine == 0` overflow warning and the DWORD width of the counters are left out; the counters are unbounded.
- `_tchar2byte` and the wide-character build are left out: characters are Dafny `char`. Two consequences follow.
  - `memset(cHashStr, 0, 129)` clears only 129 bytes, which is too few for 129 wide characters. The model assumes the narrow build, where the buffer is fully zeroed.
  - `str::split`, `is_null` and `to_lower` are modelled as their ASCII meaning. The definition of `str::split` is not part of this model; it is assumed that `InitMain` takes the last piece of the backslash split, and that this piece is empty when argv[0] ends in a backslash.
- ParseLine: the model requires `FitsBuffers`, which says the fields fit the 512- and 129-character buffers. The source writes past them on longer fields, which is undefined behaviour.
- Config.GlobalOptions.InitMain does its name computation in `ProgramNameOf` on a local string, not on the field. The field is assigned the same value, so the result is the same.

## Findings

| source | as written | input that shows it | evidently intended | confidence | as-written member | corrected member |
|---|---|---|---|---|---|---|
| md5sum.cpp:526-538 | the tag-style digest loop advances `i` only on '=' and ' '; on any other character it loops for ever without storing anything, because it starts on ')' | `MD5 (a.txt) = d41d8cd98f00b204e9800998ecf8427e`: the loop starts on ')' and never moves | advance past every character, keeping the hex digits, so that a line printed with --tag is read back | not executed | LineProperties.TagDigestLoopNeverEnds | LineScanner.ReadTagDigest |
