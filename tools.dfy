/**
 * Pure helpers of the client (utils/tools.js): scan-mode and project-name
 * validation, project-id and task-id generation, and the `[FLOW]` line the
 * client writes to report its progress.
 */
module Tools {
  import opened Wrappers
  import opened Strs
  import Json
  import Messages

  /** The scan modes the client supports (the values of the client's SCAN_MODE table). */
  const ScanModes: seq<string> := ["-single", "-cross", "-single-xsca", "-xsca"]

  /** `JSON.stringify` of the SCAN_MODE table, as the unsupported-mode message quotes it. */
  const ScanModeTableJson := "{\"SINGLE\":\"-single\",\"CROSS\":\"-cross\",\"SINGLE_XSCA\":\"-single-xsca\",\"XSCA\":\"-xsca\"}"

  /** The message key returned when the online scan mode differs from the local one. */
  const ScanModeNotAllowedToModify := "E_CLIENT_SCAN_MODE_NOT_ALLOWED_TO_MODIFY"

  /** JavaScript truthiness of an optional string. */
  predicate Present(s: Option<string>) {
    s.Some? && s.value != ""
  }

  /**
   * The outcome of `validateScanMode`: `{valid: true}`, `{valid: false, errorMsg}`,
   * or the looked-up error message object (which has no `valid` property).
   */
  datatype ScanModeVerdict =
    | ModeValid
    | ModeInvalid(errorMsg: string)
    | ModeDiffersFromOnline(message: Messages.Looked)

  /** `validateScanMode(scanModeLocal, scanModeOnline)`: missing, changed since the online scan, supported, or unknown. */
  function ValidateScanMode(local: Option<string>, online: Option<string>,
                            catalog: Messages.Catalog, locale: string): (r: ScanModeVerdict)
    ensures !Present(local) ==> r == ModeInvalid("[utils/tools] Scan mode invalid, validation failed")
    ensures Present(local) && Present(online) && local != online ==>
      r == ModeDiffersFromOnline(Messages.Lookup(catalog, ScanModeNotAllowedToModify,
                                                 [("scanModeLocal", online.value)], locale))
    ensures r.ModeValid? <==>
      Present(local) && (!Present(online) || online == local) && local.value in ScanModes
    ensures Present(local) && (!Present(online) || online == local) && local.value !in ScanModes ==>
      r == ModeInvalid("[utils/tools] Passed in scan mode \"" + local.value + "\" cannot be found in ["
                       + ScanModeTableJson + "], validation failed")
  {
    if !Present(local) then
      ModeInvalid("[utils/tools] Scan mode invalid, validation failed")
    else if Present(online) && local != online then
      ModeDiffersFromOnline(Messages.Lookup(catalog, ScanModeNotAllowedToModify,
                                            [("scanModeLocal", online.value)], locale))
    else if local.value in ScanModes then
      ModeValid
    else
      ModeInvalid("[utils/tools] Passed in scan mode \"" + local.value + "\" cannot be found in ["
                  + ScanModeTableJson + "], validation failed")
  }

  /** Characters the project-name pattern allows first, in the middle and last. */
  predicate NameFirstChar(ch: char) {
    IsAsciiAlnum(ch) || ch == '_'
  }

  predicate NameMiddleChar(ch: char) {
    NameFirstChar(ch) || ch == ' ' || ch == '-' || ch == '.' || ch == '/'
  }

  predicate NameLastChar(ch: char) {
    NameFirstChar(ch) || ch == '-' || ch == '.' || ch == '/'
  }

  /** The anchored pattern `^[A-Za-z0-9_][A-Za-z0-9 _\-.\/]*[A-Za-z0-9_\-.\/]$`. */
  predicate MatchesNamePattern(s: string) {
    |s| >= 2 && NameFirstChar(s[0]) && NameLastChar(s[|s| - 1])
    && forall i :: 1 <= i < |s| - 1 ==> NameMiddleChar(s[i])
  }

  /** `validateProjectName`: at most 50 characters and matching the pattern. */
  predicate ValidateProjectName(name: string) {
    |name| <= 50 && MatchesNamePattern(name)
  }

  /** The three names of the client's own test suite. */
  lemma ProjectNameExamples()
    ensures ValidateProjectName("T--B__a//S..EE  S1")
    ensures !ValidateProjectName("T--B__a/&/S..EE  S1")
    ensures !ValidateProjectName("-T-B__a//S..EE  S1")
  {
    var bad := "T--B__a/&/S..EE  S1";
    assert bad[8] == '&' && !NameMiddleChar(bad[8]);
  }

  /** A valid name is 2..50 characters long, starts with a word character and does not end with a space. */
  lemma ValidProjectNameShape(name: string)
    requires ValidateProjectName(name)
    ensures 2 <= |name| <= 50
    ensures name[0] !in {' ', '-', '.', '/'}
    ensures name[|name| - 1] != ' '
  {
  }

  /** The characters the pattern `/[^A-Z0-9]+/gi` leaves in place. */
  predicate KeptInProjectId(ch: char) {
    IsAsciiAlnum(ch)
  }

  /**
   * `generateProjectId(name)` at clock reading `now` (milliseconds): the
   * lower-cased ASCII letters and digits of the name, followed by characters
   * 5..12 of the decimal clock reading.
   */
  function GenerateProjectId(name: Option<string>, now: nat): (r: string)
    ensures |r| <= |name.GetOr("")| + 8
  {
    ToLowerAscii(FilterChars(name.GetOr(""), KeptInProjectId)) + Slice(NatToString(now), 5, 13)
  }

  function Pow10(k: nat): nat {
    if k == 0 then 1 else 10 * Pow10(k - 1)
  }

  lemma {:induction false} NatToStringLength(n: nat, k: nat)
    requires n >= Pow10(k)
    ensures |NatToString(n)| > k
    decreases k
  {
    if k > 0 {
      NatToStringLength(n / 10, k - 1);
    }
  }

  /**
   * From any clock reading of 13 digits or more (every reading since 2001) the
   * id is the name's alphanumerics, lower-cased, plus an 8-digit suffix.
   */
  lemma GeneratedProjectIdShape(name: string, now: nat)
    requires now >= Pow10(12)
    ensures var id := GenerateProjectId(Some(name), now);
      var base := FilterChars(name, KeptInProjectId);
      |id| == |base| + 8
      && id[..|base|] == ToLowerAscii(base)
      && AllDigits(id[|base|..])
      && forall i :: 0 <= i < |base| ==> IsLowerAlnum(id[i])
  {
    NatToStringLength(now, 12);
    var base := FilterChars(name, KeptInProjectId);
    var id := GenerateProjectId(Some(name), now);
    var suffix := Slice(NatToString(now), 5, 13);
    assert |suffix| == 8;
    assert id[|base|..] == suffix;
    assert forall i :: 0 <= i < |suffix| ==> suffix[i] == NatToString(now)[5 + i];
  }

  /** The client's own test: a four-letter name gives a twelve-character id. */
  lemma GeneratedProjectIdTestCase(now: nat)
    requires now >= Pow10(12)
    ensures |GenerateProjectId(Some("Test"), now)| == 4 + 8
  {
    GeneratedProjectIdShape("Test", now);
    assert FilterChars("Test", KeptInProjectId) == "Test";
  }

  /** The scan task-id alphabet `1234567890abcdef`. */
  const IdAlphabet: string := "1234567890abcdef"

  predicate IsHexDigit(ch: char) {
    IsDigit(ch) || ('a' <= ch <= 'f')
  }

  /**
   * `generateId()`: nanoid with the 16-letter alphabet and size 8. Every
   * random byte is masked to its low four bits and picks one letter, so the
   * first eight bytes the generator draws decide the id.
   */
  function GenerateId(random: seq<bv8>): (id: string)
    requires |random| >= 8
    ensures |id| == 8
    ensures forall i :: 0 <= i < 8 ==> IsHexDigit(id[i])
  {
    seq(8, i requires 0 <= i < 8 => IdAlphabet[(random[i] & 15) as int])
  }

  /** The position of a letter in the alphabet. */
  function LetterIndex(ch: char): (n: nat)
    requires IsHexDigit(ch)
    ensures n < 16 && IdAlphabet[n] == ch
  {
    if ch == '0' then 9
    else if IsDigit(ch) then ch as int - '1' as int
    else ch as int - 'a' as int + 10
  }

  /** Masking a byte below 16 to its low four bits keeps it. */
  lemma LowNibble(n: nat)
    requires n < 16
    ensures ((n as bv8) & 15) as int == n
  {
  }

  /** The byte that makes nanoid pick a given letter of the alphabet. */
  function ByteFor(ch: char): (b: bv8)
    requires IsHexDigit(ch)
    ensures IdAlphabet[(b & 15) as int] == ch
  {
    var n := LetterIndex(ch);
    LowNibble(n);
    n as bv8
  }

  /** Every 8-letter lower-case hexadecimal string is some task id. */
  lemma EveryHexStringIsAnId(h: string)
    requires |h| == 8 && forall i :: 0 <= i < 8 ==> IsHexDigit(h[i])
    ensures exists random: seq<bv8> :: |random| == 8 && GenerateId(random) == h
  {
    var random := seq(8, i requires 0 <= i < 8 => ByteFor(h[i]));
    assert GenerateId(random) == h;
  }

  /** The object `{state, status, action: 'SCAN', ...supplements}`. */
  function FlowObject(state: Json.Value, status: Json.Value, supplements: Json.Fields): Json.Fields {
    Json.Spread([("state", state), ("status", status), ("action", Json.Str("SCAN"))], supplements)
  }

  /** The line `stdoutFlowState` / `stderrFlowState` write: `[FLOW]` + JSON + newline. */
  function FlowLine(state: Json.Value, status: Json.Value, supplements: Json.Fields): (line: string)
    ensures StartsWith(line, "[FLOW]") && EndsWith(line, "\n")
    ensures forall i :: 0 <= i < |line| - 1 ==> line[i] != '\n' && line[i] != '\r'
  {
    "[FLOW]" + Json.Stringify(Json.Obj(FlowObject(state, status, supplements))) + "\n"
  }

  /** `action` is SCAN unless the supplements give their own; the other supplements are carried too. */
  lemma FlowObjectAction(state: Json.Value, status: Json.Value, supplements: Json.Fields)
    requires Json.UniqueKeys(supplements)
    ensures Json.Lookup(FlowObject(state, status, supplements), "action") ==
      if Json.HasKey(supplements, "action") then Json.Lookup(supplements, "action") else Some(Json.Str("SCAN"))
    ensures forall k :: Json.HasKey(supplements, k) ==>
      Json.Lookup(FlowObject(state, status, supplements), k) == Json.Lookup(supplements, k)
  {
    var base: Json.Fields := [("state", state), ("status", status), ("action", Json.Str("SCAN"))];
    assert "state"[0] != "action"[0] && "status"[0] != "action"[0] && |"state"| != |"status"|;
    Json.Three("state", state, "status", status, "action", Json.Str("SCAN"), "action");
    Json.SpreadLookup(base, supplements, "action");
    forall k | Json.HasKey(supplements, k)
      ensures Json.Lookup(FlowObject(state, status, supplements), k) == Json.Lookup(supplements, k)
    {
      Json.SpreadLookup(base, supplements, k);
    }
  }
}
