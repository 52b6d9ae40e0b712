/**
 * The project side of the scan-task lifecycle (model/Project.js): the
 * project-id and repo-action validators, the local configuration update, the
 * task-record upsert, the housekeeping of task folders, the cancel-record log
 * and the decision ladder of a cancel request.
 */
module Projects {
  import opened Wrappers
  import opened Strs
  import Json
  import Enums
  import Messages
  import Tools

  // ---------------------------------------------------------------- project id

  /** Characters a project id may hold: lower-case letters, digits, `.` and `-`. */
  predicate ProjectIdChar(ch: char) {
    IsLowerAlnum(ch) || ch == '.' || ch == '-'
  }

  predicate Octet(p: string) {
    1 <= |p| <= 3 && AllDigits(p)
  }

  /** The language of `^(?:[0-9]{1,3}\.){3}[0-9]{1,3}$`: four groups of 1..3 digits joined by dots. */
  ghost predicate IPv4Pattern(s: string) {
    exists a, b, c, d :: Octet(a) && Octet(b) && Octet(c) && Octet(d) && s == a + "." + b + "." + c + "." + d
  }

  /** The IP-address test as the validator computes it: four dot-separated parts, each 1..3 digits. */
  predicate IPv4Shaped(s: string) {
    var parts := Split(s, '.');
    |parts| == 4 && forall i :: 0 <= i < 4 ==> Octet(parts[i])
  }

  lemma Join4(a: string, b: string, c: string, d: string)
    ensures Join([a, b, c, d], '.') == a + "." + b + "." + c + "." + d
  {
    assert [a, b, c, d][1..] == [b, c, d];
    assert [b, c, d][1..] == [c, d];
    assert [c, d][1..] == [d];
    assert Join([d], '.') == d;
    assert Join([c, d], '.') == c + "." + d;
    assert Join([b, c, d], '.') == b + "." + (c + "." + d);
    assert b + "." + (c + "." + d) == b + "." + c + "." + d;
    assert a + "." + (b + "." + c + "." + d) == a + "." + b + "." + c + "." + d;
  }

  /** The computed test recognises exactly the regular expression's language. */
  lemma IPv4ShapedIsPattern(s: string)
    ensures IPv4Shaped(s) <==> IPv4Pattern(s)
  {
    if IPv4Shaped(s) {
      var p := Split(s, '.');
      JoinSplit(s, '.');
      assert p == [p[0], p[1], p[2], p[3]];
      Join4(p[0], p[1], p[2], p[3]);
      assert Octet(p[0]) && Octet(p[1]) && Octet(p[2]) && Octet(p[3]);
    }
    if IPv4Pattern(s) {
      var a, b, c, d :| Octet(a) && Octet(b) && Octet(c) && Octet(d) && s == a + "." + b + "." + c + "." + d;
      Join4(a, b, c, d);
      forall k | 0 <= k < 4 ensures '.' !in [a, b, c, d][k] {
        var p := [a, b, c, d][k];
        assert forall i :: 0 <= i < |p| ==> IsDigit(p[i]);
      }
      SplitJoin([a, b, c, d], '.');
    }
  }

  /**
   * `_validateProjectId(id)`: the checks of the switch, in order. The last
   * character is not checked.
   */
  function ValidateProjectId(id: string): (r: bool)
    ensures r <==> 3 <= |id| <= 63 && (forall i :: 0 <= i < |id| ==> ProjectIdChar(id[i]))
                   && IsLowerAlnum(id[0]) && !IPv4Pattern(id) && !StartsWith(id, "xn--")
  {
    IPv4ShapedIsPattern(id);
    if |id| < 3 || |id| > 63 then false
    else if exists i :: 0 <= i < |id| && !ProjectIdChar(id[i]) then false
    else if !IsLowerAlnum(id[0]) then false
    else if IPv4Shaped(id) then false
    else if StartsWith(id, "xn--") then false
    else true
  }

  /** A project id may end with a hyphen: the last character is not checked. */
  lemma TrailingHyphenAccepted()
    ensures ValidateProjectId("abc-")
  {
    SplitWithoutSeparator("abc-", '.');
  }

  /** A dotted quad is refused as a project id. */
  lemma DottedQuadRefused()
    ensures !ValidateProjectId("192.168.5.4")
  {
    var a, b, c, d := "192", "168", "5", "4";
    assert Octet(a) && Octet(b) && Octet(c) && Octet(d);
    assert a + "." + b + "." + c + "." + d == "192.168.5.4";
    assert IPv4Pattern("192.168.5.4");
  }

  /** Internationalised-domain prefixes and a leading hyphen are refused. */
  lemma PrefixesRefused()
    ensures !ValidateProjectId("xn--abc")
    ensures !ValidateProjectId("-abc")
    ensures !ValidateProjectId("ab")
  {
  }

  // ---------------------------------------------------------- repo action check

  /**
   * `_validateConfigByCICDState(cicdState, online, local)`. The CI case of
   * the switch has no `break` and falls through into the CD case.
   */
  function ValidateConfigByCicdState(cicdState: Option<string>, online: Option<string>, local: Option<string>): (r: bool)
    ensures !r <==>
      ((cicdState == Some(Enums.FsmCiDsrScanDone) || cicdState == Some(Enums.FsmCdDsrScanDone)) && !Tools.Present(local))
      || ((online == Some(Enums.RepoCI) || online == Some(Enums.RepoCD)) && Tools.Present(local) && online != local)
  {
    if (cicdState == Some(Enums.FsmCiDsrScanDone) || cicdState == Some(Enums.FsmCdDsrScanDone)) && !Tools.Present(local) then
      false
    else if online == Some(Enums.RepoCI) && Tools.Present(local) && online != local then
      false
    else if (online == Some(Enums.RepoCI) || online == Some(Enums.RepoCD)) && Tools.Present(local) && online != local then
      false
    else
      true
  }

  // ------------------------------------------------------ local configuration

  /** `_updateLocalProjectConf(local, update)`: `{...local, ...update}`. */
  function UpdateLocalProjectConf(local: Json.Fields, update: Json.Fields): Json.Fields {
    Json.Spread(local, update)
  }

  /** The update's keys win; the other local keys are kept. */
  lemma UpdateLocalProjectConfValues(local: Json.Fields, update: Json.Fields, k: string)
    requires Json.UniqueKeys(update)
    ensures Json.Lookup(UpdateLocalProjectConf(local, update), k) ==
      if Json.HasKey(update, k) then Json.Lookup(update, k) else Json.Lookup(local, k)
  {
    Json.SpreadLookup(local, update, k);
  }

  // -------------------------------------------------------------- task records

  /** `record.id`. */
  function IdOf(record: Json.Fields): Json.Value {
    Json.Get(record, "id")
  }

  /** `a === b` for the primitive values record ids are. */
  predicate SameId(a: Json.Value, b: Json.Value) {
    a == b && !a.Arr? && !a.Obj?
  }

  /** `records.findIndex(record => record.id === id)`. */
  function FindIndex(records: seq<Json.Fields>, id: Json.Value): (r: int)
    ensures -1 <= r < |records|
    ensures r >= 0 ==> SameId(IdOf(records[r]), id) && forall j :: 0 <= j < r ==> !SameId(IdOf(records[j]), id)
    ensures r == -1 ==> forall j :: 0 <= j < |records| ==> !SameId(IdOf(records[j]), id)
    decreases |records|
  {
    if |records| == 0 then -1
    else if SameId(IdOf(records[0]), id) then 0
    else
      var k := FindIndex(records[1..], id);
      if k < 0 then -1 else k + 1
  }

  /** The scan task list after `updateScanTaskToProjectScanRecords(task)`. */
  function Upserted(records: seq<Json.Fields>, task: Json.Fields): seq<Json.Fields> {
    var index := FindIndex(records, IdOf(task));
    if |records| == 0 || index < 0 then records + [task]
    else records[index := Json.Spread(records[index], task)]
  }

  /**
   * Upsert appends a task whose id is new, and otherwise merges it into the
   * first record with that id, at the same position: the list grows by at
   * most one and every other record is unchanged.
   */
  lemma UpsertShape(records: seq<Json.Fields>, task: Json.Fields)
    ensures var r := Upserted(records, task);
      var i := FindIndex(records, IdOf(task));
      (i < 0 ==> r == records + [task])
      && (i >= 0 ==> |r| == |records| && r[i] == Json.Spread(records[i], task)
                     && forall j :: 0 <= j < |records| && j != i ==> r[j] == records[j])
  {
  }

  /** After the upsert the merged record holds every value of the scan task and keeps its other values. */
  lemma UpsertedRecordCarriesTask(records: seq<Json.Fields>, task: Json.Fields, k: string)
    requires Json.UniqueKeys(task)
    requires FindIndex(records, IdOf(task)) >= 0
    ensures var i := FindIndex(records, IdOf(task));
      Json.Lookup(Upserted(records, task)[i], k) ==
        if Json.HasKey(task, k) then Json.Lookup(task, k) else Json.Lookup(records[i], k)
  {
    var i := FindIndex(records, IdOf(task));
    Json.SpreadLookup(records[i], task, k);
  }

  // -------------------------------------------------------------- housekeeping

  /** One entry of the state folder, as `readdir` lists it and `lstat` classifies it. */
  datatype DirEntry = DirEntry(name: string, isDirectory: bool)

  /** `records.slice(start)` with JavaScript's handling of a negative start. */
  function SliceFrom<T>(records: seq<T>, start: int): (r: seq<T>)
    ensures |r| <= |records|
  {
    var from := if start < 0 then (if |records| + start < 0 then 0 else |records| + start)
                else (if start > |records| then |records| else start);
    records[from..]
  }

  function Ids(records: seq<Json.Fields>): (r: seq<Json.Value>)
    ensures |r| == |records| && forall i :: 0 <= i < |records| ==> r[i] == IdOf(records[i])
  {
    seq(|records|, i requires 0 <= i < |records| => IdOf(records[i]))
  }

  /** The ids housekeeping keeps: those of `records.slice(-maxTaskFolders)`. */
  function KeepSet(records: seq<Json.Fields>, maxTaskFolders: int): seq<Json.Value> {
    Ids(SliceFrom(records, -maxTaskFolders))
  }

  /**
   * Housekeeping keeps the ids of the last `maxTaskFolders` records; with
   * `maxTaskFolders` 0, `slice(-0)` is `slice(0)` and every record is kept.
   */
  lemma KeepSetIsLastRecords(records: seq<Json.Fields>, maxTaskFolders: int)
    ensures 0 < maxTaskFolders <= |records| ==> KeepSet(records, maxTaskFolders) == Ids(records[|records| - maxTaskFolders..])
    ensures maxTaskFolders == 0 || maxTaskFolders >= |records| ==> KeepSet(records, maxTaskFolders) == Ids(records)
    ensures records == [] ==> KeepSet(records, maxTaskFolders) == []
  {
    assert records[0..] == records;
  }

  /** The entries that survive housekeeping: every directory not in the keep-set is deleted. */
  function Surviving(entries: seq<DirEntry>, keep: seq<Json.Value>): (r: seq<DirEntry>)
    ensures |r| <= |entries|
    decreases |entries|
  {
    if |entries| == 0 then []
    else
      var e := entries[0];
      (if e.isDirectory && Json.Str(e.name) !in keep then [] else [e]) + Surviving(entries[1..], keep)
  }

  /** An entry survives iff it is not a directory or its name is a kept id. */
  lemma {:induction false} SurvivingMembers(entries: seq<DirEntry>, keep: seq<Json.Value>, e: DirEntry)
    ensures e in Surviving(entries, keep) <==> e in entries && (!e.isDirectory || Json.Str(e.name) in keep)
    decreases |entries|
  {
    if |entries| > 0 {
      SurvivingMembers(entries[1..], keep, e);
      assert entries == [entries[0]] + entries[1..];
    }
  }

  /** With no task records every task directory is deleted, and the other entries stay. */
  lemma NoRecordsDeletesEveryDirectory(entries: seq<DirEntry>, maxTaskFolders: int)
    ensures forall e :: e in Surviving(entries, KeepSet([], maxTaskFolders)) <==> e in entries && !e.isDirectory
  {
    KeepSetIsLastRecords([], maxTaskFolders);
    forall e ensures e in Surviving(entries, KeepSet([], maxTaskFolders)) <==> e in entries && !e.isDirectory {
      SurvivingMembers(entries, [], e);
    }
  }

  // ------------------------------------------------------------------ cancel

  const NoScanRecordKey := "E_CLIENT_NO_SCAN_RECORD_FOUND"
  const SubmitScanTask := "SUBMIT_SCAN_TASK"

  /** The default cancel record, which the argument's properties override. */
  function CancelDefaults(now: int, projectId: Json.Value, projectUuid: Json.Value): Json.Fields {
    [("time", Json.Num(now)), ("scanTaskId", Json.Null), ("submitted", Json.Bool(false)),
     ("projectId", projectId), ("projectUUID", projectUuid), ("cancelResult", Json.Str(Enums.Success)),
     ("reason", Json.Str("")), ("exitCode", Json.Num(0))]
  }

  /** `lastScanRecord.status.activityLog` when it is an array; `None` when reading or searching it throws. */
  function ActivityLogOf(record: Json.Fields): Option<seq<Json.Value>> {
    match Json.Get(record, "status")
    case Obj(f) => (match Json.Get(f, "activityLog") case Arr(items) => Some(items) case _ => None)
    case _ => None
  }

  datatype Found = FoundLog(log: Json.Fields) | NotFound | FindThrows

  /** `activityLog.find(activity => activity.stepName === 'SUBMIT_SCAN_TASK')`. */
  function FindSubmitLog(items: seq<Json.Value>): (r: Found)
    ensures r.FoundLog? ==> Json.Obj(r.log) in items && Json.Get(r.log, "stepName") == Json.Str(SubmitScanTask)
    decreases |items|
  {
    if |items| == 0 then NotFound
    else match items[0]
      case Undefined => FindThrows
      case Null => FindThrows
      case Obj(f) =>
        if Json.Get(f, "stepName") == Json.Str(SubmitScanTask) then FoundLog(f)
        else FindSubmitLog(items[1..])
      case _ => FindSubmitLog(items[1..])
  }

  /** What a cancel request decides: the exit code, the cancel record's own properties, and whom the cancel API is called for. */
  datatype CancelPlan = Plan(exitCode: int, record: Json.Fields, cancelApiFor: Option<Json.Value>) | PlanThrows

  /** The cancel record of a refused cancel: FAILED with the printed no-scan-record message and the exit code. */
  function RefusedCancel(catalog: Messages.Catalog, globalLocale: string, code: int): (r: Json.Fields)
    ensures |r| == 3 && r[0] == ("cancelResult", Json.Str(Enums.Failed)) && r[2] == ("exitCode", Json.Num(code))
    ensures Json.Lookup(r, "cancelResult") == Some(Json.Str(Enums.Failed))
    ensures Json.Lookup(r, "exitCode") == Some(Json.Num(code))
    ensures var reason := Json.Lookup(r, "reason");
      reason.Some? && reason.value.Str? && Messages.Print(catalog, NoScanRecordKey, [], globalLocale) == Some(reason.value.s)
    ensures !Json.HasKey(r, "scanTaskId") && !Json.HasKey(r, "submitted")
  {
    [("cancelResult", Json.Str(Enums.Failed)),
     ("reason", Json.Str(Messages.PrintPlain(catalog, NoScanRecordKey, globalLocale))),
     ("exitCode", Json.Num(code))]
  }

  /**
   * The cancel record of an accepted cancel: the scan id, SUCCESS and exit
   * code 0; when the API is called it is marked `submitted` and gives the
   * reason, otherwise it has no reason (the source leaves that line
   * commented out).
   */
  function AcceptedCancel(scanId: Json.Value, submitted: bool): (r: Json.Fields)
    ensures 0 < |r| && r[0] == ("scanTaskId", scanId) && r[|r| - 1] == ("exitCode", Json.Num(0))
    ensures submitted <==> ("submitted", Json.Bool(true)) in r
    ensures Json.Lookup(r, "scanTaskId") == Some(scanId)
    ensures Json.Lookup(r, "cancelResult") == Some(Json.Str(Enums.Success))
    ensures Json.Lookup(r, "exitCode") == Some(Json.Num(0))
    ensures submitted ==> Json.Lookup(r, "submitted") == Some(Json.Bool(true))
    ensures submitted ==> Json.Lookup(r, "reason") == Some(Json.Str(SubmittedReason(scanId)))
    ensures !submitted ==> !Json.HasKey(r, "submitted") && !Json.HasKey(r, "reason")
  {
    if submitted then SubmittedCancel(scanId) else UnsubmittedCancel(scanId)
  }

  /** The reason an accepted cancel of a submitted scan task gives. */
  function SubmittedReason(scanId: Json.Value): string {
    "[Cancel] Scan task Id [" + Json.ToText(scanId) + "] found which has been submitted, Cancel API sent for cancelling on server side"
  }

  function SubmittedCancel(scanId: Json.Value): (r: Json.Fields)
    ensures 0 < |r| && r[0] == ("scanTaskId", scanId) && r[|r| - 1] == ("exitCode", Json.Num(0))
    ensures ("submitted", Json.Bool(true)) in r
    ensures Json.Lookup(r, "scanTaskId") == Some(scanId) && Json.Lookup(r, "submitted") == Some(Json.Bool(true))
    ensures Json.Lookup(r, "cancelResult") == Some(Json.Str(Enums.Success))
    ensures Json.Lookup(r, "reason") == Some(Json.Str(SubmittedReason(scanId)))
    ensures Json.Lookup(r, "exitCode") == Some(Json.Num(0))
  {
    var r := [("scanTaskId", scanId)] + ([("submitted", Json.Bool(true))] + ([("cancelResult", Json.Str(Enums.Success))]
             + ([("reason", Json.Str(SubmittedReason(scanId)))] + [("exitCode", Json.Num(0))])));
    assert r[1] == ("submitted", Json.Bool(true)) && r[|r| - 1] == ("exitCode", Json.Num(0));
    assert |"scanTaskId"| == 10 && |"submitted"| == 9 && |"cancelResult"| == 12 && |"reason"| == 6 && |"exitCode"| == 8;
    Json.Five("scanTaskId", scanId, "submitted", Json.Bool(true), "cancelResult", Json.Str(Enums.Success),
              "reason", Json.Str(SubmittedReason(scanId)), "exitCode", Json.Num(0));
    r
  }

  function UnsubmittedCancel(scanId: Json.Value): (r: Json.Fields)
    ensures 0 < |r| && r[0] == ("scanTaskId", scanId) && r[|r| - 1] == ("exitCode", Json.Num(0))
    ensures ("submitted", Json.Bool(true)) !in r
    ensures Json.Lookup(r, "scanTaskId") == Some(scanId)
    ensures Json.Lookup(r, "cancelResult") == Some(Json.Str(Enums.Success))
    ensures Json.Lookup(r, "exitCode") == Some(Json.Num(0))
    ensures !Json.HasKey(r, "submitted") && !Json.HasKey(r, "reason")
  {
    var r := [("scanTaskId", scanId), ("cancelResult", Json.Str(Enums.Success)), ("exitCode", Json.Num(0))];
    assert |"scanTaskId"| == 10 && |"submitted"| == 9 && |"cancelResult"| == 12 && |"reason"| == 6 && |"exitCode"| == 8;
    Json.LookupAt(r, 0); Json.LookupAt(r, 1); Json.LookupAt(r, 2);
    Json.NoKeyOfLength(r, "submitted"); Json.NoKeyOfLength(r, "reason");
    r
  }


  /** The decision ladder of `cancelScanByProjectId`; every recorded decision ends with the exit code the process exits with. */
  function CancelDecision(records: seq<Json.Fields>, catalog: Messages.Catalog, globalLocale: string): (p: CancelPlan)
    ensures p.Plan? ==> |p.record| > 0 && p.record[|p.record| - 1] == ("exitCode", Json.Num(p.exitCode))
  {
    if |records| == 0 then
      Plan(Enums.ExitGeneralError, RefusedCancel(catalog, globalLocale, 1), None)
    else
      var last := records[|records| - 1];
      var scanId := Json.Get(last, "onlineScanId");
      if !Json.Truthy(scanId) then
        Plan(Enums.ExitNoScanRecord, RefusedCancel(catalog, globalLocale, Enums.ExitNoScanRecord), None)
      else match ActivityLogOf(last)
        case None => PlanThrows
        case Some(items) =>
          match FindSubmitLog(items)
          case FindThrows => PlanThrows
          case FoundLog(log) =>
            if Json.Get(log, "status") == Json.Str(Enums.Success) then Plan(Enums.ExitOk, AcceptedCancel(scanId, true), Some(scanId))
            else Plan(Enums.ExitOk, AcceptedCancel(scanId, false), None)
          case NotFound => Plan(Enums.ExitOk, AcceptedCancel(scanId, false), None)
  }

  /** With no task records the cancel fails with exit code 1 and calls no API. */
  lemma CancelWithoutRecords(catalog: Messages.Catalog, locale: string)
    ensures var p := CancelDecision([], catalog, locale);
      p.Plan? && p.exitCode == Enums.ExitGeneralError && p.cancelApiFor == None
      && p.record[0] == ("cancelResult", Json.Str(Enums.Failed))
  {
  }

  /** When the last record has no online scan id the cancel fails with exit code 10 and calls no API. */
  lemma CancelWithoutOnlineScanId(records: seq<Json.Fields>, catalog: Messages.Catalog, locale: string)
    requires records != [] && !Json.Truthy(Json.Get(records[|records| - 1], "onlineScanId"))
    ensures var p := CancelDecision(records, catalog, locale);
      p.Plan? && p.exitCode == Enums.ExitNoScanRecord && p.cancelApiFor == None
      && p.record[0] == ("cancelResult", Json.Str(Enums.Failed))
  {
  }

  /** A cancel exits with 0 only when the last task record has an online scan id. */
  lemma CancelSucceedsOnlyWithScanId(records: seq<Json.Fields>, catalog: Messages.Catalog, locale: string)
    ensures var p := CancelDecision(records, catalog, locale);
      p.Plan? && p.exitCode == 0 ==> records != [] && Json.Truthy(Json.Get(records[|records| - 1], "onlineScanId"))
  {
  }

  /** The cancel API is only called, for the last record's online scan id, with exit code 0 and a `submitted` record. */
  lemma CancelApiTarget(records: seq<Json.Fields>, catalog: Messages.Catalog, locale: string)
    ensures var p := CancelDecision(records, catalog, locale);
      p.Plan? && p.cancelApiFor.Some? ==>
        p.exitCode == 0 && records != [] && p.cancelApiFor.value == Json.Get(records[|records| - 1], "onlineScanId")
        && ("submitted", Json.Bool(true)) in p.record
  {
  }

  /** The cancel API is called exactly when the last record's SUBMIT_SCAN_TASK step is a success. */
  lemma CancelApiIffSubmitted(records: seq<Json.Fields>, catalog: Messages.Catalog, locale: string)
    requires records != [] && Json.Truthy(Json.Get(records[|records| - 1], "onlineScanId"))
    requires ActivityLogOf(records[|records| - 1]).Some?
    ensures var p := CancelDecision(records, catalog, locale);
      var f := FindSubmitLog(ActivityLogOf(records[|records| - 1]).value);
      (p.Plan? && p.cancelApiFor.Some?) <==> f.FoundLog? && Json.Get(f.log, "status") == Json.Str(Enums.Success)
  {
  }

  /** A cancel that is decided records SUCCESS exactly when it exits with 0, and FAILED otherwise. */
  lemma CancelResultFollowsExitCode(records: seq<Json.Fields>, catalog: Messages.Catalog, locale: string)
    ensures var p := CancelDecision(records, catalog, locale);
      p.Plan? ==>
        Json.Lookup(p.record, "cancelResult") == Some(Json.Str(if p.exitCode == 0 then Enums.Success else Enums.Failed))
  {
  }

  /** The outcome of a cancel request: the process exit, or the TypeError it dies of. */
  datatype CancelOutcome = CancelExit(code: int, cancelApiFor: Option<Json.Value>) | CancelThrows

  class Project {
    const id: Json.Value
    const uuid: Json.Value
    const name: Json.Value
    const config: Json.Value
    var taskRecords: seq<Json.Fields>
    var cancelRecords: seq<Json.Fields>
    /** The entries of the state folder that holds one directory per scan task. */
    var stateFolder: seq<DirEntry>
    var maxTaskFolders: int
    var cicd: Json.Fields

    constructor (id: Json.Value, uuid: Json.Value, name: Json.Value, config: Json.Value,
                 taskRecords: seq<Json.Fields>, stateFolder: seq<DirEntry>, maxTaskFolders: int, cicd: Json.Fields)
      ensures this.id == id && this.uuid == uuid && this.name == name && this.config == config
      ensures this.taskRecords == taskRecords
      ensures this.stateFolder == stateFolder && this.maxTaskFolders == maxTaskFolders && this.cicd == cicd
      ensures cancelRecords == []
    {
      this.id := id;
      this.uuid := uuid;
      this.name := name;
      this.config := config;
      this.taskRecords := taskRecords;
      this.stateFolder := stateFolder;
      this.maxTaskFolders := maxTaskFolders;
      this.cicd := cicd;
      cancelRecords := [];
    }

    /** `updateScanTaskToProjectScanRecords(task)` (the file write is left out). */
    method UpdateScanTaskToProjectScanRecords(task: Json.Fields)
      modifies this`taskRecords
      ensures taskRecords == Upserted(old(taskRecords), task)
    {
      var index := FindIndex(taskRecords, IdOf(task));
      if |taskRecords| == 0 || index < 0 {
        taskRecords := taskRecords + [task];
      } else {
        taskRecords := taskRecords[index := Json.Spread(taskRecords[index], task)];
      }
    }

    /** `cleanupTaskFolders()`: deletes every task directory whose id is not kept. */
    method CleanupTaskFolders()
      modifies this`stateFolder
      ensures stateFolder == Surviving(old(stateFolder), KeepSet(taskRecords, maxTaskFolders))
    {
      var keep := KeepSet(taskRecords, maxTaskFolders);
      var paths := stateFolder;
      var remaining: seq<DirEntry> := [];
      var i := 0;
      while i < |paths|
        invariant 0 <= i <= |paths|
        invariant remaining + Surviving(paths[i..], keep) == Surviving(paths, keep)
      {
        var e := paths[i];
        assert paths[i..][0] == e && paths[i..][1..] == paths[i + 1..];
        var rest := Surviving(paths[i + 1..], keep);
        if e.isDirectory && Json.Str(e.name) !in keep {
          // rmdir recursive: the scan task directory disappears
          assert Surviving(paths[i..], keep) == [] + rest;
          assert [] + rest == rest;
        } else {
          assert Surviving(paths[i..], keep) == [e] + rest;
          assert (remaining + [e]) + rest == remaining + ([e] + rest);
          remaining := remaining + [e];
        }
        i := i + 1;
      }
      assert paths[i..] == [];
      stateFolder := remaining;
    }

    /** `_writeCancelRecord(arg)`: appends the defaults overridden by the argument (the file write is left out). */
    method WriteCancelRecord(arg: Json.Fields, now: int)
      modifies this`cancelRecords
      ensures cancelRecords == old(cancelRecords) + [Json.Spread(CancelDefaults(now, id, uuid), arg)]
    {
      cancelRecords := cancelRecords + [Json.Spread(CancelDefaults(now, id, uuid), arg)];
    }

    /** `cancelScanByProjectId()`: decides, records the decision, and exits. */
    method CancelScanByProjectId(catalog: Messages.Catalog, globalLocale: string, now: int) returns (r: CancelOutcome)
      modifies this`cancelRecords
      ensures var p := CancelDecision(taskRecords, catalog, globalLocale);
        (p.PlanThrows? ==> r == CancelThrows && cancelRecords == old(cancelRecords))
        && (p.Plan? ==> r == CancelExit(p.exitCode, p.cancelApiFor)
                        && cancelRecords == old(cancelRecords) + [Json.Spread(CancelDefaults(now, id, uuid), p.record)])
    {
      var plan := CancelDecision(taskRecords, catalog, globalLocale);
      if plan.PlanThrows? {
        r := CancelThrows;
      } else {
        WriteCancelRecord(plan.record, now);
        r := CancelExit(plan.exitCode, plan.cancelApiFor);
      }
    }

    /** `setCicdState(state)`: records the next CI/CD state. */
    method SetCicdState(next: Json.Value)
      modifies this`cicd
      ensures cicd == Json.Set(old(cicd), "nextState", next)
      ensures Json.Get(cicd, "nextState") == next
    {
      Json.LookupSetSame(cicd, "nextState", next);
      cicd := Json.Set(cicd, "nextState", next);
    }
  }
}
