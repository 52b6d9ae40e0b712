/**
 * A scan and its phases (model/Scan.js, model/Phase.js). A phase runs its
 * steps in order and stops at the first that fails; every executed step
 * leaves a record in the scan's activity log. A scan runs its phases in
 * order, turns the first rejection into a FAILED status with a reason, and
 * finishes by exiting 0 on SUCCESS and 1 otherwise.
 */
module ScanTask {
  import opened Wrappers
  import Json
  import Enums
  import Messages
  import FlowPolicy
  import States
  import SubPhases
  import Projects

  /** How a phase's `run()` settles: it resolves with `true` or rejects with an error. */
  datatype PhaseResult = PhaseResolved | PhaseRejected(error: SubPhases.Report)

  /**
   * The error text of a rejection: `e.logs.error` when it is truthy, otherwise
   * the last stderr line (stderr being an array) or stderr itself. `None` is
   * the TypeError of reading a property of missing logs.
   */
  function ReportedError(e: SubPhases.Report): (r: Option<Json.Value>)
    ensures r.None? <==> SubPhases.LogsOf(e).None?
    ensures r.Some? && Json.Truthy(SubPhases.LogsOf(e).value.error) ==> r.value == SubPhases.LogsOf(e).value.error
  {
    match SubPhases.LogsOf(e)
    case None => None
    case Some(logs) =>
      if Json.Truthy(logs.error) then Some(logs.error)
      else match logs.stderr
        case Arr(lines) => Some(if |lines| == 0 then Json.Undefined else lines[|lines| - 1])
        case other => Some(other)
  }

  // ----------------------------------------------------------------- phase

  /**
   * What a phase makes of one step's outcome: whether it closes the step's
   * record (`updateStatus`), with which status and reason, and the error the
   * phase rejects with, if it stops here.
   */
  datatype StepVerdict = StepVerdict(closed: bool, status: string, reason: Json.Value, rejection: Option<SubPhases.Report>)

  /** The body of the phase loop for one step, from `execute()`'s outcome. */
  function Verdict(r: SubPhases.ExecResult): (v: StepVerdict)
    ensures v.rejection.None? <==> r.Resolved? && r.value.Report? && r.value.status == Json.Num(0)
    ensures v.rejection.None? ==> v.closed && v.status == Enums.Success
    ensures v.closed ==> (v.status == Enums.Success) == v.rejection.None?
    ensures !v.closed ==> v.status == Enums.Pending && v.rejection == Some(SubPhases.TypeError)
  {
    match r
    case Resolved(value) =>
      if value.Report? && value.status == Json.Num(0) then StepVerdict(true, Enums.Success, Json.Undefined, None)
      else StepVerdict(true, Enums.Failed, Json.Undefined, Some(value))
    case Rejected(e) =>
      match ReportedError(e)
      case None => StepVerdict(false, Enums.Pending, Json.Str(""), Some(SubPhases.TypeError))
      case Some(error) =>
        // logging `error.code` throws when the error is undefined or null
        StepVerdict(true, Enums.Failed, error, Some(if error.Undefined? || error.Null? then SubPhases.TypeError else e))
  }

  /** The clock readings of one step: when its State is created, before `execute()`, and when it is closed. */
  datatype StepTimes = StepTimes(started: int, ended: int)

  /**
   * The activity record of a step the phase ran with verdict `v`, started at
   * `t.started`: PENDING and open when the verdict leaves it so, otherwise
   * closed at `t.ended` with the verdict's status and reason and the time
   * between the two readings; `others` holds the step's published state.
   */
  function StepRecord(name: string, stepType: string, v: StepVerdict, others: Json.Fields, t: StepTimes): (r: States.StateRecord)
    ensures r.stepName == name && r.status == (if v.closed then v.status else Enums.Pending)
    ensures r.startedAt == t.started
    ensures r.endedAt == (if v.closed then Some(t.ended) else None)
    ensures r.elapsed == (if v.closed then Some(States.ElapsedText(t.started, t.ended)) else None)
    ensures r.others == Json.Spread([], others)
  {
    if v.closed then
      States.StateRecord(t.started, name, stepType, "", v.status, Some(t.ended), Some(States.ElapsedText(t.started, t.ended)),
                         Json.Spread([], others), v.reason)
    else
      States.StateRecord(t.started, name, stepType, "", Enums.Pending, None, None, Json.Spread([], others), Json.Str(""))
  }

  /** Record `j` started at the first reading of step `j` and, when closed, ended at its second. */
  predicate Timed(records: seq<States.StateRecord>, times: nat -> StepTimes) {
    forall j :: 0 <= j < |records| ==>
      records[j].startedAt == times(j).started && (records[j].endedAt.Some? ==> records[j].endedAt.value == times(j).ended)
  }

  /** A step recorded with its own readings keeps the records timed. */
  lemma TimedAppend(records: seq<States.StateRecord>, record: States.StateRecord, times: nat -> StepTimes)
    requires Timed(records, times)
    requires record.startedAt == times(|records|).started
    requires record.endedAt.Some? ==> record.endedAt.value == times(|records|).ended
    ensures Timed(records + [record], times)
  {
  }

  /** How many steps a phase executes, and how it settles. */
  datatype PhaseRun = PhaseRun(steps: nat, result: PhaseResult)

  /** The fail-fast loop of `run()` over the outcomes of its steps. */
  function RunFrom(plan: seq<SubPhases.ExecResult>): (p: PhaseRun)
    ensures p.steps <= |plan|
    decreases |plan|
  {
    if |plan| == 0 then PhaseRun(0, PhaseResolved)
    else
      var v := Verdict(plan[0]);
      if v.rejection.Some? then PhaseRun(1, PhaseRejected(v.rejection.value))
      else
        var rest := RunFrom(plan[1..]);
        PhaseRun(rest.steps + 1, rest.result)
  }

  /**
   * A phase resolves iff every step succeeds, and then executes them all;
   * when it rejects, the last executed step is the first that failed, and
   * the phase rejects with that step's rejection.
   */
  lemma {:induction false} RunFromFailFast(plan: seq<SubPhases.ExecResult>)
    ensures var p := RunFrom(plan);
      (p.result.PhaseResolved? <==> forall j :: 0 <= j < |plan| ==> Verdict(plan[j]).rejection.None?)
      && (p.result.PhaseResolved? ==> p.steps == |plan|)
      && (p.result.PhaseRejected? ==>
            0 < p.steps && Verdict(plan[p.steps - 1]).rejection == Some(p.result.error)
            && forall j :: 0 <= j < p.steps - 1 ==> Verdict(plan[j]).rejection.None?)
    decreases |plan|
  {
    if |plan| > 0 && Verdict(plan[0]).rejection.None? {
      RunFromFailFast(plan[1..]);
      assert forall j :: 1 <= j < |plan| ==> plan[j] == plan[1..][j - 1];
    }
  }

  /** The state a step pushes: `{[name]: result}` when it resolves, nothing otherwise. */
  function Delta(name: string, e: SubPhases.ExecResult): seq<(string, SubPhases.Report)> {
    if e.Resolved? then [(name, e.value)] else []
  }

  /** The `{[name]: result}` entries the first `n` steps push, in order: one per resolved step. */
  function Pushed(names: seq<string>, plan: seq<SubPhases.ExecResult>, n: nat): seq<(string, SubPhases.Report)>
    requires n <= |names| == |plan|
  {
    if n == 0 then [] else Pushed(names, plan, n - 1) + Delta(names[n - 1], plan[n - 1])
  }

  /** Only resolved steps push a state, each under its step's name. */
  lemma {:induction false} PushedAreResolved(names: seq<string>, plan: seq<SubPhases.ExecResult>, n: nat, e: (string, SubPhases.Report))
    requires n <= |names| == |plan|
    requires e in Pushed(names, plan, n)
    ensures exists j :: 0 <= j < n && plan[j].Resolved? && e == (names[j], plan[j].value)
  {
    if e !in Delta(names[n - 1], plan[n - 1]) {
      PushedAreResolved(names, plan, n - 1, e);
    }
  }

  /** Every resolved step among the first `n` pushes its state. */
  lemma {:induction false} ResolvedArePushed(names: seq<string>, plan: seq<SubPhases.ExecResult>, n: nat, j: nat)
    requires n <= |names| == |plan| && j < n && plan[j].Resolved?
    ensures (names[j], plan[j].value) in Pushed(names, plan, n)
  {
    if j < n - 1 {
      ResolvedArePushed(names, plan, n - 1, j);
    }
  }

  /** The loop of `run()` resumed at step `i`, counting the `i` steps already executed. */
  function ResumedAt(plan: seq<SubPhases.ExecResult>, i: nat): PhaseRun
    requires i <= |plan|
  {
    var rest := RunFrom(plan[i..]);
    PhaseRun(i + rest.steps, rest.result)
  }

  /** The loop of `run()` at step `i`: it goes on past a step that succeeds and stops at one that fails. */
  lemma RunFromAt(plan: seq<SubPhases.ExecResult>, i: nat)
    requires i < |plan|
    requires RunFrom(plan) == ResumedAt(plan, i)
    ensures var v := Verdict(plan[i]);
      (v.rejection.Some? ==> RunFrom(plan) == PhaseRun(i + 1, PhaseRejected(v.rejection.value)))
      && (v.rejection.None? ==> RunFrom(plan) == ResumedAt(plan, i + 1))
  {
    assert plan[i..][0] == plan[i] && plan[i..][1..] == plan[i + 1..];
  }

  /** The step name and status of each activity record. */
  function Steps(records: seq<States.StateRecord>): (r: seq<(string, string)>)
    ensures |r| == |records|
  {
    if |records| == 0 then []
    else Steps(records[..|records| - 1]) + [(records[|records| - 1].stepName, records[|records| - 1].status)]
  }

  /** The name and the status its verdict gives of each of the first `n` steps. */
  function Stepped(names: seq<string>, plan: seq<SubPhases.ExecResult>, n: nat): (r: seq<(string, string)>)
    requires n <= |names| == |plan|
    ensures |r| == n
  {
    if n == 0 then [] else Stepped(names, plan, n - 1) + [(names[n - 1], Verdict(plan[n - 1]).status)]
  }

  /** One pass of the loop of `run()`, on the values it tracks. */
  lemma Advance(plan: seq<SubPhases.ExecResult>, names: seq<string>, i: nat,
                log0: seq<States.StateRecord>, records: seq<States.StateRecord>, record: States.StateRecord,
                stack0: seq<(string, SubPhases.Report)>, v: StepVerdict)
    requires i < |plan| == |names| && |records| == i
    requires v == Verdict(plan[i]) && record.stepName == names[i] && record.status == v.status
    requires RunFrom(plan) == ResumedAt(plan, i)
    requires Steps(records) == Stepped(names, plan, i)
    ensures (log0 + records) + [record] == log0 + (records + [record])
    ensures (stack0 + Pushed(names, plan, i)) + Delta(names[i], plan[i]) == stack0 + Pushed(names, plan, i + 1)
    ensures Steps(records + [record]) == Stepped(names, plan, i + 1)
    ensures v.rejection.Some? ==> RunFrom(plan) == PhaseRun(i + 1, PhaseRejected(v.rejection.value))
    ensures v.rejection.None? ==> RunFrom(plan) == ResumedAt(plan, i + 1)
  {
    RunFromAt(plan, i);
    assert (records + [record])[..i] == records;
    Associative(log0, records, [record]);
    Associative(stack0, Pushed(names, plan, i), Delta(names[i], plan[i]));
  }

  lemma Associative<T>(a: seq<T>, b: seq<T>, c: seq<T>)
    ensures a + (b + c) == (a + b) + c
  {
  }

  /** What each step's `execute()` yields, as decided by its `run()` and the mandatory flag in force after it. */
  function Plans(sps: seq<SubPhases.SubPhase>): (r: seq<SubPhases.ExecResult>)
    reads sps`policy
    ensures |r| == |sps|
    ensures forall j :: 0 <= j < |sps| ==> r[j] == SubPhases.ExecOutcome(Flag(sps[j]), sps[j].run.outcome)
    decreases |sps|
  {
    if |sps| == 0 then []
    else [SubPhases.StepOutcome(sps[0].policy, sps[0].run)] + Plans(sps[1..])
  }

  /** The mandatory flag a step's `execute()` reads once its `run()` has returned. */
  function Flag(sp: SubPhases.SubPhase): bool
    reads sp`policy
  {
    SubPhases.MandatoryAfter(sp.policy, sp.run)
  }

  function Names(sps: seq<SubPhases.SubPhase>): (r: seq<string>)
    ensures |r| == |sps| && forall j :: 0 <= j < |sps| ==> r[j] == sps[j].name
    decreases |sps|
  {
    if |sps| == 0 then [] else [sps[0].name] + Names(sps[1..])
  }

  /** Steps whose flags after their runs are as they were have the outcomes they had. */
  twostate lemma {:induction false} PlansUnchanged(sps: seq<SubPhases.SubPhase>)
    requires forall sp :: sp in sps ==> Flag(sp) == old(Flag(sp))
    ensures Plans(sps) == old(Plans(sps))
    decreases |sps|
  {
    if |sps| > 0 {
      assert forall sp :: sp in sps[1..] ==> sp in sps;
      PlansUnchanged(sps[1..]);
    }
  }

  class Phase {
    const name: string
    var policy: Option<FlowPolicy.PhasePolicy>
    var currentState: Option<(string, SubPhases.Report)>
    var stateStack: seq<(string, SubPhases.Report)>
    var subPhases: seq<SubPhases.SubPhase>

    /** `new Phase({name})`. */
    constructor (name: string)
      ensures this.name == name && policy == None && currentState == None
      ensures stateStack == [] && subPhases == []
    {
      this.name := name;
      policy := None;
      currentState := None;
      stateStack := [];
      subPhases := [];
    }

    /** `setPolicy(policy)`, which returns the phase for chaining. */
    method SetPolicy(p: FlowPolicy.PhasePolicy) returns (self: Phase)
      modifies this`policy
      ensures policy == Some(p) && self == this
    {
      policy := Some(p);
      self := this;
    }

    /** `addSubPhase(subPhase)`, which returns the phase for chaining. */
    method AddSubPhase(sp: SubPhases.SubPhase) returns (self: Phase)
      modifies this`subPhases
      ensures subPhases == old(subPhases) + [sp] && self == this
    {
      subPhases := subPhases + [sp];
      self := this;
    }

    /** The `state` setter: the current state is replaced and pushed onto the stack. */
    method SetState(s: (string, SubPhases.Report))
      modifies this`currentState, this`stateStack
      ensures currentState == Some(s) && stateStack == old(stateStack) + [s]
    {
      currentState := Some(s);
      stateStack := stateStack + [s];
    }

    /** Copies a step's published state into the record's `others`, key by key. */
    static method CopyOthers(st: States.State, fields: Json.Fields)
      modifies st
      ensures st.otherInfo == Json.Spread(old(st.otherInfo), fields)
      ensures st.status == old(st.status) && st.reason == old(st.reason)
      ensures st.startedAt == old(st.startedAt) && st.endedAt == old(st.endedAt) && st.elapsed == old(st.elapsed)
    {
      var k := 0;
      while k < |fields|
        invariant 0 <= k <= |fields|
        invariant Json.Spread(st.otherInfo, fields[k..]) == Json.Spread(old(st.otherInfo), fields)
        invariant st.status == old(st.status) && st.reason == old(st.reason)
        invariant st.startedAt == old(st.startedAt) && st.endedAt == old(st.endedAt) && st.elapsed == old(st.elapsed)
      {
        assert fields[k..][1..] == fields[k + 1..];
        st.SetOtherInfo(fields[k].0, fields[k].1);
        k := k + 1;
      }
    }

    /** The State of one executed step, closed unless its logs were missing, with the step's published state copied in. */
    static method Record(name: string, stepType: string, v: StepVerdict, others: Json.Fields, t: StepTimes)
      returns (record: States.StateRecord)
      ensures record == StepRecord(name, stepType, v, others, t)
    {
      var st := new States.State(name, "", stepType, "", t.started);
      if v.closed {
        st.UpdateStatus(v.status, v.reason, t.ended);
      }
      CopyOthers(st, others);
      record := st.JsonRecord();
    }

    /** Executes a step and, when it resolves, makes its report the phase's current state. */
    method ExecuteStep(sp: SubPhases.SubPhase) returns (res: SubPhases.ExecResult, v: StepVerdict)
      modifies this`currentState, this`stateStack, sp`policy, sp`flowLogs, sp`summary, sp`state
      ensures res == SubPhases.StepOutcome(sp.policy, sp.run) && v == Verdict(res)
      ensures Flag(sp) == old(Flag(sp))
      ensures stateStack == old(stateStack) + Delta(sp.name, res)
    {
      res := sp.Execute();
      SubPhases.PolicyAfterSettles(old(sp.policy), sp.run);
      if res.Resolved? {
        SetState((sp.name, res.value));
      }
      v := Verdict(res);
    }

    /** One pass of the loop of `run()`: executes the step and records it, whatever the outcome. */
    method RunStep(sp: SubPhases.SubPhase, scan: Scan, t: StepTimes)
      returns (res: SubPhases.ExecResult, v: StepVerdict, ghost record: States.StateRecord)
      modifies this`currentState, this`stateStack, scan`activityLog, scan`endTime, scan.project`taskRecords
      modifies sp`policy, sp`flowLogs, sp`summary, sp`state
      ensures res == SubPhases.StepOutcome(sp.policy, sp.run) && v == Verdict(res)
      ensures Flag(sp) == old(Flag(sp))
      ensures stateStack == old(stateStack) + Delta(sp.name, res)
      ensures record == StepRecord(sp.name, sp.stepType, v, sp.state, t)
      ensures record.stepName == sp.name && record.status == v.status
      ensures scan.activityLog == old(scan.activityLog) + [record]
    {
      res, v := ExecuteStep(sp);
      var json := Record(sp.name, sp.stepType, v, sp.state, t);
      record := json;
      scan.PushState(json, t.ended);
    }

    /** One pass of the loop of `run()`, on the values the loop tracks: step `i` executes and its record is appended. */
    method Step(i: nat, scan: Scan, times: nat -> StepTimes, ghost plan: seq<SubPhases.ExecResult>, ghost names: seq<string>,
                ghost log0: seq<States.StateRecord>, ghost stack0: seq<(string, SubPhases.Report)>,
                ghost records: seq<States.StateRecord>)
      returns (v: StepVerdict, next: nat, ghost records': seq<States.StateRecord>)
      requires i < |subPhases| && plan == Plans(subPhases) && names == Names(subPhases) && |records| == i
      requires Timed(records, times)
      requires RunFrom(plan) == ResumedAt(plan, i)
      requires scan.activityLog == log0 + records && Steps(records) == Stepped(names, plan, i)
      requires stateStack == stack0 + Pushed(names, plan, i)
      modifies this`currentState, this`stateStack, scan`activityLog, scan`endTime, scan.project`taskRecords
      modifies subPhases`policy, subPhases`flowLogs, subPhases`summary, subPhases`state
      ensures forall sp :: sp in subPhases ==> Flag(sp) == old(Flag(sp))
      ensures next == i + 1 <= |subPhases| && Plans(subPhases) == plan && v == Verdict(plan[i]) && |records'| == next
      ensures scan.activityLog == log0 + records' && Steps(records') == Stepped(names, plan, next)
      ensures Timed(records', times)
      ensures stateStack == stack0 + Pushed(names, plan, next)
      ensures v.rejection.Some? ==> RunFrom(plan) == PhaseRun(next, PhaseRejected(v.rejection.value))
      ensures v.rejection.None? ==> RunFrom(plan) == ResumedAt(plan, next)
    {
      label before:
      var res;
      ghost var record;
      res, v, record := RunStep(subPhases[i], scan, times(i));
      PlansUnchanged@before(subPhases);
      Advance(plan, names, i, log0, records, record, stack0, v);
      TimedAppend(records, record, times);
      records' := records + [record];
      next := i + 1;
    }

    /**
     * `run(scanInstance)`: executes the steps in order until one fails,
     * pushing one record per executed step onto the scan's activity log;
     * step `j` reads the clock at `times(j)`.
     */
    method Run(scan: Scan, times: nat -> StepTimes) returns (r: PhaseResult, ghost plan: seq<SubPhases.ExecResult>, ghost records: seq<States.StateRecord>)
      modifies this`currentState, this`stateStack, scan`activityLog, scan`endTime, scan.project`taskRecords
      modifies subPhases`policy, subPhases`flowLogs, subPhases`summary, subPhases`state
      ensures forall sp :: sp in subPhases ==> Flag(sp) == old(Flag(sp))
      ensures plan == old(Plans(subPhases)) && Plans(subPhases) == plan
      ensures RunFrom(plan) == PhaseRun(|records|, r)
      ensures scan.activityLog == old(scan.activityLog) + records
      ensures Steps(records) == Stepped(Names(subPhases), plan, |records|) && Timed(records, times)
      ensures stateStack == old(stateStack) + Pushed(Names(subPhases), plan, |records|)
    {
      plan := Plans(subPhases);
      ghost var names := Names(subPhases);
      ghost var log0 := scan.activityLog;
      ghost var stack0 := stateStack;
      records := [];
      var i := 0;
      while i < |subPhases|
        invariant 0 <= i <= |subPhases| && names == Names(subPhases)
        invariant Plans(subPhases) == plan
        invariant forall sp :: sp in subPhases ==> Flag(sp) == old(Flag(sp))
        invariant RunFrom(plan) == ResumedAt(plan, i)
        invariant |records| == i
        invariant scan.activityLog == log0 + records
        invariant Steps(records) == Stepped(names, plan, i) && Timed(records, times)
        invariant stateStack == stack0 + Pushed(names, plan, i)
      {
        var v;
        v, i, records := Step(i, scan, times, plan, names, log0, stack0, records);
        if v.rejection.Some? {
          r := PhaseRejected(v.rejection.value);
          return;
        }
      }
      assert plan[i..] == [];
      r := PhaseResolved;
    }
  }

  // ------------------------------------------------------------------ scan

  /** The activity log as JSON, record by record. */
  function LogJson(activityLog: seq<States.StateRecord>): (r: seq<Json.Value>)
    ensures |r| == |activityLog|
  {
    if |activityLog| == 0 then [] else LogJson(activityLog[..|activityLog| - 1]) + [Json.Obj(States.RecordJson(activityLog[|activityLog| - 1]))]
  }

  /** What the scan's state object holds: its status, its activity log and, after a failure, its reason. */
  function StateJson(status: string, activityLog: seq<States.StateRecord>, reason: Option<Json.Value>): Json.Fields {
    [("status", Json.Str(status)),
     ("activityLog", Json.Arr(LogJson(activityLog)))]
    + (if reason.Some? then [("reason", reason.value)] else [])
  }

  /** The `cicd` part of `getInfo()`, with its defaults for missing values. */
  function CicdInfo(cicd: Json.Fields): (r: Json.Fields)
    ensures |r| == 6
    ensures r[0] == ("pipelineType", if Json.Truthy(Json.Get(cicd, "repoAction")) then Json.Get(cicd, "repoAction")
                                     else Json.Str(Enums.RepoTrial))
    ensures r[2].1 != Json.Undefined && r[3].1 != Json.Undefined
  {
    [("pipelineType", Json.Or(Json.Get(cicd, "repoAction"), Json.Str(Enums.RepoTrial))),
     ("remoteUrl", Json.Or(Json.Get(cicd, "remoteUrl"), Json.Str(""))),
     ("baselineCommitId", Json.Or(Json.Get(cicd, "baselineCommitId"), Json.Null)),
     ("commitId", Json.Or(Json.Get(cicd, "commitId"), Json.Null)),
     ("currentState", Json.Get(cicd, "cicdFsmState")),
     ("nextState", Json.Get(cicd, "nextState"))]
  }

  /** The result of a failed scan's `catch`: its status, its reason and the finishing data. */
  datatype Caught = Caught(status: string, reason: Option<Json.Value>, finishing: Json.Fields)

  /**
   * The `catch` of `start()` as written: `e.logs.stderr` is read even when
   * `e.logs` is missing, so a rejection without logs throws before the
   * status is set and the status of the phases before it stands.
   */
  function CaughtAsWritten(prev: string, e: SubPhases.Report, taskId: string,
                           catalog: Messages.Catalog, locale: string): (c: Caught)
    ensures SubPhases.LogsOf(e).None? ==> c == Caught(prev, None, [])
    ensures SubPhases.LogsOf(e).Some? ==> c == CaughtCorrected(e, taskId, catalog, locale)
  {
    match ReportedError(e)
    case None => Caught(prev, None, [])
    case Some(error) => CaughtError(error, taskId, catalog, locale)
  }

  /** The `catch` once the error is known: FAILED, with the printed reason when printing it does not throw. */
  function CaughtError(error: Json.Value, taskId: string, catalog: Messages.Catalog, locale: string): (c: Caught)
    ensures c.status == Enums.Failed
  {
    match Messages.PrintValue(catalog, error, locale)
    case None => Caught(Enums.Failed, None, [])
    case Some(reason) =>
      Caught(Enums.Failed, Some(Json.Str(reason)),
             [("taskId", Json.Str(taskId)), ("reason", Json.Or(Json.Str(reason), error))])
  }

  /** The `catch` as intended: a rejection without logs has an undefined error and still fails the scan. */
  function CaughtCorrected(e: SubPhases.Report, taskId: string, catalog: Messages.Catalog, locale: string): (c: Caught)
    ensures c.status == Enums.Failed
    ensures SubPhases.LogsOf(e).Some? ==> c == CaughtError(ReportedError(e).value, taskId, catalog, locale)
  {
    CaughtError(ReportedError(e).GetOr(Json.Undefined), taskId, catalog, locale)
  }

  /**
   * The scan's status after `start()` runs phases with these step outcomes
   * from status `status`: each resolved phase sets SUCCESS, and the first
   * rejection goes to the `catch` as written.
   */
  function ScanStatus(status: string, plans: seq<seq<SubPhases.ExecResult>>, taskId: string,
                      catalog: Messages.Catalog, locale: string): (r: string)
    ensures r == status || r == Enums.Success || r == Enums.Failed
    decreases |plans|
  {
    if |plans| == 0 then status
    else match RunFrom(plans[0]).result
      case PhaseResolved => ScanStatus(Enums.Success, plans[1..], taskId, catalog, locale)
      case PhaseRejected(e) => CaughtAsWritten(status, e, taskId, catalog, locale).status
  }

  /** The status `start()` is meant to leave: the first rejection goes to the corrected `catch`. */
  function IntendedScanStatus(status: string, plans: seq<seq<SubPhases.ExecResult>>, taskId: string,
                              catalog: Messages.Catalog, locale: string): string
    decreases |plans|
  {
    if |plans| == 0 then status
    else match RunFrom(plans[0]).result
      case PhaseResolved => IntendedScanStatus(Enums.Success, plans[1..], taskId, catalog, locale)
      case PhaseRejected(e) => CaughtCorrected(e, taskId, catalog, locale).status
  }

  /**
   * As intended, a scan ends in SUCCESS iff it has phases and every step of
   * every phase succeeds, or it has none and already was.
   */
  lemma {:induction false} ScanSucceedsIffAllStepsSucceed(status: string, plans: seq<seq<SubPhases.ExecResult>>,
                                                          taskId: string, catalog: Messages.Catalog, locale: string)
    ensures IntendedScanStatus(status, plans, taskId, catalog, locale) == Enums.Success <==>
      (|plans| > 0 || status == Enums.Success)
      && forall k, j :: 0 <= k < |plans| && 0 <= j < |plans[k]| ==> Verdict(plans[k][j]).rejection.None?
    decreases |plans|
  {
    if |plans| > 0 {
      RunFromFailFast(plans[0]);
      if RunFrom(plans[0]).result.PhaseResolved? {
        ScanSucceedsIffAllStepsSucceed(Enums.Success, plans[1..], taskId, catalog, locale);
        assert forall k :: 1 <= k < |plans| ==> plans[k] == plans[1..][k - 1];
      }
    }
  }

  /**
   * With the `catch` as written, a phase that rejects without logs after an
   * earlier phase succeeded leaves the scan in SUCCESS, so it exits 0.
   */
  lemma RejectionWithoutLogsKeepsSuccess(taskId: string, catalog: Messages.Catalog, locale: string)
    ensures CaughtAsWritten(Enums.Success, SubPhases.TypeError, taskId, catalog, locale).status == Enums.Success
    ensures CaughtCorrected(SubPhases.TypeError, taskId, catalog, locale).status == Enums.Failed
  {
  }

  /** The error of the first phase that rejects, if one does: `start()` stops there. */
  function FirstRejection(plans: seq<seq<SubPhases.ExecResult>>): Option<SubPhases.Report>
    decreases |plans|
  {
    if |plans| == 0 then None
    else match RunFrom(plans[0]).result
      case PhaseResolved => FirstRejection(plans[1..])
      case PhaseRejected(e) => Some(e)
  }

  /**
   * The status `start()` as written leaves: FAILED after a rejection with
   * logs; after a rejection without logs, SUCCESS when the first phase
   * resolved and the starting status otherwise; SUCCESS when phases ran and
   * all resolved; the starting status when there are none.
   */
  lemma {:induction false} StatusFromFirstRejection(status: string, plans: seq<seq<SubPhases.ExecResult>>,
                                                    taskId: string, catalog: Messages.Catalog, locale: string)
    ensures ScanStatus(status, plans, taskId, catalog, locale) ==
      match FirstRejection(plans)
      case None => if |plans| > 0 then Enums.Success else status
      case Some(e) =>
        if SubPhases.LogsOf(e).Some? then Enums.Failed
        else if RunFrom(plans[0]).result.PhaseResolved? then Enums.Success
        else status
    decreases |plans|
  {
    if |plans| > 0 && RunFrom(plans[0]).result.PhaseResolved? {
      StatusFromFirstRejection(Enums.Success, plans[1..], taskId, catalog, locale);
    }
  }

  /** As intended, the status is FAILED after any rejection, SUCCESS when phases ran and all resolved, and untouched otherwise. */
  lemma {:induction false} IntendedStatusFromFirstRejection(status: string, plans: seq<seq<SubPhases.ExecResult>>,
                                                            taskId: string, catalog: Messages.Catalog, locale: string)
    ensures IntendedScanStatus(status, plans, taskId, catalog, locale) ==
      if FirstRejection(plans).Some? then Enums.Failed else if |plans| > 0 then Enums.Success else status
    decreases |plans|
  {
    if |plans| > 0 && RunFrom(plans[0]).result.PhaseResolved? {
      IntendedStatusFromFirstRejection(Enums.Success, plans[1..], taskId, catalog, locale);
    }
  }

  /** The written `start()` and the intended one leave the same status unless the first rejection has no logs. */
  lemma WrittenAgreesWithIntended(status: string, plans: seq<seq<SubPhases.ExecResult>>,
                                  taskId: string, catalog: Messages.Catalog, locale: string)
    requires FirstRejection(plans).None? || SubPhases.LogsOf(FirstRejection(plans).value).Some?
    ensures ScanStatus(status, plans, taskId, catalog, locale) == IntendedScanStatus(status, plans, taskId, catalog, locale)
  {
    StatusFromFirstRejection(status, plans, taskId, catalog, locale);
    IntendedStatusFromFirstRejection(status, plans, taskId, catalog, locale);
  }

  /** One phase of the loop of `start()`: a resolved phase passes on to the next with SUCCESS, a rejected one decides. */
  lemma {:induction false} PhaseLoopStep(status: string, plans: seq<seq<SubPhases.ExecResult>>, i: nat, taskId: string,
                                         catalog: Messages.Catalog, locale: string)
    requires i < |plans|
    ensures RunFrom(plans[i]).result.PhaseResolved? ==>
      ScanStatus(status, plans[i..], taskId, catalog, locale) == ScanStatus(Enums.Success, plans[i + 1..], taskId, catalog, locale)
      && FirstRejection(plans[i..]) == FirstRejection(plans[i + 1..])
    ensures RunFrom(plans[i]).result.PhaseRejected? ==>
      var e := RunFrom(plans[i]).result.error;
      ScanStatus(status, plans[i..], taskId, catalog, locale) == CaughtAsWritten(status, e, taskId, catalog, locale).status
      && FirstRejection(plans[i..]) == Some(e)
  {
    assert plans[i..][0] == plans[i] && plans[i..][1..] == plans[i + 1..];
  }

  /**
   * The next CI/CD state `start(nextCicdState = null)` works with: the default
   * applies to a missing and to an explicit `undefined` argument alike.
   */
  function StartArgument(next: Json.Value): (v: Json.Value)
    ensures v != Json.Undefined
    ensures next != Json.Undefined ==> v == next
    ensures next == Json.Undefined ==> v == Json.Null
  {
    if next.Undefined? then Json.Null else next
  }

  /**
   * The data `_finish(data)` prints with the exit: `data` with the project, build
   * and online scan ids, and, when `cicdControl` (the truthiness of the client
   * setting ENABLE_CICD_CONTROL) holds, the CI/CD states.
   */
  function FlowData(data: Json.Fields, projectId: Json.Value, extraInfo: Json.Fields, onlineScanId: Json.Value,
                    cicd: Json.Fields, cicdControl: bool): Json.Fields
  {
    var flow := Json.Spread(data, [("projectId", projectId),
                                   ("buildInfo", Json.Or(Json.Get(extraInfo, "buildInfo"), Json.Str(""))),
                                   ("scanTaskId", Json.Or(onlineScanId, Json.Null))]);
    if cicdControl then Json.Set(flow, "cicd", CicdFlow(cicd)) else flow
  }

  /** The `cicd` entry of the printed data: the pipeline type, the stored state and the next one. */
  function CicdFlow(cicd: Json.Fields): Json.Value {
    Json.Obj([("pipelineType", Json.Get(cicd, "repoAction")), ("current", Json.Get(cicd, "cicdFsmState")),
              ("next", Json.Get(cicd, "nextState"))])
  }

  /**
   * The printed data carries the project id, the online scan id or `null`,
   * the CI/CD states exactly when CI/CD control is on, and every other
   * property of `data` unchanged.
   */
  lemma FlowDataCarries(data: Json.Fields, projectId: Json.Value, extraInfo: Json.Fields, onlineScanId: Json.Value,
                        cicd: Json.Fields, cicdControl: bool, k: string)
    ensures Json.Lookup(FlowData(data, projectId, extraInfo, onlineScanId, cicd, cicdControl), "projectId") == Some(projectId)
    ensures Json.Lookup(FlowData(data, projectId, extraInfo, onlineScanId, cicd, cicdControl), "scanTaskId") ==
      Some(if Json.Truthy(onlineScanId) then onlineScanId else Json.Null)
    ensures Json.Lookup(FlowData(data, projectId, extraInfo, onlineScanId, cicd, cicdControl), "cicd") ==
      if cicdControl then Some(CicdFlow(cicd)) else Json.Lookup(data, "cicd")
    ensures k != "projectId" && k != "buildInfo" && k != "scanTaskId" && k != "cicd" ==>
      Json.Lookup(FlowData(data, projectId, extraInfo, onlineScanId, cicd, cicdControl), k) == Json.Lookup(data, k)
  {
    var supplements: Json.Fields := [("projectId", projectId),
                                     ("buildInfo", Json.Or(Json.Get(extraInfo, "buildInfo"), Json.Str(""))),
                                     ("scanTaskId", Json.Or(onlineScanId, Json.Null))];
    assert "projectId"[0] != "buildInfo"[0] && "projectId"[0] != "scanTaskId"[0] && "buildInfo"[0] != "scanTaskId"[0];
    assert "projectId"[0] != "cicd"[0] && "scanTaskId"[0] != "cicd"[0];
    Json.Three("projectId", projectId, "buildInfo", supplements[1].1, "scanTaskId", supplements[2].1, k);
    var flow := Json.Spread(data, supplements);
    var c := CicdFlow(cicd);
    assert Json.Lookup(supplements, "projectId") == Some(projectId);
    assert Json.Lookup(supplements, "scanTaskId") == Some(Json.Or(onlineScanId, Json.Null));
    Json.SpreadLookup(data, supplements, "projectId");
    Json.SpreadLookup(data, supplements, "scanTaskId");
    Json.SpreadLookup(data, supplements, k);
    Json.Three("projectId", projectId, "buildInfo", supplements[1].1, "scanTaskId", supplements[2].1, "cicd");
    Json.SpreadLookup(data, supplements, "cicd");
    if cicdControl {
      Json.LookupSetSame(flow, "cicd", c);
      Json.LookupSetOther(flow, "cicd", c, "projectId");
      Json.LookupSetOther(flow, "cicd", c, "scanTaskId");
      if k != "projectId" && k != "buildInfo" && k != "scanTaskId" && k != "cicd" {
        Json.LookupSetOther(flow, "cicd", c, k);
      }
    }
  }

  /** The state folder after `_zipStateFolder()`: it holds the file `<taskId>.zip`. */
  function Zipped(entries: seq<Projects.DirEntry>, taskId: string): (r: seq<Projects.DirEntry>)
    ensures Projects.DirEntry(taskId + ".zip", false) in r
    ensures forall e :: e in entries ==> e in r
  {
    var zip := Projects.DirEntry(taskId + ".zip", false);
    if zip in entries then entries else entries + [zip]
  }

  /** Housekeeping deletes directories only, so the archive of a successful scan survives it. */
  lemma ZipSurvivesCleanup(entries: seq<Projects.DirEntry>, taskId: string, keep: seq<Json.Value>)
    ensures Projects.DirEntry(taskId + ".zip", false) in Projects.Surviving(Zipped(entries, taskId), keep)
  {
    Projects.SurvivingMembers(Zipped(entries, taskId), keep, Projects.DirEntry(taskId + ".zip", false));
  }

  /**
   * The scan's reason after `start()`: the printed error of the first
   * rejecting phase, when it has logs and printing its error does not throw;
   * otherwise the reason it had.
   */
  function Reason(reason: Option<Json.Value>, plans: seq<seq<SubPhases.ExecResult>>, taskId: string,
                  catalog: Messages.Catalog, locale: string): Option<Json.Value>
  {
    match FirstRejection(plans)
    case None => reason
    case Some(e) =>
      match ReportedError(e)
      case None => reason
      case Some(error) => (var c := CaughtError(error, taskId, catalog, locale); if c.reason.Some? then c.reason else reason)
  }

  /** The data `start()` hands to `_finish`: empty unless a phase rejected with logs and its error printed. */
  function Finishing(plans: seq<seq<SubPhases.ExecResult>>, taskId: string, catalog: Messages.Catalog, locale: string): Json.Fields {
    match FirstRejection(plans)
    case None => []
    case Some(e) =>
      match ReportedError(e)
      case None => []
      case Some(error) => CaughtError(error, taskId, catalog, locale).finishing
  }

  /** The reason and the finishing data follow from the `catch` of the first rejection, whatever the status before it. */
  lemma CatchDecides(prev: string, reason: Option<Json.Value>, plans: seq<seq<SubPhases.ExecResult>>, e: SubPhases.Report,
                     taskId: string, catalog: Messages.Catalog, locale: string)
    requires FirstRejection(plans) == Some(e)
    ensures var c := CaughtAsWritten(prev, e, taskId, catalog, locale);
      Reason(reason, plans, taskId, catalog, locale) == (if c.reason.Some? then c.reason else reason)
      && Finishing(plans, taskId, catalog, locale) == c.finishing
  {
  }

  /** The steps of all the phases. */
  function AllSteps(phases: seq<Phase>): (r: set<SubPhases.SubPhase>)
    reads phases`subPhases
  {
    set p, sp | p in phases && sp in p.subPhases :: sp
  }

  /** The steps of all the phases are those of the first phase and those of the rest. */
  lemma AllStepsSplit(phases: seq<Phase>)
    requires |phases| > 0
    ensures forall sp :: sp in phases[0].subPhases ==> sp in AllSteps(phases)
    ensures AllSteps(phases[1..]) <= AllSteps(phases)
  {
    forall sp | sp in AllSteps(phases[1..])
      ensures sp in AllSteps(phases)
    {
      var p :| p in phases[1..] && sp in p.subPhases;
      assert p in phases;
    }
  }

  /** What each step of each phase yields, phase by phase. */
  function PhasePlans(phases: seq<Phase>): (r: seq<seq<SubPhases.ExecResult>>)
    reads phases`subPhases, AllSteps(phases)`policy
    ensures |r| == |phases| && forall k :: 0 <= k < |phases| ==> r[k] == Plans(phases[k].subPhases)
    decreases |phases|
  {
    if |phases| == 0 then []
    else
      AllStepsSplit(phases);
      [Plans(phases[0].subPhases)] + PhasePlans(phases[1..])
  }

  /** The `getInfo()` object of a scan with these properties. */
  function InfoOf(taskId: string, onlineScanId: Json.Value, startTime: int, endTime: int, cicd: Json.Fields,
                  projectName: Json.Value, status: string, activityLog: seq<States.StateRecord>,
                  reason: Option<Json.Value>, extraInfo: Json.Fields, projectConfig: Json.Value): (r: Json.Fields)
    ensures |r| == 10
    ensures r[0] == ("id", Json.Str(taskId))
    ensures Projects.IdOf(r) == Json.Str(taskId)
  {
    [("id", Json.Str(taskId)),
     ("onlineScanId", onlineScanId),
     ("startTime", Json.Num(startTime)),
     ("endTime", Json.Num(endTime)),
     ("cicd", Json.Obj(CicdInfo(cicd))),
     ("duration", Json.Str(States.ElapsedText(startTime, endTime))),
     ("project", projectName),
     ("status", Json.Obj(StateJson(status, activityLog, reason))),
     ("extraInfo", Json.Obj(extraInfo)),
     ("projectConfig", projectConfig)]
  }

  /**
   * The clock readings of one `start()`: when it begins, those of step `j`
   * of phase `k` as `steps(k, j)`, and when `_finish` saves the scan.
   */
  datatype ScanClock = ScanClock(started: int, steps: (nat, nat) -> StepTimes, finished: int)

  /** How the process ends: the exit code and the flow data printed with it. */
  datatype ScanExit = ScanExit(code: int, data: Json.Fields)

  class Scan {
    const taskId: string
    const project: Projects.Project
    const phases: seq<Phase>
    var onlineScanId: Json.Value
    var status: string
    var reason: Option<Json.Value>
    var activityLog: seq<States.StateRecord>
    var startTime: int
    var endTime: Option<int>
    var extraInfo: Json.Fields

    /**
     * `new Scan(project, client, configs, extraInfo)` at clock reading `now`
     * with the generated task id; the scan is registered with the project.
     */
    constructor (taskId: string, project: Projects.Project, phases: seq<Phase>, extraInfo: Json.Fields, now: int)
      modifies project`taskRecords
      ensures this.taskId == taskId && this.project == project && this.phases == phases
      ensures onlineScanId == Json.Null && status == Enums.Pending && reason == None
      ensures activityLog == [] && startTime == now && endTime == Some(now) && this.extraInfo == extraInfo
      ensures project.taskRecords == Projects.Upserted(old(project.taskRecords), Info(now))
    {
      this.taskId := taskId;
      this.project := project;
      this.phases := phases;
      onlineScanId := Json.Null;
      status := Enums.Pending;
      reason := None;
      activityLog := [];
      startTime := now;
      endTime := Some(now);
      this.extraInfo := extraInfo;
      new;
      project.UpdateScanTaskToProjectScanRecords(Info(now));
    }

    /** The `getInfo()` object for end time `endTime`. */
    function Info(endTime: int): (r: Json.Fields)
      reads this, project`cicd
      ensures |r| == 10
      ensures r[0] == ("id", Json.Str(taskId))
      ensures Projects.IdOf(r) == Json.Str(taskId)
    {
      InfoOf(taskId, onlineScanId, startTime, endTime, project.cicd, project.name, status, activityLog, reason, extraInfo, project.config)
    }

    /** The project's task list is `before` with this scan's information at `endTime` saved into it. */
    ghost predicate Saved(before: seq<Json.Fields>, endTime: int)
      reads this, project`cicd, project`taskRecords
    {
      project.taskRecords == Projects.Upserted(before, InfoOf(taskId, onlineScanId, startTime, endTime, project.cicd,
                                                              project.name, status, activityLog, reason, extraInfo, project.config))
    }

    /** `getInfo()`, which also stamps the end time. */
    method GetInfo(now: int) returns (info: Json.Fields)
      modifies this`endTime
      ensures endTime == Some(now) && info == Info(now)
    {
      endTime := Some(now);
      info := Info(now);
    }

    /** `_zipStateFolder()`: archives the scan task folder next to it, as `<taskId>.zip` in the state folder. */
    method ZipStateFolder()
      modifies project`stateFolder
      ensures project.stateFolder == Zipped(old(project.stateFolder), taskId)
    {
      project.stateFolder := Zipped(project.stateFolder, taskId);
    }

    /** Saves the scan's `getInfo()` in the project's task list. */
    method Save(now: int) returns (info: Json.Fields)
      modifies this`endTime, project`taskRecords
      ensures endTime == Some(now) && info == Info(now)
      ensures project.taskRecords == Projects.Upserted(old(project.taskRecords), info)
    {
      info := GetInfo(now);
      project.UpdateScanTaskToProjectScanRecords(info);
    }

    /** The housekeeping of `_finish`: a successful scan is archived, then the scan task folders are cleaned up. */
    method Archive()
      modifies project`stateFolder
      ensures status == Enums.Success ==>
        project.stateFolder == Projects.Surviving(Zipped(old(project.stateFolder), taskId),
                                                  Projects.KeepSet(project.taskRecords, project.maxTaskFolders))
      ensures status != Enums.Success ==> project.stateFolder == old(project.stateFolder)
    {
      if status == Enums.Success {
        ZipStateFolder();
        project.CleanupTaskFolders();
      }
    }

    /**
     * The saving and housekeeping of `_finish`: the scan is saved in the
     * project's task list; a successful scan is archived and the scan task
     * folders are cleaned up.
     */
    method SaveAndArchive(now: int) returns (info: Json.Fields)
      modifies this`endTime, project`taskRecords, project`stateFolder
      ensures endTime == Some(now) && Projects.IdOf(info) == Json.Str(taskId)
      ensures project.taskRecords == Projects.Upserted(old(project.taskRecords), info)
      ensures status == Enums.Success ==>
        project.stateFolder == Projects.Surviving(Zipped(old(project.stateFolder), taskId),
                                                  Projects.KeepSet(project.taskRecords, project.maxTaskFolders))
      ensures status != Enums.Success ==> project.stateFolder == old(project.stateFolder)
    {
      info := Save(now);
      Archive();
    }

    /**
     * `_finish(data)`: saves the scan in the project's task list; a
     * successful scan is archived and the scan task folders are cleaned up before
     * it exits 0, any other scan exits 1. The printed data is `FlowData`.
     */
    method Finish(data: Json.Fields, now: int, cicdControl: bool) returns (exit: ScanExit)
      modifies this`endTime, project`taskRecords, project`stateFolder
      ensures exit == ScanExit(if status == Enums.Success then Enums.ExitOk else Enums.ExitGeneralError,
                               FlowData(data, project.id, extraInfo, onlineScanId, project.cicd, cicdControl))
      ensures status == Enums.Success ==>
        project.stateFolder == Projects.Surviving(Zipped(old(project.stateFolder), taskId),
                                                  Projects.KeepSet(project.taskRecords, project.maxTaskFolders))
      ensures status != Enums.Success ==> project.stateFolder == old(project.stateFolder)
    {
      var flow := FlowData(data, project.id, extraInfo, onlineScanId, project.cicd, cicdControl);
      var info := SaveAndArchive(now);
      exit := ScanExit(if status == Enums.Success then Enums.ExitOk else Enums.ExitGeneralError, flow);
    }

    /**
     * The opening of `start(nextCicdState = null)`: the next CI/CD state, `null`
     * when the argument is missing or `undefined`, is recorded, the clock starts
     * and the scan is saved.
     */
    method Begin(next: Json.Value, now: int) returns (info: Json.Fields)
      modifies project`cicd, this`startTime, this`endTime, project`taskRecords
      ensures project.cicd == Json.Set(old(project.cicd), "nextState", StartArgument(next))
      ensures Json.Get(project.cicd, "nextState") == StartArgument(next)
      ensures startTime == now && endTime == Some(now) && Projects.IdOf(info) == Json.Str(taskId)
      ensures project.taskRecords == Projects.Upserted(old(project.taskRecords), info)
    {
      project.SetCicdState(StartArgument(next));
      startTime := now;
      info := Save(now);
    }

    /**
     * One pass of the phase loop of `start()`: phase `i` runs against this
     * scan, whose activity log grows, with the step outcomes `plans[i]`. A
     * resolved phase sets SUCCESS; a rejected one goes to the `catch`, which
     * sets the status, the reason and the finishing data, and ends the loop.
     * The steps of the phases after it keep their outcomes.
     */
    method RunPhase(i: nat, catalog: Messages.Catalog, locale: string, times: nat -> StepTimes,
                    ghost plans: seq<seq<SubPhases.ExecResult>>)
      returns (rejected: bool, finishing: Json.Fields)
      requires i < |phases| == |plans|
      requires forall k :: i <= k < |phases| ==> Plans(phases[k].subPhases) == plans[k]
      modifies this`status, this`reason, this`activityLog, this`endTime, project`taskRecords
      modifies phases`currentState, phases`stateStack, AllSteps(phases)`policy, AllSteps(phases)`flowLogs, AllSteps(phases)`summary, AllSteps(phases)`state
      ensures rejected <==> RunFrom(plans[i]).result.PhaseRejected?
      ensures !rejected ==> status == Enums.Success && reason == old(reason) && finishing == []
      ensures rejected ==>
        var c := CaughtAsWritten(old(status), RunFrom(plans[i]).result.error, taskId, catalog, locale);
        status == c.status && reason == (if c.reason.Some? then c.reason else old(reason)) && finishing == c.finishing
      ensures forall k :: i < k < |phases| ==> Plans(phases[k].subPhases) == plans[k]
      ensures old(activityLog) <= activityLog
    {
      var r := RunSteps(i, times, plans);
      rejected := r.PhaseRejected?;
      if rejected {
        finishing := Catch(r.error, catalog, locale);
      } else {
        status := Enums.Success;
        finishing := [];
      }
      forall k | i < k < |phases|
        ensures Plans(phases[k].subPhases) == plans[k]
      {
        assert forall sp :: sp in phases[k].subPhases ==> sp in AllSteps(phases);
        PlansUnchanged(phases[k].subPhases);
      }
    }

    /** The phase itself: its steps run with the outcomes `plans[i]` and the clock readings `times`. */
    method RunSteps(i: nat, times: nat -> StepTimes, ghost plans: seq<seq<SubPhases.ExecResult>>) returns (r: PhaseResult)
      requires i < |phases| == |plans|
      requires forall k :: i <= k < |phases| ==> Plans(phases[k].subPhases) == plans[k]
      modifies this`activityLog, this`endTime, project`taskRecords
      modifies phases`currentState, phases`stateStack, AllSteps(phases)`policy, AllSteps(phases)`flowLogs, AllSteps(phases)`summary, AllSteps(phases)`state
      ensures r == RunFrom(plans[i]).result
      ensures forall sp :: sp in AllSteps(phases) ==> Flag(sp) == old(Flag(sp))
      ensures old(activityLog) <= activityLog
    {
      var p := phases[i];
      assert forall sp :: sp in p.subPhases ==> sp in AllSteps(phases);
      ghost var plan, records;
      r, plan, records := p.Run(this, times);
    }

    /**
     * The `catch` of `start()`: the scan fails with the printed reason, and
     * the finishing data is returned; a rejection without logs throws first
     * and leaves the status as it was.
     */
    method Catch(e: SubPhases.Report, catalog: Messages.Catalog, locale: string) returns (finishing: Json.Fields)
      modifies this`status, this`reason
      ensures var c := CaughtAsWritten(old(status), e, taskId, catalog, locale);
        status == c.status && reason == (if c.reason.Some? then c.reason else old(reason)) && finishing == c.finishing
    {
      var c := CaughtAsWritten(status, e, taskId, catalog, locale);
      status := c.status;
      if c.reason.Some? {
        reason := c.reason;
      }
      finishing := c.finishing;
    }

    /**
     * The phase loop of `start()`: the phases run in order until one
     * rejects, phase `k` with the clock readings `steps(k, _)`. Each phase that
     * resolves sets the status to SUCCESS; a rejection goes to the `catch`,
     * which sets FAILED and the printed reason when the error has logs, and
     * yields the finishing data.
     */
    method RunPhases(catalog: Messages.Catalog, locale: string, steps: (nat, nat) -> StepTimes,
                     ghost plans: seq<seq<SubPhases.ExecResult>>)
      returns (finishing: Json.Fields)
      requires |plans| == |phases| && forall k :: 0 <= k < |phases| ==> Plans(phases[k].subPhases) == plans[k]
      modifies this`status, this`reason, this`activityLog, this`endTime, project`taskRecords
      modifies phases`currentState, phases`stateStack, AllSteps(phases)`policy, AllSteps(phases)`flowLogs, AllSteps(phases)`summary, AllSteps(phases)`state
      ensures status == ScanStatus(old(status), plans, taskId, catalog, locale)
      ensures reason == Reason(old(reason), plans, taskId, catalog, locale)
      ensures finishing == Finishing(plans, taskId, catalog, locale)
      ensures old(activityLog) <= activityLog
    {
      finishing := [];
      var i := 0;
      while i < |phases|
        invariant 0 <= i <= |phases| && |plans| == |phases|
        invariant forall k :: i <= k < |phases| ==> Plans(phases[k].subPhases) == plans[k]
        invariant ScanStatus(old(status), plans, taskId, catalog, locale) == ScanStatus(status, plans[i..], taskId, catalog, locale)
        invariant FirstRejection(plans) == FirstRejection(plans[i..])
        invariant reason == old(reason) && finishing == []
        invariant old(activityLog) <= activityLog
      {
        PhaseLoopStep(status, plans, i, taskId, catalog, locale);
        var rejected;
        rejected, finishing := RunPhase(i, catalog, locale, (j: nat) => steps(i, j), plans);
        if rejected {
          CatchDecides(old(status), old(reason), plans, RunFrom(plans[i]).result.error, taskId, catalog, locale);
          return;
        }
        i := i + 1;
      }
      assert plans[i..] == [];
    }

    /** The rest of `start()` once the CI/CD state is recorded: the phase loop, then `_finish` in every case. */
    method RunAndFinish(catalog: Messages.Catalog, locale: string, clock: ScanClock, cicdControl: bool,
                        ghost plans: seq<seq<SubPhases.ExecResult>>)
      returns (exit: ScanExit)
      requires |plans| == |phases| && forall k :: 0 <= k < |phases| ==> Plans(phases[k].subPhases) == plans[k]
      modifies project`taskRecords, project`stateFolder, this`endTime, this`status, this`reason, this`activityLog
      modifies phases`currentState, phases`stateStack, AllSteps(phases)`policy, AllSteps(phases)`flowLogs, AllSteps(phases)`summary, AllSteps(phases)`state
      ensures status == ScanStatus(old(status), plans, taskId, catalog, locale)
      ensures reason == Reason(old(reason), plans, taskId, catalog, locale)
      ensures exit.code == (if status == Enums.Success then Enums.ExitOk else Enums.ExitGeneralError)
      ensures exit.data == FlowData(Finishing(plans, taskId, catalog, locale), project.id, extraInfo, onlineScanId, project.cicd,
                                    cicdControl)
    {
      var finishing := RunPhases(catalog, locale, clock.steps, plans);
      exit := Finish(finishing, clock.finished, cicdControl);
    }

    /**
     * `start(nextCicdState)`: records the next CI/CD state, runs the phases,
     * and finishes in every case, printing the CI/CD states iff `cicdControl`. The status, the reason and the exit follow
     * from the outcomes the steps of the phases had when it was called.
     */
    method Start(next: Json.Value, cicdControl: bool, catalog: Messages.Catalog, locale: string, clock: ScanClock)
      returns (exit: ScanExit, ghost plans: seq<seq<SubPhases.ExecResult>>)
      modifies project`cicd, project`taskRecords, project`stateFolder
      modifies this`startTime, this`endTime, this`status, this`reason, this`activityLog
      modifies phases`currentState, phases`stateStack, AllSteps(phases)`policy, AllSteps(phases)`flowLogs, AllSteps(phases)`summary, AllSteps(phases)`state
      ensures |plans| == |phases| && forall k :: 0 <= k < |phases| ==> plans[k] == old(Plans(phases[k].subPhases))
      ensures status == ScanStatus(old(status), plans, taskId, catalog, locale)
      ensures reason == Reason(old(reason), plans, taskId, catalog, locale)
      ensures exit.code == (if status == Enums.Success then Enums.ExitOk else Enums.ExitGeneralError)
      ensures exit.data == FlowData(Finishing(plans, taskId, catalog, locale), project.id, extraInfo, onlineScanId, project.cicd,
                                    cicdControl)
      ensures project.cicd == Json.Set(old(project.cicd), "nextState", StartArgument(next))
      ensures Json.Get(project.cicd, "nextState") == StartArgument(next)
    {
      plans := PhasePlans(phases);
      var info := Begin(next, clock.started);
      exit := RunAndFinish(catalog, locale, clock, cicdControl, plans);
    }

    /** `pushState(state)`: appends the record and re-saves the scan in the project's task list. */
    method PushState(record: States.StateRecord, now: int)
      modifies this`activityLog, this`endTime, project`taskRecords
      ensures activityLog == old(activityLog) + [record]
      ensures endTime == Some(now)
      ensures Saved(old(project.taskRecords), now)
    {
      activityLog := activityLog + [record];
      var info := GetInfo(now);
      project.UpdateScanTaskToProjectScanRecords(info);
    }
  }
}
