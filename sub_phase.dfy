/**
 * One step of a scan (model/SubPhase.js): a wrapped `run()` whose failure is
 * absorbed when the step is optional and passed on unchanged when it is
 * mandatory, plus the flow-log extraction and the state published when the
 * step finishes.
 */
module SubPhases {
  import opened Wrappers
  import opened Strs
  import Json
  import FlowPolicy
  import Tools

  /** The `logs` object of a command's result: stdout lines, stderr and an error text. */
  datatype Logs = Logs(stdout: Option<seq<string>>, stderr: Json.Value, error: Json.Value)

  /**
   * A value a step's `run()` resolves or rejects with: a `{status, logs}`
   * object (either part may be missing), or a TypeError raised by the runtime.
   */
  datatype Report = Report(status: Json.Value, logs: Option<Logs>) | TypeError

  /** `e.logs`, which a TypeError does not have. */
  function LogsOf(r: Report): Option<Logs> {
    match r
    case Report(_, logs) => logs
    case TypeError => None
  }

  /**
   * How the wrapped `run()` ends: it resolves (possibly with `undefined` or
   * `null`, which `None` stands for), throws a value, or rejects with
   * `undefined` or `null`.
   */
  datatype RunOutcome = Resolves(value: Option<Report>) | Throws(error: Report) | ThrowsNullish

  /**
   * The wrapped `run()`: the policy it hands to `setPolicy`, if it calls it
   * (as SCM_CODE_DIFF does to become mandatory), the summary it sets, if it
   * sets one, and how it ends.
   */
  datatype Run = Run(setsPolicy: Option<FlowPolicy.StepPolicy>, setsSummary: Option<Json.Value>, outcome: RunOutcome)

  /** What `execute()` does: resolve with a value or reject with an error. */
  datatype ExecResult = Resolved(value: Report) | Rejected(error: Report)

  /** The `{status: 0}` object `execute()` resolves with. */
  const StatusZero: Report := Report(Json.Num(0), None)

  /** The timeout `setPolicy` keeps: at most 2^31 - 2, otherwise unchanged. */
  function ClampTimeout(t: int): (r: int)
    ensures r <= FlowPolicy.JsMaxTimingPolicy
    ensures t <= FlowPolicy.JsMaxTimingPolicy ==> r == t
    ensures t > FlowPolicy.JsMaxTimingPolicy ==> r == FlowPolicy.JsMaxTimingPolicy
  {
    if t > FlowPolicy.JsMaxTimingPolicy then FlowPolicy.JsMaxTimingPolicy else t
  }

  /** The policy `setPolicy(p)` keeps. */
  function Clamped(p: FlowPolicy.StepPolicy): (r: FlowPolicy.StepPolicy)
    ensures r.timeout <= FlowPolicy.JsMaxTimingPolicy
    ensures r.(timeout := p.timeout) == p
    ensures p.timeout <= FlowPolicy.JsMaxTimingPolicy ==> r == p
  {
    p.(timeout := ClampTimeout(p.timeout))
  }

  /** The step's policy once `run()` has returned: the one it set, if any, else the one it had. */
  function PolicyAfter(p: FlowPolicy.StepPolicy, run: Run): FlowPolicy.StepPolicy {
    if run.setsPolicy.Some? then Clamped(run.setsPolicy.value) else p
  }

  /** The mandatory flag `execute()` reads, after `run()` has returned. */
  function MandatoryAfter(p: FlowPolicy.StepPolicy, run: Run): bool {
    PolicyAfter(p, run).mandatory
  }

  /** What `execute()` yields for a step whose policy is `p` when it starts. */
  function StepOutcome(p: FlowPolicy.StepPolicy, run: Run): ExecResult {
    ExecOutcome(MandatoryAfter(p, run), run.outcome)
  }

  const FlowMarker := "[FLOW]"

  /** The stdout lines that contain `[FLOW]`, in order, each with its first `[FLOW]` removed. */
  function FlowLogs(lines: seq<string>): (r: seq<string>)
    ensures |r| <= |lines|
    decreases |lines|
  {
    if |lines| == 0 then []
    else if Contains(lines[0], FlowMarker) then [ReplaceFirst(lines[0], FlowMarker, "")] + FlowLogs(lines[1..])
    else FlowLogs(lines[1..])
  }

  /** Flow-log extraction works line by line: it distributes over concatenation. */
  lemma {:induction false} FlowLogsAppend(a: seq<string>, b: seq<string>)
    ensures FlowLogs(a + b) == FlowLogs(a) + FlowLogs(b)
    decreases |a|
  {
    if |a| == 0 {
      assert a + b == b;
    } else {
      assert (a + b)[0] == a[0];
      assert (a + b)[1..] == a[1..] + b;
      FlowLogsAppend(a[1..], b);
    }
  }

  /** Lines without the marker contribute nothing. */
  lemma {:induction false} FlowLogsIgnoreOtherLines(lines: seq<string>)
    requires forall i :: 0 <= i < |lines| ==> !Contains(lines[i], FlowMarker)
    ensures FlowLogs(lines) == []
    decreases |lines|
  {
    if |lines| > 0 {
      FlowLogsIgnoreOtherLines(lines[1..]);
    }
  }

  /** A line that starts with the marker comes back without it. */
  lemma FlowLogsOfMarkedLine(body: string)
    ensures FlowLogs([FlowMarker + body]) == [body]
  {
    var line := FlowMarker + body;
    assert OccursAt(line, FlowMarker, 0);
    assert IndexOf(line, FlowMarker) == Some(0);
    assert ReplaceFirst(line, FlowMarker, "") == body;
    assert [line][1..] == [];
  }

  /** A line written by the flow reporter comes back as its JSON text (and newline). */
  lemma FlowLineRoundTrip(state: Json.Value, status: Json.Value, supplements: Json.Fields)
    ensures FlowLogs([Tools.FlowLine(state, status, supplements)]) ==
      [Json.Stringify(Json.Obj(Tools.FlowObject(state, status, supplements))) + "\n"]
  {
    var body := Json.Stringify(Json.Obj(Tools.FlowObject(state, status, supplements))) + "\n";
    assert Tools.FlowLine(state, status, supplements) == FlowMarker + body;
    FlowLogsOfMarkedLine(body);
  }

  /** The logs `execute()` sees, if any: from the resolved value or the thrown error. */
  function CarriedLogs(run: RunOutcome): Option<Logs> {
    match run
    case Resolves(v) => if v.Some? then LogsOf(v.value) else None
    case Throws(e) => LogsOf(e)
    case ThrowsNullish => None
  }

  /** `_flowLogs` after `execute()`: replaced when the logs carry stdout, kept otherwise. */
  function FlowLogsAfter(previous: seq<string>, run: RunOutcome): seq<string> {
    match CarriedLogs(run)
    case Some(Logs(Some(out), _, _)) => FlowLogs(out)
    case _ => previous
  }

  /**
   * The outcome of `execute()`. Resolving `undefined` or `null` makes
   * `result.logs` throw a TypeError, which is then handled like any thrown
   * error; rejecting with `undefined` or `null` makes `e.logs` throw a
   * TypeError inside the `catch`, so the step rejects with it whatever its flag.
   */
  function ExecOutcome(mandatory: bool, run: RunOutcome): ExecResult {
    match run
    case Resolves(None) => if !mandatory then Resolved(StatusZero) else Rejected(TypeError)
    case Resolves(Some(r)) =>
      if !mandatory || (r.Report? && r.status == Json.Num(0)) then Resolved(StatusZero) else Rejected(r)
    case Throws(e) => if !mandatory then Resolved(StatusZero) else Rejected(e)
    case ThrowsNullish => Rejected(TypeError)
  }

  /**
   * A step that is optional once its run has returned fails only when the run
   * rejects with `undefined` or `null`, and then with a TypeError.
   */
  lemma OptionalStepAbsorbs(run: RunOutcome)
    ensures ExecOutcome(false, run).Rejected? <==> run.ThrowsNullish?
    ensures !run.ThrowsNullish? ==> ExecOutcome(false, run) == Resolved(StatusZero)
    ensures run.ThrowsNullish? ==> ExecOutcome(false, run) == Rejected(TypeError)
  {
  }

  /**
   * The flag that decides is the one in force after the run: a step that
   * starts optional and is made mandatory by its run passes a thrown failure
   * on, where the flag it started with would have absorbed it.
   */
  lemma PromotedStepRejects(p: FlowPolicy.StepPolicy, run: Run, e: Report)
    requires !p.mandatory && run.setsPolicy.Some? && run.setsPolicy.value.mandatory && run.outcome == Throws(e)
    ensures StepOutcome(p, run) == Rejected(e)
    ensures ExecOutcome(p.mandatory, run.outcome) == Resolved(StatusZero)
  {
  }

  /** Running the same `setPolicy` again changes nothing, so the outcome does not depend on when the policy is read after the run. */
  lemma PolicyAfterSettles(p: FlowPolicy.StepPolicy, run: Run)
    ensures PolicyAfter(PolicyAfter(p, run), run) == PolicyAfter(p, run)
    ensures StepOutcome(PolicyAfter(p, run), run) == StepOutcome(p, run)
    ensures run.setsPolicy.None? ==> StepOutcome(p, run) == ExecOutcome(p.mandatory, run.outcome)
  {
  }

  /** A mandatory step passes its run's failure on unchanged and succeeds only on status 0. */
  lemma MandatoryStepPropagates(run: RunOutcome)
    ensures ExecOutcome(true, run).Resolved? <==>
      run.Resolves? && run.value.Some? && run.value.value.Report? && run.value.value.status == Json.Num(0)
    ensures run.Throws? ==> ExecOutcome(true, run) == Rejected(run.error)
    ensures run.Resolves? && run.value.Some? && !(run.value.value.Report? && run.value.value.status == Json.Num(0)) ==>
      ExecOutcome(true, run) == Rejected(run.value.value)
    ensures run == Resolves(None) ==> ExecOutcome(true, run) == Rejected(TypeError)
    ensures run.ThrowsNullish? ==> ExecOutcome(true, run) == Rejected(TypeError)
  {
  }

  /** Whatever happens, a step that resolves resolves with `{status: 0}`. */
  lemma ResolvesWithStatusZero(mandatory: bool, run: RunOutcome)
    ensures ExecOutcome(mandatory, run).Resolved? ==> ExecOutcome(mandatory, run).value == StatusZero
  {
  }

  /** The flow logs as the JavaScript array `_finish()` stores. */
  function LogsJson(lines: seq<string>): Json.Value {
    Json.Arr(seq(|lines|, i requires 0 <= i < |lines| => Json.Str(lines[i])))
  }

  /**
   * The state `_finish()` publishes: `executeCommand` when one is set,
   * `flowLogs` when there are any, `summary` when it is truthy, each added
   * with a spread over the previous state.
   */
  function FinishedState(state: Json.Fields, executeCommand: Option<string>,
                         flowLogs: seq<string>, summary: Json.Value): Json.Fields
  {
    var s1 := if Tools.Present(executeCommand) then Json.Set(state, "executeCommand", Json.Str(executeCommand.GetOr(""))) else state;
    var s2 := if |flowLogs| > 0 then Json.Set(s1, "flowLogs", LogsJson(flowLogs)) else s1;
    if Json.Truthy(summary) then Json.Set(s2, "summary", summary) else s2
  }

  /** `_finish` adds `executeCommand` only when one is set and `flowLogs` only when there are any. */
  lemma FinishedStateKeys(state: Json.Fields, executeCommand: Option<string>, flowLogs: seq<string>, summary: Json.Value)
    requires !Json.HasKey(state, "executeCommand") && !Json.HasKey(state, "flowLogs") && !Json.HasKey(state, "summary")
    ensures var s := FinishedState(state, executeCommand, flowLogs, summary);
      (Json.HasKey(s, "executeCommand") <==> Tools.Present(executeCommand))
      && (Json.HasKey(s, "flowLogs") <==> |flowLogs| > 0)
      && (Json.HasKey(s, "summary") <==> Json.Truthy(summary))
  {
    var c := Json.Str(executeCommand.GetOr(""));
    var s1 := if Tools.Present(executeCommand) then Json.Set(state, "executeCommand", c) else state;
    var s2 := if |flowLogs| > 0 then Json.Set(s1, "flowLogs", LogsJson(flowLogs)) else s1;
    assert |"executeCommand"| == 14 && |"flowLogs"| == 8 && |"summary"| == 7;
    SetHasKey(state, "executeCommand", c, "executeCommand");
    SetHasKey(state, "executeCommand", c, "flowLogs");
    SetHasKey(state, "executeCommand", c, "summary");
    SetHasKey(s1, "flowLogs", LogsJson(flowLogs), "executeCommand");
    SetHasKey(s1, "flowLogs", LogsJson(flowLogs), "flowLogs");
    SetHasKey(s1, "flowLogs", LogsJson(flowLogs), "summary");
    SetHasKey(s2, "summary", summary, "executeCommand");
    SetHasKey(s2, "summary", summary, "flowLogs");
    SetHasKey(s2, "summary", summary, "summary");
  }

  /** `_finish` leaves the values already in the state alone, except the three keys it writes. */
  lemma FinishedStateKeepsOthers(state: Json.Fields, executeCommand: Option<string>, flowLogs: seq<string>,
                                 summary: Json.Value, k: string)
    requires k != "executeCommand" && k != "flowLogs" && k != "summary"
    ensures Json.Lookup(FinishedState(state, executeCommand, flowLogs, summary), k) == Json.Lookup(state, k)
  {
    var s1 := if Tools.Present(executeCommand) then Json.Set(state, "executeCommand", Json.Str(executeCommand.GetOr(""))) else state;
    var s2 := if |flowLogs| > 0 then Json.Set(s1, "flowLogs", LogsJson(flowLogs)) else s1;
    Json.LookupSetOther(state, "executeCommand", Json.Str(executeCommand.GetOr("")), k);
    Json.LookupSetOther(s1, "flowLogs", LogsJson(flowLogs), k);
    Json.LookupSetOther(s2, "summary", summary, k);
  }

  lemma SetHasKey(o: Json.Fields, k: string, v: Json.Value, k': string)
    ensures Json.HasKey(Json.Set(o, k, v), k') <==> Json.HasKey(o, k') || k' == k
  {
    if k' == k {
      Json.LookupSetSame(o, k, v);
    } else {
      Json.LookupSetOther(o, k, v, k');
    }
  }

  class SubPhase {
    const name: string
    const stepType: string
    /** The wrapped `run()`, given by what it does. */
    const run: Run
    /** The `finish` callback, given by the summary it sets; `None` when there is none. */
    const finish: Option<Json.Value>
    var policy: FlowPolicy.StepPolicy
    var nextStep: Option<string>
    var executeCommand: Option<string>
    var flowLogs: seq<string>
    var summary: Json.Value
    var state: Json.Fields

    /** `new SubPhase({name, type, policy, executeCommand, run, finish})`. */
    constructor (name: string, stepType: string, policy: FlowPolicy.StepPolicy,
                 executeCommand: Option<string>, run: Run, finish: Option<Json.Value>)
      ensures this.name == name && this.stepType == stepType && this.run == run && this.finish == finish
      ensures this.policy == Clamped(policy)
      ensures nextStep == policy.next
      ensures this.executeCommand == (if Tools.Present(executeCommand) then executeCommand else None)
      ensures flowLogs == [] && summary == Json.Obj([]) && state == []
    {
      this.name := name;
      this.stepType := stepType;
      this.run := run;
      this.finish := finish;
      this.policy := Clamped(policy);
      nextStep := policy.next;
      this.executeCommand := if Tools.Present(executeCommand) then executeCommand else None;
      flowLogs := [];
      summary := Json.Obj([]);
      state := [];
    }

    /** `setPolicy(policy)`: a timeout above 2^31 - 2 is lowered to it; the rest is kept. */
    method SetPolicy(p: FlowPolicy.StepPolicy)
      modifies this`policy
      ensures policy == p.(timeout := ClampTimeout(p.timeout))
      ensures policy.timeout <= FlowPolicy.JsMaxTimingPolicy
      ensures nextStep == old(nextStep) && executeCommand == old(executeCommand)
      ensures flowLogs == old(flowLogs) && summary == old(summary) && state == old(state)
    {
      var q := p;
      if q.timeout > FlowPolicy.JsMaxTimingPolicy {
        q := q.(timeout := FlowPolicy.JsMaxTimingPolicy);
      }
      policy := q;
    }

    /** `_extractFlowLogs(logs)`. */
    method ExtractFlowLogs(logs: Logs)
      modifies this`flowLogs
      ensures flowLogs == if logs.stdout.Some? then FlowLogs(logs.stdout.value) else old(flowLogs)
    {
      if logs.stdout.Some? {
        flowLogs := FlowLogs(logs.stdout.value);
      }
    }

    /**
     * `execute()`: runs the step, which may set its policy and its summary,
     * reads the mandatory flag then in force, absorbs or propagates the
     * failure, and always finishes.
     */
    method Execute() returns (r: ExecResult)
      modifies this`policy, this`flowLogs, this`summary, this`state
      ensures r == StepOutcome(old(policy), run)
      ensures policy == PolicyAfter(old(policy), run)
      ensures flowLogs == FlowLogsAfter(old(flowLogs), run.outcome)
      ensures summary == (if finish.Some? then finish.value else run.setsSummary.GetOr(old(summary)))
      ensures state == FinishedState(old(state), executeCommand, flowLogs, summary)
    {
      // what `run()` does to the step before it returns
      if run.setsPolicy.Some? {
        SetPolicy(run.setsPolicy.value);
      }
      if run.setsSummary.Some? {
        summary := run.setsSummary.value;
      }
      var thrown: Option<Report> := None;
      match run.outcome {
        case Resolves(v) =>
          if v.None? {
            thrown := Some(TypeError);
          } else {
            var result := v.value;
            if LogsOf(result).Some? {
              ExtractFlowLogs(LogsOf(result).value);
            }
            if !policy.mandatory || (result.Report? && result.status == Json.Num(0)) {
              r := Resolved(StatusZero);
            } else {
              r := Rejected(result);
            }
          }
        case Throws(e) =>
          thrown := Some(e);
        case ThrowsNullish =>
          // `e.logs` throws inside the `catch`
          r := Rejected(TypeError);
      }
      if thrown.Some? {
        var e := thrown.value;
        if LogsOf(e).Some? {
          ExtractFlowLogs(LogsOf(e).value);
        }
        if !policy.mandatory {
          r := Resolved(StatusZero);
        } else {
          r := Rejected(e);
        }
      }
      Finish();
    }

    /** `_finish()`: calls the `finish` callback, then publishes the state. */
    method Finish()
      modifies this`summary, this`state
      ensures summary == (if finish.Some? then finish.value else old(summary))
      ensures state == FinishedState(old(state), executeCommand, flowLogs, summary)
    {
      if finish.Some? {
        summary := finish.value;
      }
      if Tools.Present(executeCommand) {
        state := Json.Set(state, "executeCommand", Json.Str(executeCommand.value));
      }
      if |flowLogs| > 0 {
        state := Json.Set(state, "flowLogs", LogsJson(flowLogs));
      }
      if Json.Truthy(summary) {
        state := Json.Set(state, "summary", summary);
      }
    }

    /** The `isMandatory` getter. */
    function IsMandatory(): bool
      reads this
    {
      policy.mandatory
    }
  }
}
