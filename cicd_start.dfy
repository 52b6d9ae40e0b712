/**
 * `CICDStart(project)` of index.js: the five states of the CI/CD state
 * machine with their transitions, the decision table for the DSR states, and
 * the single transition the client makes before a scan starts.
 */
module CicdStart {
  import opened Wrappers
  import Json
  import Enums
  import Fsm
  import Messages
  import ScanTask

  /** The transition to TRIAL_SCAN_DONE: it always validates. */
  const ToTrialScan := Fsm.Transition(Enums.FsmTrialScanDone, Fsm.Valid)

  /** A transition that validates only when the project's CI/CD data has a commit id. */
  function NeedsCommit(nextState: string, error: string, cicd: Json.Fields): (t: Fsm.Transition)
    ensures t.nextState == nextState
    ensures t.validation.Valid? <==> Json.Truthy(Json.Get(cicd, "commitId"))
  {
    Fsm.Transition(nextState, if Json.Truthy(Json.Get(cicd, "commitId")) then Fsm.Valid else Fsm.Invalid(error))
  }

  function ToCleanScan(cicd: Json.Fields): Fsm.Transition {
    NeedsCommit(Enums.FsmCleanScanDone, "[CICD] No commit id found before executing clean scan", cicd)
  }

  function ToCdDsrScan(cicd: Json.Fields): Fsm.Transition {
    NeedsCommit(Enums.FsmCdDsrScanDone, "[CICD] No commit id found before executing dsr scan", cicd)
  }

  function ToCiDsrScan(cicd: Json.Fields): Fsm.Transition {
    NeedsCommit(Enums.FsmCiDsrScanDone, "[CICD] No commit id found before executing dsr scan", cicd)
  }

  /**
   * `executeDecisionTable(repoAction)`: CI goes to CI_DSR_SCAN_DONE, CD to
   * CD_DSR_SCAN_DONE, and any other action exits with GENERAL_ERROR.
   */
  function DecisionTable(repoAction: Json.Value, cicd: Json.Fields): (c: Fsm.Choice)
    ensures repoAction == Json.Str(Enums.RepoCI) ==> c == Fsm.Choose(ToCiDsrScan(cicd))
    ensures repoAction == Json.Str(Enums.RepoCD) ==> c == Fsm.Choose(ToCdDsrScan(cicd))
    ensures repoAction != Json.Str(Enums.RepoCI) && repoAction != Json.Str(Enums.RepoCD) ==>
      c == Fsm.ExitProcess(Some(Enums.ExitGeneralError))
  {
    if repoAction == Json.Str(Enums.RepoCI) then Fsm.Choose(ToCiDsrScan(cicd))
    else if repoAction == Json.Str(Enums.RepoCD) then Fsm.Choose(ToCdDsrScan(cicd))
    else Fsm.ExitProcess(Some(Enums.ExitGeneralError))
  }

  /** The `transit` of START and TRIAL_SCAN_DONE: a clean scan needs a commit id and the CD action. */
  function FirstScanChoice(cicd: Json.Fields): Fsm.Choice {
    if !Json.Truthy(Json.Get(cicd, "commitId")) || Json.Get(cicd, "repoAction") != Json.Str(Enums.RepoCD) then
      Fsm.Choose(ToTrialScan)
    else Fsm.Choose(ToCleanScan(cicd))
  }

  /**
   * The `transit` of CLEAN_SCAN_DONE, CI_DSR_SCAN_DONE and CD_DSR_SCAN_DONE:
   * without a commit id the process exits with `EXIT_CODES.SUCCESS`, a key
   * the exit codes do not have, so the code is undefined; otherwise the
   * decision table picks the transition.
   */
  function DsrChoice(cicd: Json.Fields): Fsm.Choice {
    if !Json.Truthy(Json.Get(cicd, "commitId")) then Fsm.ExitProcess(None)
    else DecisionTable(Json.Get(cicd, "repoAction"), cicd)
  }

  /** The states `CICDStart` gives the machine, in order. */
  function States(cicd: Json.Fields): (r: seq<Fsm.FsmState>)
    ensures |r| == 5 && r[0].choice == r[1].choice
    ensures r[2].choice == r[3].choice == r[4].choice
  {
    [Fsm.FsmState(Enums.FsmStart, FirstScanChoice(cicd)),
     Fsm.FsmState(Enums.FsmTrialScanDone, FirstScanChoice(cicd)),
     Fsm.FsmState(Enums.FsmCleanScanDone, DsrChoice(cicd)),
     Fsm.FsmState(Enums.FsmCiDsrScanDone, DsrChoice(cicd)),
     Fsm.FsmState(Enums.FsmCdDsrScanDone, DsrChoice(cicd))]
  }

  /** The five names are distinct, so every state is found under its own name. */
  lemma StatesByName(cicd: Json.Fields)
    ensures Fsm.StateMap(States(cicd)) ==
      map[Enums.FsmStart := States(cicd)[0], Enums.FsmTrialScanDone := States(cicd)[1],
          Enums.FsmCleanScanDone := States(cicd)[2], Enums.FsmCiDsrScanDone := States(cicd)[3],
          Enums.FsmCdDsrScanDone := States(cicd)[4]]
  {
    var s := States(cicd);
    assert s[..1][..0] == [] && s[..2][..1] == s[..1] && s[..3][..2] == s[..2];
    assert s[..4][..3] == s[..3] && s[..5][..4] == s[..4] && s[..5] == s;
    assert Fsm.StateMap(s[..1]) == map[Enums.FsmStart := s[0]];
    assert Fsm.StateMap(s[..2]) == Fsm.StateMap(s[..1])[Enums.FsmTrialScanDone := s[1]];
    assert Fsm.StateMap(s[..3]) == Fsm.StateMap(s[..2])[Enums.FsmCleanScanDone := s[2]];
    assert Fsm.StateMap(s[..4]) == Fsm.StateMap(s[..3])[Enums.FsmCiDsrScanDone := s[3]];
    assert Fsm.StateMap(s) == Fsm.StateMap(s[..4])[Enums.FsmCdDsrScanDone := s[4]];
  }

  /**
   * The decision the state machine makes, as a table: the state it resumes
   * from (START when none is stored), the commit id and the repo action give
   * the next state or the exit. An unknown stored state makes the transition
   * throw, which is swallowed: the next state is `undefined`.
   */
  function NextCicdState(cicd: Json.Fields): (r: Fsm.StartResult)
    ensures r.NextState? ==>
      r.state == Json.Undefined || r.state == Json.Str(Enums.FsmTrialScanDone) || r.state == Json.Str(Enums.FsmCleanScanDone)
      || r.state == Json.Str(Enums.FsmCiDsrScanDone) || r.state == Json.Str(Enums.FsmCdDsrScanDone)
    ensures r.ProcessExit? ==> Json.Truthy(Json.Get(cicd, "cicdFsmState"))
  {
    var stored := Json.Get(cicd, "cicdFsmState");
    var commit := Json.Truthy(Json.Get(cicd, "commitId"));
    var action := Json.Get(cicd, "repoAction");
    if !Json.Truthy(stored) || stored == Json.Str(Enums.FsmStart) || stored == Json.Str(Enums.FsmTrialScanDone) then
      Fsm.NextState(Json.Str(if commit && action == Json.Str(Enums.RepoCD) then Enums.FsmCleanScanDone
                             else Enums.FsmTrialScanDone))
    else if stored == Json.Str(Enums.FsmCleanScanDone) || stored == Json.Str(Enums.FsmCiDsrScanDone)
            || stored == Json.Str(Enums.FsmCdDsrScanDone) then
      if !commit then Fsm.ProcessExit(None)
      else if action == Json.Str(Enums.RepoCI) then Fsm.NextState(Json.Str(Enums.FsmCiDsrScanDone))
      else if action == Json.Str(Enums.RepoCD) then Fsm.NextState(Json.Str(Enums.FsmCdDsrScanDone))
      else Fsm.ProcessExit(Some(Enums.ExitGeneralError))
    else Fsm.NextState(Json.Undefined)
  }

  /** `CICDStart(project)`: builds the machine over the project's CI/CD data and makes its one transition. */
  method Start(cicd: Json.Fields) returns (r: Fsm.StartResult)
    ensures r == NextCicdState(cicd)
  {
    var fsm := new Fsm.CicdFsm(cicd, States(cicd));
    MachineFollowsTable(fsm, cicd);
    r := fsm.Start();
  }

  /** A machine built over these states, resumed from the stored state, decides as the table does. */
  lemma MachineFollowsTable(fsm: Fsm.CicdFsm, cicd: Json.Fields)
    requires fsm.stateMap == Fsm.StateMap(States(cicd))
    requires var stored := Json.Get(cicd, "cicdFsmState");
      fsm.currentState == if Json.Truthy(stored) then stored else Json.Str(Enums.FsmStart)
    ensures fsm.Start() == NextCicdState(cicd)
  {
    StatesByName(cicd);
    var stored := Json.Get(cicd, "cicdFsmState");
    if !Json.Truthy(stored) || stored == Json.Str(Enums.FsmStart) || stored == Json.Str(Enums.FsmTrialScanDone) {
      assert fsm.stateMap[fsm.currentState.s].choice == FirstScanChoice(cicd);
      FirstScanChoiceOutcome(fsm, cicd);
    } else if stored == Json.Str(Enums.FsmCleanScanDone) || stored == Json.Str(Enums.FsmCiDsrScanDone)
              || stored == Json.Str(Enums.FsmCdDsrScanDone) {
      assert fsm.stateMap[fsm.currentState.s].choice == DsrChoice(cicd);
      DsrChoiceOutcome(fsm, cicd);
    } else {
      UnknownStateOutcome(fsm, cicd);
    }
  }

  /** From a stored state that is none of the five, the transition throws and the next state is `undefined`. */
  lemma UnknownStateOutcome(fsm: Fsm.CicdFsm, cicd: Json.Fields)
    requires fsm.stateMap == Fsm.StateMap(States(cicd))
    requires fsm.currentState != Json.Str(Enums.FsmStart) && fsm.currentState != Json.Str(Enums.FsmTrialScanDone)
    requires fsm.currentState != Json.Str(Enums.FsmCleanScanDone) && fsm.currentState != Json.Str(Enums.FsmCiDsrScanDone)
    requires fsm.currentState != Json.Str(Enums.FsmCdDsrScanDone)
    ensures fsm.Start() == Fsm.NextState(Json.Undefined)
  {
    StatesByName(cicd);
    assert !(fsm.currentState.Str? && fsm.currentState.s in fsm.stateMap);
  }

  /** From START or TRIAL_SCAN_DONE: TRIAL_SCAN_DONE again, or CLEAN_SCAN_DONE with a commit id and the CD action. */
  lemma FirstScanChoiceOutcome(fsm: Fsm.CicdFsm, cicd: Json.Fields)
    requires fsm.currentState.Str? && fsm.currentState.s in fsm.stateMap
    requires fsm.stateMap[fsm.currentState.s].choice == FirstScanChoice(cicd)
    ensures fsm.Start() == Fsm.NextState(Json.Str(
      if Json.Truthy(Json.Get(cicd, "commitId")) && Json.Get(cicd, "repoAction") == Json.Str(Enums.RepoCD)
      then Enums.FsmCleanScanDone else Enums.FsmTrialScanDone))
  {
    assert fsm.TransitFrom(fsm.currentState) == Fsm.Transit(fsm.stateMap[fsm.currentState.s]);
  }

  /** From a clean or DSR state: an exit without a commit id, else the decision table. */
  lemma DsrChoiceOutcome(fsm: Fsm.CicdFsm, cicd: Json.Fields)
    requires fsm.currentState.Str? && fsm.currentState.s in fsm.stateMap
    requires fsm.stateMap[fsm.currentState.s].choice == DsrChoice(cicd)
    ensures var commit := Json.Truthy(Json.Get(cicd, "commitId"));
      var action := Json.Get(cicd, "repoAction");
      fsm.Start() ==
        if !commit then Fsm.ProcessExit(None)
        else if action == Json.Str(Enums.RepoCI) then Fsm.NextState(Json.Str(Enums.FsmCiDsrScanDone))
        else if action == Json.Str(Enums.RepoCD) then Fsm.NextState(Json.Str(Enums.FsmCdDsrScanDone))
        else Fsm.ProcessExit(Some(Enums.ExitGeneralError))
  {
    assert fsm.TransitFrom(fsm.currentState) == Fsm.Transit(fsm.stateMap[fsm.currentState.s]);
  }

  /** The edges of the state machine: every state a transition can lead to from each state. */
  predicate Edge(from: string, to: string) {
    ((from == Enums.FsmStart || from == Enums.FsmTrialScanDone)
     && (to == Enums.FsmTrialScanDone || to == Enums.FsmCleanScanDone))
    || ((from == Enums.FsmCleanScanDone || from == Enums.FsmCiDsrScanDone || from == Enums.FsmCdDsrScanDone)
        && (to == Enums.FsmCiDsrScanDone || to == Enums.FsmCdDsrScanDone))
  }

  /**
   * One invocation makes exactly one transition: a defined next state is a
   * successor of the state the machine resumed from.
   */
  lemma OneTransition(cicd: Json.Fields)
    ensures var r := NextCicdState(cicd);
      var stored := Json.Get(cicd, "cicdFsmState");
      var from := if Json.Truthy(stored) then stored else Json.Str(Enums.FsmStart);
      r.NextState? && r.state != Json.Undefined ==> from.Str? && r.state.Str? && Edge(from.s, r.state.s)
  {
    var stored := Json.Get(cicd, "cicdFsmState");
    if !Json.Truthy(stored) {
      assert Edge(Enums.FsmStart, Enums.FsmTrialScanDone) && Edge(Enums.FsmStart, Enums.FsmCleanScanDone);
    }
  }

  /** The DSR and clean-scan states are only ever reached with a commit id, and a DSR state only with a CI or CD action. */
  lemma CommitNeededBeyondTrial(cicd: Json.Fields)
    ensures var r := NextCicdState(cicd);
      r.NextState? && r.state.Str? && r.state.s != Enums.FsmTrialScanDone ==> Json.Truthy(Json.Get(cicd, "commitId"))
    ensures var r := NextCicdState(cicd);
      r == Fsm.NextState(Json.Str(Enums.FsmCiDsrScanDone)) ==> Json.Get(cicd, "repoAction") == Json.Str(Enums.RepoCI)
    ensures var r := NextCicdState(cicd);
      r == Fsm.NextState(Json.Str(Enums.FsmCdDsrScanDone)) ==> Json.Get(cicd, "repoAction") == Json.Str(Enums.RepoCD)
  {
  }

  /**
   * The end of `main()`. With CI/CD control on (`cicdControl`, the truthiness of
   * the client setting ENABLE_CICD_CONTROL), the scan starts with the next
   * state the machine computes, which it records in the project's CI/CD data,
   * and an exit inside the transition ends the process before any scan. With
   * it off the machine does not run and the scan starts without an argument.
   */
  method StartScan(scan: ScanTask.Scan, cicdControl: bool, catalog: Messages.Catalog, locale: string,
                   clock: ScanTask.ScanClock)
    returns (r: Option<Fsm.StartResult>, exit: Option<ScanTask.ScanExit>)
    modifies scan.project`cicd, scan.project`taskRecords, scan.project`stateFolder
    modifies scan`startTime, scan`endTime, scan`status, scan`reason, scan`activityLog
    modifies scan.phases`currentState, scan.phases`stateStack
    modifies ScanTask.AllSteps(scan.phases)`policy, ScanTask.AllSteps(scan.phases)`flowLogs
    modifies ScanTask.AllSteps(scan.phases)`summary, ScanTask.AllSteps(scan.phases)`state
    ensures r == if cicdControl then Some(NextCicdState(old(scan.project.cicd))) else None
    ensures exit.None? <==> r.Some? && r.value.ProcessExit?
    ensures r.Some? && r.value.NextState? ==>
      scan.project.cicd == Json.Set(old(scan.project.cicd), "nextState", ScanTask.StartArgument(r.value.state))
    ensures r.None? ==> scan.project.cicd == Json.Set(old(scan.project.cicd), "nextState", Json.Null)
    ensures exit.Some? ==> Json.Get(scan.project.cicd, "nextState") != Json.Undefined
    ensures exit.Some? ==> exit.value.code == if scan.status == Enums.Success then Enums.ExitOk else Enums.ExitGeneralError
  {
    if !cicdControl {
      var e, plans := scan.Start(Json.Undefined, false, catalog, locale, clock);
      return None, Some(e);
    }
    var next := Start(scan.project.cicd);
    r := Some(next);
    if next.ProcessExit? {
      return r, None;
    }
    var e, plans := scan.Start(next.state, true, catalog, locale, clock);
    exit := Some(e);
  }

  /** The stored values of the five states the machine knows. */
  function KnownStates(): set<Json.Value> {
    {Json.Str(Enums.FsmStart), Json.Str(Enums.FsmTrialScanDone), Json.Str(Enums.FsmCleanScanDone),
     Json.Str(Enums.FsmCiDsrScanDone), Json.Str(Enums.FsmCdDsrScanDone)}
  }

  /**
   * The next state a scan records after the machine runs is never `undefined`:
   * it is `null` exactly when the stored state is one the machine does not know,
   * and otherwise one of the four scan-done states.
   */
  lemma RecordedNextState(cicd: Json.Fields)
    ensures var r := NextCicdState(cicd);
      var stored := Json.Get(cicd, "cicdFsmState");
      r.NextState? ==>
        (ScanTask.StartArgument(r.state) == Json.Null <==>
           Json.Truthy(stored) && stored !in KnownStates())
        && (ScanTask.StartArgument(r.state) == Json.Null || ScanTask.StartArgument(r.state).Str?)
  {
  }
}
