/**
 * The flow policy (flowPolicy.js and model/FlowPolicy.js): the default
 * timeouts and mandatory flags of every phase and step, and the shallow merge
 * of an optional override file over them.
 */
module FlowPolicy {
  import opened Wrappers
  import Json

  /** The largest timeout a JavaScript timer accepts here: 2^31 - 2 milliseconds. */
  const JsMaxTimingPolicy: int := 0x8000_0000 - 2

  /** The policy of one step: MANDATORY, NAME, RETRY, TIMEOUT (ms), NEXT and an optional OTHERS table. */
  datatype StepPolicy = StepPolicy(name: string, mandatory: bool, retry: nat, timeout: int,
                                   next: Option<string>, others: Json.Fields)

  /** Where a step object of the policy file writes MANDATORY: before NAME, or right after it. */
  datatype KeyOrder = MandatoryFirst | NameFirst

  /**
   * The policy of one phase: its TIMEOUT and its SUB_PHASE table, in declaration
   * order, with the key order its step objects are written in.
   */
  datatype PhasePolicy = PhasePolicy(name: string, timeout: int, steps: seq<StepPolicy>, keyOrder: KeyOrder)

  const Minute: int := 60 * 1000
  const Hour: int := 60 * Minute

  const DefaultPhases: seq<PhasePolicy> := [
    PhasePolicy("SETUP", 3 * Hour * 2, [
      StepPolicy("SYNC_CUSTOM_RULE_INFO", false, 1, 10 * Minute, Some("SYNC_CUSTOM_RULE_MI"), []),
      StepPolicy("SYNC_CUSTOM_RULE_MI", false, 1, 10 * Minute, Some("SCM_CODE_DIFF"), []),
      StepPolicy("SCM_CODE_DIFF", false, 1, 10 * Minute, Some("PREBUILD"), [])
    ], MandatoryFirst),
    PhasePolicy("PREPROC", 3 * Hour * 2, [
      StepPolicy("PREBUILD", true, 0, 4 * Hour, Some("PACKAGING"), []),
      StepPolicy("PACKAGING", true, 0, Hour, Some("CREATE_SCAN_TASK"), []),
      StepPolicy("CREATE_SCAN_TASK", true, 3, Hour, Some("UPLOAD"), []),
      StepPolicy("UPLOAD", true, 0, Hour, Some("SUBMIT_SCAN_TASK"),
                 [("MAX_SOURCE_FILE_SIZE", Json.Num(5 * 1024 * 1024 * 1024))]),
      StepPolicy("SUBMIT_SCAN_TASK", true, 3, Hour, Some("CLEAN_UP"), []),
      StepPolicy("CLEAN_UP", false, 0, Hour, None, [])
    ], NameFirst)
  ]

  /** A step object as the policy file writes it, its first two keys in the phase's order. */
  function StepJson(s: StepPolicy, order: KeyOrder): Json.Value {
    var name := ("NAME", Json.Str(s.name));
    var mandatory := ("MANDATORY", Json.Bool(s.mandatory));
    Json.Obj((if order == MandatoryFirst then [mandatory, name] else [name, mandatory])
             + [("RETRY", Json.Num(s.retry)), ("TIMEOUT", Json.Num(s.timeout)),
              ("NEXT", match s.next case Some(n) => Json.Str(n) case None => Json.Null)]
             + (if s.others == [] then [] else [("OTHERS", Json.Obj(s.others))]))
  }

  function StepsJson(steps: seq<StepPolicy>, order: KeyOrder): Json.Fields
    decreases |steps|
  {
    if |steps| == 0 then [] else [(steps[0].name, StepJson(steps[0], order))] + StepsJson(steps[1..], order)
  }

  function PhasesJson(phases: seq<PhasePolicy>): Json.Fields
    decreases |phases|
  {
    if |phases| == 0 then []
    else
      var p := phases[0];
      [(p.name, Json.Obj([("TIMEOUT", Json.Num(p.timeout)), ("NAME", Json.Str(p.name)),
                          ("SUB_PHASE", Json.Obj(StepsJson(p.steps, p.keyOrder)))]))]
      + PhasesJson(phases[1..])
  }

  /** The default policy document: a single top-level key, PHASE. */
  function DefaultDocument(): Json.Fields {
    [("PHASE", Json.Obj(PhasesJson(DefaultPhases)))]
  }

  /**
   * The policy in force: the defaults, or, when an override file is present,
   * `{...defaults, ...override}`.
   */
  function LoadPolicy(custom: Option<Json.Fields>): (policy: Json.Fields)
    ensures custom.None? ==> policy == DefaultDocument()
  {
    match custom
    case None => DefaultDocument()
    case Some(c) => Json.Spread(DefaultDocument(), c)
  }

  /**
   * The merge is shallow: a top-level key of the override replaces the
   * default value wholesale, every other top-level key keeps its default.
   */
  lemma OverrideIsShallow(custom: Json.Fields, k: string)
    requires Json.UniqueKeys(custom)
    ensures Json.Lookup(LoadPolicy(Some(custom)), k) ==
      if Json.HasKey(custom, k) then Json.Lookup(custom, k) else Json.Lookup(DefaultDocument(), k)
  {
    Json.SpreadLookup(DefaultDocument(), custom, k);
  }

  /**
   * So an override that changes a single step's timeout under PHASE drops
   * every default step it does not restate.
   */
  lemma PartialPhaseOverrideDropsDefaults(step: Json.Value)
    ensures var custom := [("PHASE", Json.Obj([("SETUP", step)]))];
      Json.Lookup(LoadPolicy(Some(custom)), "PHASE") == Some(Json.Obj([("SETUP", step)]))
  {
    var custom := [("PHASE", Json.Obj([("SETUP", step)]))];
    OverrideIsShallow(custom, "PHASE");
  }

  /** Every default timeout fits a JavaScript timer. */
  lemma DefaultTimeoutsFit()
    ensures forall p :: p in DefaultPhases ==> p.timeout < JsMaxTimingPolicy
    ensures forall p, s :: p in DefaultPhases && s in p.steps ==> s.timeout < JsMaxTimingPolicy
  {
  }

  /** SETUP steps and CLEAN_UP are optional; every other PREPROC step is mandatory. */
  lemma DefaultMandatoryFlags()
    ensures |DefaultPhases| == 2 && DefaultPhases[0].name == "SETUP" && DefaultPhases[1].name == "PREPROC"
    ensures forall s :: s in DefaultPhases[0].steps ==> !s.mandatory
    ensures forall s :: s in DefaultPhases[1].steps ==> (s.mandatory <==> s.name != "CLEAN_UP")
  {
  }

  /** The NEXT links chain the steps in order, across phases, and end at CLEAN_UP. */
  lemma DefaultNextChain()
    ensures var all := DefaultPhases[0].steps + DefaultPhases[1].steps;
      (forall i :: 0 <= i < |all| - 1 ==> all[i].next == Some(all[i + 1].name))
      && all[|all| - 1].name == "CLEAN_UP" && all[|all| - 1].next == None
  {
  }
}
