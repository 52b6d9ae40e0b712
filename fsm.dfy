/**
 * The CI/CD state machine of controller/fsm/fsmController.js: states keyed
 * by name, each with a `transit` closure that picks a transition, and a
 * machine that performs exactly one transition from its current state.
 *
 * The closures of the source are modelled by what they produce. A state's
 * `transit` closure either returns a transition or ends the process with
 * `system.exit`; a transition's `validate()` either passes or names the error
 * to throw (its `action`, a no-op in every use, is left out).
 */
module Fsm {
  import opened Wrappers
  import Json
  import Enums

  /** What a transition's `validate()` returns. */
  datatype Validation = Valid | Invalid(error: string)

  /** `FsmTransition`: the next state and the verdict of its `validate()`. */
  datatype Transition = Transition(nextState: string, validation: Validation)

  /**
   * What a state's `transit` closure does: it returns a transition, or it
   * ends the process with `system.exit(code)`, where `None` is an undefined
   * code (the process then ends with status 0).
   */
  datatype Choice = Choose(transition: Transition) | ExitProcess(code: Option<int>)

  /** `FsmState`: a name and its `transit` closure. */
  datatype FsmState = FsmState(name: string, choice: Choice)

  /** How `transit()` ends: it returns a transition, throws, or the process exits inside it. */
  datatype TransitResult = Transits(transition: Transition) | Throws(error: string) | Exits(code: Option<int>)

  /** How `start()` ends: with the next state (`undefined` after an error), or with the process exiting. */
  datatype StartResult = NextState(state: Json.Value) | ProcessExit(code: Option<int>)

  /**
   * `FsmState.transit()`: the chosen transition is returned iff its
   * `validate()` passes; otherwise its error is thrown.
   */
  function Transit(s: FsmState): (r: TransitResult)
    ensures r.Exits? <==> s.choice.ExitProcess?
    ensures r.Exits? ==> r.code == s.choice.code
    ensures r.Transits? <==> s.choice.Choose? && s.choice.transition.validation.Valid?
    ensures r.Transits? ==> r.transition == s.choice.transition
    ensures r.Throws? ==> s.choice.Choose? && s.choice.transition.validation == Invalid(r.error)
  {
    match s.choice
    case ExitProcess(code) => Exits(code)
    case Choose(t) =>
      match t.validation
      case Valid => Transits(t)
      case Invalid(error) => Throws(error)
  }

  /** The map `addState` builds from a list of states: each state is set under its name, in list order. */
  function StateMap(states: seq<FsmState>): (r: map<string, FsmState>)
    ensures forall k :: 0 <= k < |states| ==> states[k].name in r
    ensures forall n :: n in r ==> r[n].name == n
    decreases |states|
  {
    if |states| == 0 then map[]
    else StateMap(states[..|states| - 1])[states[|states| - 1].name := states[|states| - 1]]
  }

  /**
   * The map has an entry for exactly the names of the listed states, and a
   * later state with the same name replaces an earlier one: the entry is the
   * last state with that name.
   */
  lemma {:induction false} StateMapLastWins(states: seq<FsmState>, n: string)
    ensures n in StateMap(states) <==> exists j :: 0 <= j < |states| && states[j].name == n
    ensures n in StateMap(states) ==>
      exists j :: 0 <= j < |states| && StateMap(states)[n] == states[j] && states[j].name == n
        && forall k :: j < k < |states| ==> states[k].name != n
    decreases |states|
  {
    if |states| > 0 {
      var init := states[..|states| - 1];
      var last := states[|states| - 1];
      StateMapLastWins(init, n);
      assert forall j :: 0 <= j < |init| ==> init[j] == states[j];
      if last.name != n && n in StateMap(init) {
        var j :| 0 <= j < |init| && StateMap(init)[n] == init[j] && init[j].name == n
          && forall k :: j < k < |init| ==> init[k].name != n;
        assert forall k :: j < k < |states| ==> states[k].name != n by {
          forall k | j < k < |states|
            ensures states[k].name != n
          {
            if k < |init| {
              assert init[k].name != n;
            }
          }
        }
      }
    }
  }

  /** The message `_transit` throws for a state that is not in the map. */
  function NotFound(currState: Json.Value): string {
    "[fsm._transit] state:" + Json.ToText(currState) + " not found, set FSM state to end"
  }

  /** `CICDFsm`: the states keyed by name and the state the machine resumes from. */
  class CicdFsm {
    var stateMap: map<string, FsmState>
    var currentState: Json.Value

    /**
     * `new CICDFsm(project, states)`: the machine resumes from the project's
     * stored `cicdFsmState` when it is truthy and from START otherwise, and
     * adds the states in order.
     */
    constructor (cicd: Json.Fields, states: seq<FsmState>)
      ensures currentState ==
        if Json.Truthy(Json.Get(cicd, "cicdFsmState")) then Json.Get(cicd, "cicdFsmState") else Json.Str(Enums.FsmStart)
      ensures stateMap == StateMap(states)
    {
      var stored := Json.Get(cicd, "cicdFsmState");
      currentState := if Json.Truthy(stored) then stored else Json.Str(Enums.FsmStart);
      stateMap := map[];
      new;
      var i := 0;
      while i < |states|
        invariant 0 <= i <= |states|
        invariant currentState == if Json.Truthy(stored) then stored else Json.Str(Enums.FsmStart)
        invariant stateMap == StateMap(states[..i])
      {
        assert states[..i + 1][..i] == states[..i];
        AddState(states[i]);
        i := i + 1;
      }
      assert states[..|states|] == states;
    }

    /** `addState(fsmState)`: the state is set under its name, replacing any state of that name. */
    method AddState(s: FsmState)
      modifies this`stateMap
      ensures stateMap == old(stateMap)[s.name := s]
    {
      stateMap := stateMap[s.name := s];
    }

    /** `_transit(currState)`: a state that is not in the map throws; otherwise that state transits. */
    function TransitFrom(currState: Json.Value): (r: TransitResult)
      reads this`stateMap
      ensures !(currState.Str? && currState.s in stateMap) ==> r == Throws(NotFound(currState))
      ensures currState.Str? && currState.s in stateMap ==> r == Transit(stateMap[currState.s])
    {
      if currState.Str? && currState.s in stateMap then Transit(stateMap[currState.s])
      else Throws(NotFound(currState))
    }

    /**
     * `start()`: one transition from the current state. A thrown error is
     * swallowed and the next state is then `undefined`; an exit inside the
     * transition ends the process.
     */
    function Start(): (r: StartResult)
      reads this
      ensures r.ProcessExit? <==> TransitFrom(currentState).Exits?
      ensures TransitFrom(currentState).Transits? ==>
        r == NextState(Json.Str(TransitFrom(currentState).transition.nextState))
      ensures TransitFrom(currentState).Throws? ==> r == NextState(Json.Undefined)
    {
      match TransitFrom(currentState)
      case Transits(t) => NextState(Json.Str(t.nextState))
      case Throws(_) => NextState(Json.Undefined)
      case Exits(code) => ProcessExit(code)
    }
  }
}
