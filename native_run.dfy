/** The native run loop: the parameter sweep, the state trace of one run and the
    fan-out of runs and subsets over every simulation. The user's state update
    functions and policies are given functions over integer-valued states. */
module NativeRun {
  import opened Values
  import opened Seqs
  import opened NativeSignals

  // ---------------------------------------------------------------------------
  // Parameter sweep
  // ---------------------------------------------------------------------------

  /** The parameters of a native model: every value is a list of candidates. */
  type Params = map<string, seq<Value>>

  /** The ways a native run fails. `TypeError` carries the message the loop
      raises; `LastOfEmptyList` is `value.len() - 1` on an empty parameter list:
      a release build wraps the usize and `get_item` raises a Python IndexError,
      a debug build panics on the overflow. Both abort the run with this one error. */
  datatype RunError = TypeError(message: string) | LastOfEmptyList

  const NotCallableMessage: string := "State update function is not callable"
  const KeyMismatchMessage: string := "PSUB state key doesn't match function state key"

  /** The longest parameter list, 0 for no parameters. */
  ghost function MaxLen(params: Params): (r: nat)
    ensures forall k :: k in params ==> |params[k]| <= r
    ensures params != map[] ==> exists k :: k in params && |params[k]| == r
    ensures params == map[] ==> r == 0
    decreases |params|
  {
    if params == map[] then 0
    else
      var k :| k in params;
      var rest := params - {k};
      assert rest.Keys == params.Keys - {k};
      var m := MaxLen(rest);
      assert forall k' :: k' in params && k' != k ==> k' in rest;
      if |params[k]| > m then |params[k]| else m
  }

  /** A bound that every list meets and some list reaches is the maximum. */
  lemma MaxLenUnique(params: Params, m: nat)
    requires forall k :: k in params ==> |params[k]| <= m
    requires m == 0 || exists k :: k in params && |params[k]| == m
    ensures m == MaxLen(params)
  {
  }

  predicate NoEmptyList(params: Params) {
    forall k :: k in params ==> params[k] != []
  }

  /** Entry i of a list, or its last entry once i runs past the end. */
  function Pick(values: seq<Value>, i: nat): Value
    requires values != []
  {
    if i < |values| then values[i] else values[|values| - 1]
  }

  /** Subset i of the sweep. */
  function ParamSet(params: Params, i: nat): Dict
    requires NoEmptyList(params)
  {
    map k | k in params :: Pick(params[k], i)
  }

  /** The sweep of the native loop: as many subsets as the longest list. */
  ghost function SweepOf(params: Params): Result<seq<Dict>, RunError> {
    var n := MaxLen(params);
    if n > 0 && !NoEmptyList(params) then Err(LastOfEmptyList)
    else Ok(seq(n, i requires 0 <= i < n => ParamSet(params, i)))
  }

  /** The sweep has one subset per entry of the longest list; in subset i every
      parameter takes entry i of its list, or its last entry when the list is
      shorter, and every subset has exactly the parameters' keys. It fails exactly
      when some list is empty while another is not. */
  lemma SweepShape(params: Params)
    ensures SweepOf(params).Err? <==> MaxLen(params) > 0 && exists k :: k in params && params[k] == []
    ensures SweepOf(params).Ok? ==> |SweepOf(params).value| == MaxLen(params)
    ensures SweepOf(params).Ok? ==>
              forall i, k :: 0 <= i < |SweepOf(params).value| && k in params ==>
                k in SweepOf(params).value[i]
                && SweepOf(params).value[i][k]
                   == (if i < |params[k]| then params[k][i] else params[k][|params[k]| - 1])
    ensures SweepOf(params).Ok? ==>
              forall i :: 0 <= i < |SweepOf(params).value| ==> SweepOf(params).value[i].Keys == params.Keys
  {
  }

  /** With every list of length one the sweep still has one subset (the engine's
      own sweep would be empty), and no parameters give no subset at all. */
  lemma SingletonListsGiveOneSubset(params: Params)
    requires params != map[]
    requires forall k :: k in params ==> |params[k]| == 1
    ensures SweepOf(params) == Ok([map k | k in params :: params[k][0]])
  {
    var k :| k in params;
    assert MaxLen(params) == 1;
    var sweep := seq(1, i requires 0 <= i < 1 => ParamSet(params, i));
    assert ParamSet(params, 0) == map k | k in params :: params[k][0];
    assert sweep == [ParamSet(params, 0)];
  }

  lemma NoParamsGiveNoSubset()
    ensures SweepOf(map[]) == Ok([])
  {
    assert MaxLen(map[]) == 0;
    assert |SweepOf(map[]).value| == 0;
  }

  /** The sweep construction of `run`: the longest list, then one dictionary per
      sweep index. */
  method BuildSweep(params: Params) returns (r: Result<seq<Dict>, RunError>)
    ensures r == SweepOf(params)
  {
    var maxLen := 0;
    var remaining := params.Keys;
    while remaining != {}
      invariant remaining <= params.Keys
      invariant forall k :: k in params && k !in remaining ==> |params[k]| <= maxLen
      invariant maxLen == 0 || exists k :: k in params && k !in remaining && |params[k]| == maxLen
      decreases remaining
    {
      var key :| key in remaining;
      if |params[key]| > maxLen {
        maxLen := |params[key]|;
      }
      remaining := remaining - {key};
    }
    MaxLenUnique(params, maxLen);
    var paramSweep: seq<Dict> := [];
    for sweepIndex := 0 to maxLen
      invariant sweepIndex > 0 ==> NoEmptyList(params)
      invariant |paramSweep| == sweepIndex
      invariant forall i :: 0 <= i < sweepIndex ==> paramSweep[i] == ParamSet(params, i)
    {
      var paramSet := BuildParamSet(params, sweepIndex);
      if paramSet.Err? {
        return Err(paramSet.error);
      }
      paramSweep := paramSweep + [paramSet.value];
    }
    assert paramSweep == seq(maxLen, i requires 0 <= i < maxLen => ParamSet(params, i));
    return Ok(paramSweep);
  }

  /** One subset: every key takes its entry at the sweep index, or the last one. */
  method BuildParamSet(params: Params, sweepIndex: nat) returns (r: Result<Dict, RunError>)
    ensures NoEmptyList(params) ==> r == Ok(ParamSet(params, sweepIndex))
    ensures !NoEmptyList(params) ==> r == Err(LastOfEmptyList)
  {
    var paramSet: Dict := map[];
    var remaining := params.Keys;
    while remaining != {}
      invariant remaining <= params.Keys
      invariant forall k :: k in params && k !in remaining ==> params[k] != []
      invariant paramSet == map k | k in params.Keys - remaining :: Pick(params[k], sweepIndex)
      decreases remaining
    {
      var key :| key in remaining;
      var value := params[key];
      var param;
      if sweepIndex < |value| {
        param := value[sweepIndex];
      } else if |value| == 0 {
        return Err(LastOfEmptyList);
      } else {
        param := value[|value| - 1];
      }
      paramSet := paramSet[key := param];
      remaining := remaining - {key};
    }
    assert params.Keys - remaining == params.Keys;
    return Ok(paramSet);
  }

  // ---------------------------------------------------------------------------
  // One run
  // ---------------------------------------------------------------------------

  /** A state update function as the loop finds it: callable, returning the pair
      (str of the state key, new value), or not callable at all. */
  datatype StateUpdate =
    | Callable(f: (Dict, nat, seq<State>, State, Signals) -> (string, int))
    | NotCallable

  /** A partial state update block: its policies and its (variable, update) pairs,
      in the order the loop visits them. */
  datatype PSub = PSub(policies: seq<Policy>, variables: seq<(string, StateUpdate)>)

  /** The five fields the loop writes into every state. */
  const Bookkeeping: set<string> := {"simulation", "subset", "run", "substep", "timestep"}

  /** The first state of a run: the initial state stamped with the run's
      coordinates, `run` counted from 1, substep and timestep 0. */
  function FirstState(initial: State, simulation: nat, subset: nat, run: nat): (r: State)
    ensures r.Keys == initial.Keys + Bookkeeping
  {
    initial["simulation" := simulation]["subset" := subset]["run" := run + 1]
           ["substep" := 0]["timestep" := 0]
  }

  /** The copy of the last state a timestep starts from. */
  function Advance(last: State, simulation: nat, subset: nat, run: nat, timestep: nat): State {
    last["simulation" := simulation]["subset" := subset]["run" := run + 1]["timestep" := timestep + 1]
  }

  /** One variable of a block: the update is called on the live substate with the
      merged policy signals, and its key must be the variable's name. */
  function UpdateVariable(psub: PSub, params: Dict, substep: nat, history: seq<State>, substate: State,
                          variable: (string, StateUpdate)): Result<State, RunError>
  {
    match variable.1
    case NotCallable => Err(TypeError(NotCallableMessage))
    case Callable(f) =>
      var signals := MergeSignals(PolicyOutputs(psub.policies, params, substep, history, substate));
      var update := f(params, substep, history, substate, signals);
      if update.0 == variable.0 then Ok(substate[update.0 := update.1])
      else Err(TypeError(KeyMismatchMessage))
  }

  /** A Python str object: its identity and its text. */
  datatype PyStr = PyStr(id: nat, text: string)

  /** The strings CPython keeps one shared object for: the empty string and
      the one-character Latin-1 strings. */
  predicate Shared(s: string) {
    |s| == 0 || (|s| == 1 && s[0] as int < 256)
  }

  /** The identity of the shared object of a shared string. */
  function SharedId(s: string): nat
    requires Shared(s)
  {
    if |s| == 0 then 0 else s[0] as int + 1
  }

  /** `PyString::new`: the shared object of a shared string, otherwise a new
      object with the identity `newId`, which no live object has. */
  function NewPyString(s: string, newId: nat): (r: PyStr)
    ensures r.text == s
    ensures !Shared(s) ==> r.id == newId
  {
    if Shared(s) then PyStr(SharedId(s), s) else PyStr(newId, s)
  }

  /** The key check as the loop writes it: `==` between two `&PyString` in
      pyo3 0.11 compares object pointers, and `str()` of a str is that str. */
  predicate KeyCheckAsWritten(state: string, key: PyStr, newId: nat) {
    NewPyString(state, newId).id == key.id
  }

  /** One variable of a block with the key check as written; `keyId` is the
      identity of the key object the update returned. */
  function UpdateVariableAsWritten(psub: PSub, params: Dict, substep: nat, history: seq<State>,
                                   substate: State, variable: (string, StateUpdate),
                                   keyId: nat, newId: nat): Result<State, RunError>
  {
    match variable.1
    case NotCallable => Err(TypeError(NotCallableMessage))
    case Callable(f) =>
      var signals := MergeSignals(PolicyOutputs(psub.policies, params, substep, history, substate));
      var update := f(params, substep, history, substate, signals);
      if KeyCheckAsWritten(variable.0, PyStr(keyId, update.0), newId) then Ok(substate[update.0 := update.1])
      else Err(TypeError(KeyMismatchMessage))
  }

  /** As written, a variable whose name is not a shared string is rejected
      whatever its update returns, its own name included; the value check
      accepts exactly the updates that return the variable's name. */
  lemma AsWrittenRejectsOwnName(psub: PSub, params: Dict, substep: nat, history: seq<State>,
                                substate: State, variable: (string, StateUpdate), keyId: nat, newId: nat)
    requires variable.1.Callable? && !Shared(variable.0) && newId != keyId
    ensures UpdateVariableAsWritten(psub, params, substep, history, substate, variable, keyId, newId)
            == Err(TypeError(KeyMismatchMessage))
    ensures var signals := MergeSignals(PolicyOutputs(psub.policies, params, substep, history, substate));
            var update := variable.1.f(params, substep, history, substate, signals);
            UpdateVariable(psub, params, substep, history, substate, variable).Ok? <==> update.0 == variable.0
  {
  }

  /** The variable "prey" with an update returning ("prey", 5): the check as
      written raises the key mismatch, the value check stores 5. */
  lemma PreyKeyMismatch(psub: PSub, params: Dict, history: seq<State>, substate: State)
    ensures var prey := ("prey", Callable((p, j, h, s, g) => ("prey", 5)));
            UpdateVariableAsWritten(psub, params, 0, history, substate, prey, 300, 301)
              == Err(TypeError(KeyMismatchMessage))
            && UpdateVariable(psub, params, 0, history, substate, prey) == Ok(substate["prey" := 5])
  {
  }

  /** The value check: a callable update succeeds exactly when the key it
      returns is the variable's name, and then sets that variable alone. */
  lemma UpdateVariableByValue(psub: PSub, params: Dict, substep: nat, history: seq<State>,
                              substate: State, variable: (string, StateUpdate))
    requires variable.1.Callable?
    ensures var signals := MergeSignals(PolicyOutputs(psub.policies, params, substep, history, substate));
            var update := variable.1.f(params, substep, history, substate, signals);
            var r := UpdateVariable(psub, params, substep, history, substate, variable);
            (r.Ok? <==> update.0 == variable.0)
            && (r.Ok? ==> r.value == substate[variable.0 := update.1]
                          && r.value.Keys == substate.Keys + {variable.0})
            && (r.Err? ==> r.error == TypeError(KeyMismatchMessage))
  {
  }

  /** The first n variables of a block, applied in order, each seeing the updates
      of the ones before it. */
  function ApplyVariables(psub: PSub, params: Dict, substep: nat, history: seq<State>, start: State,
                          n: nat): Result<State, RunError>
    requires n <= |psub.variables|
  {
    if n == 0 then Ok(start)
    else match ApplyVariables(psub, params, substep, history, start, n - 1)
      case Err(e) => Err(e)
      case Ok(s) => UpdateVariable(psub, params, substep, history, s, psub.variables[n - 1])
  }

  /** The state of substep j (0-based) of a timestep, from the state it copies. */
  function SubstepState(psub: PSub, params: Dict, substep: nat, history: seq<State>, start: State)
    : Result<State, RunError>
  {
    ApplyVariables(psub, params, substep, history, start["substep" := substep + 1], |psub.variables|)
  }

  /** The states of the first n substeps of a timestep: substep 0 copies the
      timestep's starting state, substep j > 0 the state of substep j - 1. */
  function TimestepStates(psubs: seq<PSub>, params: Dict, history: seq<State>, previous: State, n: nat)
    : (r: Result<seq<State>, RunError>)
    requires n <= |psubs|
    ensures r.Ok? ==> |r.value| == n
  {
    if n == 0 then Ok([])
    else match TimestepStates(psubs, params, history, previous, n - 1)
      case Err(e) => Err(e)
      case Ok(done) =>
        var start := if n == 1 then previous else done[n - 2];
        match SubstepState(psubs[n - 1], params, n - 1, history, start)
        case Err(e) => Err(e)
        case Ok(s) => Ok(done + [s])
  }

  /** The trace of a run after n timesteps. */
  function TraceUpTo(simulation: nat, run: nat, subset: nat, initial: State, psubs: seq<PSub>,
                     params: Dict, n: nat): (r: Result<seq<State>, RunError>)
    ensures r.Ok? ==> |r.value| >= 1
  {
    if n == 0 then Ok([FirstState(initial, simulation, subset, run)])
    else match TraceUpTo(simulation, run, subset, initial, psubs, params, n - 1)
      case Err(e) => Err(e)
      case Ok(h) =>
        var previous := Advance(h[|h| - 1], simulation, subset, run, n - 1);
        match TimestepStates(psubs, params, h, previous, |psubs|)
        case Err(e) => Err(e)
        case Ok(ss) => Ok(h + ss)
  }

  /** `single_run(simulation, timesteps, run, subset, initial_state, psubs, params)`. */
  function SingleRunStates(simulation: nat, timesteps: nat, run: nat, subset: nat, initial: State,
                           psubs: seq<PSub>, params: Dict): Result<seq<State>, RunError>
  {
    TraceUpTo(simulation, run, subset, initial, psubs, params, timesteps)
  }

  // ---------------------------------------------------------------------------
  // Properties of one run
  // ---------------------------------------------------------------------------

  /** The two messages the loop raises. */
  predicate LoopTypeError(e: RunError) {
    e == TypeError(NotCallableMessage) || e == TypeError(KeyMismatchMessage)
  }

  /** Every update of the block is callable and always returns its own variable's key. */
  ghost predicate WellBehavedBlock(psub: PSub) {
    forall i :: 0 <= i < |psub.variables| ==>
      psub.variables[i].1.Callable?
      && forall p, j, h, s, g :: psub.variables[i].1.f(p, j, h, s, g).0 == psub.variables[i].0
  }

  ghost predicate WellBehaved(psubs: seq<PSub>) {
    forall j :: 0 <= j < |psubs| ==> WellBehavedBlock(psubs[j])
  }

  /** No variable of any block is one of the bookkeeping fields. */
  predicate NoBookkeepingVariable(psubs: seq<PSub>) {
    forall j, i :: 0 <= j < |psubs| && 0 <= i < |psubs[j].variables| ==>
      psubs[j].variables[i].0 !in Bookkeeping
  }

  /** A block fails only with one of the loop's two messages, and a well-behaved
      block does not fail. */
  lemma {:induction false} ApplyVariablesOutcome(psub: PSub, params: Dict, substep: nat, history: seq<State>,
                                                 start: State, n: nat)
    requires n <= |psub.variables|
    ensures ApplyVariables(psub, params, substep, history, start, n).Err? ==>
              LoopTypeError(ApplyVariables(psub, params, substep, history, start, n).error)
    ensures WellBehavedBlock(psub) ==> ApplyVariables(psub, params, substep, history, start, n).Ok?
  {
    if n > 0 {
      ApplyVariablesOutcome(psub, params, substep, history, start, n - 1);
    }
  }

  /** The frame of a block: a key no variable of the block names keeps its
      presence and its value, and no key is removed. */
  lemma {:induction false} ApplyVariablesFrame(psub: PSub, params: Dict, substep: nat, history: seq<State>,
                                               start: State, n: nat, k: string)
    requires n <= |psub.variables|
    requires ApplyVariables(psub, params, substep, history, start, n).Ok?
    ensures start.Keys <= ApplyVariables(psub, params, substep, history, start, n).value.Keys
    ensures (forall i :: 0 <= i < n ==> psub.variables[i].0 != k) ==>
              var s := ApplyVariables(psub, params, substep, history, start, n).value;
              (k in s <==> k in start) && (k in start ==> s[k] == start[k])
  {
    if n > 0 {
      ApplyVariablesFrame(psub, params, substep, history, start, n - 1, k);
    }
  }

  /** Once a prefix of the block fails, the block fails with that error. */
  lemma {:induction false} ApplyVariablesErr(psub: PSub, params: Dict, substep: nat, history: seq<State>,
                                             start: State, n: nat, m: nat)
    requires n <= m <= |psub.variables|
    requires ApplyVariables(psub, params, substep, history, start, n).Err?
    ensures ApplyVariables(psub, params, substep, history, start, m)
         == ApplyVariables(psub, params, substep, history, start, n)
  {
    if m > n {
      ApplyVariablesErr(psub, params, substep, history, start, n, m - 1);
    }
  }

  lemma {:induction false} TimestepStatesErr(psubs: seq<PSub>, params: Dict, history: seq<State>,
                                             previous: State, n: nat, m: nat)
    requires n <= m <= |psubs|
    requires TimestepStates(psubs, params, history, previous, n).Err?
    ensures TimestepStates(psubs, params, history, previous, m)
         == TimestepStates(psubs, params, history, previous, n)
  {
    if m > n {
      TimestepStatesErr(psubs, params, history, previous, n, m - 1);
    }
  }

  lemma {:induction false} TraceUpToErr(simulation: nat, run: nat, subset: nat, initial: State,
                                        psubs: seq<PSub>, params: Dict, n: nat, m: nat)
    requires n <= m
    requires TraceUpTo(simulation, run, subset, initial, psubs, params, n).Err?
    ensures TraceUpTo(simulation, run, subset, initial, psubs, params, m)
         == TraceUpTo(simulation, run, subset, initial, psubs, params, n)
  {
    if m > n {
      TraceUpToErr(simulation, run, subset, initial, psubs, params, n, m - 1);
    }
  }

  lemma {:induction false} TimestepOutcome(psubs: seq<PSub>, params: Dict, history: seq<State>,
                                           previous: State, n: nat)
    requires n <= |psubs|
    ensures TimestepStates(psubs, params, history, previous, n).Err? ==>
              LoopTypeError(TimestepStates(psubs, params, history, previous, n).error)
    ensures WellBehaved(psubs) ==> TimestepStates(psubs, params, history, previous, n).Ok?
  {
    if n > 0 {
      TimestepOutcome(psubs, params, history, previous, n - 1);
      var r := TimestepStates(psubs, params, history, previous, n - 1);
      if r.Ok? {
        var start := if n == 1 then previous else r.value[n - 2];
        var psub := psubs[n - 1];
        ApplyVariablesOutcome(psub, params, n - 1, history, start["substep" := n], |psub.variables|);
      }
    }
  }

  lemma {:induction false} TraceOutcome(simulation: nat, run: nat, subset: nat, initial: State,
                                        psubs: seq<PSub>, params: Dict, n: nat)
    ensures TraceUpTo(simulation, run, subset, initial, psubs, params, n).Err? ==>
              LoopTypeError(TraceUpTo(simulation, run, subset, initial, psubs, params, n).error)
    ensures WellBehaved(psubs) ==> TraceUpTo(simulation, run, subset, initial, psubs, params, n).Ok?
  {
    if n > 0 {
      TraceOutcome(simulation, run, subset, initial, psubs, params, n - 1);
      var r := TraceUpTo(simulation, run, subset, initial, psubs, params, n - 1);
      if r.Ok? {
        TraceOutcomeNext(simulation, run, subset, initial, psubs, params, n, r.value);
      }
    }
  }

  lemma TraceOutcomeNext(simulation: nat, run: nat, subset: nat, initial: State,
                         psubs: seq<PSub>, params: Dict, n: nat, h: seq<State>)
    requires n > 0 && TraceUpTo(simulation, run, subset, initial, psubs, params, n - 1) == Ok(h)
    ensures TraceUpTo(simulation, run, subset, initial, psubs, params, n).Err? ==>
              LoopTypeError(TraceUpTo(simulation, run, subset, initial, psubs, params, n).error)
    ensures WellBehaved(psubs) ==> TraceUpTo(simulation, run, subset, initial, psubs, params, n).Ok?
  {
    TimestepOutcome(psubs, params, h, Advance(h[|h| - 1], simulation, subset, run, n - 1), |psubs|);
  }

  /** `single_run` fails only with one of its two `TypeError` messages, and it
      does not fail when every update is callable and returns its own key. */
  lemma SingleRunOutcome(simulation: nat, timesteps: nat, run: nat, subset: nat, initial: State,
                         psubs: seq<PSub>, params: Dict)
    ensures SingleRunStates(simulation, timesteps, run, subset, initial, psubs, params).Err? ==>
              LoopTypeError(SingleRunStates(simulation, timesteps, run, subset, initial, psubs, params).error)
    ensures WellBehaved(psubs) ==> SingleRunStates(simulation, timesteps, run, subset, initial, psubs, params).Ok?
  {
    TraceOutcome(simulation, run, subset, initial, psubs, params, timesteps);
  }

  /** The first update of the first block decides the error when it is not
      callable or never returns its own key. */
  lemma FirstUpdateFails(simulation: nat, timesteps: nat, run: nat, subset: nat, initial: State,
                         psubs: seq<PSub>, params: Dict)
    requires timesteps > 0 && |psubs| > 0 && |psubs[0].variables| > 0
    ensures psubs[0].variables[0].1.NotCallable? ==>
              SingleRunStates(simulation, timesteps, run, subset, initial, psubs, params)
              == Err(TypeError(NotCallableMessage))
    ensures (psubs[0].variables[0].1.Callable?
             && forall p, j, h, s, g :: psubs[0].variables[0].1.f(p, j, h, s, g).0 != psubs[0].variables[0].0)
            ==> SingleRunStates(simulation, timesteps, run, subset, initial, psubs, params)
                == Err(TypeError(KeyMismatchMessage))
  {
    var psub := psubs[0];
    var h := [FirstState(initial, simulation, subset, run)];
    var previous := Advance(h[0], simulation, subset, run, 0);
    var start := previous["substep" := 1];
    assert ApplyVariables(psub, params, 0, h, start, 0) == Ok(start);
    var first := ApplyVariables(psub, params, 0, h, start, 1);
    if first.Err? {
      assert TraceUpTo(simulation, run, subset, initial, psubs, params, 0) == Ok(h);
      ApplyVariablesErr(psub, params, 0, h, start, 1, |psub.variables|);
      assert TimestepStates(psubs, params, h, previous, 1) == Err(first.error);
      TimestepStatesErr(psubs, params, h, previous, 1, |psubs|);
      TraceUpToErr(simulation, run, subset, initial, psubs, params, 1, timesteps);
    }
  }

  /** The trace has one state for the start and one per timestep and block. */
  lemma {:induction false} TraceLength(simulation: nat, run: nat, subset: nat, initial: State,
                                       psubs: seq<PSub>, params: Dict, n: nat)
    requires TraceUpTo(simulation, run, subset, initial, psubs, params, n).Ok?
    ensures |TraceUpTo(simulation, run, subset, initial, psubs, params, n).value| == 1 + Times(n, |psubs|)
  {
    if n > 0 {
      TraceLength(simulation, run, subset, initial, psubs, params, n - 1);
    }
  }

  /** A successful `single_run` returns exactly 1 + timesteps x |psubs| states. */
  lemma SingleRunLength(simulation: nat, timesteps: nat, run: nat, subset: nat, initial: State,
                        psubs: seq<PSub>, params: Dict)
    requires SingleRunStates(simulation, timesteps, run, subset, initial, psubs, params).Ok?
    ensures |SingleRunStates(simulation, timesteps, run, subset, initial, psubs, params).value|
         == 1 + timesteps * |psubs|
  {
    TraceLength(simulation, run, subset, initial, psubs, params, timesteps);
    TimesIsProduct(timesteps, |psubs|);
  }

  /** Block j (0-based) of timestep t (0-based) sits at this index of the trace. */
  function Position(m: nat, t: nat, j: nat): nat {
    1 + Times(t, m) + j
  }

  lemma PositionIsProduct(m: nat, t: nat, j: nat)
    ensures Position(m, t, j) == 1 + t * m + j
  {
    TimesIsProduct(t, m);
  }

  /** The four coordinates a state of a run carries besides its substep. */
  predicate Marks(s: State, simulation: nat, subset: nat, run: nat, timestep: nat) {
    && "simulation" in s && s["simulation"] == simulation
    && "subset" in s && s["subset"] == subset
    && "run" in s && s["run"] == run + 1
    && "timestep" in s && s["timestep"] == timestep
  }

  /** A state of block j (counted from 1 as `substep`) of a given timestep. */
  predicate Stamped(s: State, simulation: nat, subset: nat, run: nat, timestep: nat, substep: nat) {
    Marks(s, simulation, subset, run, timestep) && "substep" in s && s["substep"] == substep
  }

  /** Every block state of the first n timesteps of r carries its coordinates. */
  predicate TraceStamped(r: seq<State>, m: nat, n: nat, simulation: nat, subset: nat, run: nat) {
    forall t, j :: 0 <= t < n && 0 <= j < m ==>
      Position(m, t, j) < |r| && Stamped(r[Position(m, t, j)], simulation, subset, run, t + 1, j + 1)
  }

  /** Whether some variable of the block is named k. */
  predicate Writes(psub: PSub, k: string) {
    exists i :: 0 <= i < |psub.variables| && psub.variables[i].0 == k
  }

  /** Within a timestep, block j starts from a copy of block j - 1's state (block
      0 from the timestep's starting state): every key that block j does not
      write, other than `substep`, is carried over unchanged. */
  lemma {:induction false} TimestepChain(psubs: seq<PSub>, params: Dict, history: seq<State>,
                                         previous: State, n: nat, j: nat, k: string)
    requires n <= |psubs| && j < n
    requires TimestepStates(psubs, params, history, previous, n).Ok?
    requires !Writes(psubs[j], k) && k != "substep"
    ensures var ss := TimestepStates(psubs, params, history, previous, n).value;
            var start := if j == 0 then previous else ss[j - 1];
            (k in ss[j] <==> k in start) && (k in start ==> ss[j][k] == start[k])
  {
    if j < n - 1 {
      TimestepChain(psubs, params, history, previous, n - 1, j, k);
    } else {
      TimestepChainLast(psubs, params, history, previous, n, k);
    }
  }

  /** The chain property for the block added last. */
  lemma TimestepChainLast(psubs: seq<PSub>, params: Dict, history: seq<State>,
                          previous: State, n: nat, k: string)
    requires 0 < n <= |psubs|
    requires TimestepStates(psubs, params, history, previous, n).Ok?
    requires !Writes(psubs[n - 1], k) && k != "substep"
    ensures var ss := TimestepStates(psubs, params, history, previous, n).value;
            var start := if n == 1 then previous else ss[n - 2];
            (k in ss[n - 1] <==> k in start) && (k in start ==> ss[n - 1][k] == start[k])
  {
    var done := TimestepStates(psubs, params, history, previous, n - 1).value;
    var start := if n == 1 then previous else done[n - 2];
    var psub := psubs[n - 1];
    ApplyVariablesFrame(psub, params, n - 1, history, start["substep" := n], |psub.variables|, k);
  }

  lemma {:induction false} TimestepBookkeeping(psubs: seq<PSub>, params: Dict, history: seq<State>,
                                               previous: State, n: nat,
                                               simulation: nat, subset: nat, run: nat, timestep: nat)
    requires n <= |psubs|
    requires NoBookkeepingVariable(psubs)
    requires Marks(previous, simulation, subset, run, timestep)
    requires TimestepStates(psubs, params, history, previous, n).Ok?
    ensures var ss := TimestepStates(psubs, params, history, previous, n).value;
            forall j :: 0 <= j < n ==> Stamped(ss[j], simulation, subset, run, timestep, j + 1)
  {
    if n > 0 {
      TimestepBookkeeping(psubs, params, history, previous, n - 1, simulation, subset, run, timestep);
      var done := TimestepStates(psubs, params, history, previous, n - 1).value;
      TimestepBookkeepingNext(psubs, params, history, previous, n, done, simulation, subset, run, timestep);
    }
  }

  /** The block state added by block n - 1 carries the coordinates too. */
  lemma TimestepBookkeepingNext(psubs: seq<PSub>, params: Dict, history: seq<State>,
                                previous: State, n: nat, done: seq<State>,
                                simulation: nat, subset: nat, run: nat, timestep: nat)
    requires 0 < n <= |psubs|
    requires NoBookkeepingVariable(psubs)
    requires Marks(previous, simulation, subset, run, timestep)
    requires TimestepStates(psubs, params, history, previous, n - 1) == Ok(done)
    requires forall j :: 0 <= j < n - 1 ==> Stamped(done[j], simulation, subset, run, timestep, j + 1)
    requires TimestepStates(psubs, params, history, previous, n).Ok?
    ensures var ss := TimestepStates(psubs, params, history, previous, n).value;
            forall j :: 0 <= j < n ==> Stamped(ss[j], simulation, subset, run, timestep, j + 1)
  {
    var start := if n == 1 then previous else done[n - 2];
    SubstepStamped(psubs[n - 1], params, n - 1, history, start, simulation, subset, run, timestep);
  }

  /** A block that writes no coordinate keeps its starting state's coordinates
      and stamps its own substep number. */
  lemma SubstepStamped(psub: PSub, params: Dict, substep: nat, history: seq<State>, start: State,
                       simulation: nat, subset: nat, run: nat, timestep: nat)
    requires forall i :: 0 <= i < |psub.variables| ==> psub.variables[i].0 !in Bookkeeping
    requires Marks(start, simulation, subset, run, timestep)
    requires SubstepState(psub, params, substep, history, start).Ok?
    ensures Stamped(SubstepState(psub, params, substep, history, start).value,
                    simulation, subset, run, timestep, substep + 1)
  {
    var s0 := start["substep" := substep + 1];
    assert Marks(s0, simulation, subset, run, timestep);
    var v := |psub.variables|;
    ApplyVariablesFrame(psub, params, substep, history, s0, v, "simulation");
    ApplyVariablesFrame(psub, params, substep, history, s0, v, "subset");
    ApplyVariablesFrame(psub, params, substep, history, s0, v, "run");
    ApplyVariablesFrame(psub, params, substep, history, s0, v, "timestep");
    ApplyVariablesFrame(psub, params, substep, history, s0, v, "substep");
  }

  /** One more timestep appends that timestep's block states to the trace. */
  lemma TraceStep(simulation: nat, run: nat, subset: nat, initial: State, psubs: seq<PSub>,
                  params: Dict, n: nat)
    requires n > 0
    requires TraceUpTo(simulation, run, subset, initial, psubs, params, n).Ok?
    ensures TraceUpTo(simulation, run, subset, initial, psubs, params, n - 1).Ok?
    ensures |TraceUpTo(simulation, run, subset, initial, psubs, params, n - 1).value|
         == 1 + Times(n - 1, |psubs|)
    ensures var h := TraceUpTo(simulation, run, subset, initial, psubs, params, n - 1).value;
            var previous := Advance(h[|h| - 1], simulation, subset, run, n - 1);
            && TimestepStates(psubs, params, h, previous, |psubs|).Ok?
            && TraceUpTo(simulation, run, subset, initial, psubs, params, n).value
               == h + TimestepStates(psubs, params, h, previous, |psubs|).value
  {
    TraceLength(simulation, run, subset, initial, psubs, params, n - 1);
  }

  /** Appending the block states of timestep n - 1 to a stamped trace of n - 1
      timesteps gives a stamped trace of n timesteps. */
  lemma AppendStamped(r: seq<State>, ss: seq<State>, m: nat, n: nat, simulation: nat, subset: nat, run: nat)
    requires n > 0
    requires |r| == 1 + Times(n - 1, m) && |ss| == m
    requires TraceStamped(r, m, n - 1, simulation, subset, run)
    requires forall j :: 0 <= j < m ==> Stamped(ss[j], simulation, subset, run, n, j + 1)
    ensures TraceStamped(r + ss, m, n, simulation, subset, run)
  {
    forall t, j | 0 <= t < n && 0 <= j < m
      ensures Position(m, t, j) < |r + ss|
      ensures Stamped((r + ss)[Position(m, t, j)], simulation, subset, run, t + 1, j + 1)
    {
      if t < n - 1 {
        TimesBelow(t, n - 1, m);
        assert (r + ss)[Position(m, t, j)] == r[Position(m, t, j)];
      } else {
        assert (r + ss)[Position(m, t, j)] == ss[j];
      }
    }
  }

  lemma TimestepStamped(psubs: seq<PSub>, params: Dict, h: seq<State>, ss: seq<State>, n: nat,
                        simulation: nat, subset: nat, run: nat)
    requires n > 0 && |h| == 1 + Times(n - 1, |psubs|)
    requires NoBookkeepingVariable(psubs)
    requires TraceStamped(h, |psubs|, n - 1, simulation, subset, run)
    requires TimestepStates(psubs, params, h, Advance(h[|h| - 1], simulation, subset, run, n - 1), |psubs|)
             == Ok(ss)
    ensures TraceStamped(h + ss, |psubs|, n, simulation, subset, run)
  {
    var previous := Advance(h[|h| - 1], simulation, subset, run, n - 1);
    assert Marks(previous, simulation, subset, run, n);
    TimestepBookkeeping(psubs, params, h, previous, |psubs|, simulation, subset, run, n);
    AppendStamped(h, ss, |psubs|, n, simulation, subset, run);
  }

  lemma BookkeepingStep(simulation: nat, run: nat, subset: nat, initial: State, psubs: seq<PSub>,
                        params: Dict, n: nat)
    requires n > 0
    requires NoBookkeepingVariable(psubs)
    requires TraceUpTo(simulation, run, subset, initial, psubs, params, n).Ok?
    requires TraceUpTo(simulation, run, subset, initial, psubs, params, n - 1).Ok?
    requires TraceStamped(TraceUpTo(simulation, run, subset, initial, psubs, params, n - 1).value,
                          |psubs|, n - 1, simulation, subset, run)
    ensures TraceStamped(TraceUpTo(simulation, run, subset, initial, psubs, params, n).value,
                         |psubs|, n, simulation, subset, run)
  {
    TraceStep(simulation, run, subset, initial, psubs, params, n);
    var h := TraceUpTo(simulation, run, subset, initial, psubs, params, n - 1).value;
    var ss := TimestepStates(psubs, params, h, Advance(h[|h| - 1], simulation, subset, run, n - 1),
                             |psubs|).value;
    TimestepStamped(psubs, params, h, ss, n, simulation, subset, run);
  }

  lemma {:induction false} TraceBookkeeping(simulation: nat, run: nat, subset: nat, initial: State,
                                            psubs: seq<PSub>, params: Dict, n: nat)
    requires NoBookkeepingVariable(psubs)
    requires TraceUpTo(simulation, run, subset, initial, psubs, params, n).Ok?
    ensures TraceStamped(TraceUpTo(simulation, run, subset, initial, psubs, params, n).value,
                         |psubs|, n, simulation, subset, run)
  {
    if n > 0 {
      TraceOk(simulation, run, subset, initial, psubs, params, n);
      TraceBookkeeping(simulation, run, subset, initial, psubs, params, n - 1);
      BookkeepingStep(simulation, run, subset, initial, psubs, params, n);
    }
  }

  /** A successful trace has successful prefixes. */
  lemma TraceOk(simulation: nat, run: nat, subset: nat, initial: State, psubs: seq<PSub>,
                params: Dict, n: nat)
    requires n > 0
    requires TraceUpTo(simulation, run, subset, initial, psubs, params, n).Ok?
    ensures TraceUpTo(simulation, run, subset, initial, psubs, params, n - 1).Ok?
  {
  }

  /** Later timesteps only append: the trace still starts with the first state. */
  lemma {:induction false} TraceFirst(simulation: nat, run: nat, subset: nat, initial: State,
                                      psubs: seq<PSub>, params: Dict, n: nat)
    requires TraceUpTo(simulation, run, subset, initial, psubs, params, n).Ok?
    ensures TraceUpTo(simulation, run, subset, initial, psubs, params, n).value[0]
         == FirstState(initial, simulation, subset, run)
  {
    if n > 0 {
      TraceOk(simulation, run, subset, initial, psubs, params, n);
      TraceFirst(simulation, run, subset, initial, psubs, params, n - 1);
      TraceStep(simulation, run, subset, initial, psubs, params, n);
    }
  }

  /** The bookkeeping of `single_run`, as long as no variable is itself one of the
      bookkeeping fields: the first state carries timestep 0, substep 0, the run
      counted from 1, the simulation and the subset; the state of block j in
      timestep t, at index 1 + t * |psubs| + j (see PositionIsProduct), carries
      timestep t + 1 and substep j + 1. */
  lemma SingleRunBookkeeping(simulation: nat, timesteps: nat, run: nat, subset: nat, initial: State,
                             psubs: seq<PSub>, params: Dict)
    requires NoBookkeepingVariable(psubs)
    requires SingleRunStates(simulation, timesteps, run, subset, initial, psubs, params).Ok?
    ensures var r := SingleRunStates(simulation, timesteps, run, subset, initial, psubs, params).value;
            && Stamped(r[0], simulation, subset, run, 0, 0)
            && TraceStamped(r, |psubs|, timesteps, simulation, subset, run)
  {
    TraceFirst(simulation, run, subset, initial, psubs, params, timesteps);
    TraceBookkeeping(simulation, run, subset, initial, psubs, params, timesteps);
  }

  /** The run's stamps overwrite every bookkeeping field of the initial state, so
      a trace depends on the initial state only through its other keys. */
  lemma FirstStateIgnoresBookkeeping(a: State, b: State, simulation: nat, subset: nat, run: nat)
    requires a - Bookkeeping == b - Bookkeeping
    ensures FirstState(a, simulation, subset, run) == FirstState(b, simulation, subset, run)
  {
    assert forall k :: k !in Bookkeeping ==> (k in a <==> k in a - Bookkeeping);
    assert forall k :: k !in Bookkeeping ==> (k in b <==> k in b - Bookkeeping);
  }

  lemma {:induction false} TraceIgnoresBookkeeping(simulation: nat, run: nat, subset: nat, a: State, b: State,
                                                   psubs: seq<PSub>, params: Dict, n: nat)
    requires a - Bookkeeping == b - Bookkeeping
    ensures TraceUpTo(simulation, run, subset, a, psubs, params, n)
         == TraceUpTo(simulation, run, subset, b, psubs, params, n)
  {
    if n == 0 {
      FirstStateIgnoresBookkeeping(a, b, simulation, subset, run);
    } else {
      TraceIgnoresBookkeeping(simulation, run, subset, a, b, psubs, params, n - 1);
      SamePrefixSameTrace(simulation, run, subset, a, b, psubs, params, n);
    }
  }

  /** A timestep depends on the initial state only through the trace before it. */
  lemma SamePrefixSameTrace(simulation: nat, run: nat, subset: nat, a: State, b: State,
                            psubs: seq<PSub>, params: Dict, n: nat)
    requires n > 0
    requires TraceUpTo(simulation, run, subset, a, psubs, params, n - 1)
          == TraceUpTo(simulation, run, subset, b, psubs, params, n - 1)
    ensures TraceUpTo(simulation, run, subset, a, psubs, params, n)
         == TraceUpTo(simulation, run, subset, b, psubs, params, n)
  {
  }

  // ---------------------------------------------------------------------------
  // The loop of `single_run`
  // ---------------------------------------------------------------------------

  /** `single_run`: stamps the caller's initial state in place (returned as
      `stamped`), then runs the timesteps. */
  method SingleRun(simulation: nat, timesteps: nat, run: nat, subset: nat, initialState: State,
                   psubs: seq<PSub>, params: Dict)
    returns (stamped: State, r: Result<seq<State>, RunError>)
    ensures stamped == FirstState(initialState, simulation, subset, run)
    ensures r == SingleRunStates(simulation, timesteps, run, subset, initialState, psubs, params)
  {
    stamped := initialState["simulation" := simulation];
    stamped := stamped["subset" := subset];
    stamped := stamped["run" := run + 1];
    stamped := stamped["substep" := 0];
    stamped := stamped["timestep" := 0];
    r := RunTimesteps(simulation, timesteps, run, subset, initialState, psubs, params, stamped);
  }

  /** The timestep loop of `single_run`, from the trace holding the first state:
      each timestep appends its block states. */
  method RunTimesteps(simulation: nat, timesteps: nat, run: nat, subset: nat, initialState: State,
                      psubs: seq<PSub>, params: Dict, first: State)
    returns (r: Result<seq<State>, RunError>)
    requires first == FirstState(initialState, simulation, subset, run)
    ensures r == TraceUpTo(simulation, run, subset, initialState, psubs, params, timesteps)
  {
    var result := [first];
    for timestep := 0 to timesteps
      invariant TraceUpTo(simulation, run, subset, initialState, psubs, params, timestep) == Ok(result)
    {
      var previousState := result[|result| - 1];
      previousState := previousState["simulation" := simulation];
      previousState := previousState["subset" := subset];
      previousState := previousState["run" := run + 1];
      previousState := previousState["timestep" := timestep + 1];
      var substeps := RunTimestep(psubs, params, result, previousState);
      TraceExtend(simulation, run, subset, initialState, psubs, params, timestep, result, substeps);
      if substeps.Err? {
        TraceUpToErr(simulation, run, subset, initialState, psubs, params, timestep + 1, timesteps);
        return Err(substeps.error);
      }
      result := result + substeps.value;
    }
    return Ok(result);
  }

  /** One more timestep of a successful trace h: the timestep's block states are
      appended, or its error ends the trace. */
  lemma TraceExtend(simulation: nat, run: nat, subset: nat, initial: State, psubs: seq<PSub>,
                    params: Dict, t: nat, h: seq<State>, step: Result<seq<State>, RunError>)
    requires TraceUpTo(simulation, run, subset, initial, psubs, params, t) == Ok(h)
    requires step == TimestepStates(psubs, params, h, Advance(h[|h| - 1], simulation, subset, run, t), |psubs|)
    ensures step.Ok? ==> TraceUpTo(simulation, run, subset, initial, psubs, params, t + 1) == Ok(h + step.value)
    ensures step.Err? ==> TraceUpTo(simulation, run, subset, initial, psubs, params, t + 1) == Err(step.error)
  {
  }

  /** One timestep: block j works on a copy of block j - 1's state (block 0 on the
      copy of the previous state) with `substep` set to j + 1. */
  method RunTimestep(psubs: seq<PSub>, params: Dict, history: seq<State>, previous: State)
    returns (r: Result<seq<State>, RunError>)
    ensures r == TimestepStates(psubs, params, history, previous, |psubs|)
  {
    var substeps: seq<State> := [];
    for substep := 0 to |psubs|
      invariant TimestepStates(psubs, params, history, previous, substep) == Ok(substeps)
    {
      var copied := if substep == 0 then previous else substeps[substep - 1];
      var substate := copied["substep" := substep + 1];
      var next := ApplyPSub(psubs[substep], params, substep, history, substate);
      TimestepExtend(psubs, params, history, previous, substep, substeps, copied, next);
      if next.Err? {
        TimestepStatesErr(psubs, params, history, previous, substep + 1, |psubs|);
        return Err(next.error);
      }
      substeps := substeps + [next.value];
    }
    return Ok(substeps);
  }

  /** One more block of a successful timestep prefix: its state is appended, or
      its error ends the timestep. */
  lemma TimestepExtend(psubs: seq<PSub>, params: Dict, history: seq<State>, previous: State, j: nat,
                       done: seq<State>, copied: State, next: Result<State, RunError>)
    requires j < |psubs|
    requires TimestepStates(psubs, params, history, previous, j) == Ok(done)
    requires copied == if j == 0 then previous else done[j - 1]
    requires next == ApplyVariables(psubs[j], params, j, history, copied["substep" := j + 1],
                                    |psubs[j].variables|)
    ensures next.Ok? ==> TimestepStates(psubs, params, history, previous, j + 1) == Ok(done + [next.value])
    ensures next.Err? ==> TimestepStates(psubs, params, history, previous, j + 1) == Err(next.error)
  {
  }

  /** The variables of one block, applied in order to the live substate. */
  method ApplyPSub(psub: PSub, params: Dict, substep: nat, history: seq<State>, start: State)
    returns (r: Result<State, RunError>)
    ensures r == ApplyVariables(psub, params, substep, history, start, |psub.variables|)
  {
    var substate := start;
    for v := 0 to |psub.variables|
      invariant ApplyVariables(psub, params, substep, history, start, v) == Ok(substate)
    {
      var (state, update) := psub.variables[v];
      if update.NotCallable? {
        ApplyVariablesErr(psub, params, substep, history, start, v + 1, |psub.variables|);
        return Err(TypeError(NotCallableMessage));
      }
      var signals := ReduceSignals(psub.policies, params, substep, history, substate);
      var stateUpdate := update.f(params, substep, history, substate, signals);
      if stateUpdate.0 != state {
        ApplyVariablesErr(psub, params, substep, history, start, v + 1, |psub.variables|);
        return Err(TypeError(KeyMismatchMessage));
      }
      substate := substate[stateUpdate.0 := stateUpdate.1];
    }
    return Ok(substate);
  }
}
