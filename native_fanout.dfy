/** The fan-out of the native `run`: for every simulation, the parameter sweep,
    then every run, and within a run every subset of the sweep, each one call of
    `single_run` whose states are appended to one flat result list. */
module NativeFanOut {
  import opened Values
  import opened Seqs
  import opened NativeSignals
  import opened NativeRun

  /** What the native loop reads from a model. */
  datatype NativeModel = NativeModel(initialState: State, psubs: seq<PSub>, params: Params)

  /** What the native loop reads from a simulation. */
  datatype NativeSimulation = NativeSimulation(timesteps: nat, runs: nat, model: NativeModel)

  /** The parameters as `single_run` gets them when there is no sweep: the
      dictionary of candidate lists itself. */
  function RawParams(params: Params): (r: Dict)
    ensures r.Keys == params.Keys
    ensures forall k :: k in params ==> r[k] == VList(params[k])
  {
    map k | k in params :: VList(params[k])
  }

  /** One call of `single_run` within a simulation. */
  datatype Invocation = Invocation(run: nat, subset: nat, params: Dict)

  /** The calls of one run: one per subset of the sweep, in sweep order, or a
      single call with subset 0 and the raw parameters when the sweep is empty. */
  function RunInvocations(run: nat, sweep: seq<Dict>, params: Params): seq<Invocation> {
    if |sweep| > 0 then seq(|sweep|, j requires 0 <= j < |sweep| => Invocation(run, j, sweep[j]))
    else [Invocation(run, 0, RawParams(params))]
  }

  /** The per-run tables of calls of a simulation. */
  function RunTables(runs: nat, sweep: seq<Dict>, params: Params): (r: seq<seq<Invocation>>)
    ensures |r| == runs
    ensures forall run :: 0 <= run < runs ==> r[run] == RunInvocations(run, sweep, params)
  {
    seq(runs, run requires 0 <= run < runs => RunInvocations(run, sweep, params))
  }

  /** The calls of a simulation, run after run. */
  function SimulationInvocations(runs: nat, sweep: seq<Dict>, params: Params): seq<Invocation> {
    Concat(RunTables(runs, sweep, params))
  }

  /** With a non-empty sweep a simulation makes runs x |sweep| calls, and call
      number run x |sweep| + subset is that run with that subset's parameters. */
  lemma SweptInvocations(runs: nat, sweep: seq<Dict>, params: Params, run: nat, subset: nat)
    requires run < runs && subset < |sweep|
    ensures |SimulationInvocations(runs, sweep, params)| == runs * |sweep|
    ensures run * |sweep| + subset < runs * |sweep|
    ensures SimulationInvocations(runs, sweep, params)[run * |sweep| + subset]
         == Invocation(run, subset, sweep[subset])
  {
    ConcatUniform(RunTables(runs, sweep, params), |sweep|, run, subset);
  }

  /** With an empty sweep a simulation makes one call per run, with subset 0 and
      the raw parameters. */
  lemma UnsweptInvocations(runs: nat, params: Params, run: nat)
    requires run < runs
    ensures |SimulationInvocations(runs, [], params)| == runs
    ensures SimulationInvocations(runs, [], params)[run] == Invocation(run, 0, RawParams(params))
  {
    ConcatUniform(RunTables(runs, [], params), 1, run, 0);
  }

  /** The outcome of one call of `single_run`. */
  type Outcome = Result<seq<State>, RunError>

  /** The outcomes of calls made one after another, their states appended; the
      first error ends everything with that error. */
  function Collect(outcomes: seq<Outcome>): Outcome {
    if outcomes == [] then Ok([])
    else match Collect(outcomes[..|outcomes| - 1])
      case Err(e) => Err(e)
      case Ok(done) =>
        match outcomes[|outcomes| - 1]
        case Err(e) => Err(e)
        case Ok(states) => Ok(done + states)
  }

  /** The states of one call. */
  function InvocationTrace(simulation: nat, sim: NativeSimulation, call: Invocation): Outcome {
    SingleRunStates(simulation, sim.timesteps, call.run, call.subset, sim.model.initialState,
                    sim.model.psubs, call.params)
  }

  /** The outcome of every call, in call order. */
  function CallOutcomes(simulation: nat, sim: NativeSimulation, calls: seq<Invocation>): (r: seq<Outcome>)
    ensures |r| == |calls|
    ensures forall i :: 0 <= i < |calls| ==> r[i] == InvocationTrace(simulation, sim, calls[i])
  {
    seq(|calls|, i requires 0 <= i < |calls| => InvocationTrace(simulation, sim, calls[i]))
  }

  /** The calls made in order. */
  function InvocationsResult(simulation: nat, sim: NativeSimulation, calls: seq<Invocation>): Outcome {
    Collect(CallOutcomes(simulation, sim, calls))
  }

  /** A simulation: its sweep, then its calls. */
  ghost function SimulationResult(simulation: nat, sim: NativeSimulation): Outcome {
    match SweepOf(sim.model.params)
    case Err(e) => Err(e)
    case Ok(sweep) => InvocationsResult(simulation, sim, SimulationInvocations(sim.runs, sweep, sim.model.params))
  }

  /** `run(simulations)` over the first n simulations, indexed from 0. */
  ghost function RunResult(simulations: seq<NativeSimulation>, n: nat): Outcome
    requires n <= |simulations|
  {
    if n == 0 then Ok([])
    else match RunResult(simulations, n - 1)
      case Err(e) => Err(e)
      case Ok(done) =>
        match SimulationResult(n - 1, simulations[n - 1])
        case Err(e) => Err(e)
        case Ok(states) => Ok(done + states)
  }

  // ---------------------------------------------------------------------------
  // Properties of the fan-out
  // ---------------------------------------------------------------------------

  /** The states of an outcome, or nothing when it failed. */
  function StatesOf(r: Outcome): seq<State> {
    if r.Ok? then r.value else []
  }

  function AllStates(outcomes: seq<Outcome>): (r: seq<seq<State>>)
    ensures |r| == |outcomes|
    ensures forall i :: 0 <= i < |outcomes| ==> r[i] == StatesOf(outcomes[i])
  {
    seq(|outcomes|, i requires 0 <= i < |outcomes| => StatesOf(outcomes[i]))
  }

  /** The calls succeed together or not at all, and the output is their states
      one call after the other. */
  lemma {:induction false} CollectConcat(outcomes: seq<Outcome>)
    ensures Collect(outcomes).Ok? <==> forall i :: 0 <= i < |outcomes| ==> outcomes[i].Ok?
    ensures Collect(outcomes).Ok? ==> Collect(outcomes).value == Concat(AllStates(outcomes))
  {
    if outcomes != [] {
      var p := |outcomes| - 1;
      CollectConcat(outcomes[..p]);
      assert AllStates(outcomes[..p]) == AllStates(outcomes)[..p];
    }
  }

  /** The error of a failed batch is the error of its first failing call, every
      call before which succeeded. */
  lemma {:induction false} CollectFirstError(outcomes: seq<Outcome>)
    requires Collect(outcomes).Err?
    ensures exists i :: 0 <= i < |outcomes|
              && (forall q :: 0 <= q < i ==> outcomes[q].Ok?)
              && outcomes[i] == Err(Collect(outcomes).error)
  {
    var p := |outcomes| - 1;
    if Collect(outcomes[..p]).Err? {
      CollectFirstError(outcomes[..p]);
      var i :| 0 <= i < p
               && (forall q :: 0 <= q < i ==> outcomes[..p][q].Ok?)
               && outcomes[..p][i] == Err(Collect(outcomes[..p]).error);
      assert forall q :: 0 <= q <= i ==> outcomes[..p][q] == outcomes[q];
    } else {
      CollectConcat(outcomes[..p]);
      assert forall q :: 0 <= q < p ==> outcomes[..p][q] == outcomes[q];
    }
  }

  /** Calls made one batch after another: the first batch's error wins, then the
      second's, and otherwise the outputs are appended. */
  lemma {:induction false} CollectAppend(a: seq<Outcome>, b: seq<Outcome>)
    ensures Collect(a).Err? ==> Collect(a + b) == Collect(a)
    ensures Collect(a).Ok? && Collect(b).Err? ==> Collect(a + b) == Collect(b)
    ensures Collect(a).Ok? && Collect(b).Ok? ==> Collect(a + b) == Ok(Collect(a).value + Collect(b).value)
  {
    if b == [] {
      assert a + b == a;
      if Collect(a).Ok? {
        assert Collect(a).value + [] == Collect(a).value;
      }
    } else {
      var p := |b| - 1;
      CollectAppend(a, b[..p]);
      assert (a + b)[..|a + b| - 1] == a + b[..p];
      assert (a + b)[|a + b| - 1] == b[p];
      if Collect(a).Ok? && Collect(b).Ok? {
        var front := Collect(b[..p]).value;
        assert Collect(a).value + front + b[p].value == Collect(a).value + Collect(b).value;
      }
    }
  }

  /** The outcomes of two batches of calls are those of each batch. */
  lemma CallOutcomesAppend(simulation: nat, sim: NativeSimulation, a: seq<Invocation>, b: seq<Invocation>)
    ensures CallOutcomes(simulation, sim, a + b) == CallOutcomes(simulation, sim, a) + CallOutcomes(simulation, sim, b)
  {
  }

  /** Every successful call returns 1 + timesteps x |psubs| states. */
  lemma UniformTraces(simulation: nat, sim: NativeSimulation, calls: seq<Invocation>)
    requires forall i :: 0 <= i < |calls| ==> InvocationTrace(simulation, sim, calls[i]).Ok?
    ensures forall i :: 0 <= i < |calls| ==>
              |AllStates(CallOutcomes(simulation, sim, calls))[i]| == 1 + sim.timesteps * |sim.model.psubs|
  {
    forall i | 0 <= i < |calls|
      ensures |AllStates(CallOutcomes(simulation, sim, calls))[i]| == 1 + sim.timesteps * |sim.model.psubs|
    {
      var c := calls[i];
      SingleRunLength(simulation, sim.timesteps, c.run, c.subset, sim.model.initialState, sim.model.psubs,
                      c.params);
    }
  }

  /** A successful simulation returns 1 + timesteps x |psubs| states per call. */
  lemma SimulationLength(simulation: nat, sim: NativeSimulation, calls: seq<Invocation>)
    requires InvocationsResult(simulation, sim, calls).Ok?
    ensures |InvocationsResult(simulation, sim, calls).value|
         == |calls| * (1 + sim.timesteps * |sim.model.psubs|)
  {
    CollectConcat(CallOutcomes(simulation, sim, calls));
    UniformTraces(simulation, sim, calls);
    ConcatLength(AllStates(CallOutcomes(simulation, sim, calls)), 1 + sim.timesteps * |sim.model.psubs|);
  }

  /** In a successful batch of calls, the states of call c form block c of the
      output, each block 1 + timesteps x |psubs| states long. With the call
      numbering of SweptInvocations and UnsweptInvocations this places run r and
      subset j at block r x |sweep| + j, or run r at block r without a sweep. */
  lemma CallLayout(simulation: nat, sim: NativeSimulation, calls: seq<Invocation>, c: nat, p: nat)
    requires InvocationsResult(simulation, sim, calls).Ok?
    requires c < |calls| && p < 1 + sim.timesteps * |sim.model.psubs|
    ensures var out := InvocationsResult(simulation, sim, calls).value;
            var trace := InvocationTrace(simulation, sim, calls[c]);
            && c * (1 + sim.timesteps * |sim.model.psubs|) + p < |out|
            && trace.Ok? && p < |trace.value|
            && out[c * (1 + sim.timesteps * |sim.model.psubs|) + p] == trace.value[p]
  {
    CollectConcat(CallOutcomes(simulation, sim, calls));
    UniformTraces(simulation, sim, calls);
    ConcatUniform(AllStates(CallOutcomes(simulation, sim, calls)), 1 + sim.timesteps * |sim.model.psubs|, c, p);
  }

  /** A failing call fails with one of the loop's two messages. */
  lemma InvocationsErrors(simulation: nat, sim: NativeSimulation, calls: seq<Invocation>)
    requires InvocationsResult(simulation, sim, calls).Err?
    ensures LoopTypeError(InvocationsResult(simulation, sim, calls).error)
  {
    var outcomes := CallOutcomes(simulation, sim, calls);
    CollectFirstError(outcomes);
    var i :| 0 <= i < |calls| && outcomes[i] == Err(Collect(outcomes).error);
    var c := calls[i];
    SingleRunOutcome(simulation, sim.timesteps, c.run, c.subset, sim.model.initialState, sim.model.psubs, c.params);
  }

  /** A simulation fails in its sweep or in one of its calls. */
  lemma SimulationErrors(simulation: nat, sim: NativeSimulation)
    requires SimulationResult(simulation, sim).Err?
    ensures LoopTypeError(SimulationResult(simulation, sim).error)
            || SimulationResult(simulation, sim).error == LastOfEmptyList
  {
    if SweepOf(sim.model.params).Ok? {
      InvocationsErrors(simulation, sim, SimulationInvocations(sim.runs, SweepOf(sim.model.params).value,
                                                               sim.model.params));
    }
  }

  /** `run` fails only with a loop `TypeError` or on an empty candidate list next
      to a non-empty one. */
  lemma {:induction false} RunErrors(simulations: seq<NativeSimulation>, n: nat)
    requires n <= |simulations|
    requires RunResult(simulations, n).Err?
    ensures LoopTypeError(RunResult(simulations, n).error) || RunResult(simulations, n).error == LastOfEmptyList
  {
    if RunResult(simulations, n - 1).Err? {
      RunErrors(simulations, n - 1);
    } else {
      SimulationErrors(n - 1, simulations[n - 1]);
    }
  }

  /** Simulations whose candidate lists are all non-empty and whose updates are
      all well-behaved never fail. */
  lemma {:induction false} RunSucceeds(simulations: seq<NativeSimulation>, n: nat)
    requires n <= |simulations|
    requires forall i :: 0 <= i < |simulations| ==>
               NoEmptyList(simulations[i].model.params) && WellBehaved(simulations[i].model.psubs)
    ensures RunResult(simulations, n).Ok?
  {
    if n > 0 {
      RunSucceeds(simulations, n - 1);
      SimulationSucceeds(n - 1, simulations[n - 1]);
      SimulationsNextOk(simulations, n - 1);
    }
  }

  lemma SimulationsNextOk(simulations: seq<NativeSimulation>, n: nat)
    requires n < |simulations|
    requires RunResult(simulations, n).Ok? && SimulationResult(n, simulations[n]).Ok?
    ensures RunResult(simulations, n + 1).Ok?
  {
  }

  lemma SimulationSucceeds(simulation: nat, sim: NativeSimulation)
    requires NoEmptyList(sim.model.params) && WellBehaved(sim.model.psubs)
    ensures SimulationResult(simulation, sim).Ok?
  {
    SweepShape(sim.model.params);
    CallsSucceed(simulation, sim, SimulationInvocations(sim.runs, SweepOf(sim.model.params).value, sim.model.params));
  }

  /** Calls whose updates are all well-behaved succeed. */
  lemma CallsSucceed(simulation: nat, sim: NativeSimulation, calls: seq<Invocation>)
    requires WellBehaved(sim.model.psubs)
    ensures InvocationsResult(simulation, sim, calls).Ok?
  {
    forall i | 0 <= i < |calls|
      ensures InvocationTrace(simulation, sim, calls[i]).Ok?
    {
      var c := calls[i];
      SingleRunOutcome(simulation, sim.timesteps, c.run, c.subset, sim.model.initialState, sim.model.psubs,
                       c.params);
    }
    CollectConcat(CallOutcomes(simulation, sim, calls));
  }

  /** Stamping a state changes only its bookkeeping fields. */
  lemma StampKeepsRest(s: State, simulation: nat, subset: nat, run: nat)
    ensures FirstState(s, simulation, subset, run) - Bookkeeping == s - Bookkeeping
  {
  }

  /** Once the outcomes before n hold an error, that error is the batch's. */
  lemma CollectPrefixErr(outcomes: seq<Outcome>, n: nat)
    requires n <= |outcomes|
    requires Collect(outcomes[..n]).Err?
    ensures Collect(outcomes) == Collect(outcomes[..n])
  {
    CollectAppend(outcomes[..n], outcomes[n..]);
    assert outcomes[..n] + outcomes[n..] == outcomes;
  }

  /** One more call of a batch whose first n calls succeeded: its states are
      appended, or its error is the batch's. */
  lemma CollectNext(outcomes: seq<Outcome>, n: nat, states: seq<State>)
    requires n < |outcomes|
    requires Collect(outcomes[..n]) == Ok(states)
    ensures outcomes[n].Ok? ==> Collect(outcomes[..n + 1]) == Ok(states + outcomes[n].value)
    ensures outcomes[n].Err? ==> Collect(outcomes) == Err(outcomes[n].error)
  {
    assert outcomes[..n + 1][..n] == outcomes[..n];
    if outcomes[n].Err? {
      CollectPrefixErr(outcomes, n + 1);
    }
  }

  /** A call made from the stamped copy of the initial state has the outcome of
      the call made from the initial state itself. */
  lemma CallFromStamped(simulation: nat, sim: NativeSimulation, call: Invocation, current: State,
                        r: Outcome)
    requires current - Bookkeeping == sim.model.initialState - Bookkeeping
    requires r == SingleRunStates(simulation, sim.timesteps, call.run, call.subset, current, sim.model.psubs,
                                  call.params)
    ensures r == InvocationTrace(simulation, sim, call)
  {
    TraceIgnoresBookkeeping(simulation, call.run, call.subset, current, sim.model.initialState, sim.model.psubs,
                            call.params, sim.timesteps);
  }

  /** Calls made one batch after another, as InvocationsResult sees them. */
  lemma InvocationsAppend(simulation: nat, sim: NativeSimulation, a: seq<Invocation>, b: seq<Invocation>)
    ensures InvocationsResult(simulation, sim, a).Err? ==>
              InvocationsResult(simulation, sim, a + b) == InvocationsResult(simulation, sim, a)
    ensures InvocationsResult(simulation, sim, a).Ok? && InvocationsResult(simulation, sim, b).Err? ==>
              InvocationsResult(simulation, sim, a + b) == InvocationsResult(simulation, sim, b)
    ensures InvocationsResult(simulation, sim, a).Ok? && InvocationsResult(simulation, sim, b).Ok? ==>
              InvocationsResult(simulation, sim, a + b)
              == Ok(InvocationsResult(simulation, sim, a).value + InvocationsResult(simulation, sim, b).value)
  {
    CallOutcomesAppend(simulation, sim, a, b);
    CollectAppend(CallOutcomes(simulation, sim, a), CallOutcomes(simulation, sim, b));
  }

  /** The calls of the runs from run on: those of run, then those of the rest. */
  lemma TablesSplit(tables: seq<seq<Invocation>>, run: nat)
    requires run < |tables|
    ensures Concat(tables[run..]) == tables[run] + Concat(tables[run + 1..])
  {
    assert tables[run..] == [tables[run]] + tables[run + 1..];
    ConcatAppend([tables[run]], tables[run + 1..]);
    assert [tables[run]][..0] == [];
  }

  /** One more run after successful ones: its states are appended, or its error
      is the simulation's. */
  lemma RunsNext(simulation: nat, sim: NativeSimulation, done: seq<Invocation>, states: seq<State>,
                 table: seq<Invocation>, rest: seq<Invocation>, whole: seq<Invocation>, part: Outcome)
    requires InvocationsResult(simulation, sim, done) == Ok(states)
    requires part == InvocationsResult(simulation, sim, table)
    requires whole == done + table + rest
    ensures part.Ok? ==> InvocationsResult(simulation, sim, done + table) == Ok(states + part.value)
    ensures part.Err? ==> InvocationsResult(simulation, sim, whole) == part
  {
    InvocationsAppend(simulation, sim, done, table);
    if part.Err? {
      InvocationsAppend(simulation, sim, done + table, rest);
    }
  }

  /** Moving run `run` from the tables still to do to the invocations done. */
  lemma TablesStep(tables: seq<seq<Invocation>>, run: nat, done: seq<Invocation>)
    requires run < |tables|
    requires done + Concat(tables[run..]) == Concat(tables)
    ensures Concat(tables) == done + tables[run] + Concat(tables[run + 1..])
  {
    TablesSplit(tables, run);
    AppendAssoc(done, tables[run], Concat(tables[run + 1..]));
  }

  /** The loop step of `RunSimulation`: with the runs before `run` done and
      collected, run `run` either extends them or ends the simulation with its
      error. */
  lemma RunsStep(simulation: nat, sim: NativeSimulation, tables: seq<seq<Invocation>>, run: nat,
                 done: seq<Invocation>, states: seq<State>, part: Outcome)
    requires run < |tables|
    requires done + Concat(tables[run..]) == Concat(tables)
    requires InvocationsResult(simulation, sim, done) == Ok(states)
    requires part == InvocationsResult(simulation, sim, tables[run])
    ensures part.Ok? ==> done + tables[run] + Concat(tables[run + 1..]) == Concat(tables)
    ensures part.Ok? ==> InvocationsResult(simulation, sim, done + tables[run]) == Ok(states + part.value)
    ensures part.Err? ==> InvocationsResult(simulation, sim, Concat(tables)) == part
  {
    TablesStep(tables, run, done);
    RunsNext(simulation, sim, done, states, tables[run], Concat(tables[run + 1..]), Concat(tables), part);
  }

  /** Errors of earlier simulations persist. */
  lemma {:induction false} RunResultErr(simulations: seq<NativeSimulation>, n: nat, m: nat)
    requires n <= m <= |simulations|
    requires RunResult(simulations, n).Err?
    ensures RunResult(simulations, m) == RunResult(simulations, n)
  {
    if m > n {
      RunResultErr(simulations, n, m - 1);
    }
  }

  /** One more simulation after successful ones. */
  lemma SimulationsNext(simulations: seq<NativeSimulation>, n: nat, done: seq<State>, outcome: Outcome)
    requires n < |simulations|
    requires RunResult(simulations, n) == Ok(done)
    requires outcome == SimulationResult(n, simulations[n])
    ensures outcome.Ok? ==> RunResult(simulations, n + 1) == Ok(done + outcome.value)
    ensures outcome.Err? ==> RunResult(simulations, |simulations|) == outcome
  {
    if outcome.Err? {
      RunResultErr(simulations, n + 1, |simulations|);
    }
  }

  // ---------------------------------------------------------------------------
  // The loops of `run`
  // ---------------------------------------------------------------------------

  /** `run(simulations)`: per simulation the sweep, then its runs; every error
      ends the whole call. */
  method Run(simulations: seq<NativeSimulation>) returns (r: Outcome)
    ensures r == RunResult(simulations, |simulations|)
  {
    var result: seq<State> := [];
    for simulationIndex := 0 to |simulations|
      invariant RunResult(simulations, simulationIndex) == Ok(result)
    {
      var simulation := simulations[simulationIndex];
      var paramSweep := BuildSweep(simulation.model.params);
      var outcome: Outcome;
      if paramSweep.Err? {
        outcome := Err(paramSweep.error);
      } else {
        outcome := RunSimulation(simulationIndex, simulation, paramSweep.value);
      }
      SimulationsNext(simulations, simulationIndex, result, outcome);
      if outcome.Err? {
        return outcome;
      }
      result := result + outcome.value;
    }
    return Ok(result);
  }

  /** The runs of one simulation. The simulation's initial state is stamped in
      place by every call and handed on to the next. */
  method RunSimulation(simulationIndex: nat, sim: NativeSimulation, paramSweep: seq<Dict>) returns (r: Outcome)
    ensures r == InvocationsResult(simulationIndex, sim, SimulationInvocations(sim.runs, paramSweep, sim.model.params))
  {
    var initialState := sim.model.initialState;
    ghost var tables := RunTables(sim.runs, paramSweep, sim.model.params);
    ghost var done: seq<Invocation> := [];
    var states: seq<State> := [];
    assert tables[0..] == tables;
    for run := 0 to sim.runs
      invariant initialState - Bookkeeping == sim.model.initialState - Bookkeeping
      invariant done + Concat(tables[run..]) == Concat(tables)
      invariant InvocationsResult(simulationIndex, sim, done) == Ok(states)
    {
      var part;
      initialState, part := RunSubsets(simulationIndex, sim, run, paramSweep, initialState);
      RunsStep(simulationIndex, sim, tables, run, done, states, part);
      if part.Err? {
        return part;
      }
      done := done + tables[run];
      states := states + part.value;
    }
    assert done == Concat(tables) by {
      assert tables[sim.runs..] == [];
      assert done + [] == done;
    }
    return Ok(states);
  }

  /** The subsets of one run: a call per subset of the sweep, or one call with
      subset 0 and the raw parameters when the sweep is empty. */
  method RunSubsets(simulationIndex: nat, sim: NativeSimulation, run: nat, paramSweep: seq<Dict>,
                    initialState: State)
    returns (stamped: State, r: Outcome)
    requires initialState - Bookkeeping == sim.model.initialState - Bookkeeping
    ensures stamped - Bookkeeping == sim.model.initialState - Bookkeeping
    ensures r == InvocationsResult(simulationIndex, sim, RunInvocations(run, paramSweep, sim.model.params))
  {
    stamped := initialState;
    ghost var calls := RunInvocations(run, paramSweep, sim.model.params);
    ghost var outcomes := CallOutcomes(simulationIndex, sim, calls);
    if |paramSweep| > 0 {
      var states: seq<State> := [];
      for subset := 0 to |paramSweep|
        invariant stamped - Bookkeeping == sim.model.initialState - Bookkeeping
        invariant Collect(outcomes[..subset]) == Ok(states)
      {
        var before := stamped;
        var trace;
        stamped, trace := SingleRun(simulationIndex, sim.timesteps, run, subset, before, sim.model.psubs,
                                    paramSweep[subset]);
        StampKeepsRest(before, simulationIndex, subset, run);
        CallFromStamped(simulationIndex, sim, calls[subset], before, trace);
        CollectNext(outcomes, subset, states);
        if trace.Err? {
          return stamped, trace;
        }
        states := states + trace.value;
      }
      assert outcomes[..|paramSweep|] == outcomes;
      r := Ok(states);
    } else {
      var before := stamped;
      stamped, r := SingleRun(simulationIndex, sim.timesteps, run, 0, before, sim.model.psubs,
                              RawParams(sim.model.params));
      StampKeepsRest(before, simulationIndex, 0, run);
      CallFromStamped(simulationIndex, sim, calls[0], before, r);
      CollectNext(outcomes, 0, []);
      if r.Ok? {
        assert outcomes[..1] == outcomes;
        assert [] + r.value == r.value;
      }
    }
  }
}
