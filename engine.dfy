/** The engine facade: option validation at construction, backend selection, the
    run-descriptor stream with its lifecycle hooks, and result routing. */
module Engine {
  import opened Values
  import opened Utils
  import opened Seqs

  // ---------------------------------------------------------------------------
  // Construction
  // ---------------------------------------------------------------------------

  /** The module-level default for `processes`: one less than the machine's CPU
      count, with `or 1` replacing a zero. */
  function CpuCount(machineCpus: nat): (r: int)
    requires machineCpus >= 1
    ensures r >= 1
    ensures machineCpus >= 2 ==> r == machineCpus - 1
    ensures machineCpus == 1 ==> r == 1
  {
    var fewer := machineCpus - 1;
    if fewer != 0 then fewer else 1
  }

  /** `d.get(key, default)`, the value `d.pop(key, default)` returns. */
  function Get(d: Dict, key: string, default: Value): Value {
    if key in d then d[key] else default
  }

  /** The keyword options `__init__` pops unconditionally. */
  const KnownOptions: set<string> :=
    {"processes", "backend", "raise_exceptions", "process_exceptions", "deepcopy",
     "drop_substeps", "pre_gen_runs"}

  /** The nested configuration of the GOLEM backend. MEMORY, STORAGE and
      REMOTE_BACKEND end up wrapped in one-element tuples, as their assignments end
      in a comma. */
  datatype GolemOptions = GolemOptions(
    nodes: Value,
    remoteBackend: Value,
    memory: Value,
    storage: Value,
    bundles: Value,
    budget: Value,
    subnetTag: Value,
    paymentDriver: Value,
    network: Value,
    timeout: Value,
    logFile: Value,
    debugActivity: Value,
    debugMarket: Value,
    debugPayment: Value,
    yagnaKey: Value)

  /** The configuration an engine holds once constructed. */
  datatype EngineOptions = EngineOptions(
    processes: Value,
    backend: Value,
    raiseExceptions: Value,
    processExceptions: Value,
    deepcopy: Value,
    dropSubsteps: Value,
    preGenRuns: Value,
    golem: Option<GolemOptions>)

  datatype ConfigError =
    | GolemConfRequired        // KeyError: golem_conf is required for the GOLEM backend
    | GolemConfNotADict        // golem_conf has no dict `pop`
    | RemoteBackendHasNoValue  // REMOTE_BACKEND is not a Backend, so `.value` fails
    | YagnaKeyMissing          // YAGNA_KEY missing from golem_conf
    | InvalidEngineOption(leftover: Dict)

  /** Parsing of `golem_conf`: every key has a default except YAGNA_KEY, BUNDLES
      defaults to the NODES value, and keys it does not know are ignored. */
  function GolemConfig(conf: Value): Result<GolemOptions, ConfigError> {
    if !conf.VDict? then Err(GolemConfNotADict)
    else
      var c := conf.entries;
      var nodes := Get(c, "NODES", VInt(3));
      var remote := Get(c, "REMOTE_BACKEND", VBackend(SingleProcess));
      if !remote.VBackend? then Err(RemoteBackendHasNoValue)
      else if "YAGNA_KEY" !in c then Err(YagnaKeyMissing)
      else Ok(GolemOptions(
        nodes := nodes,
        remoteBackend := VTuple([remote]),
        memory := VTuple([Get(c, "MEMORY", VReal(0.5))]),
        storage := VTuple([Get(c, "STORAGE", VReal(2.0))]),
        bundles := Get(c, "BUNDLES", nodes),
        budget := Get(c, "BUDGET", VInt(10)),
        subnetTag := Get(c, "SUBNET_TAG", VStr("community.4")),
        paymentDriver := Get(c, "PAYMENT_DRIVER", VStr("zksync")),
        network := Get(c, "NETWORK", VStr("rinkeby")),
        timeout := Get(c, "TIMEOUT", VInt(2)),
        logFile := Get(c, "LOG_FILE", VStr("radcad_golem.log")),
        debugActivity := Get(c, "DEBUG_ACTIVITY", VBool(false)),
        debugMarket := Get(c, "DEBUG_MARKET", VBool(false)),
        debugPayment := Get(c, "DEBUG_PAYMENT", VBool(false)),
        yagnaKey := c["YAGNA_KEY"]))
  }

  /** The seven known options, each read with its default. */
  function KnownFrom(kwargs: Dict, cpuCount: int): EngineOptions {
    EngineOptions(
      processes := Get(kwargs, "processes", VInt(cpuCount)),
      backend := Get(kwargs, "backend", VBackend(Default)),
      raiseExceptions := Get(kwargs, "raise_exceptions", VBool(true)),
      processExceptions := Get(kwargs, "process_exceptions", VBool(true)),
      deepcopy := Get(kwargs, "deepcopy", VBool(true)),
      dropSubsteps := Get(kwargs, "drop_substeps", VBool(false)),
      preGenRuns := Get(kwargs, "pre_gen_runs", VNone),
      golem := None)
  }

  /** `Engine(**kwargs)`: the options it ends up with, or the error it raises. */
  function Configure(kwargs: Dict, cpuCount: int): Result<EngineOptions, ConfigError> {
    var options := KnownFrom(kwargs, cpuCount);
    var rest := kwargs - KnownOptions;
    if options.backend == VBackend(Golem) then
      if "golem_conf" !in rest then Err(GolemConfRequired)
      else match GolemConfig(rest["golem_conf"])
        case Err(e) => Err(e)
        case Ok(g) =>
          var leftover := rest - {"golem_conf"};
          if leftover != map[] then Err(InvalidEngineOption(leftover))
          else Ok(options.(golem := Some(g)))
    else if rest != map[] then Err(InvalidEngineOption(rest))
    else Ok(options)
  }

  /** With no keyword arguments every option takes its documented default. */
  lemma ConfigureDefaults(cpuCount: int)
    ensures Configure(map[], cpuCount)
         == Ok(EngineOptions(VInt(cpuCount), VBackend(Default), VBool(true), VBool(true),
                             VBool(true), VBool(false), VNone, None))
  {
  }

  /** Away from GOLEM, construction succeeds exactly when every keyword is a known
      option, and a given option is kept as given. */
  lemma ConfigureAcceptsOnlyKnownOptions(kwargs: Dict, cpuCount: int, key: string)
    requires Get(kwargs, "backend", VBackend(Default)) != VBackend(Golem)
    ensures Configure(kwargs, cpuCount).Ok? <==> kwargs.Keys <= KnownOptions
    ensures Configure(kwargs, cpuCount).Err? ==>
              Configure(kwargs, cpuCount).error == InvalidEngineOption(kwargs - KnownOptions)
    ensures Configure(kwargs, cpuCount).Ok? && "pre_gen_runs" in kwargs ==>
              Configure(kwargs, cpuCount).value.preGenRuns == kwargs["pre_gen_runs"]
  {
    if !(kwargs.Keys <= KnownOptions) {
      var k :| k in kwargs.Keys && k !in KnownOptions;
      assert k in kwargs - KnownOptions;
    } else {
      assert kwargs - KnownOptions == map[];
    }
  }

  /** `golem_conf` is itself a leftover option unless the backend is GOLEM. */
  lemma GolemConfRejectedWithoutGolem(kwargs: Dict, cpuCount: int)
    requires "golem_conf" in kwargs
    requires Get(kwargs, "backend", VBackend(Default)) != VBackend(Golem)
    ensures Configure(kwargs, cpuCount).Err?
    ensures Configure(kwargs, cpuCount).error.InvalidEngineOption?
    ensures "golem_conf" in Configure(kwargs, cpuCount).error.leftover
  {
    assert "golem_conf" in kwargs - KnownOptions;
  }

  /** The GOLEM backend needs `golem_conf` (checked before any leftover option) and
      a YAGNA_KEY inside it. */
  lemma GolemRequirements(kwargs: Dict, cpuCount: int)
    requires "backend" in kwargs && kwargs["backend"] == VBackend(Golem)
    ensures "golem_conf" !in kwargs ==> Configure(kwargs, cpuCount) == Err(GolemConfRequired)
    ensures "golem_conf" in kwargs && kwargs["golem_conf"].VDict?
            && "YAGNA_KEY" !in kwargs["golem_conf"].entries
            && Get(kwargs["golem_conf"].entries, "REMOTE_BACKEND", VBackend(SingleProcess)).VBackend?
            ==> Configure(kwargs, cpuCount) == Err(YagnaKeyMissing)
  {
    assert "golem_conf" !in KnownOptions;
  }

  /** BUNDLES defaults to NODES, which defaults to 3; unknown `golem_conf` keys are
      not rejected. */
  lemma GolemBundlesDefault(conf: Dict)
    requires "YAGNA_KEY" in conf && "BUNDLES" !in conf
    requires Get(conf, "REMOTE_BACKEND", VBackend(SingleProcess)).VBackend?
    ensures GolemConfig(VDict(conf)).Ok?
    ensures GolemConfig(VDict(conf)).value.bundles == Get(conf, "NODES", VInt(3))
    ensures "NODES" !in conf ==> GolemConfig(VDict(conf)).value.bundles == VInt(3)
  {
  }

  /** With the GOLEM backend, construction succeeds exactly when `golem_conf` is
      given and parses and every other keyword is a known option; the options are
      then the known ones with the parsed configuration. A `golem_conf` that does
      not parse gives its own error, which comes before any leftover option. */
  lemma GolemConfigureSucceeds(kwargs: Dict, cpuCount: int)
    requires Get(kwargs, "backend", VBackend(Default)) == VBackend(Golem)
    ensures Configure(kwargs, cpuCount).Ok? <==>
              "golem_conf" in kwargs && GolemConfig(kwargs["golem_conf"]).Ok?
              && kwargs.Keys <= KnownOptions + {"golem_conf"}
    ensures Configure(kwargs, cpuCount).Ok? ==>
              Configure(kwargs, cpuCount).value
              == KnownFrom(kwargs, cpuCount).(golem := Some(GolemConfig(kwargs["golem_conf"]).value))
    ensures "golem_conf" in kwargs && GolemConfig(kwargs["golem_conf"]).Err? ==>
              Configure(kwargs, cpuCount) == Err(GolemConfig(kwargs["golem_conf"]).error)
  {
    assert "golem_conf" !in KnownOptions;
    var leftover := kwargs - KnownOptions - {"golem_conf"};
    if kwargs.Keys <= KnownOptions + {"golem_conf"} {
      assert leftover == map[];
    } else {
      var k :| k in kwargs.Keys && k !in KnownOptions + {"golem_conf"};
      assert k in leftover;
    }
  }

  // ---------------------------------------------------------------------------
  // Backend selection
  // ---------------------------------------------------------------------------

  /** The executor implementations the engine can dispatch to. */
  datatype ExecutorKind =
    | ExecutorRay | ExecutorRayRemote | ExecutorPathos | ExecutorMultiprocessing
    | ExecutorSingleProcess | ExecutorGolem

  /** The backend-to-executor mapping of `_run`; PATHOS and DEFAULT share one. */
  function SelectExecutor(b: Backend): ExecutorKind {
    if b == Ray || b == RayRemote then
      if b == RayRemote then ExecutorRayRemote else ExecutorRay
    else if b == Pathos || b == Default then ExecutorPathos
    else if b == Multiprocessing then ExecutorMultiprocessing
    else if b == SingleProcess then ExecutorSingleProcess
    else ExecutorGolem
  }

  /** Every executor is reachable, and two backends share an executor only when
      they are PATHOS and DEFAULT. */
  lemma SelectExecutorSharing(a: Backend, b: Backend, k: ExecutorKind)
    ensures SelectExecutor(a) == SelectExecutor(b) <==>
            a == b || ({a, b} <= {Pathos, Default})
    ensures exists c :: SelectExecutor(c) == k
  {
    match k
    case ExecutorRay => assert SelectExecutor(Ray) == k;
    case ExecutorRayRemote => assert SelectExecutor(RayRemote) == k;
    case ExecutorPathos => assert SelectExecutor(Pathos) == k;
    case ExecutorMultiprocessing => assert SelectExecutor(Multiprocessing) == k;
    case ExecutorSingleProcess => assert SelectExecutor(SingleProcess) == k;
    case ExecutorGolem => assert SelectExecutor(Golem) == k;
  }

  // ---------------------------------------------------------------------------
  // Simulations, hooks and the run stream
  // ---------------------------------------------------------------------------

  datatype Model = Model(initialState: Dict, stateUpdateBlocks: Value, params: Dict)

  datatype Simulation = Simulation(model: Model, timesteps: nat, runs: nat)

  /** The tuple `_run` builds per simulation:
      (initial_state, state_update_blocks, params, timesteps, runs). */
  datatype Config = Config(
    initialState: Dict, stateUpdateBlocks: Value, params: Dict, timesteps: nat, runs: nat)

  function ConfigOf(s: Simulation): Config {
    Config(s.model.initialState, s.model.stateUpdateBlocks, s.model.params, s.timesteps, s.runs)
  }

  /** `_get_simulation_from_config`. */
  function SimulationOf(c: Config): Simulation {
    Simulation(Model(c.initialState, c.stateUpdateBlocks, c.params), c.timesteps, c.runs)
  }

  function Configs(sims: seq<Simulation>): (cs: seq<Config>)
    ensures |cs| == |sims|
    ensures forall i :: 0 <= i < |sims| ==> cs[i] == ConfigOf(sims[i])
  {
    seq(|sims|, i requires 0 <= i < |sims| => ConfigOf(sims[i]))
  }

  /** Rebuilding simulations from the configs loses nothing. */
  lemma SimulationRoundTrip(s: Simulation)
    ensures SimulationOf(ConfigOf(s)) == s
  {
  }

  /** The hook calls and yields of one engine invocation, in the order they happen. */
  datatype Event =
    | BeforeExperiment
    | AfterExperiment
    | BeforeSimulation(index: nat, simulation: Simulation)
    | AfterSimulation(index: nat, simulation: Simulation)
    | BeforeRun(context: Context)
    | AfterRun(context: Context)
    | BeforeSubset(context: Context)
    | AfterSubset(context: Context)
    | Yield(args: RunArgs)

  datatype EventKind =
    | KBeforeExperiment | KAfterExperiment | KBeforeSimulation | KAfterSimulation
    | KBeforeRun | KAfterRun | KBeforeSubset | KAfterSubset | KYield

  function KindOf(e: Event): EventKind {
    match e
    case BeforeExperiment => KBeforeExperiment
    case AfterExperiment => KAfterExperiment
    case BeforeSimulation(_, _) => KBeforeSimulation
    case AfterSimulation(_, _) => KAfterSimulation
    case BeforeRun(_) => KBeforeRun
    case AfterRun(_) => KAfterRun
    case BeforeSubset(_) => KBeforeSubset
    case AfterSubset(_) => KAfterSubset
    case Yield(_) => KYield
  }

  /** The kinds of the events of t, position by position; `Count` counts them. */
  function Kinds(t: seq<Event>): (r: seq<EventKind>)
    ensures |r| == |t|
  {
    seq(|t|, i requires 0 <= i < |t| => KindOf(t[i]))
  }

  function Count(t: seq<Event>, k: EventKind): nat {
    multiset(Kinds(t))[k]
  }

  /** The run descriptors yielded in t, in order. */
  function Yields(t: seq<Event>): seq<RunArgs> {
    if t == [] then []
    else Yields(t[..|t| - 1]) + (if t[|t| - 1].Yield? then [t[|t| - 1].args] else [])
  }

  lemma CountSnoc(t: seq<Event>, e: Event, k: EventKind)
    ensures Count(t + [e], k) == Count(t, k) + (if KindOf(e) == k then 1 else 0)
  {
    assert Kinds(t + [e]) == Kinds(t) + [KindOf(e)];
  }

  lemma YieldsSnoc(t: seq<Event>, e: Event)
    ensures Yields(t + [e]) == Yields(t) + (if e.Yield? then [e.args] else [])
  {
    assert (t + [e])[..|t|] == t;
  }

  lemma CountConcat(a: seq<Event>, b: seq<Event>, k: EventKind)
    ensures Count(a + b, k) == Count(a, k) + Count(b, k)
  {
    assert Kinds(a + b) == Kinds(a) + Kinds(b);
  }

  lemma {:induction false} YieldsConcat(a: seq<Event>, b: seq<Event>)
    ensures Yields(a + b) == Yields(a) + Yields(b)
    decreases |b|
  {
    if b == [] {
      assert a + b == a;
    } else {
      var front, e := b[..|b| - 1], b[|b| - 1];
      assert a + b == (a + front) + [e];
      assert b == front + [e];
      YieldsConcat(a, front);
      YieldsSnoc(a + front, e);
      YieldsSnoc(front, e);
    }
  }

  /** The context the run and subset hooks receive. It always carries the full
      parameters, also on the sweep path. */
  function RunContext(i: nat, c: Config, run: nat, subset: Option<nat>): Context {
    Context(i, run, subset, c.timesteps, c.initialState, c.params)
  }

  /** A yielded descriptor: copies of the initial state and of the given
      parameters, the blocks by reference, and the engine's two copy flags. */
  function Descriptor(i: nat, c: Config, run: nat, subset: nat, params: Dict,
                      deepcopy: Value, dropSubsteps: Value): RunArgs
  {
    RunArgs(i, c.timesteps, run, subset, c.initialState, c.stateUpdateBlocks, params,
            deepcopy, dropSubsteps)
  }

  /** The events of subset j of one run on the sweep path. */
  function SubsetTrace(i: nat, c: Config, run: nat, sweep: seq<Dict>, j: nat, dc: Value, ds: Value)
    : seq<Event>
    requires j < |sweep|
  {
    var context := RunContext(i, c, run, Some(j));
    [BeforeSubset(context)] + [Yield(Descriptor(i, c, run, j, sweep[j], dc, ds))] + [AfterSubset(context)]
  }

  /** The events of subsets 0..n-1, one entry per subset. */
  function SubsetTraces(i: nat, c: Config, run: nat, sweep: seq<Dict>, n: nat, dc: Value, ds: Value)
    : (t: seq<seq<Event>>)
    requires n <= |sweep|
    ensures |t| == n
    ensures forall j :: 0 <= j < n ==> t[j] == SubsetTrace(i, c, run, sweep, j, dc, ds)
  {
    seq(n, j requires 0 <= j < n => SubsetTrace(i, c, run, sweep, j, dc, ds))
  }

  /** A run on the sweep path: `before_run` without a subset, the subsets, then
      `before_run` again with the last subset's context and no `after_run`. */
  function SweepRunTrace(i: nat, c: Config, run: nat, sweep: seq<Dict>, dc: Value, ds: Value)
    : seq<Event>
    requires |sweep| > 0
  {
    [BeforeRun(RunContext(i, c, run, None))]
      + Concat(SubsetTraces(i, c, run, sweep, |sweep|, dc, ds))
      + [BeforeRun(RunContext(i, c, run, Some(|sweep| - 1)))]
  }

  /** A run without a sweep: `before_run`, one yield with the full parameters,
      `after_run`, the hooks seeing subset 0. */
  function PlainRunTrace(i: nat, c: Config, run: nat, dc: Value, ds: Value): seq<Event> {
    var context := RunContext(i, c, run, Some(0));
    [BeforeRun(context)] + [Yield(Descriptor(i, c, run, 0, c.params, dc, ds))] + [AfterRun(context)]
  }

  /** The events of one run: the sweep path whenever the sweep is non-empty. */
  function RunTrace(i: nat, c: Config, run: nat, sweep: seq<Dict>, dc: Value, ds: Value)
    : seq<Event>
  {
    if |sweep| > 0 then SweepRunTrace(i, c, run, sweep, dc, ds) else PlainRunTrace(i, c, run, dc, ds)
  }

  /** The events of runs 0..n-1 of one simulation, one entry per run. */
  function RunTraces(i: nat, c: Config, sweep: seq<Dict>, n: nat, dc: Value, ds: Value)
    : (t: seq<seq<Event>>)
    ensures |t| == n
    ensures forall r :: 0 <= r < n ==> t[r] == RunTrace(i, c, r, sweep, dc, ds)
  {
    seq(n, r requires 0 <= r < n => RunTrace(i, c, r, sweep, dc, ds))
  }

  /** The events of one simulation, bracketed by its two hooks. */
  function SimulationTrace(i: nat, c: Config, sweep: seq<Dict>, dc: Value, ds: Value)
    : seq<Event>
  {
    [BeforeSimulation(i, SimulationOf(c))] + Concat(RunTraces(i, c, sweep, c.runs, dc, ds))
      + [AfterSimulation(i, SimulationOf(c))]
  }

  /** `core.generate_parameter_sweep`, which the model takes as given. */
  type Sweeper = Dict -> seq<Dict>

  /** The events of simulations 0..n-1, one entry per simulation. */
  function SimulationTraces(configs: seq<Config>, sweepOf: Sweeper, n: nat, dc: Value, ds: Value)
    : (t: seq<seq<Event>>)
    requires n <= |configs|
    ensures |t| == n
    ensures forall q :: 0 <= q < n ==>
              t[q] == SimulationTrace(q, configs[q], sweepOf(configs[q].params), dc, ds)
  {
    seq(n, q requires 0 <= q < n => SimulationTrace(q, configs[q], sweepOf(configs[q].params), dc, ds))
  }

  /** The events `_run_stream` produces for the first n configs. */
  function StreamTrace(configs: seq<Config>, sweepOf: Sweeper, n: nat, dc: Value, ds: Value)
    : seq<Event>
    requires n <= |configs|
  {
    Concat(SimulationTraces(configs, sweepOf, n, dc, ds))
  }

  lemma SubsetsStep(i: nat, c: Config, run: nat, sweep: seq<Dict>, n: nat, dc: Value, ds: Value)
    requires n < |sweep|
    ensures Concat(SubsetTraces(i, c, run, sweep, n + 1, dc, ds))
         == Concat(SubsetTraces(i, c, run, sweep, n, dc, ds)) + SubsetTrace(i, c, run, sweep, n, dc, ds)
  {
    assert SubsetTraces(i, c, run, sweep, n + 1, dc, ds)
        == SubsetTraces(i, c, run, sweep, n, dc, ds) + [SubsetTrace(i, c, run, sweep, n, dc, ds)];
    ConcatSnoc(SubsetTraces(i, c, run, sweep, n, dc, ds), SubsetTrace(i, c, run, sweep, n, dc, ds));
  }

  /** Appending subset n's three events one by one appends its block. */
  lemma SubsetAppended(i: nat, c: Config, run: nat, sweep: seq<Dict>, n: nat, dc: Value, ds: Value,
                       before: seq<Event>, after: seq<Event>)
    requires n < |sweep|
    requires after == before + [BeforeSubset(RunContext(i, c, run, Some(n)))]
                     + [Yield(Descriptor(i, c, run, n, sweep[n], dc, ds))]
                     + [AfterSubset(RunContext(i, c, run, Some(n)))]
    ensures after == before + SubsetTrace(i, c, run, sweep, n, dc, ds)
  {
  }

  lemma RunsStep(i: nat, c: Config, sweep: seq<Dict>, n: nat, dc: Value, ds: Value)
    ensures Concat(RunTraces(i, c, sweep, n + 1, dc, ds))
         == Concat(RunTraces(i, c, sweep, n, dc, ds)) + RunTrace(i, c, n, sweep, dc, ds)
  {
    assert RunTraces(i, c, sweep, n + 1, dc, ds)
        == RunTraces(i, c, sweep, n, dc, ds) + [RunTrace(i, c, n, sweep, dc, ds)];
    ConcatSnoc(RunTraces(i, c, sweep, n, dc, ds), RunTrace(i, c, n, sweep, dc, ds));
  }

  lemma StreamStep(configs: seq<Config>, sweepOf: Sweeper, n: nat, dc: Value, ds: Value)
    requires n < |configs|
    ensures StreamTrace(configs, sweepOf, n + 1, dc, ds)
         == StreamTrace(configs, sweepOf, n, dc, ds)
            + SimulationTrace(n, configs[n], sweepOf(configs[n].params), dc, ds)
  {
    var t := SimulationTrace(n, configs[n], sweepOf(configs[n].params), dc, ds);
    assert SimulationTraces(configs, sweepOf, n + 1, dc, ds) == SimulationTraces(configs, sweepOf, n, dc, ds) + [t];
    ConcatSnoc(SimulationTraces(configs, sweepOf, n, dc, ds), t);
  }

  /** Position by position, a sweep run is `before_run`, then for each subset j
      `before_subset`, the yield of subset j, `after_subset`, and finally
      `before_run` again with subset k-1. */
  lemma SweepRunShape(i: nat, c: Config, run: nat, sweep: seq<Dict>, dc: Value, ds: Value, j: nat)
    requires j < |sweep|
    ensures var t := RunTrace(i, c, run, sweep, dc, ds);
            && |t| == 3 * |sweep| + 2
            && t[0] == BeforeRun(RunContext(i, c, run, None))
            && t[3 * j + 1] == BeforeSubset(RunContext(i, c, run, Some(j)))
            && t[3 * j + 2] == Yield(Descriptor(i, c, run, j, sweep[j], dc, ds))
            && t[3 * j + 3] == AfterSubset(RunContext(i, c, run, Some(j)))
            && t[|t| - 1] == BeforeRun(RunContext(i, c, run, Some(|sweep| - 1)))
  {
    SubsetSlots(i, c, run, sweep, dc, ds, j);
  }

  /** In the subset blocks of a run, subset j fills slots 3j, 3j + 1 and 3j + 2. */
  lemma SubsetSlots(i: nat, c: Config, run: nat, sweep: seq<Dict>, dc: Value, ds: Value, j: nat)
    requires j < |sweep|
    ensures var s := Concat(SubsetTraces(i, c, run, sweep, |sweep|, dc, ds));
            && |s| == 3 * |sweep|
            && s[3 * j] == BeforeSubset(RunContext(i, c, run, Some(j)))
            && s[3 * j + 1] == Yield(Descriptor(i, c, run, j, sweep[j], dc, ds))
            && s[3 * j + 2] == AfterSubset(RunContext(i, c, run, Some(j)))
  {
    var table := SubsetTraces(i, c, run, sweep, |sweep|, dc, ds);
    var context := RunContext(i, c, run, Some(j));
    assert table[j] == [BeforeSubset(context), Yield(Descriptor(i, c, run, j, sweep[j], dc, ds)),
                        AfterSubset(context)];
    ConcatUniform(table, 3, j, 0);
    ConcatUniform(table, 3, j, 1);
    ConcatUniform(table, 3, j, 2);
  }

  lemma CountSingle(e: Event, k: EventKind)
    ensures Count([e], k) == (if KindOf(e) == k then 1 else 0)
  {
    assert Kinds([e]) == [KindOf(e)];
  }

  lemma YieldsSingle(e: Event)
    ensures Yields([e]) == (if e.Yield? then [e.args] else [])
  {
    assert [e][..0] == [];
  }

  /** Blocks with the same count of kind k add up to that count times their
      number. */
  lemma {:induction false} UniformCounts(parts: seq<seq<Event>>, k: EventKind, m: nat)
    requires forall r :: 0 <= r < |parts| ==> Count(parts[r], k) == m
    ensures Count(Concat(parts), k) == Times(|parts|, m)
  {
    if parts != [] {
      var p := |parts| - 1;
      UniformCounts(parts[..p], k, m);
      CountConcat(Concat(parts[..p]), parts[p], k);
    }
  }

  /** The yields of every block, block by block. */
  function YieldsEach(parts: seq<seq<Event>>): (r: seq<seq<RunArgs>>)
    ensures |r| == |parts|
    ensures forall q :: 0 <= q < |parts| ==> r[q] == Yields(parts[q])
  {
    seq(|parts|, q requires 0 <= q < |parts| => Yields(parts[q]))
  }

  lemma {:induction false} YieldsOfConcat(parts: seq<seq<Event>>)
    ensures Yields(Concat(parts)) == Concat(YieldsEach(parts))
  {
    if parts != [] {
      var p := |parts| - 1;
      YieldsOfConcat(parts[..p]);
      YieldsConcat(Concat(parts[..p]), parts[p]);
      assert YieldsEach(parts)[..p] == YieldsEach(parts[..p]);
    }
  }

  /** The kinds that occur once in every subset. */
  function SubsetCount(k: EventKind): nat {
    if k == KBeforeSubset || k == KYield || k == KAfterSubset then 1 else 0
  }

  lemma SubsetTraceCounts(i: nat, c: Config, run: nat, sweep: seq<Dict>, j: nat, dc: Value, ds: Value,
                          k: EventKind)
    requires j < |sweep|
    ensures Count(SubsetTrace(i, c, run, sweep, j, dc, ds), k) == SubsetCount(k)
  {
    var context := RunContext(i, c, run, Some(j));
    var y := Yield(Descriptor(i, c, run, j, sweep[j], dc, ds));
    CountSingle(BeforeSubset(context), k);
    CountSnoc([BeforeSubset(context)], y, k);
    CountSnoc([BeforeSubset(context)] + [y], AfterSubset(context), k);
  }

  /** How often kind k occurs in one run. */
  function RunCount(sweep: seq<Dict>, k: EventKind): nat {
    if |sweep| > 0 then
      match k
      case KBeforeRun => 2
      case KBeforeSubset => |sweep|
      case KAfterSubset => |sweep|
      case KYield => |sweep|
      case _ => 0
    else
      match k
      case KBeforeRun => 1
      case KAfterRun => 1
      case KYield => 1
      case _ => 0
  }

  /** Hook counts per run: a sweep run fires `before_run` twice and `after_run`
      never; a run without a sweep fires each once. */
  lemma RunTraceCounts(i: nat, c: Config, run: nat, sweep: seq<Dict>, dc: Value, ds: Value,
                       k: EventKind)
    ensures Count(RunTrace(i, c, run, sweep, dc, ds), k) == RunCount(sweep, k)
  {
    if |sweep| > 0 {
      SweptRunCounts(i, c, run, sweep, dc, ds, k);
    } else {
      PlainRunCounts(i, c, run, sweep, dc, ds, k);
    }
  }

  lemma SweptRunCounts(i: nat, c: Config, run: nat, sweep: seq<Dict>, dc: Value, ds: Value,
                       k: EventKind)
    requires |sweep| > 0
    ensures Count(RunTrace(i, c, run, sweep, dc, ds), k) == RunCount(sweep, k)
  {
    var first := BeforeRun(RunContext(i, c, run, None));
    var table := SubsetTraces(i, c, run, sweep, |sweep|, dc, ds);
    var last := BeforeRun(RunContext(i, c, run, Some(|sweep| - 1)));
    SubsetsCount(i, c, run, sweep, dc, ds, k);
    TimesOneZero(|sweep|);
    CountSingle(first, k);
    CountConcat([first], Concat(table), k);
    CountSnoc([first] + Concat(table), last, k);
  }

  /** The subset blocks of a run hold kind k once per subset, if at all. */
  lemma SubsetsCount(i: nat, c: Config, run: nat, sweep: seq<Dict>, dc: Value, ds: Value, k: EventKind)
    ensures Count(Concat(SubsetTraces(i, c, run, sweep, |sweep|, dc, ds)), k) == Times(|sweep|, SubsetCount(k))
  {
    var table := SubsetTraces(i, c, run, sweep, |sweep|, dc, ds);
    forall j | 0 <= j < |sweep|
      ensures Count(table[j], k) == SubsetCount(k)
    {
      SubsetTraceCounts(i, c, run, sweep, j, dc, ds, k);
    }
    UniformCounts(table, k, SubsetCount(k));
  }

  lemma PlainRunCounts(i: nat, c: Config, run: nat, sweep: seq<Dict>, dc: Value, ds: Value,
                       k: EventKind)
    requires |sweep| == 0
    ensures Count(RunTrace(i, c, run, sweep, dc, ds), k) == RunCount(sweep, k)
  {
    var context := RunContext(i, c, run, Some(0));
    var y := Yield(Descriptor(i, c, run, 0, c.params, dc, ds));
    CountSingle(BeforeRun(context), k);
    CountSnoc([BeforeRun(context)], y, k);
    CountSnoc([BeforeRun(context)] + [y], AfterRun(context), k);
  }

  /** The number of events of kind k in one simulation: its own two hooks, and
      runs times the per-run count. */
  lemma SimulationCount(i: nat, c: Config, sweep: seq<Dict>, dc: Value, ds: Value, k: EventKind)
    ensures Count(SimulationTrace(i, c, sweep, dc, ds), k)
         == (if k == KBeforeSimulation || k == KAfterSimulation then 1 else 0)
            + Times(c.runs, RunCount(sweep, k))
  {
    var first := BeforeSimulation(i, SimulationOf(c));
    var table := RunTraces(i, c, sweep, c.runs, dc, ds);
    var last := AfterSimulation(i, SimulationOf(c));
    forall r | 0 <= r < c.runs
      ensures Count(table[r], k) == RunCount(sweep, k)
    {
      RunTraceCounts(i, c, r, sweep, dc, ds, k);
    }
    UniformCounts(table, k, RunCount(sweep, k));
    CountSingle(first, k);
    CountConcat([first], Concat(table), k);
    CountSnoc([first] + Concat(table), last, k);
  }

  /** Per simulation: one `before_simulation` and one `after_simulation`; with a
      sweep of size k, 2 x runs `before_run`, no `after_run`, runs x k subset
      hooks of each kind and runs x k yields; without a sweep, runs `before_run`,
      runs `after_run`, no subset hooks and runs yields. */
  lemma SimulationBrackets(i: nat, c: Config, sweep: seq<Dict>, dc: Value, ds: Value)
    ensures var t := SimulationTrace(i, c, sweep, dc, ds);
            && |t| >= 2
            && t[0] == BeforeSimulation(i, SimulationOf(c))
            && t[|t| - 1] == AfterSimulation(i, SimulationOf(c))
  {
  }

  lemma SimulationHookCounts(i: nat, c: Config, sweep: seq<Dict>, dc: Value, ds: Value)
    ensures var t := SimulationTrace(i, c, sweep, dc, ds);
            && Count(t, KBeforeSimulation) == 1 && Count(t, KAfterSimulation) == 1
            && Count(t, KBeforeRun) == (if |sweep| > 0 then 2 * c.runs else c.runs)
            && Count(t, KAfterRun) == (if |sweep| > 0 then 0 else c.runs)
            && Count(t, KBeforeSubset) == (if |sweep| > 0 then c.runs * |sweep| else 0)
            && Count(t, KAfterSubset) == (if |sweep| > 0 then c.runs * |sweep| else 0)
            && Count(t, KYield) == (if |sweep| > 0 then c.runs * |sweep| else c.runs)
            && Count(t, KBeforeExperiment) == 0 && Count(t, KAfterExperiment) == 0
  {
    SimulationCount(i, c, sweep, dc, ds, KBeforeSimulation);
    SimulationCount(i, c, sweep, dc, ds, KAfterSimulation);
    SimulationCount(i, c, sweep, dc, ds, KBeforeExperiment);
    SimulationCount(i, c, sweep, dc, ds, KAfterExperiment);
    TimesOneZero(c.runs);
    if |sweep| > 0 {
      SweepSimulationCounts(i, c, sweep, dc, ds);
    } else {
      PlainSimulationCounts(i, c, sweep, dc, ds);
    }
  }

  lemma SweepSimulationCounts(i: nat, c: Config, sweep: seq<Dict>, dc: Value, ds: Value)
    requires |sweep| > 0
    ensures var t := SimulationTrace(i, c, sweep, dc, ds);
            && Count(t, KBeforeRun) == 2 * c.runs && Count(t, KAfterRun) == 0
            && Count(t, KBeforeSubset) == c.runs * |sweep|
            && Count(t, KAfterSubset) == c.runs * |sweep|
            && Count(t, KYield) == c.runs * |sweep|
  {
    SweepRunHookCounts(i, c, sweep, dc, ds);
    SweepSubsetCounts(i, c, sweep, dc, ds);
  }

  lemma SweepRunHookCounts(i: nat, c: Config, sweep: seq<Dict>, dc: Value, ds: Value)
    requires |sweep| > 0
    ensures var t := SimulationTrace(i, c, sweep, dc, ds);
            Count(t, KBeforeRun) == 2 * c.runs && Count(t, KAfterRun) == 0
  {
    TimesTwo(c.runs);
    TimesOneZero(c.runs);
    SimulationCount(i, c, sweep, dc, ds, KBeforeRun);
    SimulationCount(i, c, sweep, dc, ds, KAfterRun);
  }

  lemma {:induction false} TimesTwo(n: nat)
    ensures Times(n, 2) == 2 * n
  {
    if n > 0 {
      TimesTwo(n - 1);
    }
  }

  lemma SweepSubsetCounts(i: nat, c: Config, sweep: seq<Dict>, dc: Value, ds: Value)
    requires |sweep| > 0
    ensures var t := SimulationTrace(i, c, sweep, dc, ds);
            && Count(t, KBeforeSubset) == c.runs * |sweep|
            && Count(t, KAfterSubset) == c.runs * |sweep|
            && Count(t, KYield) == c.runs * |sweep|
  {
    SweepKindCount(i, c, sweep, dc, ds, KBeforeSubset);
    SweepKindCount(i, c, sweep, dc, ds, KAfterSubset);
    SweepKindCount(i, c, sweep, dc, ds, KYield);
  }

  lemma SweepKindCount(i: nat, c: Config, sweep: seq<Dict>, dc: Value, ds: Value, k: EventKind)
    requires |sweep| > 0 && SubsetCount(k) == 1
    ensures Count(SimulationTrace(i, c, sweep, dc, ds), k) == c.runs * |sweep|
  {
    TimesIsProduct(c.runs, |sweep|);
    SimulationCount(i, c, sweep, dc, ds, k);
  }

  lemma PlainSimulationCounts(i: nat, c: Config, sweep: seq<Dict>, dc: Value, ds: Value)
    requires |sweep| == 0
    ensures var t := SimulationTrace(i, c, sweep, dc, ds);
            && Count(t, KBeforeRun) == c.runs && Count(t, KAfterRun) == c.runs
            && Count(t, KBeforeSubset) == 0 && Count(t, KAfterSubset) == 0
            && Count(t, KYield) == c.runs
  {
    TimesOneZero(c.runs);
    SimulationCount(i, c, sweep, dc, ds, KBeforeRun);
    SimulationCount(i, c, sweep, dc, ds, KAfterRun);
    SimulationCount(i, c, sweep, dc, ds, KBeforeSubset);
    SimulationCount(i, c, sweep, dc, ds, KAfterSubset);
    SimulationCount(i, c, sweep, dc, ds, KYield);
  }

  /** The whole stream fires no experiment hook: those belong to `_run`. */
  lemma StreamHasNoExperimentHooks(configs: seq<Config>, sweepOf: Sweeper, n: nat, dc: Value, ds: Value)
    requires n <= |configs|
    ensures Count(StreamTrace(configs, sweepOf, n, dc, ds), KAfterExperiment) == 0
    ensures Count(StreamTrace(configs, sweepOf, n, dc, ds), KBeforeExperiment) == 0
  {
    var table := SimulationTraces(configs, sweepOf, n, dc, ds);
    forall q | 0 <= q < n
      ensures Count(table[q], KAfterExperiment) == 0 && Count(table[q], KBeforeExperiment) == 0
    {
      SimulationCount(q, configs[q], sweepOf(configs[q].params), dc, ds, KAfterExperiment);
      SimulationCount(q, configs[q], sweepOf(configs[q].params), dc, ds, KBeforeExperiment);
      TimesOneZero(configs[q].runs);
    }
    UniformCounts(table, KAfterExperiment, 0);
    UniformCounts(table, KBeforeExperiment, 0);
    TimesOneZero(n);
  }

  /** The descriptors of one run, defined directly: one per subset of the sweep, or
      a single one with the full parameters. */
  function RunDescriptors(i: nat, c: Config, run: nat, sweep: seq<Dict>, dc: Value, ds: Value)
    : seq<RunArgs>
  {
    if |sweep| > 0 then
      seq(|sweep|, j requires 0 <= j < |sweep| => Descriptor(i, c, run, j, sweep[j], dc, ds))
    else [Descriptor(i, c, run, 0, c.params, dc, ds)]
  }

  /** The descriptor lists of runs 0..n-1, one entry per run. */
  function RunTable(i: nat, c: Config, sweep: seq<Dict>, n: nat, dc: Value, ds: Value)
    : (t: seq<seq<RunArgs>>)
    ensures |t| == n
    ensures forall r :: 0 <= r < n ==> t[r] == RunDescriptors(i, c, r, sweep, dc, ds)
  {
    seq(n, r requires 0 <= r < n => RunDescriptors(i, c, r, sweep, dc, ds))
  }

  /** The descriptors of one simulation, run-major and subset-minor. */
  function SimulationDescriptors(i: nat, c: Config, sweep: seq<Dict>, dc: Value, ds: Value)
    : seq<RunArgs>
  {
    Concat(RunTable(i, c, sweep, c.runs, dc, ds))
  }

  /** The descriptor lists of simulations 0..n-1, one entry per simulation. */
  function SimulationTable(configs: seq<Config>, sweepOf: Sweeper, n: nat, dc: Value, ds: Value)
    : (t: seq<seq<RunArgs>>)
    requires n <= |configs|
    ensures |t| == n
    ensures forall q :: 0 <= q < n ==>
              t[q] == SimulationDescriptors(q, configs[q], sweepOf(configs[q].params), dc, ds)
  {
    seq(n, q requires 0 <= q < n => SimulationDescriptors(q, configs[q], sweepOf(configs[q].params), dc, ds))
  }

  lemma SubsetYields(i: nat, c: Config, run: nat, sweep: seq<Dict>, j: nat, dc: Value, ds: Value)
    requires j < |sweep|
    ensures Yields(SubsetTrace(i, c, run, sweep, j, dc, ds)) == [Descriptor(i, c, run, j, sweep[j], dc, ds)]
  {
    var context := RunContext(i, c, run, Some(j));
    var y := Yield(Descriptor(i, c, run, j, sweep[j], dc, ds));
    YieldsSingle(BeforeSubset(context));
    YieldsSnoc([BeforeSubset(context)], y);
    YieldsSnoc([BeforeSubset(context)] + [y], AfterSubset(context));
  }

  /** The yields of the subsets, subset by subset, are the sweep descriptors. */
  lemma SubsetsYield(i: nat, c: Config, run: nat, sweep: seq<Dict>, dc: Value, ds: Value)
    requires |sweep| > 0
    ensures Concat(YieldsEach(SubsetTraces(i, c, run, sweep, |sweep|, dc, ds)))
         == RunDescriptors(i, c, run, sweep, dc, ds)
  {
    var each := YieldsEach(SubsetTraces(i, c, run, sweep, |sweep|, dc, ds));
    var expected := RunDescriptors(i, c, run, sweep, dc, ds);
    forall j | 0 <= j < |sweep|
      ensures |each[j]| == 1 && each[j][0] == expected[j]
    {
      SubsetYields(i, c, run, sweep, j, dc, ds);
    }
    ConcatLength(each, 1);
    forall j | 0 <= j < |sweep|
      ensures Concat(each)[j] == expected[j]
    {
      ConcatUniform(each, 1, j, 0);
    }
  }

  lemma RunYields(i: nat, c: Config, run: nat, sweep: seq<Dict>, dc: Value, ds: Value)
    ensures Yields(RunTrace(i, c, run, sweep, dc, ds)) == RunDescriptors(i, c, run, sweep, dc, ds)
  {
    if |sweep| > 0 {
      SweptRunYields(i, c, run, sweep, dc, ds);
    } else {
      PlainRunYields(i, c, run, sweep, dc, ds);
    }
  }

  lemma SweptRunYields(i: nat, c: Config, run: nat, sweep: seq<Dict>, dc: Value, ds: Value)
    requires |sweep| > 0
    ensures Yields(RunTrace(i, c, run, sweep, dc, ds)) == RunDescriptors(i, c, run, sweep, dc, ds)
  {
    var first := BeforeRun(RunContext(i, c, run, None));
    var table := SubsetTraces(i, c, run, sweep, |sweep|, dc, ds);
    var last := BeforeRun(RunContext(i, c, run, Some(|sweep| - 1)));
    YieldsOfConcat(table);
    SubsetsYield(i, c, run, sweep, dc, ds);
    YieldsSingle(first);
    YieldsConcat([first], Concat(table));
    YieldsSnoc([first] + Concat(table), last);
  }

  lemma PlainRunYields(i: nat, c: Config, run: nat, sweep: seq<Dict>, dc: Value, ds: Value)
    requires |sweep| == 0
    ensures Yields(RunTrace(i, c, run, sweep, dc, ds)) == RunDescriptors(i, c, run, sweep, dc, ds)
  {
    var context := RunContext(i, c, run, Some(0));
    var y := Yield(Descriptor(i, c, run, 0, c.params, dc, ds));
    YieldsSingle(BeforeRun(context));
    YieldsSnoc([BeforeRun(context)], y);
    YieldsSnoc([BeforeRun(context)] + [y], AfterRun(context));
  }

  /** The descriptors one simulation yields are exactly its run-major,
      subset-minor descriptor list. */
  lemma SimulationYields(i: nat, c: Config, sweep: seq<Dict>, dc: Value, ds: Value)
    ensures Yields(SimulationTrace(i, c, sweep, dc, ds)) == SimulationDescriptors(i, c, sweep, dc, ds)
  {
    var first := BeforeSimulation(i, SimulationOf(c));
    var table := RunTraces(i, c, sweep, c.runs, dc, ds);
    var last := AfterSimulation(i, SimulationOf(c));
    YieldsSingle(first);
    YieldsConcat([first], Concat(table));
    YieldsSnoc([first] + Concat(table), last);
    YieldsOfConcat(table);
    RunsYield(i, c, sweep, dc, ds);
  }

  /** Run by run, the yields of each run are its descriptors. */
  lemma RunsYield(i: nat, c: Config, sweep: seq<Dict>, dc: Value, ds: Value)
    ensures YieldsEach(RunTraces(i, c, sweep, c.runs, dc, ds)) == RunTable(i, c, sweep, c.runs, dc, ds)
  {
    var table := RunTraces(i, c, sweep, c.runs, dc, ds);
    forall r | 0 <= r < c.runs
      ensures YieldsEach(table)[r] == RunTable(i, c, sweep, c.runs, dc, ds)[r]
    {
      RunYields(i, c, r, sweep, dc, ds);
    }
  }

  /** With a non-empty sweep of size k a simulation yields runs x k descriptors,
      and the one at position r x k + j belongs to run r and subset j. */
  lemma SweptDescriptorPosition(i: nat, c: Config, sweep: seq<Dict>, dc: Value, ds: Value, r: nat, j: nat)
    requires r < c.runs && j < |sweep|
    ensures var d := Yields(SimulationTrace(i, c, sweep, dc, ds));
            && |d| == c.runs * |sweep|
            && r * |sweep| + j < |d|
            && d[r * |sweep| + j] == Descriptor(i, c, r, j, sweep[j], dc, ds)
  {
    SimulationYields(i, c, sweep, dc, ds);
    ConcatUniform(RunTable(i, c, sweep, c.runs, dc, ds), |sweep|, r, j);
  }

  /** Without a sweep a simulation yields runs descriptors, the one at position r
      for run r with subset 0 and the full parameters. */
  lemma PlainDescriptorPosition(i: nat, c: Config, sweep: seq<Dict>, dc: Value, ds: Value, r: nat)
    requires r < c.runs && sweep == []
    ensures var d := Yields(SimulationTrace(i, c, sweep, dc, ds));
            && |d| == c.runs
            && d[r] == Descriptor(i, c, r, 0, c.params, dc, ds)
  {
    SimulationYields(i, c, sweep, dc, ds);
    ConcatUniform(RunTable(i, c, sweep, c.runs, dc, ds), 1, r, 0);
  }

  /** The descriptors the whole stream yields, simulation by simulation. */
  lemma StreamYields(configs: seq<Config>, sweepOf: Sweeper, n: nat, dc: Value, ds: Value)
    requires n <= |configs|
    ensures Yields(StreamTrace(configs, sweepOf, n, dc, ds))
         == Concat(SimulationTable(configs, sweepOf, n, dc, ds))
  {
    var table := SimulationTraces(configs, sweepOf, n, dc, ds);
    YieldsOfConcat(table);
    forall q | 0 <= q < n
      ensures YieldsEach(table)[q] == SimulationTable(configs, sweepOf, n, dc, ds)[q]
    {
      SimulationYields(q, configs[q], sweepOf(configs[q].params), dc, ds);
    }
    assert YieldsEach(table) == SimulationTable(configs, sweepOf, n, dc, ds);
  }

  // ---------------------------------------------------------------------------
  // Running an experiment
  // ---------------------------------------------------------------------------

  /** An experiment: its simulations, and the results and exceptions the engine
      stores back into it. */
  class Experiment {
    var simulations: seq<Simulation>
    var results: seq<Value>
    var exceptions: seq<Value>

    constructor (simulations: seq<Simulation>)
      ensures this.simulations == simulations && results == [] && exceptions == []
    {
      this.simulations := simulations;
      results := [];
      exceptions := [];
    }
  }

  /** An executor's `execute_runs`: given its kind, the engine's configuration and
      the runs drawn from the generator, one (result, exception) pair per run.
      GOLEM's `execute_runs` returns nothing, so `_run` never consults this for it. */
  type Executor = (ExecutorKind, EngineOptions, seq<Value>) -> seq<Outcome>

  datatype RunError =
    | ExperimentRequired          // "Experiment required as argument"
    | InvalidRunOption(leftover: Dict)
    | NotABackend(backend: Value) // "Execution backend must be one of ..."
    | NotIterable(value: Value)   // iter(pre_gen_runs) fails
    | NothingToUnpack             // extract_exceptions of no outcomes
    | UnpackedNone                // extract_exceptions(None): `zip(*None)` raises TypeError

  /** What `_run` returns: the extracted results, the executor's raw outcomes, or
      the None that GOLEM's `execute_runs` returns. */
  datatype RunOutput = Processed(results: seq<Value>) | Raw(outcomes: seq<Outcome>) | ReturnedNone

  /** What `_run` returns and the hook calls and yields it makes on the way. */
  datatype RunRecord = RunRecord(output: Result<RunOutput, RunError>, trace: seq<Event>)

  /** The yielded descriptors of a trace, as the values an executor draws. */
  function Dispatched(t: seq<Event>): (vs: seq<Value>)
    ensures |vs| == |Yields(t)|
  {
    var ys := Yields(t);
    seq(|ys|, q requires 0 <= q < |ys| => VRunArgs(ys[q]))
  }

  /** The events the generator contributes: none when `pre_gen_runs` is used. */
  function GenerationEvents(o: EngineOptions, configs: seq<Config>, sweepOf: Sweeper): seq<Event> {
    if Truthy(o.preGenRuns) then []
    else StreamTrace(configs, sweepOf, |configs|, o.deepcopy, o.dropSubsteps)
  }

  /** What `run_generator` holds: the items of a truthy `pre_gen_runs`, else the
      descriptors of the stream. */
  function GeneratorFor(o: EngineOptions, configs: seq<Config>, sweepOf: Sweeper)
    : Result<seq<Value>, RunError>
  {
    if Truthy(o.preGenRuns) then
      match Iterate(o.preGenRuns)
      case Some(items) => Ok(items)
      case None => Err(NotIterable(o.preGenRuns))
    else Ok(Dispatched(StreamTrace(configs, sweepOf, |configs|, o.deepcopy, o.dropSubsteps)))
  }

  /** `_run(experiment, **kwargs)` for an engine configured with o. */
  function RunSpec(o: EngineOptions, experiment: Option<seq<Simulation>>, kwargs: Dict,
                   sweepOf: Sweeper, execute: Executor): RunRecord
  {
    if experiment.None? then RunRecord(Err(ExperimentRequired), [])
    else if kwargs != map[] then RunRecord(Err(InvalidRunOption(kwargs)), [])
    else if !o.backend.VBackend? then RunRecord(Err(NotABackend(o.backend)), [])
    else
      var configs := Configs(experiment.value);
      match GeneratorFor(o, configs, sweepOf)
      case Err(e) => RunRecord(Err(e), [BeforeExperiment])
      case Ok(runs) =>
        var trace := [BeforeExperiment] + GenerationEvents(o, configs, sweepOf);
        var kind := SelectExecutor(o.backend.backend);
        if kind == ExecutorGolem then
          if Truthy(o.processExceptions) then RunRecord(Err(UnpackedNone), trace)
          else RunRecord(Ok(ReturnedNone), trace)
        else
          var outcomes := execute(kind, o, runs);
          if Truthy(o.processExceptions) then
            match ExtractExceptions(outcomes)
            case Err(_) => RunRecord(Err(NothingToUnpack), trace)
            case Ok(x) => RunRecord(Ok(Processed(x.results)), trace + [AfterExperiment])
          else RunRecord(Ok(Raw(outcomes)), trace)
  }

  /** A truthy `pre_gen_runs` list is dispatched verbatim and no simulation, run or
      subset hook fires; an empty list is falsy, so the stream is generated as if
      no runs had been given. */
  lemma PreGenRunsBypassStream(o: EngineOptions, sims: seq<Simulation>, sweepOf: Sweeper,
                               execute: Executor)
    requires o.backend.VBackend?
    ensures o.preGenRuns.VList? && o.preGenRuns.items != [] ==>
              && GeneratorFor(o, Configs(sims), sweepOf) == Ok(o.preGenRuns.items)
              && RunSpec(o, Some(sims), map[], sweepOf, execute).trace
                 <= [BeforeExperiment, AfterExperiment]
    ensures o.preGenRuns == VList([]) ==>
              && GeneratorFor(o, Configs(sims), sweepOf)
                 == GeneratorFor(o.(preGenRuns := VNone), Configs(sims), sweepOf)
              && GenerationEvents(o, Configs(sims), sweepOf)
                 == GenerationEvents(o.(preGenRuns := VNone), Configs(sims), sweepOf)
  {
  }

  /** Routing of the executor's output: with `process_exceptions` the results come
      from `extract_exceptions` and `after_experiment` closes the trace; without it
      the raw outcomes come back and `after_experiment` never fires.
      `before_experiment` is the first event of every run that passes the checks.
      GOLEM is routed by GolemRunReturnsNone. */
  lemma RunRouting(o: EngineOptions, sims: seq<Simulation>, sweepOf: Sweeper, execute: Executor)
    requires o.backend.VBackend?
    requires GeneratorFor(o, Configs(sims), sweepOf).Ok?
    ensures var rec := RunSpec(o, Some(sims), map[], sweepOf, execute);
            var outcomes := execute(SelectExecutor(o.backend.backend), o,
                                    GeneratorFor(o, Configs(sims), sweepOf).value);
            && rec.trace[0] == BeforeExperiment
            && (o.backend.backend != Golem && Truthy(o.processExceptions) && outcomes != [] ==>
                  rec.output == Ok(Processed(ExtractExceptions(outcomes).value.results))
                  && rec.trace[|rec.trace| - 1] == AfterExperiment)
            && (o.backend.backend != Golem && Truthy(o.processExceptions) && outcomes == [] ==>
                  rec.output == Err(NothingToUnpack))
            && (o.backend.backend != Golem && !Truthy(o.processExceptions) ==>
                  rec.output == Ok(Raw(outcomes)) && Count(rec.trace, KAfterExperiment) == 0)
  {
    if !Truthy(o.processExceptions) && o.backend.backend != Golem {
      RunRaw(o, sims, sweepOf, execute);
    }
  }

  /** GOLEM's `execute_runs` returns None whatever runs it is given: with
      `process_exceptions` unpacking it raises and `after_experiment` never fires,
      without it `_run` returns None; the executor stand-in is never consulted. */
  lemma GolemRunReturnsNone(o: EngineOptions, sims: seq<Simulation>, sweepOf: Sweeper,
                            execute: Executor, other: Executor)
    requires o.backend == VBackend(Golem)
    requires GeneratorFor(o, Configs(sims), sweepOf).Ok?
    ensures var rec := RunSpec(o, Some(sims), map[], sweepOf, execute);
            && rec.trace[0] == BeforeExperiment
            && (Truthy(o.processExceptions) ==> rec.output == Err(UnpackedNone))
            && (!Truthy(o.processExceptions) ==> rec.output == Ok(ReturnedNone))
            && Count(rec.trace, KAfterExperiment) == 0
            && rec == RunSpec(o, Some(sims), map[], sweepOf, other)
  {
    RunRaw(o, sims, sweepOf, execute);
  }

  /** Without `process_exceptions`, or with GOLEM, no `after_experiment` hook
      fires. */
  lemma RunRaw(o: EngineOptions, sims: seq<Simulation>, sweepOf: Sweeper, execute: Executor)
    requires o.backend.VBackend?
    requires GeneratorFor(o, Configs(sims), sweepOf).Ok?
    requires !Truthy(o.processExceptions) || o.backend.backend == Golem
    ensures Count(RunSpec(o, Some(sims), map[], sweepOf, execute).trace, KAfterExperiment) == 0
  {
    var configs := Configs(sims);
    var events := GenerationEvents(o, configs, sweepOf);
    UnclosedTrace(o, sims, sweepOf, execute);
    if !Truthy(o.preGenRuns) {
      StreamHasNoExperimentHooks(configs, sweepOf, |configs|, o.deepcopy, o.dropSubsteps);
    } else {
      assert events == [];
    }
    CountConcat([BeforeExperiment], events, KAfterExperiment);
    CountSingle(BeforeExperiment, KAfterExperiment);
  }

  /** A run that does not reach `after_experiment` records `before_experiment`
      and the generator's events only. */
  lemma UnclosedTrace(o: EngineOptions, sims: seq<Simulation>, sweepOf: Sweeper, execute: Executor)
    requires o.backend.VBackend?
    requires GeneratorFor(o, Configs(sims), sweepOf).Ok?
    requires !Truthy(o.processExceptions) || o.backend.backend == Golem
    ensures RunSpec(o, Some(sims), map[], sweepOf, execute).trace
            == [BeforeExperiment] + GenerationEvents(o, Configs(sims), sweepOf)
  {
    if o.backend.backend != Golem {
      assert SelectExecutor(o.backend.backend) != ExecutorGolem;
    }
  }

  /** The checks before dispatch raise before any hook fires. */
  lemma RunChecksComeFirst(o: EngineOptions, experiment: Option<seq<Simulation>>, kwargs: Dict,
                           sweepOf: Sweeper, execute: Executor)
    requires experiment.None? || kwargs != map[] || !o.backend.VBackend?
    ensures RunSpec(o, experiment, kwargs, sweepOf, execute).output.Err?
    ensures RunSpec(o, experiment, kwargs, sweepOf, execute).trace == []
  {
  }

  class Engine {
    var experiment: Experiment?
    var processes: Value
    var backend: Value
    var raiseExceptions: Value
    var processExceptions: Value
    var deepcopy: Value
    var dropSubsteps: Value
    var preGenRuns: Value
    var runGenerator: seq<Value>
    var golem: Option<GolemOptions>

    function Options(): EngineOptions
      reads this
    {
      EngineOptions(processes, backend, raiseExceptions, processExceptions, deepcopy,
                    dropSubsteps, preGenRuns, golem)
    }

    constructor FromOptions(o: EngineOptions)
      ensures Options() == o && experiment == null && runGenerator == []
    {
      experiment := null;
      processes := o.processes;
      backend := o.backend;
      raiseExceptions := o.raiseExceptions;
      processExceptions := o.processExceptions;
      deepcopy := o.deepcopy;
      dropSubsteps := o.dropSubsteps;
      preGenRuns := o.preGenRuns;
      runGenerator := [];
      golem := o.golem;
    }

    /** `Engine(**kwargs)`: pops the known options, then the GOLEM configuration,
        and rejects whatever keyword is left. */
    static method New(kwargs: Dict, cpuCount: int) returns (r: Result<Engine, ConfigError>)
      ensures r.Err? <==> Configure(kwargs, cpuCount).Err?
      ensures r.Err? ==> r.error == Configure(kwargs, cpuCount).error
      ensures r.Ok? ==> fresh(r.value) && r.value.Options() == Configure(kwargs, cpuCount).value
      ensures r.Ok? ==> r.value.experiment == null && r.value.runGenerator == []
    {
      var options, rest := PopKnownOptions(kwargs, cpuCount);
      var golem: Option<GolemOptions> := None;
      if options.backend == VBackend(Golem) {
        if "golem_conf" !in rest {
          return Err(GolemConfRequired);
        }
        var conf := rest["golem_conf"];
        rest := rest - {"golem_conf"};
        match GolemConfig(conf)
        case Err(e) =>
          return Err(e);
        case Ok(g) =>
          golem := Some(g);
      }
      if rest != map[] {
        return Err(InvalidEngineOption(rest));
      }
      var engine := new Engine.FromOptions(options.(golem := golem));
      return Ok(engine);
    }

    /** `_run_stream(configs)`: walks simulation, run and subset, firing the hooks
        and yielding one descriptor per leaf. */
    method RunStream(configs: seq<Config>, sweepOf: Sweeper) returns (trace: seq<Event>)
      ensures trace == StreamTrace(configs, sweepOf, |configs|, deepcopy, dropSubsteps)
    {
      trace := [];
      var simulationIndex := 0;
      while simulationIndex < |configs|
        invariant simulationIndex <= |configs|
        invariant trace == StreamTrace(configs, sweepOf, simulationIndex, deepcopy, dropSubsteps)
      {
        var c := configs[simulationIndex];
        var events := StreamSimulation(simulationIndex, c, sweepOf(c.params));
        trace := trace + events;
        StreamStep(configs, sweepOf, simulationIndex, deepcopy, dropSubsteps);
        simulationIndex := simulationIndex + 1;
      }
    }

    /** The body of the simulation loop of `_run_stream`: `before_simulation`, every
        run, `after_simulation`. */
    method StreamSimulation(i: nat, c: Config, paramSweep: seq<Dict>) returns (events: seq<Event>)
      ensures events == SimulationTrace(i, c, paramSweep, deepcopy, dropSubsteps)
    {
      var simulation := SimulationOf(c);
      events := [BeforeSimulation(i, simulation)];
      var runIndex := 0;
      while runIndex < c.runs
        invariant runIndex <= c.runs
        invariant events == [BeforeSimulation(i, simulation)]
                            + Concat(RunTraces(i, c, paramSweep, runIndex, deepcopy, dropSubsteps))
      {
        var run := StreamRun(i, c, runIndex, paramSweep);
        events := events + run;
        RunsStep(i, c, paramSweep, runIndex, deepcopy, dropSubsteps);
        AppendAssoc([BeforeSimulation(i, simulation)], Concat(RunTraces(i, c, paramSweep, runIndex, deepcopy, dropSubsteps)), run);
        runIndex := runIndex + 1;
      }
      events := events + [AfterSimulation(i, simulation)];
    }

    /** The body of the run loop of `_run_stream`: the subset loop when the sweep is
        non-empty, otherwise one yield with the full parameters. */
    method StreamRun(i: nat, c: Config, run: nat, paramSweep: seq<Dict>) returns (events: seq<Event>)
      ensures events == RunTrace(i, c, run, paramSweep, deepcopy, dropSubsteps)
    {
      if |paramSweep| > 0 {
        var context := RunContext(i, c, run, None);
        events := [BeforeRun(context)];
        var subsetIndex := 0;
        while subsetIndex < |paramSweep|
          invariant subsetIndex <= |paramSweep|
          invariant subsetIndex > 0 ==> context == RunContext(i, c, run, Some(subsetIndex - 1))
          invariant events == [BeforeRun(RunContext(i, c, run, None))]
            + Concat(SubsetTraces(i, c, run, paramSweep, subsetIndex, deepcopy, dropSubsteps))
        {
          SubsetsStep(i, c, run, paramSweep, subsetIndex, deepcopy, dropSubsteps);
          context := RunContext(i, c, run, Some(subsetIndex));
          ghost var before := events;
          events := events + [BeforeSubset(context)];
          events := events + [Yield(Descriptor(i, c, run, subsetIndex, paramSweep[subsetIndex],
                                               deepcopy, dropSubsteps))];
          events := events + [AfterSubset(context)];
          SubsetAppended(i, c, run, paramSweep, subsetIndex, deepcopy, dropSubsteps, before, events);
          subsetIndex := subsetIndex + 1;
        }
        events := events + [BeforeRun(context)];
      } else {
        var context := RunContext(i, c, run, Some(0));
        events := [BeforeRun(context)];
        events := events + [Yield(Descriptor(i, c, run, 0, c.params, deepcopy, dropSubsteps))];
        events := events + [AfterRun(context)];
      }
    }

    /** `_run(experiment, **kwargs)`: the checks, `before_experiment`, the run
        generator, dispatch to the selected executor, and result routing. */
    method Run(experiment: Experiment?, kwargs: Dict, sweepOf: Sweeper, execute: Executor)
      returns (r: Result<RunOutput, RunError>, trace: seq<Event>)
      modifies this, experiment
      ensures var rec := RunSpec(old(Options()),
                                 if experiment == null then None else Some(old(experiment.simulations)),
                                 kwargs, sweepOf, execute);
              r == rec.output && trace == rec.trace
      ensures Options() == old(Options())
      ensures this.experiment == if experiment == null then old(this.experiment) else experiment
      ensures experiment != null && kwargs == map[] && backend.VBackend? ==>
                var g := GeneratorFor(Options(), Configs(old(experiment.simulations)), sweepOf);
                runGenerator == if g.Ok? then g.value else old(runGenerator)
      ensures !(experiment != null && kwargs == map[] && backend.VBackend?) ==>
                runGenerator == old(runGenerator)
      ensures experiment != null ==> experiment.simulations == old(experiment.simulations)
      ensures experiment != null && r.Ok? && r.value.Processed? ==>
                experiment.results == r.value.results
                && experiment.exceptions
                   == ExtractExceptions(execute(SelectExecutor(backend.backend), Options(), runGenerator)).value.exceptions
      ensures experiment != null && !(r.Ok? && r.value.Processed?) ==>
                experiment.results == old(experiment.results)
                && experiment.exceptions == old(experiment.exceptions)
    {
      if experiment == null {
        return Err(ExperimentRequired), [];
      }
      this.experiment := experiment;
      if kwargs != map[] {
        return Err(InvalidRunOption(kwargs)), [];
      }
      var simulations := experiment.simulations;
      if !backend.VBackend? {
        return Err(NotABackend(backend)), [];
      }
      var configs := Configs(simulations);
      trace := [BeforeExperiment];
      if Truthy(preGenRuns) {
        match Iterate(preGenRuns)
        case None =>
          return Err(NotIterable(preGenRuns)), trace;
        case Some(items) =>
          runGenerator := items;
      } else {
        var stream := RunStream(configs, sweepOf);
        runGenerator := Dispatched(stream);
        trace := trace + stream;
      }
      var kind := SelectExecutor(backend.backend);
      if kind == ExecutorGolem {
        if Truthy(processExceptions) {
          return Err(UnpackedNone), trace;
        }
        return Ok(ReturnedNone), trace;
      }
      var result := execute(kind, Options(), runGenerator);
      if Truthy(processExceptions) {
        match ExtractExceptions(result)
        case Err(_) =>
          return Err(NothingToUnpack), trace;
        case Ok(x) =>
          experiment.results, experiment.exceptions := x.results, x.exceptions;
          trace := trace + [AfterExperiment];
          return Ok(Processed(x.results)), trace;
      } else {
        return Ok(Raw(result)), trace;
      }
    }
  }

  /** The seven `kwargs.pop(name, default)` calls at the head of `Engine.__init__`. */
  method PopKnownOptions(kwargs: Dict, cpuCount: int) returns (options: EngineOptions, rest: Dict)
    ensures options == KnownFrom(kwargs, cpuCount)
    ensures rest == kwargs - KnownOptions
  {
    var processes, backend, raiseExceptions, processExceptions, afterFirst := PopRunOptions(kwargs, cpuCount);
    var deepcopy, dropSubsteps, preGenRuns;
    deepcopy, dropSubsteps, preGenRuns, rest := PopCopyOptions(afterFirst);
    assert KnownOptions == {"processes", "backend", "raise_exceptions", "process_exceptions"} + {"deepcopy", "drop_substeps", "pre_gen_runs"};
    options := EngineOptions(processes, backend, raiseExceptions, processExceptions, deepcopy,
                             dropSubsteps, preGenRuns, None);
  }

  /** The first four pops: processes, backend and exception handling. */
  method PopRunOptions(kwargs: Dict, cpuCount: int)
    returns (processes: Value, backend: Value, raiseExceptions: Value, processExceptions: Value, rest: Dict)
    ensures processes == Get(kwargs, "processes", VInt(cpuCount))
    ensures backend == Get(kwargs, "backend", VBackend(Default))
    ensures raiseExceptions == Get(kwargs, "raise_exceptions", VBool(true))
    ensures processExceptions == Get(kwargs, "process_exceptions", VBool(true))
    ensures rest == kwargs - {"processes", "backend", "raise_exceptions", "process_exceptions"}
  {
    rest := kwargs;
    ghost var popped: set<string> := {};
    ghost var before := rest;
    processes, rest := Pop(rest, "processes", VInt(cpuCount));
    PopMore(kwargs, popped, before, "processes", VInt(cpuCount), processes, rest);
    popped := popped + {"processes"};
    before := rest;
    backend, rest := Pop(rest, "backend", VBackend(Default));
    PopMore(kwargs, popped, before, "backend", VBackend(Default), backend, rest);
    popped := popped + {"backend"};
    before := rest;
    raiseExceptions, rest := Pop(rest, "raise_exceptions", VBool(true));
    PopMore(kwargs, popped, before, "raise_exceptions", VBool(true), raiseExceptions, rest);
    popped := popped + {"raise_exceptions"};
    before := rest;
    processExceptions, rest := Pop(rest, "process_exceptions", VBool(true));
    PopMore(kwargs, popped, before, "process_exceptions", VBool(true), processExceptions, rest);
    popped := popped + {"process_exceptions"};
    assert popped == {"processes", "backend", "raise_exceptions", "process_exceptions"};
  }

  /** The last three pops: copying, substep dropping and run pre-generation. */
  method PopCopyOptions(kwargs: Dict) returns (deepcopy: Value, dropSubsteps: Value, preGenRuns: Value, rest: Dict)
    ensures deepcopy == Get(kwargs, "deepcopy", VBool(true))
    ensures dropSubsteps == Get(kwargs, "drop_substeps", VBool(false))
    ensures preGenRuns == Get(kwargs, "pre_gen_runs", VNone)
    ensures rest == kwargs - {"deepcopy", "drop_substeps", "pre_gen_runs"}
  {
    rest := kwargs;
    ghost var popped: set<string> := {};
    ghost var before := rest;
    deepcopy, rest := Pop(rest, "deepcopy", VBool(true));
    PopMore(kwargs, popped, before, "deepcopy", VBool(true), deepcopy, rest);
    popped := popped + {"deepcopy"};
    before := rest;
    dropSubsteps, rest := Pop(rest, "drop_substeps", VBool(false));
    PopMore(kwargs, popped, before, "drop_substeps", VBool(false), dropSubsteps, rest);
    popped := popped + {"drop_substeps"};
    before := rest;
    preGenRuns, rest := Pop(rest, "pre_gen_runs", VNone);
    PopMore(kwargs, popped, before, "pre_gen_runs", VNone, preGenRuns, rest);
    popped := popped + {"pre_gen_runs"};
    assert popped == {"deepcopy", "drop_substeps", "pre_gen_runs"};
  }

  /** Popping one more key from what is left of a dictionary reads the value the
      dictionary had under that key and leaves it without that key as well. */
  lemma PopMore(d: Dict, popped: set<string>, before: Dict, key: string, default: Value, v: Value, after: Dict)
    requires before == d - popped && key !in popped
    requires v == Get(before, key, default) && after == before - {key}
    ensures v == Get(d, key, default)
    ensures after == d - (popped + {key})
  {
  }

  /** `d.pop(key, default)` on a dictionary held by value. */
  method Pop(d: Dict, key: string, default: Value) returns (v: Value, rest: Dict)
    ensures v == Get(d, key, default)
    ensures rest == d - {key}
  {
    v := if key in d then d[key] else default;
    rest := d - {key};
  }
}
