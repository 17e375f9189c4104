# radCAD core, modelled in Dafny

radCAD runs system-dynamics simulations. This project models its core:

- **Configuring an `Engine`.** The engine reads its keyword options, and the nested `golem_conf` block when the GOLEM backend is selected.
- **The run stream.** `_run_stream` walks every simulation, run and parameter subset. It fires the experiment's `before_*`/`after_*` hooks and yields one `RunArgs` descriptor per leaf.
- **`_run`.**
  1. It checks its arguments.
  2. It chooses the run generator: either `pre_gen_runs` or the stream.
  3. It selects an executor from the backend.
  4. It optionally splits the executor's `(result, exception)` pairs with `extract_exceptions`.
- **`flatten` and `extract_exceptions`.** These result utilities are modelled on Python values.
- **The native (Rust) `run`.** It builds the parameter sweep, fans out one `single_run` per run and subset, and steps a simulation through its timesteps and partial state update blocks. It merges the policy signals with `reduce_signals`.
- **The GOLEM executor's local part.** It cuts the drained run list into `golem_bundles` strided bundles, names one pickle per bundle, and clamps the provider timeout.

Python values are a datatype `Value` (`values.dfy`). It has integers, reals, booleans, strings, `None`, lists, tuples, dictionaries, backends and run descriptors. Python truthiness is the predicate `Truthy`.

State update functions and policies in the native loop are Dafny functions over integer-valued state dictionaries. The executor and `generate_parameter_sweep` are function parameters.

Each stateful operation is a method proved against a specification function. The lemmas about those functions carry the properties:

- **Engine.** `Configure` specifies `Engine(**kwargs)`. `StreamTrace` specifies the events of `_run_stream`. `RunSpec` specifies `_run`.
- **Native run.** `SweepOf` specifies the sweep, `SingleRunStates` specifies `single_run`, `RunResult` specifies the native `run`, and `MergeSignals` specifies `reduce_signals`.
- **GOLEM.** `Bundles` specifies the bundle dictionary, `PickleName` the pickle names, and `ProviderTimeout` the timeout.

Where the prose description of radCAD and the code disagree, the model follows the code:

- **Failed runs.** `extract_exceptions` keeps the `None` result of a failed run in the results channel (`FailedRunKeepsNoneResult`).
- **Run hooks in the sweep path.** The sweep path of `_run_stream` calls `_before_run` a second time where `_after_run` would close the run. As a result, a swept run fires `before_run` twice and `after_run` never (`SimulationHookCounts`).

## Model

| member | source | states |
|---|---|---|
| Utils.Flatten | radcad/utils.py:1-10 | the flattened list has as many items as the widths of the elements add up to: a list contributes its items, anything else itself |
| Utils.FlattenConcat | radcad/utils.py:1-10 | flattening distributes over concatenation |
| Utils.FlattenAt | radcad/utils.py:1-10 | element i is expanded in place, between the flattening of the elements before and after it (order is kept) |
| Utils.FlattenWithoutLists | radcad/utils.py:4-8 | a list with no list elements is returned unchanged |
| Utils.FlattenMembership | radcad/utils.py:1-10 | v is in the flattened list iff some element expands to a sequence containing v |
| Utils.FlattenExamples | radcad/utils.py:1-10 | `flatten([[1,2],3,[4]]) == [1,2,3,4]`; `flatten([[[1]]]) == [[1]]` (one level only); a tuple is not expanded |
| Utils.Results | radcad/utils.py:14 | the first components of the pairs, positionally |
| Utils.Exceptions | radcad/utils.py:14 | the second components of the pairs, positionally |
| Utils.ExtractExceptions | radcad/utils.py:13-15 | unpacking fails exactly when there are no pairs; otherwise the exceptions are the second components, one per pair, in input order |
| Utils.ExtractConcat | radcad/utils.py:13-15 | the results and exceptions of a concatenated dispatch are those of the two halves, concatenated |
| Utils.FailedRunKeepsNoneResult | radcad/utils.py:13-15 | for `[([[s1]],None),(None,e),([[s2]],None)]` the results are `[s1, None, s2]` and the exceptions `[None, e, None]` |
| Engine.CpuCount | radcad/engine.py:12 | `cpu_count() - 1 or 1`: one less than the machine's CPUs, and 1 on a single-CPU machine |
| Engine.ConfigureDefaults | radcad/engine.py:18-24 | with no keyword arguments each option takes its default (cpu count, DEFAULT backend, True, True, True, False, None) |
| Engine.ConfigureAcceptsOnlyKnownOptions | radcad/engine.py:18-24 | outside GOLEM, construction succeeds iff every keyword is one of the seven known options; otherwise it fails with exactly the unknown ones; `pre_gen_runs` is stored as given |
| Engine.GolemConfRejectedWithoutGolem | radcad/engine.py:55-56 | `golem_conf` without the GOLEM backend is an invalid option |
| Engine.GolemRequirements | radcad/engine.py:30-53 | with GOLEM, a missing `golem_conf` raises the KeyError, and a dictionary without YAGNA_KEY raises the "YAGNA_KEY missing" error |
| Engine.GolemBundlesDefault | radcad/engine.py:30-53 | a `golem_conf` with YAGNA_KEY whose REMOTE_BACKEND, if given, is a Backend parses, other keys notwithstanding; without BUNDLES the bundles are the NODES value, which defaults to 3 |
| Engine.GolemConfigureSucceeds | radcad/engine.py:18-56 | with the GOLEM backend, construction succeeds iff `golem_conf` is given and parses and every other keyword is a known option; the engine then has the known options and the parsed block; a `golem_conf` that does not parse raises its own error, before any leftover option is reported |
| Engine.PopRunOptions | radcad/engine.py:18-21 | pops processes, backend, raise_exceptions and process_exceptions with their defaults; the rest is kwargs without those keys |
| Engine.PopCopyOptions | radcad/engine.py:22-24 | pops deepcopy, drop_substeps and pre_gen_runs with their defaults; the rest is kwargs without those keys |
| Engine.PopKnownOptions | radcad/engine.py:18-24 | the popped values are the known options read with their defaults, and the rest is kwargs minus the known keys |
| Engine.PopMore | radcad/engine.py:18-24 | popping one more key from an already popped dictionary reads the original value and leaves the original minus all popped keys |
| Engine.Pop | radcad/engine.py:18 | `dict.pop(key, default)`: the value or the default, and the dictionary without the key |
| Engine.Engine.New | radcad/engine.py:16-56 | construction fails iff `Configure` fails, with the same error; otherwise the fresh engine holds the configured options, no experiment and an empty generator |
| Engine.SelectExecutorSharing | radcad/engine.py:90-106 | two backends select the same executor iff they are equal or both in {PATHOS, DEFAULT}; every executor kind is selected by some backend |
| Engine.Configs | radcad/engine.py:70-79 | one config tuple per simulation, in order |
| Engine.SimulationRoundTrip | radcad/engine.py:117-122 | rebuilding a simulation from its config tuple gives back the simulation |
| Engine.Engine.RunStream | radcad/engine.py:124-202 | the events of the generator are those of every simulation in order |
| Engine.Engine.StreamSimulation | radcad/engine.py:128-202 | the events of one simulation: before_simulation, its runs in order, after_simulation |
| Engine.Engine.StreamRun | radcad/engine.py:143-198 | the events of one run, swept or not |
| Engine.SimulationBrackets | radcad/engine.py:138-202 | a simulation's events start with before_simulation and end with after_simulation |
| Engine.SimulationHookCounts | radcad/engine.py:138-202 | per simulation: one before/after_simulation; with a sweep, 2·runs before_run, no after_run, and runs·len(sweep) subset hooks and yields; without a sweep, runs before_run, after_run and yields |
| Engine.SweepSimulationCounts | radcad/engine.py:143-176 | the swept counts of the simulation hooks and yields |
| Engine.PlainSimulationCounts | radcad/engine.py:177-198 | the unswept counts of the simulation hooks and yields |
| Engine.SweepRunShape | radcad/engine.py:144-176 | a swept run has 3·len(sweep)+2 events: before_run, then for each subset j before_subset, the yield of descriptor j and after_subset at 3j+1..3j+3, then before_run with the last subset's context |
| Engine.SweptDescriptorPosition | radcad/engine.py:143-174 | with a sweep, a simulation yields runs·len(sweep) descriptors, and descriptor r·len(sweep)+j is run r's subset j with parameter set j |
| Engine.PlainDescriptorPosition | radcad/engine.py:177-197 | without a sweep, descriptor r is run r, subset 0, with the model's parameters |
| Engine.SimulationYields | radcad/engine.py:128-202 | a simulation's yields are its descriptors, run by run |
| Engine.RunYields | radcad/engine.py:143-198 | a run's yields are its descriptors, subset by subset |
| Engine.StreamYields | radcad/engine.py:124-202 | the descriptors the generator yields are the concatenation of every simulation's descriptors |
| Engine.StreamHasNoExperimentHooks | radcad/engine.py:124-202 | the generator never fires before_experiment or after_experiment |
| Engine.RunChecksComeFirst | radcad/engine.py:58-69 | no experiment, leftover keyword arguments or a backend that is not a Backend raise before any hook fires |
| Engine.PreGenRunsBypassStream | radcad/engine.py:85-88 | a non-empty `pre_gen_runs` list is dispatched verbatim and no simulation hook fires; an empty list is falsy and behaves as no `pre_gen_runs` |
| Engine.RunRouting | radcad/engine.py:83-115 | the trace starts with before_experiment; for every backend but GOLEM: with process_exceptions, the results are those of `extract_exceptions` and after_experiment fires last (an empty dispatch fails to unpack); without it, the raw outcomes are returned and after_experiment never fires |
| Engine.RunRaw | radcad/engine.py:108-115 | without process_exceptions, or with GOLEM, after_experiment never fires |
| Engine.GolemRunReturnsNone | radcad/engine.py:104-115 | GOLEM's `execute_runs` returns None: with process_exceptions `_run` fails to unpack it and after_experiment never fires; without it `_run` returns None; either way the outcome does not depend on any executor |
| Engine.Engine.Run | radcad/engine.py:58-115 | `_run` returns and fires what `RunSpec` says (including the None of the GOLEM executor); it stores the experiment and the run generator (which keeps its old value when the keyword or Backend check raises), and writes results and exceptions into the experiment only when they were processed |
| NativeRun.MaxLen | src/lib.rs:67-74 | the longest candidate list: no list is longer, and some list has that length (0 without parameters) |
| NativeRun.MaxLenUnique | src/lib.rs:67-74 | any bound that some list reaches is the maximum length |
| NativeRun.SweepShape | src/lib.rs:67-87 | the sweep fails iff some list is empty while another is not; otherwise it has max-length subsets, each with every parameter key, and subset i takes item i or the list's last item |
| NativeRun.SingletonListsGiveOneSubset | src/lib.rs:67-87 | lists of length one give a single subset of their items |
| NativeRun.NoParamsGiveNoSubset | src/lib.rs:67-87 | no parameters give an empty sweep |
| NativeRun.BuildSweep | src/lib.rs:67-87 | the loops compute `SweepOf(params)` |
| NativeRun.BuildParamSet | src/lib.rs:77-85 | one parameter set, or the error of indexing an empty list |
| NativeRun.FirstState | src/lib.rs:134-139 | the first state has the initial keys plus the five bookkeeping keys |
| NativeRun.NewPyString | src/lib.rs:195 | `PyString::new` returns the shared object for the empty and one-character strings and a new object otherwise, with the given text |
| NativeRun.AsWrittenRejectsOwnName | src/lib.rs:193-202 | with the identity check as written, a variable whose name is not a shared string is rejected even when its update returns its own name, which the value check accepts |
| NativeRun.PreyKeyMismatch | src/lib.rs:193-202 | variable "prey" with an update returning ("prey", 5): the check as written raises the key mismatch, the value check stores 5 |
| NativeRun.UpdateVariableByValue | src/lib.rs:193-202 | with the value check, a callable update succeeds iff its key is the variable's name, then sets that variable alone to the returned value, and otherwise raises the key mismatch |
| NativeRun.ApplyVariablesOutcome | src/lib.rs:159-203 | applying a block's updates fails only with one of the loop's two TypeErrors, and never when every update is callable and returns its own key |
| NativeRun.ApplyVariablesFrame | src/lib.rs:159-203 | updates only add keys; a key no applied update names keeps its presence and value |
| NativeRun.TimestepStatesErr | src/lib.rs:150-210 | the first failing block aborts the timestep: later blocks do not change the error |
| NativeRun.TraceUpToErr | src/lib.rs:140-212 | the first failing timestep aborts the run |
| NativeRun.SingleRunOutcome | src/lib.rs:123-214 | `single_run` fails only with one of the loop's TypeErrors, and never on well-behaved blocks |
| NativeRun.FirstUpdateFails | src/lib.rs:163-202 | a non-callable first update raises "State update function is not callable"; one returning another key raises "PSUB state key doesn't match function state key" |
| NativeRun.SingleRunLength | src/lib.rs:133-212 | a successful run has 1 + timesteps·len(psubs) states |
| NativeRun.TimestepChain | src/lib.rs:150-209 | each substate starts from the previous one: a key its block does not write keeps its value from the previous substate (the timestep's first block starts from the previous state) |
| NativeRun.SingleRunBookkeeping | src/lib.rs:134-158 | state 0 is stamped with timestep 0 and substep 0, and the state of block j in timestep t carries the simulation, subset, run+1, timestep t and substep j+1 |
| NativeRun.TraceIgnoresBookkeeping | src/lib.rs:134-139 | initial states that differ only in bookkeeping keys give the same run |
| NativeRun.SingleRun | src/lib.rs:123-214 | the loop stamps the caller's initial state and returns `SingleRunStates` |
| NativeRun.RunTimesteps | src/lib.rs:140-212 | the timestep loop computes the run's states |
| NativeRun.RunTimestep | src/lib.rs:149-211 | the block loop computes one timestep's substates |
| NativeRun.ApplyPSub | src/lib.rs:159-203 | the variable loop computes one block's substate |
| NativeSignals.PolicyOutputs | src/lib.rs:224-236 | one signal dictionary per policy, in order, each from the policy's own call |
| NativeSignals.FoldKeywise | src/lib.rs:241-255 | a key is in the fold iff some output has it, and its value is the sum over the outputs (0 where absent) |
| NativeSignals.SingleOutputIsFold | src/lib.rs:238-240 | the shortcut for one policy agrees with the fold |
| NativeSignals.MergeKeywise | src/lib.rs:238-256 | whatever the number of policies, the merged signals are the key-wise sum of the outputs |
| NativeSignals.TotalPermutation | src/lib.rs:241-255 | the key-wise sum of the outputs is the same for any permutation of them |
| NativeSignals.MergeIgnoresOrder | src/lib.rs:238-256 | any permutation of the policy outputs merges to the same signals, so the order in which the policies are visited does not matter |
| NativeSignals.ReduceSignals | src/lib.rs:216-257 | `reduce_signals` returns the merge of the policy outputs |
| NativeSignals.AddInto | src/lib.rs:243-255 | the fold closure sums every key of the output into the accumulator |
| NativeFanOut.RawParams | src/lib.rs:113 | without a sweep, `single_run` gets the dictionary of candidate lists itself |
| NativeFanOut.SweptInvocations | src/lib.rs:89-108 | with a sweep, a simulation makes runs·len(sweep) calls, and call run·len(sweep)+subset is that run with that parameter set |
| NativeFanOut.UnsweptInvocations | src/lib.rs:109-117 | without a sweep, one call per run, with subset 0 and the raw parameters |
| NativeFanOut.CollectConcat | src/lib.rs:92-117 | the result list exists iff every call succeeded, and it is their states concatenated in call order |
| NativeFanOut.CollectFirstError | src/lib.rs:92-117 | a failure is the error of the first failing call, all earlier calls having succeeded |
| NativeFanOut.SimulationLength | src/lib.rs:89-118 | a simulation contributes calls·(1 + timesteps·len(psubs)) states |
| NativeFanOut.CallLayout | src/lib.rs:89-118 | state p of call c is at position c·(1 + timesteps·len(psubs)) + p of the result |
| NativeFanOut.CallFromStamped | src/lib.rs:129-139 | a call made with the caller's dictionary, stamped by earlier calls, gives the same run as one made with the original initial state |
| NativeFanOut.RunErrors | src/lib.rs:51-121 | `run` fails only with a loop TypeError or by indexing an empty parameter list |
| NativeFanOut.RunSucceeds | src/lib.rs:51-121 | with no empty parameter list and well-behaved blocks, `run` succeeds |
| NativeFanOut.Run | src/lib.rs:51-121 | the simulation loop computes `RunResult` |
| NativeFanOut.RunSimulation | src/lib.rs:89-118 | the run loop computes the simulation's calls in order |
| NativeFanOut.RunSubsets | src/lib.rs:90-108 | the subset loop computes one run's calls; the shared initial state differs from the model's only in bookkeeping keys |
| Golem.Bundles | radcad/extensions/backends/golem.py:155-159 | exactly `golem_bundles` bundles (none when it is not positive), and bundle b is `config_list[b::golem_bundles]` |
| Golem.StrideAt | radcad/extensions/backends/golem.py:159 | item k of bundle b is run b + k·n |
| Golem.StrideHas | radcad/extensions/backends/golem.py:159 | every run b + k·n is item k of bundle b |
| Golem.SlotUnique | radcad/extensions/backends/golem.py:157-159 | a run index determines its bundle and slot: no run is in two bundles |
| Golem.BundlesPartition | radcad/extensions/backends/golem.py:155-159 | the bundles hold exactly the runs of the list: same multiset and total length |
| Golem.BundlesBalanced | radcad/extensions/backends/golem.py:157-159 | an earlier bundle has as many runs as a later one or one more |
| Golem.ExecutorGolem.BundleRuns | radcad/extensions/backends/golem.py:157-159 | the dictionary has exactly the keys 0..n-1, and key b holds `config_list[b::n]` |
| Golem.DecimalRoundTrip | radcad/extensions/backends/golem.py:169 | `str(b)` is parsed back to b |
| Golem.PickleNamesDistinct | radcad/extensions/backends/golem.py:167-170 | different bundles get different pickle names |
| Golem.ExecutorGolem.ExecuteRuns | radcad/extensions/backends/golem.py:152-174 | one pickle per bundle, in bundle order, named `bundle_<b>.pickle` and holding bundle b of the drained run list |
| Golem.ProviderTimeout | radcad/extensions/backends/golem.py:101-109 | the timeout is 3 + `golem_timeout` clamped to [6, 30] minutes |
| Golem.ProviderTimeoutMonotone | radcad/extensions/backends/golem.py:105-109 | a longer `golem_timeout` never gives a shorter provider timeout |
| Golem.ExecutorGolem.Timeout | radcad/extensions/backends/golem.py:107-109 | the timeout handed to the requestor is in [6, 30] minutes |

## Findings

| source | as written | input that shows it | evidently intended | confidence | as-written member | corrected member |
|---|---|---|---|---|---|---|
| src/lib.rs:195 | `PyString::new(py, state) == state_key.str()?` compares two `&PyString` references; pyo3 0.11, the version that still exports `exceptions::TypeError`, compares those by object pointer | a block whose variable "prey" has an update returning ("prey", 5): `PyString::new` makes a new object, the pointers differ, and the loop raises "PSUB state key doesn't match function state key" | compare the key's text with the variable's name, so that an update returning its own variable's name is stored | not executed; rests on pyo3 0.11 comparing native references by pointer and on CPython sharing only the empty and one-character strings | NativeRun.AsWrittenRejectsOwnName | NativeRun.UpdateVariableByValue |

## Left out

- **The executor and `generate_parameter_sweep`:** these are function parameters. Executors are the pathos, multiprocessing, single-process and Ray backends, and they are not part of this model. GOLEM's `execute_runs` returns None, and `_run` models that return without consulting the parameter. Modelling them as parameters means that "result i belongs to descriptor i" is a property of the parameter, not something proved here.
- **Generator laziness:** the stream is modelled as the complete list of its events. The interleaving of hook calls with the executor's pulls is not captured; only the order of hooks and yields among themselves is.
- **`copy.deepcopy` and aliasing:** Python objects shared between runs, and hooks that mutate `RunArgs`, are not captured. Descriptors are values.
- **Reals:** the float defaults MEMORY and STORAGE are carried as values and never computed with.
- **`.value` of REMOTE_BACKEND:** this is kept as the backend itself. The in-place pops on the caller's `golem_conf` dictionary are not modelled; `GolemConfig` reads it instead.
- **pyo3 and the GIL:**
  - Extraction errors of Python objects, the `unwrap`/`expect` panics, and the panic on a missing "policies" or "variables" key are not modelled. Every block is taken to have both maps.
  - State keys are strings, and state values and signals are integers.
  - The order in which a Rust `HashMap` iterates the variables and policies of a block is taken as the order of the given sequences.
- **User exceptions:** exceptions raised inside user policies and update functions, and the `raise_exceptions` switch that the Python backends consult, are left out. The native loop is total apart from its own two TypeErrors.
- **The caller's `initial_state` after `run`:** the native loop writes its bookkeeping keys into it. The model tracks these only as far as later calls depend on them (`RunSubsets`); the dictionary left behind is not exposed.
- **GOLEM I/O:** these parts of the GOLEM backend are left out:
  - setting the YAGNA_APPKEY environment variable;
  - creating and emptying the pickle directory;
  - the `dill` serialization;
  - the asyncio event loop, logging, the requestor, the worker and the retrieval of results.
- **Golem.ExecutorGolem.ExecuteRuns:** in the source, `execute_runs` returns nothing observable at this level. The model returns the (file name, bundle) pairs it writes, as the observable effect of `dill.dump`. It takes the drained generator as a list, and `golem_bundles` and `golem_timeout` as integers.
- **NativeRun.UpdateVariable:** it compares the returned key with the variable's name by value, the intended check (see Findings). `UpdateVariableAsWritten` models the identity check of the loop as written. `ApplyPSub`, `ApplyVariablesOutcome`, `SingleRunOutcome` and `NativeFanOut.RunSucceeds` build on the value check. Their claim that well-behaved blocks never fail therefore describes the intended loop. It does not describe the loop as written, which rejects every variable whose name is neither empty nor a single Latin-1 character.
- **Values.Iterate:** Python iterates a dictionary over its keys in insertion order. `Dict` is an unordered map, so a truthy dictionary given as `pre_gen_runs` is reported as `NotIterable` instead of dispatching its keys. The `RunArgs` wrapper class is not part of this model, and a `RunArgs` given as `pre_gen_runs` is likewise taken as not iterable.
- **Engine.Engine.RunStream:** the nested loops of `_run_stream` are split over three methods, `RunStream`, `StreamSimulation` and `StreamRun`, one per loop.
