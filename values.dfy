/** The Python values the orchestration layer handles: engine options, parameter
    and state dictionaries, run descriptors and hook contexts. */
module Values {

  datatype Option<+T> = None | Some(value: T)

  datatype Result<+T, +E> = Ok(value: T) | Err(error: E) {
    predicate IsFailure() { Err? }

    function PropagateFailure<U>(): Result<U, E>
      requires Err?
    {
      Err(error)
    }

    function Extract(): T
      requires Ok?
    {
      value
    }
  }

  /** The members of the `Backend` enumeration the engine dispatches on. */
  datatype Backend = Default | Multiprocessing | Ray | RayRemote | Pathos | SingleProcess | Golem

  /** A Python object, as far as the engine looks into it. Lists and tuples are kept
      apart because `flatten` expands only lists. */
  datatype Value =
    | VNone
    | VBool(b: bool)
    | VInt(i: int)
    | VReal(r: real)
    | VStr(s: string)
    | VList(items: seq<Value>)
    | VTuple(elems: seq<Value>)
    | VDict(entries: map<string, Value>)
    | VBackend(backend: Backend)
    | VRunArgs(args: RunArgs)

  /** A Python dictionary keyed by strings (state, parameters, keyword arguments). */
  type Dict = map<string, Value>

  /** The unit of dispatch: one (simulation, run, subset) leaf with its own copies of
      the initial state and of the parameters. */
  datatype RunArgs = RunArgs(
    simulation: nat,
    timesteps: nat,
    run: nat,
    subset: nat,
    initialState: Dict,
    stateUpdateBlocks: Value,
    params: Dict,
    deepcopy: Value,
    dropSubsteps: Value)

  /** The read-only handle passed to the run and subset hooks. */
  datatype Context = Context(
    simulation: nat,
    run: nat,
    subset: Option<nat>,
    timesteps: nat,
    initialState: Dict,
    params: Dict)

  /** Python truthiness: `None`, `False`, zero and empty containers are false. */
  predicate Truthy(v: Value) {
    match v
    case VNone => false
    case VBool(b) => b
    case VInt(i) => i != 0
    case VReal(r) => r != 0.0
    case VStr(s) => s != ""
    case VList(xs) => xs != []
    case VTuple(xs) => xs != []
    case VDict(m) => m != map[]
    case VBackend(_) => true
    case VRunArgs(_) => true
  }

  /** The items `iter(v)` produces, for the iterables the model covers: a list or
      tuple gives its elements, a string its one-character strings. */
  function Iterate(v: Value): (r: Option<seq<Value>>)
    ensures v.VList? ==> r == Some(v.items)
    ensures v.VTuple? ==> r == Some(v.elems)
    ensures r.Some? ==> v.VList? || v.VTuple? || v.VStr?
  {
    match v
    case VList(xs) => Some(xs)
    case VTuple(xs) => Some(xs)
    case VStr(s) => Some(seq(|s|, i requires 0 <= i < |s| => VStr([s[i]])))
    case _ => None
  }
}
