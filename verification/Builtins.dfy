/** Builtin functions (functions.go), for both representations of function values. */
module Builtins {
  import opened Sexps

  /** Function-free data. */
  type Datum = Sexp<()>

  /** What the embedding program supplies: the builtin table by symbol number, the
      interned symbol `array`, and the builtins that compute on function-free data, as
      one pure function of the builtin, the name it is called by, and its arguments. */
  datatype Host = Host(builtins: map<int, string>, arr: Symbol,
                       prims: (string, string, seq<Datum>) -> Option<Datum>)
  {
    predicate Valid() {
      arr.num in builtins && builtins[arr.num] == "array" && arr.name == "array"
    }
  }

  predicate Reentrant(which: string) {
    which == "apply" || which == "map"
  }

  /** A builtin that does not re-enter the machine. `which` is the Go function, `name` the
      name it is called by: the constructors decide on the name. */
  function Prim<F>(host: Host, which: string, name: string, args: seq<Sexp<F>>): Option<Sexp<F>> {
    if which == "array" || which == "list" then
      if name == "array" then Some(Arr(args))
      else if name == "list" then Some(MakeList(args))
      else None
    else if which == "cons" then
      if |args| == 2 then Some(Pair(args[0], args[1])) else None
    else if forall i | 0 <= i < |args| :: IsData(args[i]) then
      match host.prims(which, name, RecastAll(args))
      case None => None
      case Some(d) => Some(Recast(d))
    else None
  }

  /** The argument list that `apply` passes on. */
  function ApplyArgs<F>(e: Sexp<F>): Option<seq<Sexp<F>>> {
    match e
    case Arr(es) => Some(es)
    case Pair(_, _) => ListToArray(e)
    case Null => Some([])
    case End => Some([])
    case Marker => Some([])
    case _ => None
  }
}
