/** What the evaluator's values look like inside the machine: data stays as it is, and a
    function becomes its compiled code with the bindings that its code names itself. */
module Translation {
  import opened Sexps
  import opened Scoping
  import opened Builtins
  import opened Instructions
  import opened Codegen
  import opened Evaluator

  function TrVal(a: Symbol, v: V): Value {
    match v
    case Null => Null
    case End => End
    case Marker => Marker
    case Int(i) => Int(i)
    case Bool(b) => Bool(b)
    case Char(c) => Char(c)
    case Str(s) => Str(s)
    case Sym(s) => Sym(s)
    case Pair(h, t) => Pair(TrVal(a, h), TrVal(a, t))
    case Arr(es) => Arr(TrAll(a, es))
    case Fun(f) => Fun(TrFn(a, f))
  }

  function TrAll(a: Symbol, vs: seq<V>): seq<Value> {
    seq(|vs|, i requires 0 <= i < |vs| => TrVal(a, vs[i]))
  }

  function TrFn(a: Symbol, f: Closure): Function {
    match f
    case Builtin(which) => BuiltinFunction(which)
    case Closure(name, num, params, body, env) =>
      var fn := BuildFun(a, name, params, body).fn;
      if num.Some? then fn
      else fn.(close := Some([map s | s in env && s in Mentions(fn.fun) :: TrVal(a, env[s])]))
  }

  function TrFrame(a: Symbol, f: EFrame): Frame {
    map s | s in f :: TrVal(a, f[s])
  }

  function TrFrames(a: Symbol, fs: seq<EFrame>): seq<Frame> {
    seq(|fs|, i requires 0 <= i < |fs| => TrFrame(a, fs[i]))
  }

  function TrOption(a: Symbol, v: Option<V>): Option<Value> {
    if v.Some? then Some(TrVal(a, v.value)) else None
  }

  // ---------- the translation commutes with what programs do to values ----------

  lemma {:induction false} TrRecast<F>(a: Symbol, e: Sexp<F>)
    ensures TrVal(a, Recast(e)) == Recast(e)
  {
    match e
    case Pair(h, t) =>
      TrRecast(a, h);
      TrRecast(a, t);
    case Arr(es) =>
      forall i | 0 <= i < |es| ensures TrVal(a, Recast(es[i])) == Recast(es[i]) {
        TrRecast(a, es[i]);
      }
      assert TrAll(a, RecastAll(es)) == RecastAll<F, Function>(es);
    case _ =>
  }

  lemma {:induction false} RecastData(e: Value)
    requires IsData(e)
    ensures Recast<Function, Function>(e) == e
  {
    match e
    case Pair(h, t) =>
      RecastData(h);
      RecastData(t);
    case Arr(es) =>
      forall i | 0 <= i < |es| ensures Recast<Function, Function>(es[i]) == es[i] {
        RecastData(es[i]);
      }
      assert RecastAll<Function, Function>(es) == es;
    case _ =>
  }

  /** A source constant is its own translation. */
  lemma TrConstant(a: Symbol, e: Value)
    requires IsData(e)
    ensures TrVal(a, Recast(e)) == e
  {
    TrRecast(a, e);
    RecastData(e);
  }

  lemma {:induction false} TrData(a: Symbol, v: V)
    ensures IsData(TrVal(a, v)) == IsData(v)
    ensures Recast<Function, ()>(TrVal(a, v)) == Recast<Closure, ()>(v)
  {
    match v
    case Pair(h, t) =>
      TrData(a, h);
      TrData(a, t);
    case Arr(es) =>
      forall i | 0 <= i < |es|
        ensures IsData(TrVal(a, es[i])) == IsData(es[i])
                && Recast<Function, ()>(TrVal(a, es[i])) == Recast<Closure, ()>(es[i])
      {
        TrData(a, es[i]);
      }
      assert forall i | 0 <= i < |es| :: TrAll(a, es)[i] == TrVal(a, es[i]);
      assert RecastAll<Function, ()>(TrAll(a, es)) == RecastAll<Closure, ()>(es);
    case _ =>
  }

  lemma TrTruthy(a: Symbol, v: V)
    ensures IsTruthy(TrVal(a, v)) == IsTruthy(v)
  {
  }

  lemma TrAppend(a: Symbol, vs: seq<V>, ws: seq<V>)
    ensures TrAll(a, vs + ws) == TrAll(a, vs) + TrAll(a, ws)
  {
  }

  lemma {:induction false} TrList(a: Symbol, v: V)
    ensures IsList(TrVal(a, v)) == IsList(v)
    ensures IsList(v) ==> Elems(TrVal(a, v)) == TrAll(a, Elems(v))
  {
    if v.Pair? {
      TrList(a, v.tail);
      if IsList(v) {
        TrAppend(a, [v.head], Elems(v.tail));
        assert TrAll(a, [v.head]) == [TrVal(a, v.head)];
      }
    }
  }

  lemma {:induction false} TrMakeList(a: Symbol, vs: seq<V>)
    ensures TrVal(a, MakeList(vs)) == MakeList(TrAll(a, vs))
  {
    if vs != [] {
      TrMakeList(a, vs[1..]);
      assert TrAll(a, vs)[1..] == TrAll(a, vs[1..]);
    }
  }

  /** Builtins see the translated arguments and return the translated result. */
  lemma TrPrim(a: Symbol, host: Host, which: string, name: string, args: seq<V>)
    requires Prim(host, which, name, args).Some?
    ensures Prim(host, which, name, TrAll(a, args)) == Some(TrVal(a, Prim(host, which, name, args).value))
  {
    if which == "array" || which == "list" {
      TrMakeList(a, args);
    } else if which != "cons" {
      var targs := TrAll(a, args);
      forall i | 0 <= i < |args|
        ensures IsData(targs[i]) && Recast<Function, ()>(targs[i]) == Recast<Closure, ()>(args[i])
      {
        TrData(a, args[i]);
      }
      assert RecastAll<Function, ()>(targs) == RecastAll<Closure, ()>(args);
      var d := host.prims(which, name, RecastAll<Closure, ()>(args)).value;
      TrRecast(a, d);
    }
  }

  // ---------- scopes ----------

  lemma {:induction false} TrLookupLocal(a: Symbol, fs: seq<EFrame>, s: int)
    ensures LookupLocal(TrFrames(a, fs), s) == TrOption(a, LookupLocal(fs, s))
  {
    if fs != [] {
      TrLookupLocal(a, fs[..|fs| - 1], s);
      assert TrFrames(a, fs)[..|fs| - 1] == TrFrames(a, fs[..|fs| - 1]);
    }
  }

  lemma {:induction false} TrBindAll(a: Symbol, f: EFrame, names: seq<Symbol>, vs: seq<V>)
    requires |names| == |vs|
    ensures BindAll(TrFrame(a, f), names, TrAll(a, vs)) == TrFrame(a, BindAll(f, names, vs))
    decreases |names|
  {
    if names != [] {
      var n := |names| - 1;
      assert TrFrame(a, f[names[n].num := vs[n]]) == TrFrame(a, f)[names[n].num := TrVal(a, vs[n])];
      assert TrAll(a, vs)[..n] == TrAll(a, vs[..n]);
      TrBindAll(a, f[names[n].num := vs[n]], names[..n], vs[..n]);
    }
  }
}
