/** What single instructions and builtins do, said of the values themselves. */
module Meanings {
  import opened Sexps
  import opened Builtins
  import opened Instructions
  import opened Machines
  import opened Evaluator

  // ---------- branches ----------

  /** The values that count as false. */
  predicate Falsy<F>(e: Sexp<F>) {
    match e
    case Bool(b) => !b
    case Int(i) => i == 0
    case Char(c) => c == 0
    case Null => true
    case _ => false
  }

  lemma FalsyExact<F>(e: Sexp<F>)
    ensures Falsy(e) <==> e == Bool(false) || e == Int(0) || e == Char(0) || e == Null
    ensures Falsy(e) <==> !IsTruthy(e)
  {
    TruthExact(e);
  }

  /** A branch takes the value on top. The one for false jumps if and only if that is false,
      a zero or null; the one for true, if and only if it is none of these. */
  lemma BranchExact(k: nat, m: Machine, below: seq<Value>, v: Value, l: int)
    requires !m.curfunc.user && 0 <= m.pc < |m.curfunc.fun| && m.data == below + [v]
    ensures var falls := v == Bool(false) || v == Int(0) || v == Char(0) || v == Null;
            var jumped := if 0 <= m.pc + l <= |m.curfunc.fun| then Some(m.(pc := m.pc + l, data := below)) else None;
            var passed := Some(m.(pc := m.pc + 1, data := below));
            && (m.curfunc.fun[m.pc] == Branch(false, l) ==> Exec(k, m) == if falls then jumped else passed)
            && (m.curfunc.fun[m.pc] == Branch(true, l) ==> Exec(k, m) == if falls then passed else jumped)
  {
    TruthExact(v);
    hide IsTruthy;
    assert m.data[..|m.data| - 1] == below;
  }

  // ---------- apply ----------

  /** `apply` passes on the elements of an array or of a proper list in their order, and
      nothing for a sentinel. */
  lemma ApplyExact(k: nat, name: string, f: Function, es: seq<Value>, m: Machine)
    ensures RunBuiltin(k, "apply", name, [Fun(f), Arr(es)], m) == Apply(k, f, es, m)
    ensures RunBuiltin(k, "apply", name, [Fun(f), MakeList(es)], m) == Apply(k, f, es, m)
    ensures forall e: Value | e in {Null, End, Marker} ::
              RunBuiltin(k, "apply", name, [Fun(f), e], m) == Apply(k, f, [], m)
  {
    hide Apply;
    SpreadExact(es);
    hide MakeList;
  }

  /** The same of the language. */
  lemma ApplyMeans(fuel: nat, name: string, f: Closure, es: seq<V>, sc: Scopes)
    ensures EvalBuiltin(fuel, "apply", name, [Fun(f), Arr(es)], sc) == ApplyValue(fuel, f, es, sc)
    ensures EvalBuiltin(fuel, "apply", name, [Fun(f), MakeList(es)], sc) == ApplyValue(fuel, f, es, sc)
    ensures forall e: V | e in {Null, End, Marker} ::
              EvalBuiltin(fuel, "apply", name, [Fun(f), e], sc) == ApplyValue(fuel, f, [], sc)
  {
    hide ApplyValue;
    SpreadExact(es);
    hide MakeList;
  }

  lemma SpreadExact<F>(es: seq<Sexp<F>>)
    ensures ApplyArgs(Arr(es)) == Some(es) && ApplyArgs(MakeList(es)) == Some(es)
  {
    MakeListElems(es);
  }

  /** Everything else it refuses: what is no array, no chain of pairs that ends in null and
      no sentinel. */
  lemma ApplyRefuses(k: nat, name: string, f: Function, e: Value, m: Machine, fuel: nat, c: Closure, v: V, sc: Scopes)
    requires !e.Arr? && !e.Null? && !e.End? && !e.Marker? && forall n: nat :: Tails(e, n) != Null
    requires !v.Arr? && !v.Null? && !v.End? && !v.Marker? && forall n: nat :: Tails(v, n) != Null
    ensures RunBuiltin(k, "apply", name, [Fun(f), e], m) == None
    ensures EvalBuiltin(fuel, "apply", name, [Fun(c), v], sc) == None
  {
    ListExact(e);
    ListExact(v);
  }

  // ---------- map ----------

  /** `map` gives, in its place, what the function gives each element: an array for an array
      and a list for a list. */
  lemma MapMeans(fuel: nat, name: string, f: Closure, es: seq<V>, sc: Scopes, vs: seq<V>)
    ensures EvalBuiltin(fuel, "map", name, [Fun(f), Arr(es)], sc) == Some(Arr(vs)) <==> Mapped(fuel, f, es, sc, vs)
    ensures es != [] ==>
              (EvalBuiltin(fuel, "map", name, [Fun(f), MakeList(es)], sc) == Some(MakeList(vs))
               <==> Mapped(fuel, f, es, sc, vs))
  {
    MappedExact(fuel, f, es, sc, vs);
    MakeListElems(es);
    MakeListElems(vs);
    var r := MapValues(fuel, f, es, sc);
    if r.Some? {
      MakeListElems(r.value);
    }
    hide MapValues, Mapped;
    assert es != [] ==> MakeList(es).Pair?;
  }

  ghost predicate Mapped(fuel: nat, f: Closure, es: seq<V>, sc: Scopes, vs: seq<V>) {
    |vs| == |es| && forall i | 0 <= i < |es| :: ApplyValue(fuel, f, [es[i]], sc) == Some(vs[i])
  }

  lemma {:induction false} MappedExact(fuel: nat, f: Closure, es: seq<V>, sc: Scopes, vs: seq<V>)
    ensures MapValues(fuel, f, es, sc) == Some(vs) <==> Mapped(fuel, f, es, sc, vs)
    decreases |es|
  {
    hide ApplyValue;
    if es != [] {
      assert es[..1] == [es[0]];
      if vs != [] {
        MappedExact(fuel, f, es[1..], sc, vs[1..]);
        assert vs == [vs[0]] + vs[1..];
        assert forall i | 0 < i < |es| :: es[i] == es[1..][i - 1];
        assert forall i | 0 < i < |vs| :: vs[i] == vs[1..][i - 1];
        MappedParts(fuel, f, es, sc, vs);
      }
    }
  }

  lemma MappedParts(fuel: nat, f: Closure, es: seq<V>, sc: Scopes, vs: seq<V>)
    requires es != [] && vs != []
    ensures Mapped(fuel, f, es, sc, vs) <==>
            ApplyValue(fuel, f, [es[0]], sc) == Some(vs[0]) && Mapped(fuel, f, es[1..], sc, vs[1..])
  {
    hide ApplyValue;
    if ApplyValue(fuel, f, [es[0]], sc) == Some(vs[0]) && Mapped(fuel, f, es[1..], sc, vs[1..]) {
      forall i | 0 <= i < |es| ensures ApplyValue(fuel, f, [es[i]], sc) == Some(vs[i]) {
        assert i > 0 ==> es[i] == es[1..][i - 1] && vs[i] == vs[1..][i - 1];
      }
    }
    if Mapped(fuel, f, es, sc, vs) {
      forall i | 0 <= i < |es| - 1 ensures ApplyValue(fuel, f, [es[1..][i]], sc) == Some(vs[1..][i]) {
        assert es[1..][i] == es[i + 1] && vs[1..][i] == vs[i + 1];
      }
    }
  }

  // ---------- builtins that run nothing ----------

  /** The builtins that make lists, arrays and pairs, whatever their arguments. The
      constructors go by the name they are called by. */
  lemma ConstructorsExact<F>(host: Host, name: string, args: seq<Sexp<F>>)
    ensures Prim(host, "array", name, args) == Prim(host, "list", name, args)
    ensures name == "array" ==> Prim(host, "array", name, args) == Some(Arr(args))
    ensures name == "list" ==> Prim(host, "list", name, args) == Some(MakeList(args))
    ensures name != "array" && name != "list" ==> Prim(host, "list", name, args) == None
    ensures forall x, y :: args == [x, y] ==> Prim(host, "cons", name, args) == Some(Pair(x, y))
    ensures |args| != 2 ==> Prim(host, "cons", name, args) == None
  {
  }

  /** Every other builtin is the host's function of its arguments, each in its place, and
      refuses functions. */
  lemma OthersExact<F>(host: Host, which: string, name: string, args: seq<Sexp<F>>, data: seq<Datum>)
    requires which !in {"array", "list", "cons"}
    ensures |data| == |args| && (forall i | 0 <= i < |args| :: IsData(args[i]) && Recast<F, ()>(args[i]) == data[i]) ==>
              match host.prims(which, name, data)
              case None => Prim(host, which, name, args) == None
              case Some(d) => Prim(host, which, name, args) == Some(Recast(d))
    ensures (exists i | 0 <= i < |args| :: args[i].Fun?) ==> Prim(host, which, name, args) == None
  {
    if |data| == |args| && forall i | 0 <= i < |args| :: IsData(args[i]) && Recast<F, ()>(args[i]) == data[i] {
      assert RecastAll<F, ()>(args) == data;
    }
  }

  // ---------- a new environment ----------

  /** A new environment binds the number of every builtin to that builtin and nothing else;
      its stacks are empty and its program has no code yet. */
  lemma NewExact(host: Host)
    ensures var m := NewMachine(host);
            && m.glob.Keys == host.builtins.Keys
            && (forall s | s in host.builtins ::
                  m.glob[s].Fun? && m.glob[s].fn.user && m.glob[s].fn.name == host.builtins[s])
            && m.locals == [] && m.data == [] && m.addrs == [] && m.saved == []
            && m.curfunc.name == "__main" && !m.curfunc.user && m.curfunc.fun == [] && m.pc == 0
  {
    assert BuiltinFrame(host).Keys == host.builtins.Keys;
  }
}
