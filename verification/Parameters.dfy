/** What the vectors of parameters and of bindings mean, and what a call makes of them: the
    compiled function binds each parameter to the argument in its own place of the vector,
    and the one after `&` to the list of the arguments that are left. */
module Parameters {
  import opened Sexps
  import opened Scoping
  import opened Instructions
  import opened Codegen
  import opened Machines
  import opened Evaluator
  import opened Simulation
  import opened Correctness

  // ---------- the vectors ----------

  /** The last parameter collects: a `&` stands before it. */
  predicate Collects(es: seq<Value>) {
    |es| >= 2 && es[|es| - 2].Sym? && es[|es| - 2].sym.name == "&"
  }

  /** A vector is a parameter list if and only if all of it are symbols. They are the
      parameters in their order, except a `&` in the last place but one. */
  lemma ParamsExact(es: seq<Value>)
    ensures ParseParams(es).Params? <==> forall i | 0 <= i < |es| :: es[i].Sym?
    ensures var p, n := ParseParams(es), |es|;
            p.Params? ==>
              && p.varargs == Collects(es)
              && (Collects(es) ==>
                    && p.nargs == n - 2 && |p.names| == n - 1 && p.names[n - 2] == es[n - 1].sym
                    && forall i | 0 <= i < n - 2 :: p.names[i] == es[i].sym)
              && (!Collects(es) ==>
                    p.nargs == n == |p.names| && forall i | 0 <= i < n :: p.names[i] == es[i].sym)
  {
  }

  /** A vector is a binding list if and only if it has an even number of elements and
      symbols in the even places. Each name goes with the expression after it. */
  lemma BindingsExact(es: seq<Value>)
    ensures ParseBindings(es).Bindings? <==> |es| % 2 == 0 && forall i | 0 <= i < |es| / 2 :: es[2 * i].Sym?
    ensures var b := ParseBindings(es);
            b.Bindings? ==>
              && |b.names| == |b.rights| == |es| / 2
              && forall i | 0 <= i < |es| / 2 :: b.names[i] == es[2 * i].sym && b.rights[i] == es[2 * i + 1]
  {
    BindingsWhen(es);
    if ParseBindings(es).Bindings? {
      BindingsPaired(es);
    }
  }

  lemma {:induction false} BindingsWhen(es: seq<Value>)
    ensures ParseBindings(es).Bindings? <==> |es| % 2 == 0 && forall i | 0 <= i < |es| / 2 :: es[2 * i].Sym?
    decreases |es|
  {
    if |es| >= 2 {
      var rest, n := es[2..], |es| / 2;
      BindingsWhen(rest);
      assert |rest| / 2 == n - 1;
      hide ParseBindings;
      if forall i | 0 <= i < n :: es[2 * i].Sym? {
        forall i | 0 <= i < n - 1 ensures rest[2 * i].Sym? {
          assert rest[2 * i] == es[2 * (i + 1)];
        }
        assert es[2 * 0].Sym?;
      } else {
        var i :| 0 <= i < n && !es[2 * i].Sym?;
        assert i > 0 ==> rest[2 * (i - 1)] == es[2 * i];
      }
    }
  }

  lemma {:induction false} BindingsPaired(es: seq<Value>)
    requires ParseBindings(es).Bindings?
    ensures var b := ParseBindings(es);
            && |b.names| == |b.rights| == |es| / 2
            && forall i | 0 <= i < |es| / 2 ::
                 es[2 * i].Sym? && b.names[i] == es[2 * i].sym && b.rights[i] == es[2 * i + 1]
    decreases |es|
  {
    if es != [] {
      var rest, n, b := es[2..], |es| / 2, ParseBindings(es);
      var r := ParseBindings(rest);
      BindingsPaired(rest);
      assert b.names == [es[0].sym] + r.names && b.rights == [es[1]] + r.rights && |rest| / 2 == n - 1;
      hide ParseBindings;
      forall i | 0 <= i < n ensures es[2 * i].Sym? && b.names[i] == es[2 * i].sym && b.rights[i] == es[2 * i + 1] {
        if i > 0 {
          assert rest[2 * (i - 1)] == es[2 * i] && rest[2 * (i - 1) + 1] == es[2 * i + 1];
        }
      }
    }
  }

  // ---------- what a function sees of its arguments ----------

  /** No parameter before `i` has the same name. */
  predicate FirstOfName(es: seq<Value>, i: nat)
    requires i < |es| && forall j | 0 <= j < |es| :: es[j].Sym?
  {
    forall j | 0 <= j < i && !(Collects(es) && j == |es| - 2) :: es[j].sym.num != es[i].sym.num
  }

  /** `frame` binds the parameters `es` to `args`, and nothing else. */
  ghost predicate Receives<T>(es: seq<Value>, args: seq<Sexp<T>>, frame: map<int, Sexp<T>>)
    requires forall j | 0 <= j < |es| :: es[j].Sym?
  {
    var n := |es|;
    && (Collects(es) ==>
          && n - 2 <= |args|
          && (FirstOfName(es, n - 1) ==>
                es[n - 1].sym.num in frame && frame[es[n - 1].sym.num] == MakeList(args[n - 2..])))
    && (!Collects(es) ==> |args| == n)
    && (forall i | 0 <= i < (if Collects(es) then n - 2 else n) && FirstOfName(es, i) ::
          es[i].sym.num in frame && frame[es[i].sym.num] == args[i])
    && (forall s | s in frame :: exists i | 0 <= i < n :: s == es[i].sym.num)
  }

  /** The values that belong to the names of the parameter list. */
  function Spread<T>(p: Params, args: seq<Sexp<T>>): seq<Sexp<T>>
    requires p.Params? && (if p.varargs then p.nargs <= |args| else p.nargs == |args|)
  {
    if p.varargs then args[..p.nargs] + [MakeList(args[p.nargs..])] else args
  }

  /** Where the parameter numbered `j` stands in the vector. */
  function Place(es: seq<Value>, j: nat): nat {
    if Collects(es) && j == |es| - 2 then |es| - 1 else j
  }

  lemma BoundFirst<T>(es: seq<Value>, names: seq<Symbol>, vals: seq<Sexp<T>>, i: nat)
    requires |names| == |vals| == (if Collects(es) then |es| - 1 else |es|) && i < |names|
    requires forall j | 0 <= j < |names| :: es[Place(es, j)].Sym? && names[j] == es[Place(es, j)].sym
    requires (forall j | 0 <= j < |es| :: es[j].Sym?) && FirstOfName(es, Place(es, i))
    ensures names[i].num in BindAll(map[], names, vals) && BindAll(map[], names, vals)[names[i].num] == vals[i]
  {
    forall j | 0 <= j < i ensures names[j].num != names[i].num {
      assert names[j] == es[j].sym;
    }
    BindAllAt(map[], names, vals, i);
  }

  lemma SpreadReceives<T>(es: seq<Value>, args: seq<Sexp<T>>)
    requires ParseParams(es).Params?
    requires var p := ParseParams(es); if p.varargs then p.nargs <= |args| else p.nargs == |args|
    ensures forall j | 0 <= j < |es| :: es[j].Sym?
    ensures var p := ParseParams(es);
            |Spread(p, args)| == |p.names| && Receives(es, args, BindAll(map[], p.names, Spread(p, args)))
  {
    ParamsExact(es);
    hide ParseParams, BindAll, FirstOfName;
    var p, n := ParseParams(es), |es|;
    var vals := Spread(p, args);
    var frame := BindAll(map[], p.names, vals);
    forall i | 0 <= i < (if Collects(es) then n - 2 else n) && FirstOfName(es, i)
      ensures es[i].sym.num in frame && frame[es[i].sym.num] == args[i]
    {
      BoundFirst(es, p.names, vals, i);
    }
    if Collects(es) && FirstOfName(es, n - 1) {
      BoundFirst(es, p.names, vals, n - 2);
    }
    BindAllKeys(map[], p.names, vals);
    forall s | s in frame ensures exists i | 0 <= i < n :: s == es[i].sym.num {
      var j :| 0 <= j < |p.names| && p.names[j].num == s;
      assert es[if Collects(es) && j == n - 2 then n - 1 else j].sym.num == s;
    }
  }

  /** A call is accepted if and only if the number of arguments fits the parameter vector. */
  lemma CallExact(a: Symbol, name: string, es: seq<Value>, body: seq<Value>, close: Option<seq<Frame>>, m: Machine,
                  base: seq<Value>, args: seq<Value>)
    requires BuildFun(a, name, es, body).err == Ok && m.data == base + args
    ensures var f := BuildFun(a, name, es, body).fn.(close := close);
            CallFunction(f, |args|, m).Some? <==> if Collects(es) then |es| - 2 <= |args| else |args| == |es|
  {
    hide GenBegin, MakeList, ParseParams;
    ParamsExact(es);
  }

  lemma CalledWith(a: Symbol, name: string, es: seq<Value>, body: seq<Value>, close: Option<seq<Frame>>, m: Machine,
                   base: seq<Value>, args: seq<Value>)
    requires BuildFun(a, name, es, body).err == Ok && m.data == base + args
    requires var f := BuildFun(a, name, es, body).fn.(close := close); CallFunction(f, |args|, m).Some?
    ensures var p, f := ParseParams(es), BuildFun(a, name, es, body).fn.(close := close);
            var m1 := CallFunction(f, |args|, m).value;
            && p.Params? && (if p.varargs then p.nargs <= |args| else p.nargs == |args|)
            && m1.data == base + Spread(p, args) && CodeAt(m1, 0, Puts(p.names)) && m1.pc == 0 && m1.curfunc == f
            && m1.glob == m.glob && m1.locals == (if close.Some? then close.value else []) + [map[]]
  {
    hide GenBegin, ParseParams, MakeList;
    var p, f := ParseParams(es), BuildFun(a, name, es, body).fn.(close := close);
    if p.varargs {
      WrangleMatch(base, args, p.nargs);
    }
    assert f.fun[0..|p.names|] == Puts(p.names);
  }

  /** A call of a compiled function. After the instructions that its parameters compile to,
      the arguments are off the stack and the function's own scope, above what it captured,
      binds each parameter to the argument in its own place, the first one of a name
      counting, and the one that collects to the list of those left. */
  lemma ArgumentsReceived(a: Symbol, name: string, es: seq<Value>, body: seq<Value>, close: Option<seq<Frame>>,
                          m: Machine, base: seq<Value>, args: seq<Value>)
    returns (m': Machine, frame: Frame)
    requires BuildFun(a, name, es, body).err == Ok && m.data == base + args
    requires var f := BuildFun(a, name, es, body).fn.(close := close); CallFunction(f, |args|, m).Some?
    ensures var f := BuildFun(a, name, es, body).fn.(close := close);
            Reaches(CallFunction(f, |args|, m).value, m') && m'.curfunc == f && m'.data == base
            && m'.locals == (if close.Some? then close.value else []) + [frame] && m'.glob == m.glob
    ensures (forall j | 0 <= j < |es| :: es[j].Sym?) && Receives(es, args, frame)
  {
    CalledWith(a, name, es, body, close, m, base, args);
    hide BuildFun, CallFunction, ParseParams, Reaches, CodeAt, Receives, Spread, Puts;
    var f := BuildFun(a, name, es, body).fn.(close := close);
    m', frame := Bound(CallFunction(f, |args|, m).value, if close.Some? then close.value else [], base, es, args);
  }

  /** What the compiled parameters do to the machine that a call leaves. */
  lemma Bound(m: Machine, below: seq<Frame>, base: seq<Value>, es: seq<Value>, args: seq<Value>)
    returns (m': Machine, frame: Frame)
    requires var p := ParseParams(es);
             && p.Params? && (if p.varargs then p.nargs <= |args| else p.nargs == |args|)
             && m.data == base + Spread(p, args) && CodeAt(m, 0, Puts(p.names)) && m.pc == 0
             && m.locals == below + [map[]]
    ensures Reaches(m, m') && m'.curfunc == m.curfunc && m'.data == base && m'.locals == below + [frame]
            && m'.glob == m.glob
    ensures (forall j | 0 <= j < |es| :: es[j].Sym?) && Receives(es, args, frame)
  {
    hide Reaches, ParseParams, Steps, MakeList, CodeAt, Receives, Spread, Puts, BindAll;
    var p := ParseParams(es);
    SpreadReceives(es, args);
    frame := BindAll(map[], p.names, Spread(p, args));
    Prologue(m, base, below, map[], p.names, Spread(p, args));
    m' := m.(pc := m.pc + |p.names|, data := base, locals := below + [frame]);
  }

  /** The same of the language: an application evaluates the body over the captured
      bindings and a scope that receives the arguments. */
  lemma ApplicationReceives(fuel: nat, c: Closure, name: string, args: seq<V>, sc: Scopes) returns (frame: EFrame)
    requires c.Closure? && ApplyNamed(fuel, c, name, args, sc).Some?
    ensures fuel > 0 && EvalBegin(fuel - 1, c.body, sc.(locals := [c.env, frame])).Val?
    ensures ApplyNamed(fuel, c, name, args, sc).value ==
            EvalBegin(fuel - 1, c.body, sc.(locals := [c.env, frame])).v
    ensures (forall j | 0 <= j < |c.params| :: c.params[j].Sym?) && Receives(c.params, args, frame)
  {
    hide EvalBegin, ParseParams, BindAll, Receives, MakeList;
    var p := ParseParams(c.params);
    SpreadReceives(c.params, args);
    assert ParamValues(p, args) == Some(Spread(p, args));
    frame := BindAll(map[], p.names, Spread(p, args));
  }
}
