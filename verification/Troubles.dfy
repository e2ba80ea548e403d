/** The errors that a run of generated code cannot raise: jumps out of the function, values
    taken from below, missing markers and scopes. */
module Troubles {
  import opened Sexps
  import opened Scoping
  import opened Builtins
  import opened Instructions
  import opened Machines

  /** `i` would take a value from below height `h`, or finds no marker or no scope. */
  predicate Short(i: Instr, h: nat, m: Machine) {
    match i
    case Branch(_, _) => |m.data| <= h
    case Pop => |m.data| <= h
    case Dup => |m.data| <= h
    case Put(_) => |m.data| <= h
    case Explode => |m.data| <= h
    case Call(_, n) => |m.data| < h + n
    case Dispatch(n) => |m.data| < h + n + 1
    case Return(fails) => !fails && (m.addrs == [] || m.saved == [])
    case RemoveScope => m.locals == []
    case Squash => MarkerBelow(h, m.data)
    case Vectorize => MarkerBelow(h, m.data)
    case _ => false
  }

  predicate MarkerBelow(h: nat, data: seq<Value>) {
    match ToMarker(data)
    case None => true
    case Some((_, below)) => |below| < h
  }

  /** A jump out of the function. */
  predicate Strays(i: Instr, m: Machine) {
    match i
    case Jump(l) => !(0 <= m.pc + l <= m.FunctionSize())
    case Goto(l) => !(0 <= l <= m.FunctionSize())
    case Branch(dir, l) =>
      m.data != [] && dir == IsTruthy(m.data[|m.data| - 1]) && !(0 <= m.pc + l <= m.FunctionSize())
    case _ => false
  }

  predicate Trouble(h: nat, m: Machine) {
    m.curfunc.user || !(0 <= m.pc < |m.curfunc.fun|) || Short(m.curfunc.fun[m.pc], h, m)
        || Strays(m.curfunc.fun[m.pc], m)
  }

  /** An instruction that neither calls nor returns fails for such a reason, or because a
      name is unbound, or because what is to be spliced is no list. */
  lemma PlainFails(i: Instr, m: Machine)
    requires !i.Call? && !i.Dispatch? && !i.Return?
    ensures Plain(i, m).None? <==>
            || Short(i, 0, m) || Strays(i, m)
            || (i.Get? && Lookup(m.glob, m.locals, i.sym.num).None?)
            || (i.Explode? && m.data != [] && !IsList(m.data[|m.data| - 1]))
  {
    hide LookupLocal, ToMarker, Capture, IsTruthy, IsList;
  }

  /** What a program can do wrong itself: an unbound name, a splice of what is no list, a
      failed assertion, a call of what is no function, a wrong number of arguments, or a
      builtin that refuses its arguments or runs a function that does one of these. */
  predicate OwnError(k: nat, m: Machine)
    requires !Trouble(0, m)
  {
    match m.curfunc.fun[m.pc]
    case Get(s) => Lookup(m.glob, m.locals, s.num).None?
    case Explode => !IsList(m.data[|m.data| - 1])
    case Return(fails) => fails
    case Call(s, n) =>
      if s.num in m.host.builtins then Refused(k, BuiltinFunction(m.host.builtins[s.num]), s.name, n, m)
      else
        var v := Lookup(m.glob, m.locals, s.num);
        v.None? || !v.value.Fun? || Refused(k, v.value.fn, s.name, n, m)
    case Dispatch(n) =>
      var v := m.data[|m.data| - 1];
      !v.Fun? || Refused(k, v.fn, v.fn.name, n, m.(data := m.data[..|m.data| - 1]))
    case _ => false
  }

  /** No function takes a negative number of arguments, so that the last case is empty for
      functions that were compiled. */
  predicate Refused(k: nat, f: Function, name: string, nargs: nat, m: Machine)
    requires nargs <= |m.data|
  {
    var n := |m.data| - nargs;
    if f.user then RunBuiltin(k, f.name, name, m.data[n..], Inside(f, m.data[..n], m)).None?
    else nargs < f.nargs || (nargs > f.nargs && (!f.varargs || nargs > |m.data| + f.nargs))
  }

  /** The machine that a builtin sees. */
  function Inside(f: Function, base: seq<Value>, m: Machine): Machine {
    m.(data := base, addrs := m.addrs + [Address(m.curfunc, m.pc + 1)], curfunc := f, pc := -1)
  }

  lemma CallRefused(k: nat, f: Function, name: string, nargs: nat, m: Machine)
    requires nargs <= |m.data|
    ensures Refused(k, f, name, nargs, m) <==>
            if f.user then CallUserFunction(k, f, name, nargs, m).None? else CallFunction(f, nargs, m).None?
  {
    hide RunBuiltin, PopAddr, MakeList;
  }

  /** Where there is no trouble, an instruction fails if and only if the program is wrong. */
  lemma FailsExactly(k: nat, m: Machine)
    requires !Trouble(0, m)
    ensures Exec(k, m).None? <==> OwnError(k, m)
  {
    hide LookupLocal, ToMarker, Capture, IsTruthy, IsList, CallUserFunction, CallFunction, Refused;
    match m.curfunc.fun[m.pc]
    case Call(s, n) =>
      if s.num in m.host.builtins {
        CallRefused(k, BuiltinFunction(m.host.builtins[s.num]), s.name, n, m);
      } else if Lookup(m.glob, m.locals, s.num).Some? && Lookup(m.glob, m.locals, s.num).value.Fun? {
        CallRefused(k, Lookup(m.glob, m.locals, s.num).value.fn, s.name, n, m);
      }
    case Dispatch(n) =>
      var v := m.data[|m.data| - 1];
      if v.Fun? {
        CallRefused(k, v.fn, v.fn.name, n, m.(data := m.data[..|m.data| - 1]));
      }
    case _ =>
  }

  /** No trouble in `m`, nor in anything that a builtin called there runs. */
  ghost predicate Smooth(k: nat, h: nat, m: Machine)
    decreases k, 6
  {
    !Trouble(h, m) &&
    match m.curfunc.fun[m.pc]
    case Call(s, n) =>
      if s.num in m.host.builtins then SmoothUser(k, BuiltinFunction(m.host.builtins[s.num]), n, m)
      else
        (match Lookup(m.glob, m.locals, s.num)
         case None => true
         case Some(v) => v.Fun? && v.fn.user ==> SmoothUser(k, v.fn, n, m))
    case Dispatch(n) =>
      m.data != [] &&
      (var v := m.data[|m.data| - 1];
       v.Fun? && v.fn.user ==> SmoothUser(k, v.fn, n, m.(data := m.data[..|m.data| - 1])))
    case _ => true
  }

  ghost predicate SmoothUser(k: nat, f: Function, nargs: nat, m: Machine)
    decreases k, 4
  {
    nargs <= |m.data| &&
    var n := |m.data| - nargs;
    SmoothBuiltin(k, f.name, m.data[n..], Inside(f, m.data[..n], m))
  }

  ghost predicate SmoothBuiltin(k: nat, which: string, args: seq<Value>, m: Machine)
    decreases k, 3
  {
    |args| == 2 && args[0].Fun? ==>
      && (which == "apply" && ApplyArgs(args[1]).Some? ==> SmoothApply(k, args[0].fn, ApplyArgs(args[1]).value, m))
      && (which == "map" && args[1].Arr? ==> SmoothMapArray(k, args[0].fn, args[1].elems, m))
      && (which == "map" && args[1].Pair? ==> SmoothMapList(k, args[0].fn, args[1], m))
  }

  ghost predicate SmoothMapArray(k: nat, f: Function, es: seq<Value>, m: Machine)
    decreases k, 2, |es|
  {
    es == [] ||
    (&& SmoothApply(k, f, es[..1], m)
     && (Apply(k, f, es[..1], m).Some? ==> SmoothMapArray(k, f, es[1..], Apply(k, f, es[..1], m).value.1)))
  }

  ghost predicate SmoothMapList(k: nat, f: Function, e: Value, m: Machine)
    decreases k, 2, Size(e)
  {
    e.Pair? ==>
      && SmoothApply(k, f, [e.head], m)
      && (Apply(k, f, [e.head], m).Some? ==> SmoothMapList(k, f, e.tail, Apply(k, f, [e.head], m).value.1))
  }

  ghost predicate SmoothApply(k: nat, f: Function, args: seq<Value>, m: Machine)
    decreases k, 1
  {
    k > 0 ==>
      if f.user then SmoothBuiltin(k - 1, f.name, args, m)
      else
        var c := m.(pc := -2).Pushed(args);
        k > 1 && CallFunction(f, |args|, c).Some? ==> SmoothRun(k - 2, |m.data|, CallFunction(f, |args|, c).value)
  }

  /** Every state that `Run` comes to before it is done. */
  ghost predicate SmoothRun(k: nat, h: nat, m: Machine)
    decreases k, 7
  {
    forall j: nat :: Steps(k, j, m).Some? && !Steps(k, j, m).value.IsDone() ==> Smooth(k, h, Steps(k, j, m).value)
  }
}
