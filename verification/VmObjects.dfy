/** The virtual machine as the object of vm.go and environment.go: array-backed data and
    address stacks, and fields that each instruction updates. Every method refines the
    function of module Machines of the same name; `k` is the bound on nested runs. */
module VmObjects {
  import opened Sexps
  import opened Instructions
  import opened Scoping
  import opened Builtins
  import opened Stacks
  import opened Symbols
  import opened GeneratorObjects
  import Parsing
  import ReaderObjects
  import Loading
  import M = Machines

  // ---------- listutils.go ----------

  method ListElements(e: Value) returns (arr: Option<seq<Value>>)
    ensures arr == ListToArray(e)
  {
    if !IsList(e) {
      return None;
    }
    var es: seq<Value>, expr := [], e;
    while expr != Null
      invariant IsList(expr) && es + Elems(expr) == Elems(e)
      decreases expr
    {
      assert es + ([expr.head] + Elems(expr.tail)) == es + [expr.head] + Elems(expr.tail);
      es := es + [expr.head];
      expr := expr.tail;
    }
    assert es + [] == es;
    arr := Some(es);
  }

  // ---------- what the loops over the top of the stack find ----------

  lemma ToMarkerRound(data: seq<Value>)
    requires data != []
    ensures var n := |data| - 1;
            M.ToMarker(data) ==
            if data[n].Marker? then Some(([], data[..n]))
            else match M.ToMarker(data[..n])
                 case None => None
                 case Some((above, below)) => Some((above + [data[n]], below))
  {
  }

  /** The result of the whole loop, when `acc` has been popped. */
  function Gathered(r: Option<(seq<Value>, seq<Value>)>, acc: seq<Value>): Option<(seq<Value>, seq<Value>)> {
    match r
    case None => None
    case Some((above, below)) => Some((above + acc, below))
  }

  lemma NoMarker()
    ensures M.ToMarker([]) == None
  {
  }

  lemma GatheredNothing(r: Option<(seq<Value>, seq<Value>)>)
    ensures Gathered(r, []) == r
  {
    if r.Some? {
      assert r.value.0 + [] == r.value.0;
    }
  }

  lemma GatheredRound(r: Option<(seq<Value>, seq<Value>)>, v: Value, acc: seq<Value>)
    ensures Gathered(Gathered(r, [v]), acc) == Gathered(r, [v] + acc)
  {
    if r.Some? {
      assert r.value.0 + [v] + acc == r.value.0 + ([v] + acc);
    }
  }

  lemma CaptureRound(code: seq<Instr>, i: nat, locals: seq<Frame>)
    requires i < |code|
    ensures Mentions(code[..i + 1]) == Mentions(code[..i]) + InstrMentions(code[i])
  {
    var more, less := Mentions(code[..i + 1]), Mentions(code[..i]);
    forall s | s in less + InstrMentions(code[i]) ensures s in more {
      if s in less {
        var j :| 0 <= j < i && s in InstrMentions(code[..i][j]);
        assert code[..i + 1][j] == code[..i][j];
      } else {
        assert code[..i + 1][i] == code[i];
      }
    }
    forall s | s in more ensures s in less + InstrMentions(code[i]) {
      var j :| 0 <= j < i + 1 && s in InstrMentions(code[..i + 1][j]);
      if j < i {
        assert code[..i][j] == code[..i + 1][j];
      }
    }
  }

  /** `captured` with what `s` is bound to in the local scopes, if anything. */
  function Captured(captured: Frame, s: int, locals: seq<Frame>): Frame {
    match LookupLocal(locals, s)
    case None => captured
    case Some(v) => captured[s := v]
  }

  lemma NothingCaptured(code: seq<Instr>, locals: seq<Frame>)
    ensures M.Capture(code[..0], locals) == map[]
  {
    assert Mentions(code[..0]) == {};
  }

  lemma CaptureMore(code: seq<Instr>, i: nat, locals: seq<Frame>)
    requires i < |code|
    ensures InstrMentions(code[i]) == {} ==> M.Capture(code[..i + 1], locals) == M.Capture(code[..i], locals)
    ensures forall s | InstrMentions(code[i]) == {s} ::
              M.Capture(code[..i + 1], locals) == Captured(M.Capture(code[..i], locals), s, locals)
  {
    CaptureRound(code, i, locals);
    hide LookupLocal, Mentions, InstrMentions;
  }

  /** The machine while a builtin runs. */
  function InsideBuiltin(f: Function, nargs: nat, m: M.Machine): M.Result {
    var n := |m.data| - nargs;
    if n < 0 then None
    else Some(m.(data := m.data[..n], addrs := m.addrs + [M.Address(m.curfunc, m.pc + 1)], curfunc := f, pc := -1))
  }

  /** The machine after a builtin. */
  function AfterBuiltin(r: Option<(Value, M.Machine)>): M.Result {
    match r
    case None => None
    case Some((v, m)) => Some(M.PopAddr(m.Pushed([v])))
  }

  lemma BuiltinCall(k: nat, f: Function, name: string, nargs: nat, m: M.Machine)
    ensures M.CallUserFunction(k, f, name, nargs, m) ==
            match InsideBuiltin(f, nargs, m)
            case None => None
            case Some(inside) => AfterBuiltin(M.RunBuiltin(k, f.name, name, m.data[|m.data| - nargs..], inside))
  {
    hide M.RunBuiltin, M.PopAddr;
  }

  /** The values mapped so far before those of the rest of an array. */
  function Prepend(vs: seq<Value>, r: Option<(seq<Value>, M.Machine)>): Option<(seq<Value>, M.Machine)> {
    match r
    case None => None
    case Some((ws, m)) => Some((vs + ws, m))
  }

  lemma PrependNothing(r: Option<(seq<Value>, M.Machine)>)
    ensures Prepend([], r) == r
  {
    if r.Some? {
      assert [] + r.value.0 == r.value.0;
    }
  }

  lemma MapArrayRound(k: nat, f: Function, es: seq<Value>, i: nat, m: M.Machine, vs: seq<Value>)
    requires i < |es|
    ensures Prepend(vs, M.MapArray(k, f, es[i..], m)) ==
            match M.Apply(k, f, es[i..i + 1], m)
            case None => None
            case Some((v, m')) => Prepend(vs + [v], M.MapArray(k, f, es[i + 1..], m'))
  {
    hide M.Apply;
    assert es[i..][..1] == es[i..i + 1] && es[i..][1..] == es[i + 1..];
    match M.Apply(k, f, es[i..i + 1], m)
    case None =>
    case Some((v, m')) =>
      var r := M.MapArray(k, f, es[i + 1..], m');
      if r.Some? {
        assert vs + ([v] + r.value.0) == vs + [v] + r.value.0;
      }
  }

  lemma MapArrayDone(k: nat, f: Function, es: seq<Value>, m: M.Machine, vs: seq<Value>)
    ensures Prepend(vs, M.MapArray(k, f, es[|es|..], m)) == Some((vs, m))
  {
    assert vs + [] == vs;
  }

  /** What one step comes to: the machine goes on, or it is done and gives up its value. */
  datatype Stepped = Fails | Goes(m: M.Machine) | Ends(value: Value, m: M.Machine)

  /** `Finish`: the value on top of the stack. */
  function FinishOf(m: M.Machine): Stepped {
    if m.data == [] then Fails
    else Ends(m.data[|m.data| - 1], m.(data := m.data[..|m.data| - 1]))
  }

  function StepOf(k: nat, m: M.Machine): Stepped {
    if m.IsDone() then FinishOf(m)
    else
      match M.Exec(k, m)
      case None => Fails
      case Some(m') => if m'.IsDone() then FinishOf(m') else Goes(m')
  }

  lemma RunRound(k: nat, m: M.Machine)
    requires k > 0 && !m.IsDone()
    ensures M.Run(k, m) ==
            match StepOf(k - 1, m)
            case Fails => None
            case Goes(m') => M.Run(k - 1, m')
            case Ends(v, m') => Some((v, m'))
  {
    hide M.Exec;
  }

  lemma StepGoes(k: nat, m: M.Machine)
    ensures StepOf(k, m).Goes? ==> !StepOf(k, m).m.IsDone()
  {
    hide M.Exec;
  }

  lemma RunDone(k: nat, m: M.Machine)
    ensures m.IsDone() ==> M.Run(k, m) == None
  {
  }

  lemma RunOut(m: M.Machine)
    ensures M.Run(0, m) == None
  {
  }

  class Glisp {
    const host: Host
    const datastack: Stack<Value>
    const addrstack: Stack<M.Address>
    var glob: Frame
    var locals: seq<Frame>
    var saved: seq<seq<Frame>>
    var curfunc: Function
    var mainfunc: Function
    var pc: int

    ghost function Repr(): set<object>
      reads this, datastack, addrstack
    {
      {this, datastack, datastack.elements, addrstack, addrstack.elements}
    }

    ghost predicate Valid()
      reads this, datastack, addrstack
    {
      && datastack.Valid() && addrstack.Valid()
      && datastack as object != addrstack as object
      && datastack.elements as object != addrstack.elements as object
    }

    ghost function Model(): M.Machine
      reads this, datastack, datastack.elements, addrstack, addrstack.elements
      requires Valid()
    {
      M.Machine(host, glob, locals, datastack.Contents(), addrstack.Contents(), saved, curfunc, pc)
    }

    constructor (host: Host)
      ensures Valid() && fresh(Repr()) && this.host == host
      ensures Model() == M.NewMachine(host)
      ensures mainfunc == curfunc
    {
      this.host := host;
      datastack := new Stack(100);
      addrstack := new Stack(25);
      glob, locals, saved := map s | s in host.builtins :: Fun(BuiltinFunction(host.builtins[s])), [], [];
      mainfunc := Function("__main", false, 0, false, [], None);
      curfunc := Function("__main", false, 0, false, [], None);
      pc := 0;
    }

    /** The machine moved to `r`, or failed as `r` did. */
    twostate predicate Becomes(new r: M.Result, ok: bool)
      requires old(Valid())
      reads this, datastack, datastack.elements, addrstack, addrstack.elements
    {
      && Valid() && fresh(Repr() - old(Repr())) && mainfunc == old(mainfunc)
      && ok == r.Some? && (ok ==> Model() == r.value)
    }

    method CurrentFunctionSize() returns (n: int)
      requires Valid()
      ensures n == Model().FunctionSize()
    {
      n := if curfunc.user then 0 else |curfunc.fun|;
    }

    method IsDone() returns (b: bool)
      requires Valid()
      ensures b <==> Model().IsDone()
    {
      var n := CurrentFunctionSize();
      b := pc == -1 || pc == n;
    }

    // ---------- scopes.go ----------

    /** The search from the innermost local scope outwards. */
    method LookupSymbolNonGlobal(sym: Symbol) returns (r: Option<Value>)
      ensures r == LookupLocal(locals, sym.num)
    {
      var i := |locals| - 1;
      assert locals[..|locals|] == locals;
      while i >= 0
        invariant -1 <= i < |locals|
        invariant LookupLocal(locals, sym.num) == LookupLocal(locals[..i + 1], sym.num)
      {
        assert locals[..i + 1][..i] == locals[..i];
        if sym.num in locals[i] {
          return Some(locals[i][sym.num]);
        }
        i := i - 1;
      }
      r := None;
    }

    method LookupSymbol(sym: Symbol) returns (r: Option<Value>)
      ensures r == Lookup(glob, locals, sym.num)
    {
      r := LookupSymbolNonGlobal(sym);
      if r.None? && sym.num in glob {
        r := Some(glob[sym.num]);
      }
    }

    method BindSymbol(sym: Symbol, expr: Value)
      requires Valid()
      modifies this`locals, this`glob
      ensures Valid() && Model() == old(Model()).Bind(sym.num, expr)
    {
      if |locals| == 0 {
        glob := glob[sym.num := expr];
      } else {
        locals := locals[|locals| - 1 := locals[|locals| - 1][sym.num := expr]];
      }
    }

    // ---------- instructions that neither call nor return ----------

    method Jump(location: int) returns (ok: bool)
      requires Valid()
      modifies this`pc
      ensures Becomes(M.JumpTo(old(Model()), old(pc) + location), ok)
    {
      var newpc := pc + location;
      var size := CurrentFunctionSize();
      if newpc < 0 || newpc > size {
        return false;
      }
      pc := newpc;
      ok := true;
    }

    method Goto(location: int) returns (ok: bool)
      requires Valid()
      modifies this`pc
      ensures Becomes(M.JumpTo(old(Model()), location), ok)
    {
      var size := CurrentFunctionSize();
      if location < 0 || location > size {
        return false;
      }
      pc := location;
      ok := true;
    }

    method Branch(direction: bool, location: int) returns (ok: bool)
      requires Valid()
      modifies Repr()
      ensures Becomes(M.Plain(Instr.Branch(direction, location), old(Model())), ok)
    {
      var expr := datastack.Pop();
      if expr.None? {
        return false;
      }
      if direction == IsTruthy(expr.value) {
        ok := Jump(location);
      } else {
        pc := pc + 1;
        ok := true;
      }
    }

    /** The local bindings that the function's own instructions name. */
    method CaptureScope(fun: seq<Instr>) returns (captured: Frame)
      ensures captured == M.Capture(fun, locals)
    {
      hide M.Capture, Captured;
      captured := map[];
      NothingCaptured(fun, locals);
      for i := 0 to |fun|
        invariant captured == M.Capture(fun[..i], locals)
      {
        CaptureMore(fun, i, locals);
        match fun[i] {
          case Get(sym) => captured := CaptureSymbol(captured, sym);
          case Put(sym) => captured := CaptureSymbol(captured, sym);
          case Call(sym, _) => captured := CaptureSymbol(captured, sym);
          case _ =>
        }
      }
      assert fun[..|fun|] == fun;
    }

    method CaptureSymbol(captured: Frame, sym: Symbol) returns (r: Frame)
      ensures r == Captured(captured, sym.num, locals)
    {
      var exp := LookupSymbolNonGlobal(sym);
      r := captured;
      if exp.Some? {
        r := r[sym.num := exp.value];
      }
    }

    method PushInstrClosure(fn: Function)
      requires Valid()
      modifies Repr()
      ensures Becomes(M.Plain(PushClosure(fn), old(Model())), true)
    {
      hide M.Capture;
      var scope := [glob] + locals;
      if !fn.user {
        var captured := CaptureScope(fn.fun);
        scope := [captured];
      }
      PushNext(Fun(fn.(close := Some(scope))));
    }

    /** Pushes a value and goes on to the next instruction. */
    method PushNext(expr: Value)
      requires Valid()
      modifies Repr()
      ensures Becomes(Some(old(Model()).(pc := old(pc) + 1).Pushed([expr])), true)
    {
      datastack.Push(expr);
      pc := pc + 1;
    }

    method ExecPop() returns (ok: bool)
      requires Valid()
      modifies Repr()
      ensures Becomes(M.Plain(Pop, old(Model())), ok)
    {
      var expr := datastack.Pop();
      pc := pc + 1;
      ok := expr.Some?;
    }

    method ExecDup() returns (ok: bool)
      requires Valid()
      modifies Repr()
      ensures Becomes(M.Plain(Dup, old(Model())), ok)
    {
      var expr := datastack.Get(0);
      if expr.None? {
        return false;
      }
      PushNext(expr.value);
      ok := true;
    }

    method ExecGet(sym: Symbol) returns (ok: bool)
      requires Valid()
      modifies Repr()
      ensures Becomes(M.Plain(Get(sym), old(Model())), ok)
    {
      hide LookupLocal;
      var expr := LookupSymbol(sym);
      if expr.None? {
        return false;
      }
      PushNext(expr.value);
      ok := true;
    }

    method ExecPut(sym: Symbol) returns (ok: bool)
      requires Valid()
      modifies Repr()
      ensures Becomes(M.Plain(Put(sym), old(Model())), ok)
    {
      var expr := datastack.Pop();
      if expr.None? {
        return false;
      }
      pc := pc + 1;
      BindSymbol(sym, expr.value);
      ok := true;
    }

    method ExecAddScope()
      requires Valid()
      modifies this`locals, this`pc
      ensures Becomes(M.Plain(AddScope, old(Model())), true)
    {
      locals := locals + [map[]];
      pc := pc + 1;
    }

    /** The global scope is not one that generated code can remove. */
    method ExecRemoveScope() returns (ok: bool)
      requires Valid()
      modifies this`locals, this`pc
      ensures Becomes(M.Plain(RemoveScope, old(Model())), ok)
    {
      pc := pc + 1;
      if |locals| == 0 {
        return false;
      }
      locals := locals[..|locals| - 1];
      ok := true;
    }

    method ExecExplode() returns (ok: bool)
      requires Valid()
      modifies Repr()
      ensures Becomes(M.Plain(Explode, old(Model())), ok)
    {
      var expr := datastack.Pop();
      if expr.None? {
        return false;
      }
      var arr := ListElements(expr.value);
      if arr.None? {
        return false;
      }
      PushAll(arr.value);
      pc := pc + 1;
      ok := true;
    }

    method PushAll(arr: seq<Value>)
      requires Valid()
      modifies Repr()
      ensures Becomes(Some(old(Model()).Pushed(arr)), true)
    {
      ghost var data := datastack.Contents();
      for i := 0 to |arr|
        invariant Becomes(Some(old(Model()).Pushed(arr[..i])), true)
      {
        assert arr[..i + 1] == arr[..i] + [arr[i]];
        datastack.Push(arr[i]);
        assert data + arr[..i] + [arr[i]] == data + arr[..i + 1];
      }
      assert arr[..|arr|] == arr;
    }

    /** Pops down to the topmost marker, which goes too. */
    method PopToMarker() returns (r: Option<seq<Value>>)
      requires Valid()
      modifies datastack`tos
      ensures Valid() && fresh(Repr() - old(Repr()))
      ensures match M.ToMarker(old(Model()).data)
              case None => r == None
              case Some((above, below)) => r == Some(above) && Model() == old(Model()).(data := below)
    {
      hide M.ToMarker;
      ghost var all := datastack.Contents();
      var vec: seq<Value> := [];
      GatheredNothing(M.ToMarker(all));
      while true
        invariant Valid()
        invariant M.ToMarker(all) == Gathered(M.ToMarker(datastack.Contents()), vec)
        decreases datastack.tos
      {
        ghost var data := datastack.Contents();
        var expr := datastack.Pop();
        if expr.None? {
          NoMarker();
          return None;
        }
        ToMarkerRound(data);
        if expr.value == Marker {
          assert [] + vec == vec;
          return Some(vec);
        }
        GatheredRound(M.ToMarker(data[..|data| - 1]), expr.value, vec);
        vec := [expr.value] + vec;
      }
    }

    method ExecSquash() returns (ok: bool)
      requires Valid()
      modifies Repr()
      ensures Becomes(M.Plain(Squash, old(Model())), ok)
    {
      hide M.ToMarker;
      var vec := PopToMarker();
      if vec.None? {
        return false;
      }
      PushNext(MakeList(vec.value));
      ok := true;
    }

    method ExecVectorize() returns (ok: bool)
      requires Valid()
      modifies Repr()
      ensures Becomes(M.Plain(Vectorize, old(Model())), ok)
    {
      hide M.ToMarker;
      var vec := PopToMarker();
      if vec.None? {
        return false;
      }
      PushNext(Arr(vec.value));
      ok := true;
    }

    // ---------- calls and returns ----------

    method WrangleOptargs(fnargs: int, nargs: int) returns (ok: bool)
      requires Valid()
      modifies Repr()
      ensures Becomes(match M.Wrangle(old(Model()).data, fnargs, nargs)
                      case None => None
                      case Some(data) => Some(old(Model()).(data := data)), ok)
    {
      if nargs < fnargs {
        return false;
      }
      if nargs > fnargs {
        var optargs := datastack.PopExpressions(nargs - fnargs);
        if optargs.None? {
          return false;
        }
        datastack.Push(MakeList(optargs.value));
      } else {
        datastack.Push(Null);
      }
      ok := true;
    }

    method CallFunction(f: Function, nargs: int) returns (ok: bool)
      requires Valid()
      modifies Repr()
      ensures Becomes(M.CallFunction(f, nargs, old(Model())), ok)
    {
      hide M.Wrangle;
      if f.varargs {
        ok := WrangleOptargs(f.nargs, nargs);
        if !ok {
          return;
        }
      } else if nargs != f.nargs {
        return false;
      }
      EnterFunction(f);
      ok := true;
    }

    /** A new scope stack of what the function captured and a fresh scope; the caller's is
        saved. */
    method EnterFunction(f: Function)
      requires Valid()
      modifies Repr()
      ensures var m := old(Model());
              Becomes(Some(m.(saved := m.saved + [m.locals],
                              locals := (if f.close.Some? then f.close.value else []) + [map[]],
                              addrs := m.addrs + [M.Address(m.curfunc, m.pc + 1)],
                              curfunc := f, pc := 0)), true)
    {
      addrstack.Push(M.Address(curfunc, pc + 1));
      saved := saved + [locals];
      var base := if f.close.Some? then f.close.value else [];
      locals := base + [map[]];
      curfunc, pc := f, 0;
    }

    method ReturnFromFunction() returns (ok: bool)
      requires Valid()
      modifies Repr()
      ensures Becomes(M.ReturnFromFunction(old(Model())), ok)
    {
      var addr := addrstack.Pop();
      if addr.None? {
        return false;
      }
      curfunc, pc := addr.value.fn, addr.value.pos;
      if |saved| == 0 {
        return false;
      }
      locals := saved[|saved| - 1];
      saved := saved[..|saved| - 1];
      ok := true;
    }

    /** The value and the machine that `r` gives, or a failure as `r` is one. */
    twostate predicate Returns(new r: Option<(Value, M.Machine)>, new res: Option<Value>)
      requires old(Valid())
      reads this, datastack, datastack.elements, addrstack, addrstack.elements
    {
      && Valid() && fresh(Repr() - old(Repr())) && mainfunc == old(mainfunc)
      && res.Some? == r.Some? && (res.Some? ==> res.value == r.value.0 && Model() == r.value.1)
    }

    /** Takes the arguments off the stack and calls the Go function, with the caller's
        function and the next instruction saved. */
    method CallUserFunction(k: nat, f: Function, name: string, nargs: nat) returns (ok: bool)
      requires Valid()
      modifies Repr()
      ensures Becomes(M.CallUserFunction(k, f, name, nargs, old(Model())), ok)
      decreases k, 4, 1
    {
      BuiltinCall(k, f, name, nargs, Model());
      hide M.CallUserFunction, InsideBuiltin, AfterBuiltin;
      var args := EnterBuiltin(f, nargs);
      if args.None? {
        return false;
      }
      ok := FinishBuiltin(k, f.name, name, args.value);
    }

    method FinishBuiltin(k: nat, which: string, name: string, args: seq<Value>) returns (ok: bool)
      requires Valid()
      modifies Repr()
      ensures Becomes(AfterBuiltin(M.RunBuiltin(k, which, name, args, old(Model()))), ok)
      decreases k, 4, 0
    {
      hide M.RunBuiltin, M.PopAddr;
      var res := RunBuiltin(k, which, name, args);
      if res.None? {
        return false;
      }
      LeaveBuiltin(res.value);
      ok := true;
    }

    method EnterBuiltin(f: Function, nargs: nat) returns (args: Option<seq<Value>>)
      requires Valid()
      modifies Repr()
      ensures Becomes(InsideBuiltin(f, nargs, old(Model())), args.Some?)
      ensures args.Some? ==> args.value == old(Model()).data[|old(Model()).data| - nargs..]
    {
      args := datastack.PopExpressions(nargs);
      if args.Some? {
        addrstack.Push(M.Address(curfunc, pc + 1));
        curfunc := f;
        pc := -1;
      }
    }

    method LeaveBuiltin(res: Value)
      requires Valid()
      modifies Repr()
      ensures Becomes(Some(M.PopAddr(old(Model()).Pushed([res]))), true)
    {
      hide M.MISSING;
      datastack.Push(res);
      var addr := addrstack.Pop();
      if addr.Some? {
        curfunc, pc := addr.value.fn, addr.value.pos;
      } else {
        curfunc, pc := M.MISSING, 0;
      }
    }

    /** `apply` and `map` run script functions; the other builtins compute. */
    method RunBuiltin(k: nat, which: string, name: string, args: seq<Value>) returns (res: Option<Value>)
      requires Valid()
      modifies Repr()
      ensures Returns(M.RunBuiltin(k, which, name, args, old(Model())), res)
      decreases k, 3
    {
      hide M.Apply, M.MapArray, M.MapList, Prim, ApplyArgs;
      if which == "apply" {
        if |args| != 2 || !args[0].Fun? {
          return None;
        }
        var funargs := ApplyArgs(args[1]);
        if funargs.None? {
          return None;
        }
        res := Apply(k, args[0].fn, funargs.value);
      } else if which == "map" {
        if |args| != 2 || !args[0].Fun? {
          return None;
        }
        if args[1].Arr? {
          var arr := MapArray(k, args[0].fn, args[1].elems);
          res := if arr.Some? then Some(Arr(arr.value)) else None;
        } else if args[1].Pair? {
          res := MapList(k, args[0].fn, args[1]);
        } else {
          res := None;
        }
      } else {
        res := Prim(host, which, name, args);
      }
    }

    method MapArray(k: nat, f: Function, arr: seq<Value>) returns (result: Option<seq<Value>>)
      requires Valid()
      modifies Repr()
      ensures var r := M.MapArray(k, f, arr, old(Model()));
              && Valid() && fresh(Repr() - old(Repr())) && mainfunc == old(mainfunc)
              && result.Some? == r.Some? && (result.Some? ==> result.value == r.value.0 && Model() == r.value.1)
      decreases k, 2, |arr|
    {
      hide M.Apply, M.MapArray, Prepend;
      ghost var m0 := Model();
      var vs: seq<Value> := [];
      assert arr[0..] == arr;
      PrependNothing(M.MapArray(k, f, arr, m0));
      for i := 0 to |arr|
        invariant Valid() && fresh(Repr() - old(Repr())) && mainfunc == old(mainfunc)
        invariant M.MapArray(k, f, arr, m0) == Prepend(vs, M.MapArray(k, f, arr[i..], Model()))
      {
        MapArrayRound(k, f, arr, i, Model(), vs);
        var v := Apply(k, f, arr[i..i + 1]);
        if v.None? {
          return None;
        }
        vs := vs + [v.value];
      }
      MapArrayDone(k, f, arr, Model(), vs);
      result := Some(vs);
    }

    method MapList(k: nat, f: Function, expr: Value) returns (res: Option<Value>)
      requires Valid()
      modifies Repr()
      ensures Returns(M.MapList(k, f, expr, old(Model())), res)
      decreases k, 2, Size(expr)
    {
      hide M.Apply;
      if expr == Null {
        return Some(Null);
      }
      if !expr.Pair? {
        return None;
      }
      var head := Apply(k, f, [expr.head]);
      if head.None? {
        return None;
      }
      var tail := MapList(k, f, expr.tail);
      if tail.None? {
        return None;
      }
      res := Some(Pair(head.value, tail.value));
    }

    /** Runs a function to its end inside whatever is running. */
    method Apply(k: nat, f: Function, args: seq<Value>) returns (res: Option<Value>)
      requires Valid()
      modifies Repr()
      ensures Returns(M.Apply(k, f, args, old(Model())), res)
      decreases k, 1
    {
      hide M.RunBuiltin, M.Run, M.CallFunction;
      if k == 0 {
        return None;
      }
      if f.user {
        res := RunBuiltin(k - 1, f.name, f.name, args);
        return;
      }
      var ok := EnterScript(f, args);
      if !ok {
        return None;
      }
      RunDone(k - 1, Model());
      res, ok := Run(k - 1);
    }

    method EnterScript(f: Function, args: seq<Value>) returns (ok: bool)
      requires Valid()
      modifies Repr()
      ensures Becomes(M.CallFunction(f, |args|, old(Model()).(pc := -2).Pushed(args)), ok)
    {
      hide M.CallFunction;
      pc := -2;
      PushAll(args);
      ok := CallFunction(f, |args|);
    }

    /** One instruction; at the end of the run, the value on top of the stack. */
    method Step(k: nat) returns (exp: Option<Value>, ok: bool)
      requires Valid()
      modifies Repr()
      ensures Valid() && fresh(Repr() - old(Repr())) && mainfunc == old(mainfunc)
      ensures match StepOf(k, old(Model()))
              case Fails => !ok
              case Goes(m) => ok && exp == None && Model() == m
              case Ends(v, m) => ok && exp == Some(v) && Model() == m
      decreases k, 7
    {
      hide M.Exec;
      exp := None;
      var done := IsDone();
      if !done {
        ok := Execute(k);
        if !ok {
          return;
        }
      }
      done := IsDone();
      if done {
        exp := datastack.Pop();
      }
      ok := !done || exp.Some?;
    }

    /** The loop until the machine is done. If it is done to begin with, there is no value
        and no error. */
    method Run(k: nat) returns (exp: Option<Value>, ok: bool)
      requires Valid()
      modifies Repr()
      ensures old(Model()).IsDone() ==> ok && exp == None && Becomes(Some(old(Model())), true)
      ensures !old(Model()).IsDone() ==> Returns(M.Run(k, old(Model())), exp) && ok == exp.Some?
      decreases k, 0
    {
      hide M.Run, StepOf;
      ghost var m0 := Model();
      exp, ok := None, true;
      var done, fuel: nat := false, k;
      done := IsDone();
      while !done
        invariant fuel <= k && Valid() && fresh(Repr() - old(Repr())) && mainfunc == old(mainfunc) && ok
        invariant if done then
                    (if m0.IsDone() then exp == None && Model() == m0 else Returns(M.Run(k, m0), exp) && exp.Some?)
                  else !m0.IsDone() && !Model().IsDone() && M.Run(k, m0) == M.Run(fuel, Model())
        decreases fuel, !done
      {
        if fuel == 0 {
          RunOut(Model());
          return None, false;
        }
        RunRound(fuel, Model());
        StepGoes(fuel - 1, Model());
        fuel := fuel - 1;
        exp, ok := Step(fuel);
        if !ok {
          return None, false;
        }
        done := exp.Some?;
      }
    }

    method CallNamed(k: nat, sym: Symbol, nargs: nat) returns (ok: bool)
      requires Valid()
      modifies Repr()
      ensures Becomes(M.CallNamed(k, sym, nargs, old(Model())), ok)
      decreases k, 5
    {
      hide M.CallUserFunction, M.CallFunction, LookupLocal;
      // builtins win over every binding
      if sym.num in host.builtins {
        ok := CallUserFunction(k, BuiltinFunction(host.builtins[sym.num]), sym.name, nargs);
        return;
      }
      var funcobj := LookupSymbol(sym);
      if funcobj.None? || !funcobj.value.Fun? {
        return false;
      }
      var f := funcobj.value.fn;
      if !f.user {
        ok := CallFunction(f, nargs);
      } else {
        ok := CallUserFunction(k, f, sym.name, nargs);
      }
    }

    method CallTop(k: nat, nargs: nat) returns (ok: bool)
      requires Valid()
      modifies Repr()
      ensures Becomes(M.CallTop(k, nargs, old(Model())), ok)
      decreases k, 5
    {
      hide M.CallUserFunction, M.CallFunction;
      var funcobj := datastack.Pop();
      if funcobj.None? || !funcobj.value.Fun? {
        return false;
      }
      var f := funcobj.value.fn;
      if !f.user {
        ok := CallFunction(f, nargs);
      } else {
        ok := CallUserFunction(k, f, f.name, nargs);
      }
    }

    /** Executes the instruction at the program counter; there is none in a builtin or past
        the end. */
    method Execute(k: nat) returns (ok: bool)
      requires Valid()
      modifies Repr()
      ensures Becomes(M.Exec(k, old(Model())), ok)
      decreases k, 6
    {
      hide M.CallNamed, M.CallTop, M.ReturnFromFunction, M.Plain;
      if curfunc.user || !(0 <= pc < |curfunc.fun|) {
        return false;
      }
      match curfunc.fun[pc]
      case Call(sym, nargs) => ok := CallNamed(k, sym, nargs);
      case Dispatch(nargs) => ok := CallTop(k, nargs);
      case Return(fails) =>
        if fails {
          return false;
        }
        ok := ReturnFromFunction();
      case _ => ok := ExecPlain(curfunc.fun[pc]);
    }

    method ExecPlain(instr: Instr) returns (ok: bool)
      requires Valid()
      modifies Repr()
      ensures Becomes(M.Plain(instr, old(Model())), ok)
    {
      hide M.Capture, M.ToMarker, LookupLocal;
      ok := true;
      match instr
      case Jump(location) => ok := Jump(location);
      case Goto(location) => ok := Goto(location);
      case Branch(direction, location) => ok := Branch(direction, location);
      case PushClosure(fn) => PushInstrClosure(fn);
      case Push(expr) => PushNext(expr);
      case Pop => ok := ExecPop();
      case Dup => ok := ExecDup();
      case Get(sym) => ok := ExecGet(sym);
      case Put(sym) => ok := ExecPut(sym);
      case AddScope => ExecAddScope();
      case RemoveScope => ok := ExecRemoveScope();
      case Explode => ok := ExecExplode();
      case Squash => ok := ExecSquash();
      case Vectorize => ok := ExecVectorize();
      case _ => ok := false;
    }

    // ---------- loading programs ----------

    /** Appends the code of a program to the main function. */
    method LoadExpressions(expressions: seq<Value>) returns (ok: bool)
      requires Valid()
      modifies Repr()
      ensures Valid() && fresh(Repr() - old(Repr()))
      ensures var r := Loading.LoadInto(old(mainfunc), old(Model()), expressions);
              && ok == r.Some? && Model() == (if ok then r.value else old(Model()))
              && mainfunc == if ok then curfunc else old(mainfunc)
    {
      hide Codegen.GenBegin;
      var code, err := GenerateProgram(expressions);
      if err != Codegen.Ok {
        return false;
      }
      mainfunc := mainfunc.(fun := mainfunc.fun + code);
      curfunc := mainfunc;
      ok := true;
    }

    /** The code of a program; it starts by dropping the value of an unfinished run. */
    method GenerateProgram(expressions: seq<Value>) returns (code: seq<Instr>, err: Codegen.Fault)
      requires Valid()
      ensures var o := Codegen.GenBegin(host.arr, "", expressions, Codegen.Gst(false, 0));
              err == o.err && (err == Codegen.Ok ==>
                  code == (if pc == Model().FunctionSize() then [] else [Pop]) + o.code)
    {
      hide Codegen.GenBegin;
      var gen := new Generator(host.arr);
      var size := CurrentFunctionSize();
      if pc != size {
        gen.AddInstruction(Pop);
      }
      err := gen.GenerateBegin(expressions);
      code := gen.instructions;
    }

    /** Reads a program, loads it and runs it to its end. */
    method EvalString(k: nat, str: string, symbols: SymbolTable) returns (res: Option<Value>)
      requires Valid() && symbols !in Repr()
      modifies Repr(), symbols
      ensures Valid() && fresh(Repr() - old(Repr()))
      ensures var p := Parsing.ReadProgram(str, old(symbols.Model()));
              var r := if p.err.Some? then None else Loading.EvalInto(k, old(mainfunc), old(Model()), p.exprs);
              && symbols.Model() == p.t && res.Some? == r.Some?
              && (r.Some? ==> res.value == r.value.0 && Model() == r.value.1)
    {
      hide M.Run, Loading.LoadInto, Parsing.ParseTokens;
      var lexer := new ReaderObjects.Lexer(str);
      var expressions, err := ReaderObjects.ParseTokens(symbols, lexer);
      if err.Some? {
        return None;
      }
      var ok := LoadExpressions(expressions);
      if !ok {
        return None;
      }
      RunDone(k, Model());
      res, ok := Run(k);
    }
  }
}
