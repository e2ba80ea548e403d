/** Where compiled code and the language part ways: exact conditions, and programs that show
    why the well-formedness predicate excludes what it excludes. */
module Limits {
  import opened Sexps
  import opened Scoping
  import opened Builtins
  import opened Instructions
  import opened Codegen
  import opened Machines
  import opened Runs
  import opened Evaluator
  import opened Translation
  import opened Wellformed
  import opened Simulation
  import opened Correctness

  // ---------- flat closures ----------

  /** Over its scanned capture, a closure's code finds what it would find over everything
      that was visible when it was created if and only if it mentions itself every such
      name that a function nested in it needs. */
  lemma FlatClosureExact(a: Symbol, c: Closure)
    requires c.Closure? && c.num.None?
    ensures var code := BuildFun(a, c.name, c.params, c.body).fn.fun;
            Agree(a, CloseFrames(a, c), [c.env], Needs(code)) <==> CapturesEnough(c, code)
  {
    hide BuildFun, Mentions, Nested, LookupLocal;
    var fn := BuildFun(a, c.name, c.params, c.body).fn;
    var kept := TrFn(a, c).close.value[0];
    forall s ensures LookupLocal(CloseFrames(a, c), s) == (if s in kept then Some(kept[s]) else None)
      && LookupLocal([c.env], s) == (if s in c.env then Some(c.env[s]) else None)
    {
      OneFrame(kept, s);
      OneFrame(c.env, s);
    }
    assert forall s :: s in kept <==> s in c.env && s in Mentions(fn.fun);
  }

  lemma OneFrame<T>(f: map<int, T>, s: int)
    ensures LookupLocal([f], s) == if s in f then Some(f[s]) else None
  {
    assert [f][..0] == [];
  }

  // ---------- self tail calls ----------

  /** A jump back to the start does not check the number of arguments: the prologue takes as
      many values as there are parameters, from below where there are too few. What lies
      below the arguments is intact if and only if their number is right. */
  lemma JumpArity(m: Machine, base: seq<Value>, args: seq<Value>, lower: seq<Frame>, top: Frame, names: seq<Symbol>)
    requires CodeAt(m, 0, Puts(names)) && m.data == base + args && m.locals == lower + [top]
    ensures (Steps(0, |names|, m).Some? && Steps(0, |names|, m).value.data == base) <==> |args| == |names|
  {
    hide Steps, CodeAt, Puts;
    if |names| <= |m.data| {
      Takes(m, lower, top, names);
      Kept(base, args, |m.data| - |names|);
    } else {
      TooFew(m, names);
    }
  }

  lemma Takes(m: Machine, lower: seq<Frame>, top: Frame, names: seq<Symbol>)
    requires CodeAt(m, 0, Puts(names)) && |names| <= |m.data| && m.locals == lower + [top]
    ensures Steps(0, |names|, m).Some? && Steps(0, |names|, m).value.data == m.data[..|m.data| - |names|]
  {
    hide Steps, Reaches, BindAll, CodeAt, Puts;
    var n := |m.data| - |names|;
    assert m.data == m.data[..n] + m.data[n..];
    Prologue(m, m.data[..n], lower, top, names, m.data[n..]);
  }

  lemma Kept<T>(base: seq<T>, args: seq<T>, n: nat)
    requires n <= |base + args|
    ensures (base + args)[..n] == base <==> n == |base|
  {
  }

  lemma {:induction false} TooFew(m: Machine, names: seq<Symbol>)
    requires CodeAt(m, 0, Puts(names)) && |m.data| < |names|
    ensures Steps(0, |names|, m).None?
    decreases |names|
  {
    hide Exec;
    var n, d := |names| - 1, |m.data| - 1;
    CodeSplit(m, 0, [Put(names[n])], Puts(names[..n]));
    CodeHead(m, 0, [Put(names[n])]);
    PlainStep(m);
    if d >= 0 {
      var m' := m.(pc := m.pc + 1, data := m.data[..d]).Bind(names[n].num, m.data[d]);
      assert CodeAt(m', 0, Puts(names[..n]));
      hide CodeAt, Puts;
      TooFew(m', names[..n]);
    }
  }

  lemma PlainStep(m: Machine)
    requires !m.curfunc.user && 0 <= m.pc < |m.curfunc.fun|
    requires var i := m.curfunc.fun[m.pc]; !i.Call? && !i.Dispatch? && !i.Return?
    ensures forall k: nat :: Exec(k, m) == Plain(m.curfunc.fun[m.pc], m)
  {
    hide Plain;
  }

  /** A jump back to the start binds the parameters in the scope that is there, a call in a
      fresh one. The two scopes are the same if and only if the old scope binds parameters
      only. */
  lemma ReusedScopeExact<T>(top: map<int, T>, names: seq<Symbol>, vals: seq<T>)
    requires |names| == |vals|
    ensures BindAll(top, names, vals) == BindAll(map[], names, vals) <==> top.Keys <= Nums(names)
  {
    var newScope: map<int, T> := map[];
    BindAllKeys(top, names, vals);
    BindAllKeys(newScope, names, vals);
    if top.Keys <= Nums(names) {
      assert top.Keys + Nums(names) == newScope.Keys + Nums(names);
      BindAllForgets(top, newScope, names, vals);
    }
  }

  // ---------- jumps that are not in tail position ----------

  /** `m` runs in a call of `f` from `c`, with `data` on the stack and `frames` above what
      the function captured. */
  ghost predicate InCallOf(f: Function, c: Machine, m: Machine, data: seq<Value>, frames: seq<Frame>) {
    m == c.(curfunc := f, pc := m.pc, data := data, locals := Captured(f) + frames,
            addrs := c.addrs + [Address(c.curfunc, c.pc + 1)], saved := c.saved + [c.locals])
  }

  function Captured(f: Function): seq<Frame> {
    if f.close.Some? then f.close.value else []
  }

  predicate Starts(f: Function, names: seq<Symbol>) {
    !f.user && !f.varargs && f.nargs == |names| && |names| <= |f.fun| && f.fun[..|names|] == Puts(names)
  }

  lemma {:induction false} PutsStay(k: nat, j: nat, m: Machine, names: seq<Symbol>)
    requires CodeAt(m, 0, Puts(names)) && j <= |names| && Steps(k, j, m).Some?
    ensures Steps(k, j, m).value.addrs == m.addrs
    decreases |names|
  {
    hide Exec;
    if j > 0 {
      var n := |names| - 1;
      CodeSplit(m, 0, [Put(names[n])], Puts(names[..n]));
      CodeHead(m, 0, [Put(names[n])]);
      PlainStep(m);
      PutsStay(k, j - 1, Exec(k, m).value, names[..n]);
    }
  }

  /** A call of `f` that comes back does so from where its prologue ends. */
  lemma PastPrologue(f: Function, names: seq<Symbol>, c: Machine, y: Machine, s: Machine, end: Machine)
    requires Starts(f, names) && y.curfunc == f && y.pc == 0 && |y.addrs| > |c.addrs| && end.addrs == c.addrs
    requires Steps(0, |names|, y) == Some(s) && Reaches(y, end)
    ensures Reaches(s, end)
  {
    hide Steps;
    var k: nat, n: nat :| Steps(k, n, y) == Some(end);
    assert CodeAt(y, 0, Puts(names));
    if n <= |names| {
      PutsStay(k, n, y, names);
      assert false;
    }
    MonoSteps(0, k, |names|, y);
    StepsAppend(k, |names|, n - |names|, y);
    assert Steps(k, n - |names|, s) == Some(end);
  }

  /** Where `tail` was left set, a self call is compiled to a jump although values are
      `pending` on the stack. Such a jump is a new call by the caller of the function, on top
      of them: if that call has the value `v`, the function returns `v`, and the pending
      values stay below it. So the jump is right, for a function that should return `w`, if
      and only if nothing is pending and the call has just this value. */
  lemma MisplacedJump(f: Function, names: seq<Symbol>, c: Machine, m: Machine, base: seq<Value>, pending: seq<Value>,
                      args: seq<Value>, top: Frame, lets: seq<Frame>, v: Value)
    requires Starts(f, names) && |args| == |names| && top.Keys <= Nums(names)
    requires InCallOf(f, c, m, base + pending + args, [top] + lets) && CodeAt(m, 0, Removes(|lets|) + [Goto(0)])
    requires var call := c.(data := base + pending + args);
             Reaches(CallFunction(f, |args|, call).value, call.(pc := c.pc + 1, data := base + pending + [v]))
    ensures Reaches(m, c.(pc := c.pc + 1, data := base + pending + [v]))
    ensures forall w :: base + pending + [v] == base + [w] <==> pending == [] && v == w
  {
    hide Reaches, Steps, Exec, CallFunction, Starts, InCallOf, Removes;
    var d := base + pending;
    var s := CallersCall(f, names, c, d, args, v);
    JumpEnters(f, names, c, m, d, args, top, lets);
    ReusedScopeExact(top, names, args);
    SameEntry(f, c, m, d, args, top, lets, |names|, BindAll(map[], names, args));
    Transitive(m, s, c.(pc := c.pc + 1, data := d + [v]));
    forall w ensures d + [v] == base + [w] <==> pending == [] && v == w {
      PendingExact(base, pending, v, w);
    }
  }

  lemma PendingExact<T>(base: seq<T>, pending: seq<T>, v: T, w: T)
    ensures base + pending + [v] == base + [w] <==> pending == [] && v == w
  {
    if base + pending + [v] == base + [w] {
      assert |base + pending + [v]| == |base + [w]|;
      assert (base + pending + [v])[|base|] == (base + [w])[|base|];
    }
  }

  /** After the prologue of a call from `c`. */
  function Entered(f: Function, c: Machine, d: seq<Value>, n: nat, frame: Frame): Machine {
    c.(curfunc := f, pc := n, data := d, locals := Captured(f) + [frame],
       addrs := c.addrs + [Address(c.curfunc, c.pc + 1)], saved := c.saved + [c.locals])
  }

  lemma SameEntry(f: Function, c: Machine, m: Machine, d: seq<Value>, args: seq<Value>, top: Frame, lets: seq<Frame>,
                  n: nat, frame: Frame)
    requires InCallOf(f, c, m, d + args, [top] + lets)
    ensures m.(pc := n, data := d, locals := Captured(f) + [frame]) == Entered(f, c, d, n, frame)
  {
  }

  /** The call from `c` comes back by way of the end of its prologue. */
  lemma CallersCall(f: Function, names: seq<Symbol>, c: Machine, d: seq<Value>, args: seq<Value>,
                    v: Value)
    returns (s: Machine)
    requires Starts(f, names) && |args| == |names|
    requires var call := c.(data := d + args);
             Reaches(CallFunction(f, |args|, call).value, call.(pc := c.pc + 1, data := d + [v]))
    ensures s == Entered(f, c, d, |names|, BindAll(map[], names, args))
            && Reaches(s, c.(pc := c.pc + 1, data := d + [v]))
  {
    hide Reaches, Steps, Exec, BindAll;
    var y := CallFunction(f, |args|, c.(data := d + args)).value;
    s := Entered(f, c, d, |names|, BindAll(map[], names, args));
    assert CodeAt(y, 0, Puts(names));
    hide Puts, CodeAt;
    Prologue(y, d, Captured(f), map[], names, args);
    assert y.(pc := y.pc + |names|, data := d, locals := Captured(f) + [BindAll(map[], names, args)]) == s;
    PastPrologue(f, names, c, y, s, c.(pc := c.pc + 1, data := d + [v]));
  }

  lemma StartsAt(f: Function, names: seq<Symbol>, y: Machine)
    requires Starts(f, names) && y.curfunc == f && y.pc == 0
    ensures CodeAt(y, 0, Puts(names))
  {
    hide Puts;
  }

  /** The jump and the prologue after it. */
  lemma JumpEnters(f: Function, names: seq<Symbol>, c: Machine, m: Machine, d: seq<Value>, args: seq<Value>, top: Frame,
                   lets: seq<Frame>)
    requires Starts(f, names) && |args| == |names|
    requires InCallOf(f, c, m, d + args, [top] + lets) && CodeAt(m, 0, Removes(|lets|) + [Goto(0)])
    ensures Reaches(m, m.(pc := |names|, data := d, locals := Captured(f) + [BindAll(top, names, args)]))
  {
    hide Starts, Reaches, BindAll, Removes, CodeAt;
    JumpStarts(f, names, m, d, args, Captured(f), top, lets);
  }

  lemma JumpStarts(f: Function, names: seq<Symbol>, m: Machine, d: seq<Value>, args: seq<Value>, lower: seq<Frame>,
                   top: Frame, lets: seq<Frame>)
    requires Starts(f, names) && |args| == |names| && m.curfunc == f
    requires m.data == d + args && m.locals == lower + ([top] + lets) && CodeAt(m, 0, Removes(|lets|) + [Goto(0)])
    ensures Reaches(m, m.(pc := |names|, data := d, locals := lower + [BindAll(top, names, args)]))
  {
    hide Reaches, Steps, Exec, BindAll, Removes, Puts;
    var m2 := m.(pc := 0, locals := lower + [top]);
    var m3 := m2.(pc := m2.pc + |names|, data := d, locals := lower + [BindAll(top, names, args)]);
    assert m3 == m.(pc := |names|, data := d, locals := lower + [BindAll(top, names, args)]);
    StartsAt(f, names, m2);
    JumpBack(m, lower, top, lets);
    hide Starts, CodeAt;
    Prologue(m2, d, lower, top, names, args);
    Transitive(m, m2, m3);
  }

  lemma JumpBack(m: Machine, lower: seq<Frame>, top: Frame, lets: seq<Frame>)
    requires CodeAt(m, 0, Removes(|lets|) + [Goto(0)]) && m.locals == lower + ([top] + lets)
    ensures Reaches(m, m.(pc := 0, locals := lower + [top]))
  {
    hide Reaches, Exec, Removes;
    var n := |lets|;
    CodeSplit(m, 0, Removes(n), [Goto(0)]);
    CodeHead(m, n, [Goto(0)]);
    Removing(m, n);
    assert Below(m.locals, n) == lower + [top];
    var m1 := m.(pc := m.pc + n, locals := lower + [top]);
    assert Exec(0, m1) == Some(m1.(pc := 0)) by {
      PlainStep(m1);
    }
    hide CodeAt, Plain, Below;
    ThenStep(m, m1, 0, m1.(pc := 0));
  }

  // ---------- where a self call becomes a jump ----------

  /** A call without arguments of the function that is being generated. */
  function SelfCall(f: Symbol): Value {
    Pair(Sym(f), Null)
  }

  function JumpCode(n: nat): seq<Instr> {
    Removes(n) + [Goto(0)]
  }

  lemma SelfCallCode(a: Symbol, f: Symbol, n: nat)
    requires FormOf(f.name) == Ordinary
    ensures Gen(a, f.name, SelfCall(f), Gst(true, n)) == Out(JumpCode(n), Gst(true, n), Codegen.Ok)
    ensures Gen(a, f.name, SelfCall(f), Gst(false, n)) == Out([Call(f, 0)], Gst(false, n), Codegen.Ok)
    ensures GenAll(a, f.name, [SelfCall(f)], Gst(true, n)) == Out(JumpCode(n), Gst(true, n), Codegen.Ok)
    ensures GenAll(a, f.name, [SelfCall(f)], Gst(false, n)) == Out([Call(f, 0)], Gst(false, n), Codegen.Ok)
  {
    var e := SelfCall(f);
    assert Elems(e.tail) == [];
    assert IsList(e.tail) && IsList(e);
    SelfForm(a, f, Gst(true, n));
    SelfForm(a, f, Gst(false, n));
    NoOperands(a, f, n);
    hide Gen;
    hide GenForm;
    assert [e][1..] == [] && JumpCode(n) + [] == JumpCode(n) && [Call(f, 0)] + [] == [Call(f, 0)];
    assert GenAll(a, f.name, [], Gst(true, n)) == Out([], Gst(true, n), Codegen.Ok);
    assert GenAll(a, f.name, [], Gst(false, n)) == Out([], Gst(false, n), Codegen.Ok);
  }

  lemma SelfForm(a: Symbol, f: Symbol, g: Gst)
    ensures Gen(a, f.name, SelfCall(f), g) == GenForm(a, f.name, f, [], g)
  {
    hide GenForm;
    assert IsList(SelfCall(f).tail) && Elems(SelfCall(f).tail) == [];
  }

  lemma NoOperands(a: Symbol, f: Symbol, n: nat)
    requires FormOf(f.name) == Ordinary
    ensures GenForm(a, f.name, f, [], Gst(true, n)) == Out(JumpCode(n), Gst(true, n), Codegen.Ok)
    ensures GenForm(a, f.name, f, [], Gst(false, n)) == Out([Call(f, 0)], Gst(false, n), Codegen.Ok)
  {
    assert [] + JumpCode(n) == JumpCode(n);
  }

  /** In tail position of its function a self call becomes a jump, and also where the result
      is still needed: in an array, as an operand of a computed call, under `assert` and in
      a template. */
  lemma JumpsWhereNeeded(a: Symbol, f: Symbol, h: Value, num: int, n: nat)
    requires FormOf(f.name) == Ordinary && (h.Pair? || h.Arr?)
    ensures var e, g, jump := SelfCall(f), Gst(true, n), JumpCode(n);
            && Gen(a, f.name, e, g).code == jump
            && Gen(a, f.name, Arr([e]), g).code == jump + [Call(a, 1)]
            && |Gen(a, f.name, Pair(h, Pair(e, Null)), g).code| >= |jump|
            && Gen(a, f.name, Pair(h, Pair(e, Null)), g).code[..|jump|] == jump
            && GenForm(a, f.name, Symbol("assert", num), [e], g).code ==
               jump + [Branch(true, 2), Return(true), Push(Null)]
            && GenForm(a, f.name, Symbol("syntax-quote", num), [MakeList([Sym(Symbol("unquote", num)), e])], g).code
               == jump
  {
    SelfCallCode(a, f, n);
    var e, g := SelfCall(f), Gst(true, n);
    assert Elems(Pair(e, Null)) == [e] by {
      assert Elems<Function>(Null) == [];
      assert [e] + [] == [e];
    }
    UnquoteCode(a, f.name, num, e, g);
    AssertCode(a, f.name, num, e, g);
    hide GenForm, GenAll;
    var p := Gen(a, f.name, h, g);
    assert Gen(a, f.name, Pair(h, Pair(e, Null)), g) == GenDispatch(a, f.name, h, [e], g);
    hide Gen;
  }

  lemma UnquoteCode(a: Symbol, fname: string, num: int, e: Value, g: Gst)
    requires Gen(a, fname, e, g).err == Codegen.Ok
    ensures GenForm(a, fname, Symbol("syntax-quote", num), [MakeList([Sym(Symbol("unquote", num)), e])], g) ==
            Gen(a, fname, e, g)
  {
    var es := [Sym(Symbol("unquote", num)), e];
    MakeListElems(es);
    SizeAt(es, 1);
    SizeAt([MakeList(es)], 0);
    hide Gen, GenQuasiAll;
    assert MakeList(es).Pair?;
  }

  lemma AssertCode(a: Symbol, fname: string, num: int, e: Value, g: Gst)
    requires Gen(a, fname, e, g).err == Codegen.Ok
    ensures GenForm(a, fname, Symbol("assert", num), [e], g).code ==
            Gen(a, fname, e, g).code + [Branch(true, 2), Return(true), Push(Null)]
  {
    SizeAt([e], 0);
    hide Gen;
  }

  /** As an operand of a call by name, in a definition and before the end of a sequence it
      stays a call; on the right of a `let` it becomes a jump that leaves the new scope, too. */
  lemma JumpsOrCalls(a: Symbol, f: Symbol, k: Symbol, x: Symbol, y: Value, num: int, n: nat)
    requires FormOf(f.name) == Ordinary && FormOf(k.name) == Ordinary && k.name != f.name && y.Int?
    ensures var e, g := SelfCall(f), Gst(true, n);
            && GenForm(a, f.name, k, [e], g).code == [Call(f, 0), Call(k, 1)]
            && GenForm(a, f.name, Symbol("def", num), [Sym(x), e], g).code == [Call(f, 0), Put(x), Push(Null)]
            && GenForm(a, f.name, Symbol("begin", num), [e, y], g).code == [Call(f, 0), Pop, Push(y)]
            && GenForm(a, f.name, Symbol("let", num), [Arr([Sym(x), e]), y], g).code ==
               [AddScope] + (JumpCode(n + 1) + [Put(x)]) + [Push(y)] + [RemoveScope]
  {
    OperandCode(a, f, k, x, num, n);
    SelfCallCode(a, f, n);
    LetCode(a, f, x, y, n);
    BeginCode(a, f.name, SelfCall(f), y, Gst(true, n), [Call(f, 0)]);
    NamedForms(a, f.name, num, [SelfCall(f), y], Gst(true, n));
    NamedForms(a, f.name, num, [Arr([Sym(x), SelfCall(f)]), y], Gst(true, n));
    hide GenForm, Gen, GenLet, GenBegin, SelfCall, JumpCode;
  }

  lemma NamedForms(a: Symbol, fname: string, num: int, args: seq<Value>, g: Gst)
    ensures GenForm(a, fname, Symbol("begin", num), args, g) == GenBegin(a, fname, args, g)
    ensures GenForm(a, fname, Symbol("let", num), args, g) == GenLet(a, fname, false, args, g)
  {
    hide GenBegin, GenLet;
  }

  lemma OperandCode(a: Symbol, f: Symbol, k: Symbol, x: Symbol, num: int, n: nat)
    requires FormOf(f.name) == Ordinary && FormOf(k.name) == Ordinary && k.name != f.name
    ensures var e, g := SelfCall(f), Gst(true, n);
            && GenForm(a, f.name, k, [e], g).code == [Call(f, 0), Call(k, 1)]
            && GenForm(a, f.name, Symbol("def", num), [Sym(x), e], g).code == [Call(f, 0), Put(x), Push(Null)]
  {
    SelfCallCode(a, f, n);
    SizeAt([Sym(x), SelfCall(f)], 1);
    hide Gen, GenAll;
  }

  lemma BeginCode(a: Symbol, fname: string, e: Value, y: Value, g: Gst, code: seq<Instr>)
    requires y.Int? && Gen(a, fname, e, g.(tail := false)) == Out(code, g.(tail := false), Codegen.Ok)
    ensures GenBegin(a, fname, [e, y], g) == Out(code + [Pop] + [Push(y)], g, Codegen.Ok)
    ensures GenBegin(a, fname, [y], g) == Out([Push(y)], g, Codegen.Ok)
  {
    var es := [e, y];
    assert es[..1] == [e] && [e][1..] == [] && [y][..0] == [];
    assert Gen(a, fname, y, g) == Out([Push(y)], g, Codegen.Ok);
    hide Gen;
    assert GenPops(a, fname, [], g.(tail := false)) == Out([], g.(tail := false), Codegen.Ok);
    assert GenPops(a, fname, [e], g.(tail := false)) == Out(code + [Pop], g.(tail := false), Codegen.Ok) by {
      assert code + [Pop] + [] == code + [Pop];
    }
    assert [] + [Push(y)] == [Push(y)];
  }

  lemma LetCode(a: Symbol, f: Symbol, x: Symbol, y: Value, n: nat)
    requires FormOf(f.name) == Ordinary && y.Int?
    ensures GenLet(a, f.name, false, [Arr([Sym(x), SelfCall(f)]), y], Gst(true, n)).code ==
            [AddScope] + (JumpCode(n + 1) + [Put(x)]) + [Push(y)] + [RemoveScope]
  {
    var e, g := SelfCall(f), Gst(true, n + 1);
    var args, bs := [Arr([Sym(x), e]), y], [Sym(x), e];
    assert bs[2..] == [] && ParseBindings(bs) == Bindings([x], [e]) by {
      assert ParseBindings([]) == Bindings([], []) && [x] + [] == [x] && [e] + [] == [e];
    }
    SelfCallCode(a, f, n + 1);
    SizeAt(args, 0);
    assert args[1..] == [y];
    assert Puts([x]) == [Put(x)] by {
      assert [x][..0] == [] && [Put(x)] + [] == [Put(x)];
    }
    BeginCode(a, f.name, y, y, g, [Push(y)]);
    hide GenAll, GenBegin, ParseBindings, Puts;
  }

  // ---------- a self call in an array ----------

  const ARRAY := Symbol("array", 1)
  const N := Symbol("n", 2)
  const F := Symbol("f", 4)

  /** `(f true)`, `(or n (f true))` and `[(or n (f true))]`. */
  const CALL: Value := Pair(Sym(F), Pair(Bool(true), Null))
  const ELEM: Value := Pair(Sym(Symbol("or", 5)), Pair(Sym(N), Pair(CALL, Null)))
  const BODY: Value := Arr([ELEM])

  /** `(defn f [n] [(or n (f true))])` */
  const LOOP := Closure("f", Some(4), [Sym(N)], [BODY], map[])

  const JUMP: seq<Instr> := [Push(Bool(true)), Goto(0)]
  const CODE: seq<Instr> :=
    [Put(N), Get(N), Dup, Branch(true, 4), Pop, Push(Bool(true)), Goto(0), Call(ARRAY, 1), Return(false)]

  lemma CallCode(g: Gst)
    requires g.tail && g.scopes == 0
    ensures Gen(ARRAY, "f", CALL, g) == Out(JUMP, g, Ok)
  {
    var args: seq<Value> := [Bool(true)];
    assert Elems(CALL.tail) == args && IsList(CALL);
    var push: seq<Instr> := [Push(Bool(true))];
    assert GenAll(ARRAY, "f", args, g.(tail := false)) == Out(push, g.(tail := false), Ok) by {
      assert args[1..] == [] && push + [] == push;
    }
    assert Removes(0) == [] && FormOf("f") == Ordinary;
    hide GenAll;
    assert GenForm(ARRAY, "f", F, args, g).code == push + ([] + [Goto(0)]);
  }

  lemma ElemList()
    ensures IsList(ELEM) && Elems(ELEM.tail) == [Sym(N), CALL]
  {
    assert IsList(ELEM.tail.tail) && IsList(ELEM.tail);
    assert Elems(ELEM.tail) == [Sym(N)] + Elems(ELEM.tail.tail);
    assert Elems(ELEM.tail.tail) == [CALL] + Elems<Function>(Null);
  }

  lemma ElemCode(g: Gst)
    requires g.tail && g.scopes == 0
    ensures Gen(ARRAY, "f", ELEM, g) == Out([Get(N), Dup, Branch(true, 4), Pop] + JUMP, g, Ok)
  {
    var args: seq<Value> := [Sym(N), CALL];
    ElemList();
    CallCode(g);
    assert FormOf("or") == Or && args[1..] == [CALL];
    assert GenShort(ARRAY, "f", true, args, g) == Out([Get(N), Dup, Branch(true, 4), Pop] + JUMP, g, Ok) by {
      assert Gen(ARRAY, "", Sym(N), Gst(false, 0)).code == [Get(N)];
      hide Gen;
      assert GenShort(ARRAY, "f", true, [CALL], g) == Out(JUMP, g, Ok);
      assert [Get(N)] + [Dup, Branch(true, 4), Pop] == [Get(N), Dup, Branch(true, 4), Pop];
    }
    hide GenShort;
  }

  lemma ArrayCode(g: Gst)
    requires g.tail && g.scopes == 0
    ensures Gen(ARRAY, "f", BODY, g) == Out([Get(N), Dup, Branch(true, 4), Pop] + JUMP + [Call(ARRAY, 1)], g, Ok)
  {
    var es: seq<Value> := [ELEM];
    ElemCode(g);
    var code := [Get(N), Dup, Branch(true, 4), Pop] + JUMP;
    assert GenAll(ARRAY, "f", es, g) == Out(code, g, Ok) by {
      hide Gen;
      assert es[1..] == [] && code + [] == code;
    }
    hide GenAll;
  }

  lemma BodyCode()
    ensures GenBegin(ARRAY, "f", LOOP.body, Gst(true, 0)) == Out(CODE[1..8], Gst(true, 0), Ok)
  {
    var body: seq<Value> := [BODY];
    ArrayCode(Gst(true, 0));
    hide Gen;
    assert [Get(N), Dup, Branch(true, 4), Pop] + JUMP + [Call(ARRAY, 1)] == CODE[1..8];
    assert LOOP.body == body && body[..0] == [] && [] + CODE[1..8] == CODE[1..8];
  }

  lemma LoopParams()
    ensures ParseParams(LOOP.params) == Params([N], 1, false)
  {
    assert AllSymbols(LOOP.params) && Symbols(LOOP.params) == [N];
  }

  lemma OnePut()
    ensures Puts([N]) == [Put(N)] && CODE[..1] == [Put(N)] && CODE == [Put(N)] + CODE[1..8] + [Return(false)]
  {
    assert Puts([N]) == [Put(N)] + Puts([]);
  }

  /** What the generator makes of `LOOP`. */
  const CODED := Function("f", false, 1, false, CODE, None)

  lemma LoopCode()
    ensures BuildFun(ARRAY, LOOP.name, LOOP.params, LOOP.body) == Built(CODED, Codegen.Ok)
  {
    LoopParams();
    BodyCode();
    OnePut();
    hide GenBegin, ParseParams, Puts;
  }

  // ---------- what the machine makes of it ----------

  /** One instruction that neither calls nor returns. */
  lemma Goes(y: Machine, m: Machine, m': Machine)
    requires Reaches(y, m) && m.curfunc == CODED && 0 <= m.pc < 7 && Plain(CODE[m.pc], m) == Some(m')
    ensures Reaches(y, m')
  {
    hide Reaches, Plain;
    PlainStep(m);
    ThenStep(y, m, 0, m');
  }

  /** Up to the branch, with the parameter `b` and its copy on the stack. */
  lemma Testing(y: Machine, d: seq<Value>, b: bool, top: Frame)
    requires y.curfunc == CODED && y.pc == 0 && y.data == d + [Bool(b)] && y.locals == [top]
    ensures Reaches(y, y.(pc := if b then 7 else 4, data := d + [Bool(b)], locals := [top[2 := Bool(b)]]))
  {
    hide Reaches;
    var locals := [top[2 := Bool(b)]];
    Stays(y);
    assert y.data[..|d|] == d && y.locals[0 := top[2 := Bool(b)]] == locals;
    Goes(y, y, y.(pc := 1, data := d, locals := locals));
    assert LookupLocal(locals, 2) == Some(Bool(b));
    Goes(y, y.(pc := 1, data := d, locals := locals), y.(pc := 2, data := d + [Bool(b)], locals := locals));
    var m3 := y.(pc := 3, data := d + [Bool(b)] + [Bool(b)], locals := locals);
    Goes(y, y.(pc := 2, data := d + [Bool(b)], locals := locals), m3);
    assert m3.data[..|d| + 1] == d + [Bool(b)];
    Goes(y, m3, y.(pc := if b then 7 else 4, data := d + [Bool(b)], locals := locals));
  }

  /** Called with true, the function returns `[true]`. */
  lemma TrueRun(c: Machine, d: seq<Value>, y: Machine)
    requires c.host.Valid() && c.host.arr == ARRAY && InCallOf(CODED, c, y, d + [Bool(true)], y.locals)
    requires |y.locals| == 1 && y.pc == 0
    ensures Reaches(y, c.(pc := c.pc + 1, data := d + [Arr([Bool(true)])]))
  {
    hide Reaches;
    Testing(y, d, true, y.locals[0]);
    var m7 := y.(pc := 7, data := d + [Bool(true)], locals := [y.locals[0][2 := Bool(true)]]);
    var m8 := m7.(pc := 8, data := d + [Arr([Bool(true)])]);
    CallsArray(m7, d);
    ThenStep(y, m7, 0, m8);
    ReturnsTo(c, m8);
    ThenStep(y, m8, 0, c.(pc := c.pc + 1, data := m8.data));
  }

  lemma CallsArray(m: Machine, d: seq<Value>)
    requires m.host.Valid() && m.host.arr == ARRAY && m.curfunc == CODED && m.pc == 7 && m.data == d + [Bool(true)]
    ensures Exec(0, m) == Some(m.(pc := 8, data := d + [Arr([Bool(true)])]))
  {
    var value: seq<Value> := [Bool(true)];
    assert m.data[..|d|] == d && m.data[|d|..] == value;
    assert (m.addrs + [Address(m.curfunc, 8)])[..|m.addrs|] == m.addrs;
    hide Prim;
    assert Prim(m.host, "array", "array", value) == Some(Arr(value)) by {
      ArrayPrim(m.host, value);
    }
  }

  lemma ArrayPrim(host: Host, args: seq<Value>)
    ensures Prim(host, "array", "array", args) == Some(Arr(args))
  {
  }

  lemma ReturnsTo(c: Machine, m: Machine)
    requires InCallOf(CODED, c, m, m.data, m.locals) && m.pc == 8
    ensures Exec(0, m) == Some(c.(pc := c.pc + 1, data := m.data))
  {
    assert m.addrs[..|c.addrs|] == c.addrs && m.saved[..|c.saved|] == c.saved;
  }

  /** Called with false, it comes to the jump with nothing pending. */
  lemma FalseRun(y: Machine, d: seq<Value>)
    requires y.curfunc == CODED && y.pc == 0 && y.data == d + [Bool(false)] && y.locals == [map[]]
    ensures Reaches(y, y.(pc := 6, data := d + [Bool(true)], locals := [map[2 := Bool(false)]]))
  {
    hide Reaches;
    Testing(y, d, false, map[]);
    var m4 := y.(pc := 4, locals := [map[2 := Bool(false)]]);
    assert m4.data[..|d|] == d;
    Goes(y, m4, m4.(pc := 5, data := d));
    Goes(y, m4.(pc := 5, data := d), m4.(pc := 6, data := d + [Bool(true)]));
  }

  // ---------- what the language says ----------

  ghost predicate Knows(sc: Scopes) {
    && 4 !in sc.host.builtins && 4 in sc.glob && sc.glob[4] == Fun(LOOP)
    && forall f, g :: sc.ok(f, g)
  }

  /** In the body of `LOOP`, called with `b`. */
  ghost predicate Inside(sc: Scopes, b: bool) {
    Knows(sc) && sc.locals == [map[], map[2 := Bool(b)]]
  }

  function LoopResult(b: bool): V {
    if b then Arr([Bool(true)]) else Arr([Arr([Bool(true)])])
  }

  lemma CallValue(fuel: nat, sc: Scopes)
    requires Inside(sc, false) && ApplyNamed(fuel, LOOP, "f", [Bool(true)], sc) == Some(LoopResult(true))
    ensures Eval(fuel, CALL, sc) == Val(LoopResult(true), sc)
  {
    hide ApplyNamed;
    var args: seq<Value>, vs: seq<V> := [Bool(true)], [Bool(true)];
    assert Elems(CALL.tail) == args && IsList(CALL);
    assert EvalAll(fuel, args, sc) == Vals(vs, sc) by {
      assert args[1..] == [] && [vs[0]] + [] == vs;
    }
    assert Lookup(sc.glob, sc.locals, 4) == Some(Fun(LOOP)) by {
      Unbound(sc.locals, 4);
    }
    hide EvalAll, Lookup;
    assert FormOf("f") == Ordinary;
  }

  lemma ElemValue(fuel: nat, b: bool, sc: Scopes)
    requires Inside(sc, b) && (!b ==> ApplyNamed(fuel, LOOP, "f", [Bool(true)], sc) == Some(LoopResult(true)))
    ensures Eval(fuel, ELEM, sc) == Val(if b then Bool(true) else LoopResult(true), sc)
  {
    hide ApplyNamed;
    var args: seq<Value> := [Sym(N), CALL];
    ElemList();
    assert args[1..] == [CALL];
    assert LookupLocal(sc.locals, 2) == Some(Bool(b));
    assert Eval(fuel, Sym(N), sc) == Val(Bool(b), sc);
    if !b {
      CallValue(fuel, sc);
    }
    assert FormOf("or") == Or;
    assert EvalShort(fuel, true, args, sc) == Val(if b then Bool(true) else LoopResult(true), sc) by {
      hide Eval;
    }
    hide EvalShort;
  }

  lemma BodyValue(fuel: nat, b: bool, sc: Scopes)
    requires Inside(sc, b) && (!b ==> ApplyNamed(fuel, LOOP, "f", [Bool(true)], sc) == Some(LoopResult(true)))
    ensures EvalBegin(fuel, [BODY], sc) == Val(LoopResult(b), sc)
  {
    hide ApplyNamed;
    ElemValue(fuel, b, sc);
    var es, v: V := [ELEM], if b then Bool(true) else LoopResult(true);
    assert EvalAll(fuel, es, sc) == Vals([v], sc) by {
      hide Eval;
      assert es[1..] == [] && [v] + [] == [v];
    }
    assert Eval(fuel, BODY, sc) == Val(LoopResult(b), sc);
    hide Eval;
  }

  lemma LoopValue(fuel: nat, b: bool, sc: Scopes)
    requires Knows(sc) && fuel >= (if b then 1 else 2)
    ensures ApplyNamed(fuel, LOOP, "f", [Bool(b)], sc) == Some(LoopResult(b))
    decreases !b
  {
    LoopParams();
    var vs: seq<V>, frame: EFrame := [Bool(b)], map[2 := Bool(b)];
    assert BindAll(map[], [N], vs) == frame by {
      assert vs[..0] == [] && [N][..0] == [];
    }
    var start := sc.(locals := [map[], frame]);
    if !b {
      LoopValue(fuel - 1, true, start);
    }
    BodyValue(fuel - 1, b, start);
    hide EvalBegin, BindAll, ParseParams;
  }

  // ---------- the difference ----------

  /** The generator turns the self call inside the array into a jump. In the language
      `(f false)` is `[[true]]`; the machine returns `[true]`, since the array under
      construction is not part of what it comes back to. */
  lemma ArrayElement(fuel: nat, sc: Scopes, c: Machine, d: seq<Value>)
    requires fuel >= 2 && Knows(sc) && c.host.Valid() && c.host.arr == ARRAY
    ensures BuildFun(ARRAY, LOOP.name, LOOP.params, LOOP.body) == Built(CODED, Codegen.Ok)
    ensures ApplyNamed(fuel, LOOP, "f", [Bool(false)], sc) == Some(Arr([Arr([Bool(true)])]))
    ensures CallFunction(CODED, 1, c.(data := d + [Bool(false)])).Some?
    ensures Reaches(CallFunction(CODED, 1, c.(data := d + [Bool(false)])).value,
                    c.(pc := c.pc + 1, data := d + [Arr([Bool(true)])]))
  {
    hide BuildFun, ApplyNamed, Reaches;
    LoopValue(fuel, false, sc);
    LoopCode();
    var y := CallFunction(CODED, 1, c.(data := d + [Bool(false)])).value;
    var m := y.(pc := 6, data := d + [Bool(true)], locals := [map[2 := Bool(false)]]);
    FalseRun(y, d);
    var y1 := CallFunction(CODED, 1, c.(data := d + [] + [Bool(true)])).value;
    assert d + [] == d;
    TrueRun(c, d, y1);
    assert Removes(0) == [] && [] + [Goto(0)] == [Goto(0)] && CODE[6..7] == [Goto(0)];
    assert Starts(CODED, [N]) by {
      OnePut();
    }
    assert [N][0] == N && 2 in Nums([N]);
    var top: Frame := map[2 := Bool(false)];
    assert [top] + [] == [top];
    MisplacedJump(CODED, [N], c, m, d, [], [Bool(true)], top, [], Arr([Bool(true)]));
    Transitive(y, m, c.(pc := c.pc + 1, data := d + [Arr([Bool(true)])]));
  }
}
