/** One activation of typed code: what its part of the stacks holds, and what every single
    instruction does to it. */
module Activations {
  import opened Sexps
  import opened Scoping
  import opened Builtins
  import opened Instructions
  import opened Machines
  import opened StackTypes
  import opened Sealing
  import opened Troubles

  // ---------- values that fit a shape ----------

  ghost predicate Fits(data: seq<Value>, slots: seq<Slot>)
    decreases |slots|
  {
    if slots == [] then data == []
    else
      var n, d := |slots| - 1, |data| - 1;
      match slots[n]
      case One => d >= 0 && !data[d].Marker? && Fits(data[..d], slots[..n])
      case Mark => d >= 0 && data[d].Marker? && Fits(data[..d], slots[..n])
      case Many => exists i: nat :: i <= |data| && Plainly(data[i..]) && Fits(data[..i], slots[..n])
  }

  predicate Plainly(vs: seq<Value>) {
    forall i | 0 <= i < |vs| :: !vs[i].Marker?
  }

  lemma FitsPush(data: seq<Value>, slots: seq<Slot>, v: Value, s: Slot)
    requires Fits(data, slots) && (s == if v.Marker? then Mark else One)
    ensures Fits(data + [v], slots + [s])
  {
    assert (slots + [s])[..|slots|] == slots && (data + [v])[..|data|] == data;
  }

  lemma FitsMany(data: seq<Value>, slots: seq<Slot>, vs: seq<Value>)
    requires Fits(data, slots) && Plainly(vs)
    ensures Fits(data + vs, slots + [Many])
  {
    assert (slots + [Many])[..|slots|] == slots;
    assert (data + vs)[..|data|] == data && (data + vs)[|data|..] == vs;
  }

  lemma TakeLast(slots: seq<Slot>, n: nat)
    requires n > 0 && Take(slots, n).Some?
    ensures slots != []
    ensures var l := |slots| - 1; slots[l] == One && Take(slots[..l], n - 1) == Take(slots, n)
  {
    var l, top := |slots| - 1, slots[|slots| - n..];
    assert top == Ones(n);
    assert slots[l] == top[n - 1];
    assert slots[..l][l - (n - 1)..] == top[..n - 1] == Ones(n - 1);
    assert slots[..l][..l - (n - 1)] == slots[..|slots| - n];
  }

  lemma TakeNone(slots: seq<Slot>)
    ensures Take(slots, 0) == Some(slots)
  {
    assert slots[|slots|..] == Ones(0) && slots[..|slots|] == slots;
  }

  lemma {:induction false} FitsTake(data: seq<Value>, slots: seq<Slot>, n: nat)
    requires Fits(data, slots) && Take(slots, n).Some?
    ensures n <= |data| && Plainly(data[|data| - n..]) && Fits(data[..|data| - n], Take(slots, n).value)
    decreases n
  {
    hide Take;
    if n == 0 {
      TakeNone(slots);
      assert data[..|data|] == data;
    } else {
      var d := |data| - 1;
      TakeLast(slots, n);
      FitsTake(data[..d], slots[..|slots| - 1], n - 1);
      hide Fits;
      assert data[..d][..d - (n - 1)] == data[..|data| - n];
      assert data[|data| - n..] == data[..d][d - (n - 1)..] + [data[d]];
    }
  }

  lemma {:induction false} FitsOnes(data: seq<Value>)
    requires Plainly(data)
    ensures Fits(data, Ones(|data|))
    decreases |data|
  {
    if data == [] {
    } else {
      var n := |data| - 1;
      FitsOnes(data[..n]);
      assert Ones(|data|) == Ones(n) + [One];
      assert data == data[..n] + [data[n]];
      hide Fits, Ones;
      FitsPush(data[..n], Ones(n), data[n], One);
    }
  }

  lemma {:induction false} MarkerIn(base: seq<Value>, vs: seq<Value>)
    requires ToMarker(vs).Some?
    ensures ToMarker(base + vs) == Some((ToMarker(vs).value.0, base + ToMarker(vs).value.1))
    decreases |vs|
  {
    var n, all := |vs| - 1, base + vs;
    assert all[..|all| - 1] == base + vs[..n];
    if !vs[n].Marker? {
      MarkerIn(base, vs[..n]);
    }
  }

  lemma {:induction false} SkipPlain(data: seq<Value>, i: nat)
    requires i <= |data| && Plainly(data[i..]) && ToMarker(data[..i]).Some?
    ensures ToMarker(data).Some? && ToMarker(data).value.1 == ToMarker(data[..i]).value.1
    decreases |data|
  {
    if i == |data| {
      assert data[..i] == data;
    } else {
      var n := |data| - 1;
      assert data[i..][n - i] == data[n];
      assert data[..n][..i] == data[..i] && data[..n][i..] == data[i..][..n - i];
      SkipPlain(data[..n], i);
    }
  }

  /** The topmost marker of the values is that of the shape. */
  lemma {:induction false} FitsMark(data: seq<Value>, slots: seq<Slot>)
    requires Fits(data, slots) && BelowMark(slots).Some?
    ensures ToMarker(data).Some? && Fits(ToMarker(data).value.1, BelowMark(slots).value)
    decreases |slots|
  {
    var n, d := |slots| - 1, |data| - 1;
    match slots[n]
    case Mark =>
    case One => FitsMark(data[..d], slots[..n]);
    case Many =>
      var i: nat :| i <= |data| && Plainly(data[i..]) && Fits(data[..i], slots[..n]);
      FitsMark(data[..i], slots[..n]);
      SkipPlain(data, i);
  }

  // ---------- activations ----------

  /** A stretch of code that is running: where it stands in its function, what its shapes
      are, and everything it must leave alone: the data below, the scopes below, the stacks
      of return addresses and saved scope stacks, and, unless it runs in the global scope,
      the global bindings. */
  datatype Act = Act(fn: Function, off: nat, rules: Rules, ts: seq<Shape>, floor: seq<Frame>, base: seq<Value>,
                     addrs: seq<Address>, saved: seq<seq<Frame>>, host: Host, glob: Frame)
  {
    function End(): int {
      off + |ts| - 1
    }
  }

  ghost predicate Well(r: Act) {
    && !r.fn.user && r.ts != [] && r.End() <= |r.fn.fun|
    && Typed(r.rules, r.fn.fun[r.off..r.End()], r.ts)
    && (forall p | r.off <= p < r.End() :: GoodInstr(true, r.fn.fun[p]))
    && r.rules.own <= 1 && (r.rules.own == 0 ==> r.floor == [])
    && (r.rules.loop.Some? ==> r.off == 0 && r.ts[0] == Shape(Ones(r.rules.loop.value), r.rules.own))
    && (r.rules.back ==>
          && r.rules.own == 1 && r.off == 0 && r.End() == |r.fn.fun| && ClosedBody(r.fn.fun)
          && r.addrs != [] && r.saved != [])
  }

  /** The stacks of `x` hold what the shape says, above what the activation leaves alone. */
  ghost predicate Holds(r: Act, x: Machine, s: Shape) {
    && |r.base| <= |x.data| && x.data[..|r.base|] == r.base && Fits(x.data[|r.base|..], s.slots)
    && |x.locals| == |r.floor| + s.depth && x.locals[..|r.floor|] == r.floor && s.depth >= r.rules.own
  }

  ghost predicate Around(r: Act, x: Machine) {
    && x.curfunc == r.fn && x.addrs == r.addrs && x.saved == r.saved && x.host == r.host
    && (r.rules.own > 0 ==> x.glob == r.glob)
  }

  /** `x` runs in the activation itself, not in a function called from it. */
  ghost predicate At(r: Act, x: Machine) {
    Around(r, x) && r.off <= x.pc <= r.End() && Holds(r, x, r.ts[x.pc - r.off])
  }

  // ---------- one instruction: the data ----------

  lemma SplitBase(r: Act, x: Machine, s: Shape) returns (vs: seq<Value>)
    requires Holds(r, x, s)
    ensures x.data == r.base + vs && Fits(vs, s.slots)
  {
    vs := x.data[|r.base|..];
  }

  lemma JoinBase(r: Act, x: Machine, s: Shape, vs: seq<Value>)
    requires x.data == r.base + vs && Fits(vs, s.slots)
    requires |x.locals| == |r.floor| + s.depth && x.locals[..|r.floor|] == r.floor && s.depth >= r.rules.own
    ensures Holds(r, x, s)
  {
    assert x.data[|r.base|..] == vs;
  }

  /** `n` values on top, and the stack without them. */
  lemma TakeHolds(r: Act, x: Machine, s: Shape, n: nat)
    requires Holds(r, x, s) && Take(s.slots, n).Some?
    ensures |r.base| + n <= |x.data| && Plainly(x.data[|x.data| - n..])
    ensures Holds(r, x.(data := x.data[..|x.data| - n]), s.(slots := Take(s.slots, n).value))
  {
    hide Fits, Take;
    var vs := SplitBase(r, x, s);
    FitsTake(vs, s.slots, n);
    assert x.data[|x.data| - n..] == vs[|vs| - n..];
    assert x.data[..|x.data| - n] == r.base + vs[..|vs| - n];
    JoinBase(r, x.(data := x.data[..|x.data| - n]), s.(slots := Take(s.slots, n).value), vs[..|vs| - n]);
  }

  lemma Associate<T>(x: seq<T>, y: seq<T>, z: seq<T>)
    ensures x + y + z == x + (y + z)
  {
  }

  lemma PushHolds(r: Act, x: Machine, s: Shape, v: Value)
    requires Holds(r, x, s)
    ensures Holds(r, x.Pushed([v]), s.Push(if v.Marker? then Mark else One))
  {
    hide Fits;
    var vs := SplitBase(r, x, s);
    var k := if v.Marker? then Mark else One;
    FitsPush(vs, s.slots, v, k);
    var es := [v];
    Associate(r.base, vs, es);
    JoinBase(r, x.Pushed(es), s.Push(k), vs + es);
  }

  lemma ManyHolds(r: Act, x: Machine, s: Shape, es: seq<Value>)
    requires Holds(r, x, s) && Plainly(es)
    ensures Holds(r, x.Pushed(es), s.Push(Many))
  {
    hide Fits;
    var vs := SplitBase(r, x, s);
    FitsMany(vs, s.slots, es);
    Associate(r.base, vs, es);
    JoinBase(r, x.Pushed(es), s.Push(Many), vs + es);
  }

  lemma MarkHolds(r: Act, x: Machine, s: Shape)
    requires Holds(r, x, s) && BelowMark(s.slots).Some?
    ensures ToMarker(x.data).Some? && |ToMarker(x.data).value.1| >= |r.base|
    ensures Holds(r, x.(data := ToMarker(x.data).value.1), s.(slots := BelowMark(s.slots).value))
  {
    hide Fits, BelowMark, ToMarker;
    var vs := SplitBase(r, x, s);
    FitsMark(vs, s.slots);
    MarkerIn(r.base, vs);
    JoinBase(r, x.(data := ToMarker(x.data).value.1), s.(slots := BelowMark(s.slots).value), ToMarker(vs).value.1);
  }

  /** Two machines with the same data and scopes. */
  lemma SameHolds(r: Act, x: Machine, y: Machine, s: Shape)
    requires Holds(r, x, s) && y.data == x.data && y.locals == x.locals
    ensures Holds(r, y, s)
  {
  }

  lemma BindHolds(r: Act, x: Machine, s: Shape, n: int, v: Value)
    requires Holds(r, x, s) && r.rules.own <= 1 && (r.rules.own == 0 ==> r.floor == [])
    ensures Holds(r, x.Bind(n, v), s) && (r.rules.own > 0 ==> x.Bind(n, v).glob == x.glob)
    ensures x.Bind(n, v) == x.(glob := x.Bind(n, v).glob, locals := x.Bind(n, v).locals)
  {
    hide Fits;
    var y := x.Bind(n, v);
    if x.locals != [] {
      assert y.locals[..|r.floor|] == x.locals[..|r.floor|] by {
        assert |r.floor| < |x.locals|;
      }
    }
  }

  // ---------- one instruction that goes on to the next ----------

  ghost predicate Settled(r: Act) {
    r.rules.own <= 1 && (r.rules.own == 0 ==> r.floor == [])
  }

  predicate Straight(i: Instr) {
    !i.Jump? && !i.Branch? && !i.Goto? && !i.Return? && !i.Call? && !i.Dispatch?
  }

  /** `y` is `x` one instruction on, with other data and scopes. */
  ghost predicate Moved(r: Act, x: Machine, y: Machine) {
    y == x.(pc := x.pc + 1, data := y.data, locals := y.locals, glob := y.glob)
        && (r.rules.own > 0 ==> y.glob == x.glob)
  }

  lemma StraightHolds(r: Act, i: Instr, x: Machine, s: Shape, t: Shape)
    requires Settled(r) && Holds(r, x, s) && GoodState(true, x) && Straight(i)
    requires Effect(i, s, r.rules.own) == Some(t) && t.depth >= r.rules.own
    ensures !Short(i, |r.base|, x)
    ensures Plain(i, x).Some? ==> Moved(r, x, Plain(i, x).value) && Holds(r, Plain(i, x).value, t)
  {
    hide Holds, GoodState, ToMarker, BelowMark, Take, LookupLocal, Capture, Settled, Elems;
    match i
    case PushClosure(_) => PushesHold(r, i, x, s);
    case Push(_) => PushesHold(r, i, x, s);
    case Get(_) => PushesHold(r, i, x, s);
    case Dup => DupHolds(r, x, s, t);
    case Pop => PopsHold(r, i, x, s, t);
    case Put(_) => PopsHold(r, i, x, s, t);
    case Explode => ExplodeHolds(r, x, s, t);
    case Squash => GatherHolds(r, i, x, s, t);
    case Vectorize => GatherHolds(r, i, x, s, t);
    case AddScope => ScopesHold(r, i, x, s, t);
    case RemoveScope => ScopesHold(r, i, x, s, t);
  }

  lemma PushesHold(r: Act, i: Instr, x: Machine, s: Shape)
    requires Holds(r, x, s) && GoodState(true, x) && (i.PushClosure? || i.Push? || i.Get?)
    ensures var k := if i.Push? && i.e.Marker? then Mark else One;
            Plain(i, x).Some? ==> Moved(r, x, Plain(i, x).value) && Holds(r, Plain(i, x).value, s.Push(k))
  {
    hide Holds, GoodState, Plain;
    if Plain(i, x).Some? {
      var v := PushedValue(i, x);
      PushHolds(r, x, s, v);
      SameHolds(r, x.Pushed([v]), Plain(i, x).value, s.Push(if v.Marker? then Mark else One));
    }
  }

  lemma PushedValue(i: Instr, x: Machine) returns (v: Value)
    requires GoodState(true, x) && (i.PushClosure? || i.Push? || i.Get?) && Plain(i, x).Some?
    ensures Plain(i, x) == Some(x.Pushed([v]).(pc := x.pc + 1)) && (v.Marker? <==> i.Push? && i.e.Marker?)
  {
    if i.Get? {
      GoodLookup(true, x.locals, i.sym.num);
    }
    hide GoodFrames, LookupLocal, Capture, MarkerFree;
    v := Plain(i, x).value.data[|x.data|];
  }

  lemma TopValue(r: Act, x: Machine, s: Shape) returns (v: Value, x0: Machine)
    requires Holds(r, x, s) && Take(s.slots, 1).Some?
    ensures |x.data| > |r.base| && v == x.data[|x.data| - 1] && !v.Marker?
    ensures x0 == x.(data := x.data[..|x.data| - 1]) && x.data == x0.data + [v]
    ensures Holds(r, x0, s.(slots := Take(s.slots, 1).value))
  {
    hide Holds, Take;
    TakeHolds(r, x, s, 1);
    v, x0 := x.data[|x.data| - 1], x.(data := x.data[..|x.data| - 1]);
    assert x.data[|x.data| - 1..][0] == v;
  }

  lemma DupHolds(r: Act, x: Machine, s: Shape, t: Shape)
    requires Holds(r, x, s) && Effect(Dup, s, r.rules.own) == Some(t)
    ensures |x.data| > |r.base| && Moved(r, x, Plain(Dup, x).value) && Holds(r, Plain(Dup, x).value, t)
  {
    hide Holds, Take;
    var v, x0 := TopValue(r, x, s);
    var y, s0 := Plain(Dup, x).value, s.(slots := Take(s.slots, 1).value);
    PushHolds(r, x0, s0, v);
    PushHolds(r, x0.Pushed([v]), s0.Push(One), v);
    assert s0.slots + [One] + [One] == s0.slots + [One, One];
    SameHolds(r, x0.Pushed([v]).Pushed([v]), y, t);
  }

  lemma PopsHold(r: Act, i: Instr, x: Machine, s: Shape, t: Shape)
    requires Settled(r) && Holds(r, x, s) && (i.Pop? || i.Put?) && Effect(i, s, r.rules.own) == Some(t)
    ensures |x.data| > |r.base| && !x.data[|x.data| - 1].Marker?
    ensures Moved(r, x, Plain(i, x).value) && Holds(r, Plain(i, x).value, t)
  {
    hide Holds, Take;
    var v, x0 := TopValue(r, x, s);
    assert Take(s.slots, 1).value + [] == Take(s.slots, 1).value;
    var y := x0.(pc := x.pc + 1);
    SameHolds(r, x0, y, t);
    if i.Put? {
      BindHolds(r, y, t, i.sym.num, v);
    }
  }

  lemma ListPlain(e: Value)
    requires IsList(e) && GoodVal(true, e)
    ensures Plainly(Elems(e))
  {
    GoodElems(true, e);
  }

  lemma ExplodeHolds(r: Act, x: Machine, s: Shape, t: Shape)
    requires Holds(r, x, s) && GoodState(true, x) && Effect(Explode, s, r.rules.own) == Some(t)
    ensures |x.data| > |r.base|
    ensures Plain(Explode, x).Some? ==> Moved(r, x, Plain(Explode, x).value) && Holds(r, Plain(Explode, x).value, t)
  {
    hide Holds, Take, GoodFrames, GoodFrame, MarkerFree, Elems, IsList;
    var v, x0 := TopValue(r, x, s);
    assert GoodVal(true, v);
    hide GoodVal, GoodState;
    if IsList(v) {
      ListPlain(v);
      ManyHolds(r, x0, s.(slots := Take(s.slots, 1).value), Elems(v));
      SameHolds(r, x0.Pushed(Elems(v)), Plain(Explode, x).value, t);
    }
  }

  lemma GatherHolds(r: Act, i: Instr, x: Machine, s: Shape, t: Shape)
    requires Holds(r, x, s) && (i == Squash || i == Vectorize) && Effect(i, s, r.rules.own) == Some(t)
    ensures !Short(i, |r.base|, x) && Moved(r, x, Plain(i, x).value) && Holds(r, Plain(i, x).value, t)
  {
    hide Holds, ToMarker, BelowMark;
    MarkHolds(r, x, s);
    var (above, below) := ToMarker(x.data).value;
    var v := if i == Squash then MakeList(above) else Arr(above);
    var s0 := s.(slots := BelowMark(s.slots).value);
    NoListMarker(above);
    PushHolds(r, x.(data := below), s0, v);
    SameHolds(r, x.(data := below).Pushed([v]), Plain(i, x).value, t);
  }

  lemma NoListMarker(es: seq<Value>)
    ensures !MakeList(es).Marker?
  {
  }

  lemma ScopesHold(r: Act, i: Instr, x: Machine, s: Shape, t: Shape)
    requires Holds(r, x, s) && (i == AddScope || i == RemoveScope) && Effect(i, s, r.rules.own) == Some(t)
    ensures !Short(i, |r.base|, x) && Moved(r, x, Plain(i, x).value) && Holds(r, Plain(i, x).value, t)
  {
    hide Fits;
  }

  // ---------- one instruction of an activation ----------

  /** The shape that `x` must have. */
  function ShapeAt(r: Act, x: Machine): Shape
    requires r.off <= x.pc <= r.End()
  {
    r.ts[x.pc - r.off]
  }

  /** What the typing says of the instruction at `x`, in the terms of the whole function. */
  lemma TypedHere(r: Act, x: Machine) returns (i: Instr, s: Shape)
    requires Well(r) && At(r, x) && x.pc < r.End()
    ensures 0 <= x.pc < |x.curfunc.fun| && !x.curfunc.user && i == x.curfunc.fun[x.pc]
    ensures r.off <= x.pc && s == ShapeAt(r, x)
    ensures GoodInstr(true, i) && Settled(r) && Holds(r, x, s)
    ensures TypedAt(r.rules, r.fn.fun[r.off..r.End()], r.ts, x.pc - r.off)
            && r.fn.fun[r.off..r.End()][x.pc - r.off] == i
    ensures forall p | 0 <= p < |r.ts| :: r.ts[p].depth >= r.rules.own
    ensures r.rules.back ==> i == Return(false) || x.pc + 1 < r.End()
    ensures r.rules.back && (i.Jump? || i.Branch?) ==> x.pc + i.loc < r.End()
  {
    hide Holds, GoodInstr, TypedAt;
    s := ShapeAt(r, x);
    var code := r.fn.fun[r.off..r.End()];
    i := code[x.pc - r.off];
    assert i == r.fn.fun[x.pc];
    if r.rules.back && x.pc < |r.fn.fun| - 1 {
      assert r.fn.fun[..|r.fn.fun| - 1][x.pc] == i;
    }
  }

  lemma ToPlace(r: Act, x: Machine, y: Machine, s: Shape)
    requires At(r, x) && Holds(r, y, s) && r.off <= y.pc <= r.End() && s == ShapeAt(r, y)
    requires y == x.(pc := y.pc, data := y.data, locals := y.locals, glob := y.glob)
             && (r.rules.own > 0 ==> y.glob == x.glob)
    ensures At(r, y)
  {
    hide Holds;
  }

  /** An instruction that neither calls nor returns stays in the activation. */
  lemma PlainAt(r: Act, x: Machine)
    requires Well(r) && At(r, x) && x.pc < r.End() && GoodState(true, x)
    requires var i := x.curfunc.fun[x.pc]; !i.Call? && !i.Dispatch? && !i.Return?
    ensures !Trouble(|r.base|, x)
    ensures var y := Plain(x.curfunc.fun[x.pc], x);
            y.Some? ==> At(r, y.value) && GoodState(true, y.value) && (r.rules.back ==> y.value.pc < r.End())
  {
    var i, s := TypedHere(r, x);
    hide Well;
    if Straight(i) {
      StraightAt(r, x, i, s);
    } else if i.Branch? {
      BranchAt(r, x, i, s);
    } else {
      JumpAt(r, x, i, s);
    }
  }

  lemma StraightAt(r: Act, x: Machine, i: Instr, s: Shape)
    requires At(r, x) && x.pc < r.End() && GoodState(true, x) && Straight(i) && Settled(r) && s == ShapeAt(r, x)
             && GoodInstr(true, i)
    requires 0 <= x.pc < |x.curfunc.fun| && !x.curfunc.user && i == x.curfunc.fun[x.pc]
    requires Effect(i, s, r.rules.own) == Some(r.ts[x.pc - r.off + 1]) && r.ts[x.pc - r.off + 1].depth >= r.rules.own
    ensures !Trouble(|r.base|, x)
    ensures Plain(i, x).Some? ==>
              At(r, Plain(i, x).value) && GoodState(true, Plain(i, x).value) && Plain(i, x).value.pc == x.pc + 1
  {
    hide Holds, Settled, GoodState, GoodInstr;
    var t := r.ts[x.pc - r.off + 1];
    StraightHolds(r, i, x, s, t);
    if i.Put? {
      PopsHold(r, i, x, s, t);
    }
    hide Effect, Short;
    if Plain(i, x).Some? {
      PlainGood(true, i, x);
      hide Plain, At;
      ToPlace(r, x, Plain(i, x).value, t);
    }
  }

  lemma BranchAt(r: Act, x: Machine, i: Instr, s: Shape)
    requires At(r, x) && x.pc < r.End() && r.End() <= |x.curfunc.fun| && GoodState(true, x) && i.Branch?
             && s == ShapeAt(r, x)
    requires 0 <= x.pc && !x.curfunc.user && i == x.curfunc.fun[x.pc]
    requires 0 < i.loc && x.pc + i.loc <= r.End() && r.ts[x.pc - r.off + i.loc] == r.ts[x.pc - r.off + 1]
    requires Effect(i, s, r.rules.own) == Some(r.ts[x.pc - r.off + 1])
    ensures !Trouble(|r.base|, x)
    ensures var y := Plain(i, x);
            y.Some? ==>
              At(r, y.value) && GoodState(true, y.value) && (y.value.pc == x.pc + 1 || y.value.pc == x.pc + i.loc)
  {
    hide Holds, Take;
    var v, x0 := TopValue(r, x, s);
    var t := r.ts[x.pc - r.off + 1];
    assert Take(s.slots, 1).value + [] == Take(s.slots, 1).value;
    hide IsTruthy, Effect;
    var y := Plain(i, x).value;
    SameHolds(r, x0, y, t);
    assert GoodState(true, y) by {
      hide GoodVal, MarkerFree;
    }
    hide GoodState, At;
    ToPlace(r, x, y, t);
  }

  lemma JumpAt(r: Act, x: Machine, i: Instr, s: Shape)
    requires At(r, x) && x.pc < r.End() && r.End() <= |x.curfunc.fun| && GoodState(true, x) && s == ShapeAt(r, x)
    requires 0 <= x.pc && !x.curfunc.user && i == x.curfunc.fun[x.pc]
    requires (i.Jump? && 0 < i.loc && x.pc + i.loc <= r.End() && r.ts[x.pc - r.off + i.loc] == s) ||
             (i == Goto(0) && r.off == 0 && r.ts[0] == s)
    ensures !Trouble(|r.base|, x)
    ensures var y := Plain(i, x);
            y.Some? && At(r, y.value) && GoodState(true, y.value) && y.value.pc == if i.Jump? then x.pc + i.loc else 0
  {
    hide Holds;
    var y := Plain(i, x).value;
    SameHolds(r, x, y, s);
    hide GoodFrame, GoodFrames, GoodData, MarkerFree, At;
    ToPlace(r, x, y, s);
  }

  // ---------- calls and returns ----------

  /** One value on `base` is what the activation goes on with after the instruction at `x`. */
  ghost predicate Awaits(r: Act, x: Machine, base: seq<Value>) {
    && Around(r, x) && r.off <= x.pc < r.End() && (r.rules.back ==> x.pc + 1 < r.End())
    && |r.base| <= |base| && base[..|r.base|] == r.base
    && exists s :: Holds(r, x.(data := base), s) && s.Push(One) == r.ts[x.pc + 1 - r.off]
  }

  lemma Comes(r: Act, x: Machine, base: seq<Value>, v: Value)
    requires Awaits(r, x, base) && !v.Marker?
    ensures At(r, x.(pc := x.pc + 1, data := base + [v]))
  {
    hide Holds;
    var s :| Holds(r, x.(data := base), s) && s.Push(One) == r.ts[x.pc + 1 - r.off];
    PushHolds(r, x.(data := base), s, v);
    SameHolds(r, x.(data := base).Pushed([v]), x.(pc := x.pc + 1, data := base + [v]), s.Push(One));
  }

  /** The operands are there, above what the activation leaves alone. */
  lemma OperandsAt(r: Act, x: Machine, y: Machine, s: Shape, n: nat)
    requires At(r, x) && x.pc < r.End() && (r.rules.back ==> x.pc + 1 < r.End()) && y == x.(data := y.data)
    requires Holds(r, x, s) && Take(s.slots, n).Some?
    requires r.ts[x.pc + 1 - r.off] == s.(slots := Take(s.slots, n).value + [One])
    ensures |r.base| + n <= |x.data| && Plainly(x.data[|x.data| - n..]) && Awaits(r, y, x.data[..|x.data| - n])
  {
    hide Holds, Take;
    TakeHolds(r, x, s, n);
    var base, s0 := x.data[..|x.data| - n], s.(slots := Take(s.slots, n).value);
    PrefixHolds(r, x, s);
    assert base[..|r.base|] == x.data[..|r.base|];
    SameHolds(r, x.(data := base), y.(data := base), s0);
    assert s0.Push(One) == r.ts[x.pc + 1 - r.off];
  }

  lemma PrefixHolds(r: Act, x: Machine, s: Shape)
    requires Holds(r, x, s)
    ensures |r.base| <= |x.data| && x.data[..|r.base|] == r.base
  {
  }

  lemma TopGood(x: Machine, n: nat)
    requires GoodState(true, x) && n <= |x.data| && Plainly(x.data[|x.data| - n..])
    ensures GoodVals(true, x.data[|x.data| - n..])
  {
    hide GoodVal, GoodFrame, GoodFrames, MarkerFree;
    var vs := x.data[|x.data| - n..];
    forall i | 0 <= i < n ensures GoodVal(true, vs[i]) {
      assert vs[i] == x.data[|x.data| - n + i];
    }
  }

  lemma CallAt(r: Act, x: Machine, n: nat)
    requires Well(r) && At(r, x) && x.pc < r.End() && GoodState(true, x)
    requires x.curfunc.fun[x.pc].Call? && x.curfunc.fun[x.pc].nargs == n
    ensures !Trouble(|r.base|, x) && n <= |x.data|
    ensures Awaits(r, x, x.data[..|x.data| - n]) && GoodVals(true, x.data[|x.data| - n..])
  {
    var i, s := TypedHere(r, x);
    hide Well, At, Holds, Take, Typed, GoodState, Awaits, Plainly, GoodInstr;
    OperandsAt(r, x, x, s, n);
    TopGood(x, n);
  }

  lemma UnderTop(x: Machine, n: nat)
    requires n + 1 <= |x.data| && GoodVals(true, x.data[|x.data| - (n + 1)..]) && GoodState(true, x)
    ensures var d := x.data[..|x.data| - 1];
            && d[..|d| - n] == x.data[..|x.data| - (n + 1)] && GoodVals(true, d[|d| - n..])
            && GoodState(true, x.(data := d)) && GoodVal(true, x.data[|x.data| - 1])
  {
    hide GoodVal, GoodFrame, GoodFrames, MarkerFree;
    var d, top := x.data[..|x.data| - 1], x.data[|x.data| - (n + 1)..];
    assert d[|d| - n..] == top[..n] && x.data[|x.data| - 1] == top[n];
  }

  /** Likewise below the function of a computed call. */
  lemma DispatchAt(r: Act, x: Machine, n: nat)
    requires Well(r) && At(r, x) && x.pc < r.End() && GoodState(true, x)
    requires x.curfunc.fun[x.pc] == Dispatch(n)
    ensures !Trouble(|r.base|, x) && n + 1 <= |x.data| && GoodVal(true, x.data[|x.data| - 1])
    ensures var d := x.data[..|x.data| - 1];
            && Awaits(r, x.(data := d), d[..|d| - n]) && GoodVals(true, d[|d| - n..]) && GoodState(true, x.(data := d))
  {
    var i, s := TypedHere(r, x);
    hide Well, At, Holds, Take, Typed, GoodState, Awaits, Plainly, GoodInstr, GoodVals, GoodVal;
    OperandsAt(r, x, x.(data := x.data[..|x.data| - 1]), s, n + 1);
    TopGood(x, n + 1);
    UnderTop(x, n);
  }

  /** The activation of a function that `c` calls with what lies above `base`. */
  function Entry(f: Function, ts: seq<Shape>, base: seq<Value>, c: Machine): Act {
    Act(f, 0, FunRules(f), ts, if f.close.Some? then f.close.value else [], base,
        c.addrs + [Address(c.curfunc, c.pc + 1)], c.saved + [c.locals], c.host, c.glob)
  }

  /** The machine that a return with `v` leaves. */
  function Back(r: Act, v: Value): Machine
    requires r.addrs != [] && r.saved != []
  {
    var a, n, k := r.addrs[|r.addrs| - 1], |r.addrs| - 1, |r.saved| - 1;
    Machine(r.host, r.glob, r.saved[k], r.base + [v], r.addrs[..n], r.saved[..k], a.fn, a.pos)
  }

  lemma BackFromEntry(f: Function, ts: seq<Shape>, base: seq<Value>, c: Machine, v: Value)
    ensures Back(Entry(f, ts, base, c), v) == c.(pc := c.pc + 1, data := base + [v])
  {
    var r := Entry(f, ts, base, c);
    assert r.addrs[..|c.addrs|] == c.addrs && r.saved[..|c.saved|] == c.saved;
  }

  /** The end of an activation: its value is on what it left alone. */
  ghost predicate Leaves(r: Act, z: Machine) {
    && GoodState(true, z)
    && if r.rules.back then
         && r.addrs != [] && r.saved != [] && |z.data| == |r.base| + 1 && GoodVal(true, z.data[|r.base|])
         && z == Back(r, z.data[|r.base|])
       else At(r, z) && z.pc == r.End()
  }

  lemma ReturnAt(r: Act, x: Machine, fails: bool)
    requires Well(r) && At(r, x) && x.pc < r.End() && GoodState(true, x) && x.curfunc.fun[x.pc] == Return(fails)
    ensures fails || (r.rules.back && ReturnFromFunction(x).Some? && Leaves(r, ReturnFromFunction(x).value))
    ensures !Trouble(|r.base|, x)
  {
    var i, s := TypedHere(r, x);
    if !fails {
      assert s.slots == [One];
      hide TypedAt, Typed, GoodFrame, GoodVal, MarkerFree;
      assert [One][..0] == [];
      assert |x.data[|r.base|..]| == 1;
      var y, v := ReturnFromFunction(x).value, x.data[|r.base|];
      assert x.data == r.base + [v] && v == x.data[|r.base|..][0];
      assert y == Back(r, v);
    }
  }

  // ---------- entering a function ----------

  lemma ArgumentsFit(f: Function, nargs: nat, base: seq<Value>, args: seq<Value>) returns (vs: seq<Value>)
    requires |args| == nargs && GoodVals(true, args) && 0 <= f.nargs && Arguments(f, nargs, base + args).Some?
    ensures Arguments(f, nargs, base + args) == Some(base + vs) && |vs| == Arity(f) && GoodVals(true, vs)
  {
    var data := base + args;
    if !f.varargs {
      vs := args;
    } else if nargs == f.nargs {
      vs := args + [Null];
      assert base + args + [Null] == base + vs;
    } else {
      var n := |base| + f.nargs;
      GoodMakeList(true, args[f.nargs..]);
      assert data[..n] == base + args[..f.nargs] && data[n..] == args[f.nargs..];
      hide GoodVal, MakeList;
      vs := args[..f.nargs] + [MakeList(args[f.nargs..])];
      assert base + args[..f.nargs] + [MakeList(args[f.nargs..])] == base + vs;
    }
  }

  lemma ValuesPlain(vs: seq<Value>)
    requires GoodVals(true, vs)
    ensures Plainly(vs)
  {
  }

  lemma Enters(f: Function, nargs: nat, c: Machine, base: seq<Value>, args: seq<Value>) returns (r: Act)
    requires GoodState(true, c) && !f.user && GoodFun(true, f) && GoodVals(true, args)
    requires c.data == base + args && |args| == nargs && CallFunction(f, nargs, c).Some?
    ensures r == Entry(f, r.ts, base, c) && Well(r)
    ensures var y := CallFunction(f, nargs, c).value; At(r, y) && y.pc < r.End() && GoodState(true, y)
  {
    assert TypedBody(f);
    var ts :| Types(f, ts);
    r := Entry(f, ts, base, c);
    WellEntry(f, ts, base, c);
    var y := CallFunction(f, nargs, c).value;
    hide Typed, Well;
    var vs := ArgumentsFit(f, nargs, base, args);
    ValuesPlain(vs);
    FitsOnes(vs);
    GoodEntry(f, nargs, c, base, vs);
    hide GoodFun, GoodVals, GoodState, Ones, Arguments, Fits, ClosedBody, Plainly;
    assert y.locals == r.floor + [map[]];
    JoinBase(r, y, ts[0], vs);
  }

  lemma WellEntry(f: Function, ts: seq<Shape>, base: seq<Value>, c: Machine)
    requires !f.user && GoodFun(true, f) && Types(f, ts)
    ensures Well(Entry(f, ts, base, c)) && Entry(f, ts, base, c).End() > 0
  {
    hide TypedAt, Effect, GoodInstr;
    assert f.fun[0..|f.fun|] == f.fun;
    assert Typed(FunRules(f), f.fun, ts);
  }

  lemma GoodEntry(f: Function, nargs: nat, c: Machine, base: seq<Value>, vs: seq<Value>)
    requires GoodState(true, c) && !f.user && GoodFun(true, f) && GoodVals(true, vs) && base <= c.data
    requires Arguments(f, nargs, c.data) == Some(base + vs)
    ensures GoodState(true, CallFunction(f, nargs, c).value)
  {
    hide Arguments, GoodVal, MarkerFree, TypedBody, GoodInstr, ClosedBody;
  }
}
