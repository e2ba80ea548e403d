/** A static account of what a piece of code does to the part of the data stack and of the
    scope stack that its activation owns: one shape per instruction, where every jump meets
    the shape of its target. The shapes say what a stack must hold, not which values. */
module StackTypes {
  import opened Sexps
  import opened Instructions

  /** One value, any number of values (what a splice leaves), or the marker. */
  datatype Slot = One | Many | Mark

  datatype Shape = Shape(slots: seq<Slot>, depth: nat)
  {
    function Push(s: Slot): Shape {
      this.(slots := slots + [s])
    }
  }

  /** What code may do: `own` scopes that it must leave open, the number of values that a
      jump to its start must find, if it may jump there, and whether it may return. */
  datatype Rules = Rules(own: nat, loop: Option<nat>, back: bool)

  function Ones(n: nat): (r: seq<Slot>)
    ensures |r| == n
  {
    seq(n, i => One)
  }

  /** The slots below `n` values on top. */
  function Take(slots: seq<Slot>, n: nat): Option<seq<Slot>> {
    if n <= |slots| && slots[|slots| - n..] == Ones(n) then Some(slots[..|slots| - n]) else None
  }

  /** The slots below the topmost marker. */
  function BelowMark(slots: seq<Slot>): Option<seq<Slot>> {
    if slots == [] then None
    else
      var n := |slots| - 1;
      if slots[n] == Mark then Some(slots[..n]) else BelowMark(slots[..n])
  }

  function Replace(slots: Option<seq<Slot>>, s: Shape, above: seq<Slot>): Option<Shape> {
    if slots.None? then None else Some(s.(slots := slots.value + above))
  }

  /** The shape after an instruction that goes on to the next one or branches. */
  function Effect(i: Instr, s: Shape, own: nat): Option<Shape> {
    match i
    case Jump(_) => Some(s)
    case Goto(_) => Some(s)
    case Branch(_, _) => Replace(Take(s.slots, 1), s, [])
    case PushClosure(_) => Some(s.Push(One))
    case Push(e) => Some(s.Push(if e.Marker? then Mark else One))
    case Pop => Replace(Take(s.slots, 1), s, [])
    case Dup => Replace(Take(s.slots, 1), s, [One, One])
    case Get(_) => Some(s.Push(One))
    case Put(_) => Replace(Take(s.slots, 1), s, [])
    case Call(_, n) => Replace(Take(s.slots, n), s, [One])
    case Dispatch(n) => Replace(Take(s.slots, n + 1), s, [One])
    case Return(_) => Some(s)
    case AddScope => Some(s.(depth := s.depth + 1))
    case RemoveScope => if s.depth > own then Some(s.(depth := s.depth - 1)) else None
    case Explode => Replace(Take(s.slots, 1), s, [Many])
    case Squash => Replace(BelowMark(s.slots), s, [One])
    case Vectorize => Replace(BelowMark(s.slots), s, [One])
  }

  /** Instruction `p` of `code` meets the shapes before and after it and at its target. */
  predicate TypedAt(r: Rules, code: seq<Instr>, ts: seq<Shape>, p: nat)
    requires |ts| == |code| + 1 && p < |code|
  {
    match code[p]
    case Jump(l) => 0 < l && p + l <= |code| && ts[p + l] == ts[p]
    case Branch(_, l) =>
      && 0 < l && p + l <= |code|
      && Effect(code[p], ts[p], r.own) == Some(ts[p + 1]) && ts[p + l] == ts[p + 1]
    case Goto(l) => l == 0 && r.loop.Some? && ts[p] == Shape(Ones(r.loop.value), r.own)
    case Return(fails) => fails || (r.back && ts[p].slots == [One])
    case i => Effect(i, ts[p], r.own) == Some(ts[p + 1])
  }

  predicate Typed(r: Rules, code: seq<Instr>, ts: seq<Shape>) {
    && |ts| == |code| + 1
    && (forall p | 0 <= p < |code| :: TypedAt(r, code, ts, p))
    && (forall p | 0 <= p < |ts| :: ts[p].depth >= r.own)
  }

  // ---------- whole functions ----------

  function Arity(f: Function): int {
    f.nargs + if f.varargs then 1 else 0
  }

  function FunRules(f: Function): Rules {
    Rules(1, if f.varargs || f.nargs < 0 then None else Some(f.nargs), true)
  }

  /** `ts` types the code of `f`, which starts with the arguments on the stack and one scope
      of its own and ends in a `return`. */
  ghost predicate Types(f: Function, ts: seq<Shape>) {
    && 0 <= f.nargs && f.fun != [] && f.fun[|f.fun| - 1] == Return(false)
    && Typed(FunRules(f), f.fun, ts) && ts[0] == Shape(Ones(Arity(f)), 1)
  }

  ghost predicate TypedBody(f: Function) {
    exists ts :: Types(f, ts)
  }

  // ---------- putting code together ----------

  function Join(x: seq<Shape>, y: seq<Shape>): seq<Shape>
    requires x != []
  {
    x[..|x| - 1] + y
  }

  lemma TypedJoin(r: Rules, a: seq<Instr>, x: seq<Shape>, b: seq<Instr>, y: seq<Shape>)
    requires Typed(r, a, x) && Typed(r, b, y) && x[|a|] == y[0]
    ensures Typed(r, a + b, Join(x, y)) && Join(x, y)[0] == x[0] && Join(x, y)[|a + b|] == y[|b|]
  {
    hide Effect;
    var z := Join(x, y);
    forall p | 0 <= p < |a + b| ensures TypedAt(r, a + b, z, p) {
      if p < |a| {
        assert TypedAt(r, a, x, p);
        assert (a + b)[p] == a[p] && forall q | 0 <= q <= |a| :: z[q] == x[q];
      } else {
        assert TypedAt(r, b, y, p - |a|);
        assert (a + b)[p] == b[p - |a|] && forall q | |a| <= q <= |a + b| :: z[q] == y[q - |a|];
      }
    }
  }

  /** One instruction that goes on to the next. */
  lemma TypedOne(r: Rules, i: Instr, s: Shape, t: Shape)
    requires !i.Jump? && !i.Branch? && !i.Goto? && !i.Return? && Effect(i, s, r.own) == Some(t)
    requires s.depth >= r.own && t.depth >= r.own
    ensures Typed(r, [i], [s, t])
  {
    hide Effect;
  }

  lemma TypedNone(r: Rules, s: Shape)
    requires s.depth >= r.own
    ensures Typed(r, [], [s])
  {
  }

  lemma TakeOnes(slots: seq<Slot>, n: nat)
    ensures Take(slots + Ones(n), n) == Some(slots)
  {
    var all := slots + Ones(n);
    assert all[|all| - n..] == Ones(n) && all[..|all| - n] == slots;
  }

  lemma TakeOne(slots: seq<Slot>)
    ensures Take(slots + [One], 1) == Some(slots)
  {
    assert Ones(1) == [One];
    TakeOnes(slots, 1);
  }
}
