/** The relation between evaluator scopes and machine states, and the single steps of the
    correctness proof. Own scopes (the function's fresh scope and its open `let`s) are
    translated exactly; below them only the names that the running code uses must agree,
    because a machine function sees its captured bindings and not the whole environment. */
module Simulation {
  import opened Sexps
  import opened Scoping
  import opened Instructions
  import opened Codegen
  import opened Machines
  import opened Runs
  import opened Evaluator
  import opened Translation
  import opened Wellformed

  /** The evaluator applies only functions that compilation preserves. */
  ghost predicate Strict(sc: Scopes) {
    sc.host.Valid() && forall f, g :: sc.ok(f, g) ==> Preserved(sc.host, f, g)
  }

  function Needs(code: seq<Instr>): set<int> {
    Mentions(code) + Nested(code)
  }

  function Top<T>(s: seq<T>, n: nat): seq<T> {
    if n <= |s| then s[|s| - n..] else []
  }

  function Below<T>(s: seq<T>, n: nat): seq<T> {
    if n <= |s| then s[..|s| - n] else []
  }

  /** A looping function's scopes never bind its own name, and its first scope, which the
      next iteration reuses, binds nothing but parameters. */
  ghost predicate Tidy(sc: Scopes, c: Closure, cx: Ctx) {
    cx.loops ==>
      && c.Closure? && ParseParams(c.params).Params? && cx.Own() <= |sc.locals|
      && (forall i | |sc.locals| - cx.Own() <= i < |sc.locals| :: cx.num !in sc.locals[i])
      && (cx.Own() > 0 ==> sc.locals[|sc.locals| - cx.Own()].Keys <= Nums(ParseParams(c.params).names))
  }

  /** The scopes a call pushes below the function's own. */
  function CloseFrames(a: Symbol, c: Closure): seq<Frame> {
    var f := TrFn(a, c);
    if f.close.Some? then f.close.value else []
  }

  ghost predicate Agree(a: Symbol, frames: seq<Frame>, eframes: seq<EFrame>, names: set<int>) {
    forall s | s in names :: LookupLocal(frames, s) == TrOption(a, LookupLocal(eframes, s))
  }

  ghost predicate Rel(m: Machine, sc: Scopes, c: Closure, cx: Ctx) {
    var n, a := cx.Own(), m.host.arr;
    && sc.host == m.host && Strict(sc) && !m.curfunc.user
    && m.glob == TrFrame(a, sc.glob)
    && n <= |m.locals| && |sc.locals| == n + (if cx.inFn then 1 else 0)
    && (!cx.inFn ==> |m.locals| == n)
    && Top(m.locals, n) == TrFrames(a, Top(sc.locals, n))
    && Agree(a, Below(m.locals, n), Below(sc.locals, n), Needs(m.curfunc.fun))
    && (cx.inFn ==>
          && m.curfunc == TrFn(a, c) && Preserved(m.host, c, sc.glob)
          && Below(m.locals, n) == CloseFrames(a, c) && Below(sc.locals, n) == [c.env])
    && (cx.loops || cx.safe ==> cx.inFn)
    && (cx.loops ==>
          && NamesItself(m.host, c, sc.glob) && c.num == Some(cx.num)
          && cx.nargs == ParseParams(c.params).nargs)
    && Tidy(sc, c, cx)
  }

  predicate CodeAt(m: Machine, off: int, code: seq<Instr>) {
    && !m.curfunc.user
    && 0 <= m.pc + off && m.pc + off + |code| <= |m.curfunc.fun|
    && m.curfunc.fun[m.pc + off..m.pc + off + |code|] == code
  }

  lemma CodeSplit(m: Machine, off: int, x: seq<Instr>, y: seq<Instr>)
    requires CodeAt(m, off, x + y)
    ensures CodeAt(m, off, x) && CodeAt(m, off + |x|, y)
  {
    var p := m.pc + off;
    assert m.curfunc.fun[p..p + |x|] == (x + y)[..|x|] == x;
    assert m.curfunc.fun[p + |x|..p + |x| + |y|] == (x + y)[|x|..] == y;
  }

  lemma CodeHead(m: Machine, off: int, code: seq<Instr>)
    requires CodeAt(m, off, code) && code != []
    ensures 0 <= m.pc + off < |m.curfunc.fun| && m.curfunc.fun[m.pc + off] == code[0]
  {
    assert m.curfunc.fun[m.pc + off..m.pc + off + |code|][0] == code[0];
  }

  // ---------- the states an expression passes through ----------

  /** `m`, `off` instructions further on, with `vs` pushed and the scopes `sc`. */
  function Advance(m: Machine, n: nat, off: int, vs: seq<V>, sc: Scopes): Machine {
    m.(pc := m.pc + off, data := m.data + TrAll(m.host.arr, vs), glob := TrFrame(m.host.arr, sc.glob),
       locals := Below(m.locals, n) + TrFrames(m.host.arr, Top(sc.locals, n)))
  }

  /** `m` runs to that state. */
  ghost predicate Yields(m: Machine, c: Closure, cx: Ctx, off: int, vs: seq<V>, sc: Scopes) {
    && cx.Own() <= |m.locals| && cx.Own() <= |sc.locals|
    && Tidy(sc, c, cx)
    && Reaches(m, Advance(m, cx.Own(), off, vs, sc))
  }

  /** `m` at the last instruction of its function, with `v` pushed. */
  function AtReturn(m: Machine, v: V, locals: seq<Frame>): Machine {
    m.(pc := |m.curfunc.fun| - 1, data := m.data + [TrVal(m.host.arr, v)], locals := locals)
  }

  /** `m` runs to the final `return` of its function with `v` pushed, whatever scopes are
      still open there: how a self tail call leaves the code that follows it. */
  ghost predicate Exits(m: Machine, v: V) {
    exists locals :: Reaches(m, AtReturn(m, v, locals))
  }

  ghost predicate Lands(m: Machine, c: Closure, cx: Ctx, off: int, v: V, sc: Scopes) {
    Yields(m, c, cx, off, [v], sc) || (cx.safe && Exits(m, v))
  }

  lemma AdvanceHere(m: Machine, sc: Scopes, c: Closure, cx: Ctx)
    requires Rel(m, sc, c, cx)
    ensures Yields(m, c, cx, 0, [], sc)
  {
    hide Strict, Reaches, Preserved, TrFn, Agree;
    assert Below(m.locals, cx.Own()) + Top(m.locals, cx.Own()) == m.locals;
    assert Advance(m, cx.Own(), 0, [], sc) == m;
    Stays(m);
  }

  lemma RelUnsafe(m: Machine, sc: Scopes, c: Closure, cx: Ctx)
    requires Rel(m, sc, c, cx)
    ensures Rel(m, sc, c, cx.Unsafe())
  {
    hide Strict, Preserved, TrFn, Agree;
  }

  lemma YieldsUnsafe(m: Machine, c: Closure, cx: Ctx, off: int, vs: seq<V>, sc: Scopes)
    requires Yields(m, c, cx.Unsafe(), off, vs, sc)
    ensures Yields(m, c, cx, off, vs, sc)
  {
    hide Reaches;
  }

  lemma RelAdvance(m: Machine, sc: Scopes, c: Closure, cx: Ctx, off: int, vs: seq<V>, sc': Scopes)
    requires Rel(m, sc, c, cx) && Follows(sc, sc') && Yields(m, c, cx, off, vs, sc')
    ensures Rel(Advance(m, cx.Own(), off, vs, sc'), sc', c, cx)
  {
    hide Reaches, Preserved, TrFn, Agree;
    var n := cx.Own();
    var m' := Advance(m, n, off, vs, sc');
    assert Below(m'.locals, n) == Below(m.locals, n);
    assert Top(m'.locals, n) == TrFrames(m.host.arr, Top(sc'.locals, n));
    assert Below(sc'.locals, n) == Below(sc.locals, n) by {
      if cx.inFn {
        var L := |sc.locals|;
        assert sc'.locals[..L - 1][..L - n] == sc.locals[..L - 1][..L - n];
      }
    }
  }

  lemma AdvanceTwice(m: Machine, n: nat, off: int, vs: seq<V>, sc: Scopes, off': int, vs': seq<V>, sc': Scopes)
    requires n <= |m.locals| && n <= |sc.locals| && n <= |sc'.locals|
    ensures Advance(Advance(m, n, off, vs, sc), n, off', vs', sc') == Advance(m, n, off + off', vs + vs', sc')
  {
    TrAppend(m.host.arr, vs, vs');
    var m1 := Advance(m, n, off, vs, sc);
    assert Below(m1.locals, n) == Below(m.locals, n);
  }

  lemma Chain(m: Machine, c: Closure, cx: Ctx, off: int, vs: seq<V>, sc: Scopes, off': int, vs': seq<V>, sc': Scopes)
    requires Yields(m, c, cx, off, vs, sc)
    requires Yields(Advance(m, cx.Own(), off, vs, sc), c, cx, off', vs', sc')
    ensures Yields(m, c, cx, off + off', vs + vs', sc')
  {
    hide Reaches, Tidy;
    AdvanceTwice(m, cx.Own(), off, vs, sc, off', vs', sc');
    Transitive(m, Advance(m, cx.Own(), off, vs, sc), Advance(m, cx.Own(), off + off', vs + vs', sc'));
  }

  lemma ExitsFrom(m: Machine, m': Machine, v: V)
    requires Reaches(m, m') && m' == m.(pc := m'.pc, locals := m'.locals)
    requires Exits(m', v)
    ensures Exits(m, v)
  {
    hide Reaches;
    var locals :| Reaches(m', AtReturn(m', v, locals));
    Transitive(m, m', AtReturn(m, v, locals));
  }

  /** A last subexpression, started with the data stack as `m` has it. */
  lemma ChainLands(m: Machine, sc0: Scopes, c: Closure, cx: Ctx, off: int, sc: Scopes, off': int, v: V, sc': Scopes)
    requires Rel(m, sc0, c, cx) && Follows(sc0, sc)
    requires Yields(m, c, cx, off, [], sc)
    requires Lands(Advance(m, cx.Own(), off, [], sc), c, cx, off', v, sc')
    ensures Lands(m, c, cx, off + off', v, sc')
  {
    hide Reaches, Exits, Strict, Preserved, TrFn, Agree, Tidy;
    var m' := Advance(m, cx.Own(), off, [], sc);
    if Yields(m', c, cx, off', [v], sc') {
      Chain(m, c, cx, off, [], sc, off', [v], sc');
      assert [] + [v] == [v];
    } else {
      assert m'.data == m.data;
      ExitsFrom(m, m', v);
    }
  }

  // ---------- single instructions at such states ----------

  /** One more instruction that leaves the scopes alone. */
  lemma Then(m: Machine, c: Closure, cx: Ctx, off: int, vs: seq<V>, sc: Scopes, k: nat, off': int, vs': seq<V>)
    requires Yields(m, c, cx, off, vs, sc)
    requires Exec(k, Advance(m, cx.Own(), off, vs, sc)) == Some(Advance(m, cx.Own(), off', vs', sc))
    ensures Yields(m, c, cx, off', vs', sc)
  {
    hide Exec, Reaches, Tidy;
    ThenStep(m, Advance(m, cx.Own(), off, vs, sc), k, Advance(m, cx.Own(), off', vs', sc));
  }

  lemma DataPush(a: Symbol, data: seq<Value>, vs: seq<V>, v: V)
    ensures data + TrAll(a, vs) + [TrVal(a, v)] == data + TrAll(a, vs + [v])
  {
    hide TrVal;
  }

  lemma StepPush(m: Machine, c: Closure, cx: Ctx, off: int, vs: seq<V>, sc: Scopes, v: V, vs': seq<V>)
    requires Yields(m, c, cx, off, vs, sc) && vs' == vs + [v]
    requires CodeAt(m, off, [Push(TrVal(m.host.arr, v))])
    ensures Yields(m, c, cx, off + 1, vs', sc)
  {
    hide TrVal, TrAll, TrFrame, TrFrames, Reaches, Yields;
    DataPush(m.host.arr, m.data, vs, v);
    CodeHead(m, off, [Push(TrVal(m.host.arr, v))]);
    Then(m, c, cx, off, vs, sc, 0, off + 1, vs');
  }

  lemma DataTop(a: Symbol, data: seq<Value>, vs: seq<V>, v: V)
    ensures var d := data + TrAll(a, vs + [v]);
            && |d| > 0 && d[|d| - 1] == TrVal(a, v) && d[..|d| - 1] == data + TrAll(a, vs)
  {
    hide TrVal;
    DataPush(a, data, vs, v);
  }

  lemma StepPop(m: Machine, c: Closure, cx: Ctx, off: int, vs: seq<V>, v: V, sc: Scopes, vs': seq<V>)
    requires Yields(m, c, cx, off, vs', sc) && vs' == vs + [v]
    requires CodeAt(m, off, [Pop])
    ensures Yields(m, c, cx, off + 1, vs, sc)
  {
    hide TrVal, TrAll, TrFrame, TrFrames, Reaches, Yields;
    DataTop(m.host.arr, m.data, vs, v);
    CodeHead(m, off, [Pop]);
    Then(m, c, cx, off, vs', sc, 0, off + 1, vs);
  }

  lemma StepDup(m: Machine, c: Closure, cx: Ctx, off: int, v: V, sc: Scopes)
    requires Yields(m, c, cx, off, [v], sc)
    requires CodeAt(m, off, [Dup])
    ensures Yields(m, c, cx, off + 1, [v, v], sc)
  {
    hide TrVal, TrAll, TrFrame, TrFrames, Reaches, Yields;
    assert [] + [v] == [v] && [v] + [v] == [v, v];
    DataTop(m.host.arr, m.data, [], v);
    DataPush(m.host.arr, m.data, [v], v);
    CodeHead(m, off, [Dup]);
    Then(m, c, cx, off, [v], sc, 0, off + 1, [v, v]);
  }

  lemma StepBranch(m: Machine, c: Closure, cx: Ctx, off: int, vs: seq<V>, v: V, sc: Scopes, dir: bool, l: int,
                   vs': seq<V>)
    requires Yields(m, c, cx, off, vs', sc) && vs' == vs + [v]
    requires CodeAt(m, off, [Branch(dir, l)])
    requires 0 <= m.pc + off + l <= |m.curfunc.fun|
    ensures Yields(m, c, cx, if dir == IsTruthy(v) then off + l else off + 1, vs, sc)
  {
    hide TrVal, TrAll, TrFrame, TrFrames, Reaches, Yields;
    DataTop(m.host.arr, m.data, vs, v);
    TrTruthy(m.host.arr, v);
    CodeHead(m, off, [Branch(dir, l)]);
    Then(m, c, cx, off, vs', sc, 0, if dir == IsTruthy(v) then off + l else off + 1, vs);
  }

  lemma StepJump(m: Machine, c: Closure, cx: Ctx, off: int, vs: seq<V>, sc: Scopes, l: int)
    requires Yields(m, c, cx, off, vs, sc)
    requires CodeAt(m, off, [Jump(l)]) && 0 <= m.pc + off + l <= |m.curfunc.fun|
    ensures Yields(m, c, cx, off + l, vs, sc)
  {
    hide TrVal, TrAll, TrFrame, TrFrames, Reaches, Yields;
    CodeHead(m, off, [Jump(l)]);
    Then(m, c, cx, off, vs, sc, 0, off + l, vs);
  }

  lemma ExecExplode(m: Machine, d: seq<Value>, e: Value)
    requires CodeAt(m, 0, [Explode]) && m.data == d + [e] && IsList(e)
    ensures Exec(0, m) == Some(m.(pc := m.pc + 1, data := d + Elems(e)))
  {
    hide Elems, IsList;
    CodeHead(m, 0, [Explode]);
    assert m.data[..|m.data| - 1] == d;
  }

  lemma StepExplode(m: Machine, c: Closure, cx: Ctx, off: int, v: V, sc: Scopes)
    requires Yields(m, c, cx, off, [v], sc) && IsList(v)
    requires CodeAt(m, off, [Explode])
    ensures Yields(m, c, cx, off + 1, Elems(v), sc)
  {
    hide Elems, IsList, TrVal, TrAll, TrFrame, TrFrames, Exec, Reaches, Yields;
    var a, m1 := m.host.arr, Advance(m, cx.Own(), off, [v], sc);
    assert [] + [v] == [v];
    DataPush(a, m.data, [], v);
    TrList(a, v);
    assert m.data + TrAll(a, []) == m.data by {
      TrNothing(a, m.data);
    }
    ExecExplode(m1, m.data, TrVal(a, v));
    Then(m, c, cx, off, [v], sc, 0, off + 1, Elems(v));
  }

  lemma TrNothing(a: Symbol, data: seq<Value>)
    ensures data + TrAll(a, []) == data
  {
  }

  lemma {:induction false} MarkerFound(data: seq<Value>, above: seq<Value>)
    requires forall i | 0 <= i < |above| :: !above[i].Marker?
    ensures ToMarker(data + [Marker] + above) == Some((above, data))
  {
    var d := data + [Marker] + above;
    if above == [] {
      assert d[..|d| - 1] == data;
    } else {
      var n := |above| - 1;
      assert d[..|d| - 1] == data + [Marker] + above[..n];
      MarkerFound(data, above[..n]);
      assert above[..n] + [above[n]] == above;
    }
  }

  /** What `Squash` and `Vectorize` make of the values above the marker. */
  function Gathered<F>(i: Instr, vs: seq<Sexp<F>>): Sexp<F> {
    if i == Squash then MakeList(vs) else Arr(vs)
  }

  lemma ExecGather(m: Machine, d: seq<Value>, above: seq<Value>, i: Instr)
    requires CodeAt(m, 0, [i]) && m.data == d + [Marker] + above
    requires i == Squash || i == Vectorize
    requires forall j | 0 <= j < |above| :: !above[j].Marker?
    ensures Exec(0, m) == Some(m.(pc := m.pc + 1, data := d + [Gathered(i, above)]))
  {
    hide ToMarker, MakeList;
    CodeHead(m, 0, [i]);
    MarkerFound(d, above);
  }

  /** Gathering back to the marker takes exactly the values pushed since. */
  lemma StepGather(m: Machine, c: Closure, cx: Ctx, off: int, ws: seq<V>, sc: Scopes, i: Instr)
    requires Yields(m, c, cx, off, [Marker] + ws, sc) && Marker !in ws
    requires i == Squash || i == Vectorize
    requires CodeAt(m, off, [i])
    ensures Yields(m, c, cx, off + 1, [Gathered(i, ws)], sc)
  {
    hide TrFrame, TrFrames, Exec, Reaches, Yields, MakeList;
    var a := m.host.arr;
    TrMakeList(a, ws);
    forall j | 0 <= j < |ws| ensures !TrAll(a, ws)[j].Marker? {
      assert ws[j] != Marker;
    }
    assert m.data + TrAll(a, [Marker] + ws) == m.data + [Marker] + TrAll(a, ws);
    ExecGather(Advance(m, cx.Own(), off, [Marker] + ws, sc), m.data, TrAll(a, ws), i);
    assert m.data + TrAll(a, [Gathered(i, ws)]) == m.data + [Gathered(i, TrAll(a, ws))];
    Then(m, c, cx, off, [Marker] + ws, sc, 0, off + 1, [Gathered(i, ws)]);
  }

  // ---------- scopes ----------

  lemma LookupRel(m: Machine, sc: Scopes, c: Closure, cx: Ctx, s: int)
    requires Rel(m, sc, c, cx) && s in Needs(m.curfunc.fun)
    ensures LookupLocal(m.locals, s) == TrOption(m.host.arr, LookupLocal(sc.locals, s))
    ensures Lookup(m.glob, m.locals, s) == TrOption(m.host.arr, Lookup(sc.glob, sc.locals, s))
  {
    hide Rel, TrFn, TrVal, Needs, LookupLocal;
    var n := cx.Own();
    LookupParts(m, sc, c, cx, s);
    assert m.locals == Below(m.locals, n) + Top(m.locals, n);
    assert sc.locals == Below(sc.locals, n) + Top(sc.locals, n);
    hide Below, Top, TrFrames;
    LookupAppend(Below(m.locals, n), Top(m.locals, n), s);
    LookupAppend(Below(sc.locals, n), Top(sc.locals, n), s);
    TrLookupLocal(m.host.arr, Top(sc.locals, n), s);
  }

  lemma LookupParts(m: Machine, sc: Scopes, c: Closure, cx: Ctx, s: int)
    requires Rel(m, sc, c, cx) && s in Needs(m.curfunc.fun)
    ensures cx.Own() <= |m.locals| && cx.Own() <= |sc.locals|
    ensures Top(m.locals, cx.Own()) == TrFrames(m.host.arr, Top(sc.locals, cx.Own()))
    ensures LookupLocal(Below(m.locals, cx.Own()), s) ==
            TrOption(m.host.arr, LookupLocal(Below(sc.locals, cx.Own()), s))
    ensures m.glob == TrFrame(m.host.arr, sc.glob)
  {
    hide Strict, Preserved, TrFn, TrFrame, TrFrames, Top, Below, Tidy, TrVal, Needs, LookupLocal, NamesItself;
  }

  lemma MentionsAt(code: seq<Instr>, i: nat)
    requires i < |code|
    ensures InstrMentions(code[i]) <= Needs(code) && InstrNested(code[i]) <= Needs(code)
  {
    hide InstrMentions, InstrNested;
    forall s | s in InstrMentions(code[i]) ensures s in Mentions(code) {
    }
    forall s | s in InstrNested(code[i]) ensures s in Nested(code) {
    }
  }

  lemma StepGet(m: Machine, sc: Scopes, c: Closure, cx: Ctx, s: Symbol, v: V)
    requires Rel(m, sc, c, cx) && CodeAt(m, 0, [Get(s)])
    requires Lookup(sc.glob, sc.locals, s.num) == Some(v)
    ensures Yields(m, c, cx, 1, [v], sc)
  {
    hide Rel, Yields, Reaches, TrVal, TrAll, TrFrame, TrFrames, Needs, LookupLocal, Top, Below;
    CodeHead(m, 0, [Get(s)]);
    MentionsAt(m.curfunc.fun, m.pc);
    assert s.num in InstrMentions(m.curfunc.fun[m.pc]);
    LookupRel(m, sc, c, cx, s.num);
    AdvanceHere(m, sc, c, cx);
    AdvanceIs(m, sc, c, cx);
    DataPush(m.host.arr, m.data, [], v);
    TrNothing(m.host.arr, m.data);
    assert [] + [v] == [v];
    Then(m, c, cx, 0, [], sc, 0, 1, [v]);
  }

  lemma AdvanceIs(m: Machine, sc: Scopes, c: Closure, cx: Ctx)
    requires Rel(m, sc, c, cx)
    ensures Advance(m, cx.Own(), 0, [], sc) == m
  {
    hide Strict, Preserved, TrFn, Agree, Tidy;
    assert Below(m.locals, cx.Own()) + Top(m.locals, cx.Own()) == m.locals;
  }

  lemma TrBind(a: Symbol, f: EFrame, s: int, v: V)
    ensures TrFrame(a, f[s := v]) == TrFrame(a, f)[s := TrVal(a, v)]
  {
    hide TrVal;
  }

  lemma ExecPut(m: Machine, d: seq<Value>, e: Value, s: Symbol)
    requires CodeAt(m, 0, [Put(s)]) && m.data == d + [e]
    ensures Exec(0, m) == Some(m.(pc := m.pc + 1, data := d).Bind(s.num, e))
  {
    CodeHead(m, 0, [Put(s)]);
    assert m.data[..|m.data| - 1] == d;
  }

  lemma BindAdvance(m: Machine, n: nat, off: int, vs: seq<V>, sc: Scopes, s: int, v: V)
    requires n <= |m.locals| && n <= |sc.locals|
    requires n == 0 ==> m.locals == [] && sc.locals == []
    ensures Advance(m, n, off, vs, sc).Bind(s, TrVal(m.host.arr, v)) == Advance(m, n, off, vs, sc.Bind(s, v))
  {
    hide TrVal, TrAll, TrFrame;
    var a, sc' := m.host.arr, sc.Bind(s, v);
    if n == 0 {
      TrBind(a, sc.glob, s, v);
    } else {
      TrBind(a, sc.locals[|sc.locals| - 1], s, v);
      var own, own' := TrFrames(a, Top(sc.locals, n)), TrFrames(a, Top(sc'.locals, n));
      assert own' == own[n - 1 := own[n - 1][s := TrVal(a, v)]];
      var full := Below(m.locals, n) + own;
      assert full[|full| - 1 := full[|full| - 1][s := TrVal(a, v)]] == Below(m.locals, n) + own';
    }
  }

  /** Binding keeps a looping function's scopes tidy. */
  lemma BindTidy(sc: Scopes, c: Closure, cx: Ctx, s: Symbol, v: V)
    requires Tidy(sc, c, cx) && MayBind(s, cx.depth, cx)
    requires cx.loops ==> cx.inFn
    ensures Tidy(sc.Bind(s.num, v), c, cx)
  {
  }

  lemma StepPut(m: Machine, sc0: Scopes, c: Closure, cx: Ctx, off: int, vs: seq<V>, v: V, sc: Scopes, s: Symbol,
                vs': seq<V>)
    requires Rel(m, sc0, c, cx) && Follows(sc0, sc) && MayBind(s, cx.depth, cx)
    requires Yields(m, c, cx, off, vs', sc) && vs' == vs + [v]
    requires CodeAt(m, off, [Put(s)])
    ensures Yields(m, c, cx, off + 1, vs, sc.Bind(s.num, v))
  {
    hide Strict, Preserved, TrFn, Agree, Tidy, TrVal, TrAll, TrFrame, TrFrames, Exec, Reaches, Top, Below,
         NamesItself, MayBind;
    var n, a := cx.Own(), m.host.arr;
    DataPush(a, m.data, vs, v);
    ExecPut(Advance(m, n, off, vs', sc), m.data + TrAll(a, vs), TrVal(a, v), s);
    BindAdvance(m, n, off + 1, vs, sc, s.num, v);
    BindTidy(sc, c, cx, s, v);
    ThenStep(m, Advance(m, n, off, vs', sc), 0, Advance(m, n, off + 1, vs, sc.Bind(s.num, v)));
  }
}
