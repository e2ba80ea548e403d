/** Functions that control can leave only through a `return`, and the values and machines in
    which every function, however deeply hidden, is one of them. With `strict`, every
    function also has a stack typing and no value is the marker. */
module Sealing {
  import opened Sexps
  import opened Scoping
  import opened Builtins
  import opened Instructions
  import opened Machines
  import opened StackTypes

  /** Every jump goes forward and stays within the code, or goes back to the start. */
  predicate JumpsWithin(code: seq<Instr>) {
    forall p | 0 <= p < |code| ::
      match code[p]
      case Jump(l) => 0 < l && p + l <= |code|
      case Branch(_, l) => 0 < l && p + l <= |code|
      case Goto(l) => l == 0
      case _ => true
  }

  predicate ClosedBody(code: seq<Instr>) {
    code != [] && code[|code| - 1] == Return(false) && JumpsWithin(code[..|code| - 1])
  }

  greatest predicate GoodVal[nat](strict: bool, v: Value) {
    match v
    case Marker => !strict
    case Pair(h, t) => GoodVal(strict, h) && GoodVal(strict, t)
    case Arr(es) => forall i | 0 <= i < |es| :: GoodVal(strict, es[i])
    case Fun(f) => GoodFun(strict, f)
    case _ => true
  }

  greatest predicate GoodFun[nat](strict: bool, f: Function) {
    f.user ||
    (&& ClosedBody(f.fun) && (strict ==> TypedBody(f))
     && (forall i | 0 <= i < |f.fun| :: GoodInstr(strict, f.fun[i]))
     && (f.close.Some? ==>
           forall i, s :: 0 <= i < |f.close.value| && s in f.close.value[i] ==> GoodVal(strict, f.close.value[i][s])))
  }

  greatest predicate GoodInstr[nat](strict: bool, i: Instr) {
    match i
    case Push(e) => e.Marker? || GoodVal(strict, e)
    case PushClosure(f) => GoodFun(strict, f)
    case _ => true
  }

  ghost predicate GoodFrame(strict: bool, f: Frame) {
    forall s | s in f :: GoodVal(strict, f[s])
  }

  ghost predicate GoodFrames(strict: bool, fs: seq<Frame>) {
    forall i | 0 <= i < |fs| :: GoodFrame(strict, fs[i])
  }

  ghost predicate GoodVals(strict: bool, vs: seq<Value>) {
    forall i | 0 <= i < |vs| :: GoodVal(strict, vs[i])
  }

  /** Markers may stand on the data stack; nowhere else when `strict`. */
  ghost predicate GoodData(strict: bool, vs: seq<Value>) {
    forall i | 0 <= i < |vs| :: vs[i].Marker? || GoodVal(strict, vs[i])
  }

  /** A builtin that is handed no marker returns none. */
  ghost predicate MarkerFree(host: Host) {
    forall which, name, args :: host.prims(which, name, args).Some? && NoMarkers(args) ==>
        NoMarker(host.prims(which, name, args).value)
  }

  predicate NoMarker<F>(e: Sexp<F>) {
    match e
    case Marker => false
    case Pair(h, t) => NoMarker(h) && NoMarker(t)
    case Arr(es) => forall i | 0 <= i < |es| :: NoMarker(es[i])
    case _ => true
  }

  predicate NoMarkers<F>(es: seq<Sexp<F>>) {
    forall i | 0 <= i < |es| :: NoMarker(es[i])
  }

  /** Everything a machine can get a value from. */
  ghost predicate GoodState(strict: bool, m: Machine) {
    && GoodFrame(strict, m.glob) && GoodFrames(strict, m.locals) && GoodData(strict, m.data)
    && (forall i | 0 <= i < |m.saved| :: GoodFrames(strict, m.saved[i]))
    && (strict ==> MarkerFree(m.host))
  }

  // ---------- values ----------

  lemma {:induction false} GoodElems(strict: bool, e: Value)
    requires IsList(e) && GoodVal(strict, e)
    ensures GoodVals(strict, Elems(e))
  {
    if e.Pair? {
      GoodElems(strict, e.tail);
    }
  }

  lemma {:induction false} GoodMakeList(strict: bool, es: seq<Value>)
    requires GoodVals(strict, es)
    ensures GoodVal(strict, MakeList(es))
  {
    if es != [] {
      GoodMakeList(strict, es[1..]);
    }
  }

  lemma {:induction false} GoodLookup(strict: bool, fs: seq<Frame>, s: int)
    requires GoodFrames(strict, fs)
    ensures LookupLocal(fs, s).Some? ==> GoodVal(strict, LookupLocal(fs, s).value)
  {
    if fs != [] {
      GoodLookup(strict, fs[..|fs| - 1], s);
    }
  }

  lemma {:induction false} GoodAbove(strict: bool, data: seq<Value>)
    requires GoodData(strict, data) && ToMarker(data).Some?
    ensures GoodVals(strict, ToMarker(data).value.0) && GoodData(strict, ToMarker(data).value.1)
  {
    var n := |data| - 1;
    if !data[n].Marker? {
      GoodAbove(strict, data[..n]);
    }
  }

  lemma {:induction false} GoodRecast(strict: bool, d: Datum)
    requires strict ==> NoMarker(d)
    ensures GoodVal(strict, Recast(d))
  {
    match d
    case Pair(h, t) =>
      GoodRecast(strict, h);
      GoodRecast(strict, t);
    case Arr(es) =>
      forall i | 0 <= i < |es| ensures GoodVal(strict, Recast(es[i])) {
        GoodRecast(strict, es[i]);
      }
    case _ =>
  }

  lemma {:induction false} RecastNoMarker(v: Value)
    requires GoodVal(true, v)
    ensures NoMarker<()>(Recast(v))
  {
    match v
    case Pair(h, t) =>
      RecastNoMarker(h);
      RecastNoMarker(t);
    case Arr(es) =>
      forall i | 0 <= i < |es| ensures NoMarker<()>(Recast(es[i])) {
        RecastNoMarker(es[i]);
      }
    case _ =>
  }

  lemma GoodPrim(strict: bool, host: Host, which: string, name: string, args: seq<Value>)
    requires GoodVals(strict, args) && Prim(host, which, name, args).Some? && (strict ==> MarkerFree(host))
    ensures GoodVal(strict, Prim(host, which, name, args).value)
  {
    GoodMakeList(strict, args);
    if forall i | 0 <= i < |args| :: IsData(args[i]) {
      var ds: seq<Datum> := RecastAll(args);
      var d := host.prims(which, name, ds);
      if d.Some? {
        if strict {
          forall i | 0 <= i < |args| ensures NoMarker<()>(ds[i]) {
            RecastNoMarker(args[i]);
          }
          assert NoMarkers(ds);
        }
        GoodRecast(strict, d.value);
      }
    }
  }

  lemma GoodApplyArgs(strict: bool, e: Value)
    requires GoodVal(strict, e) && ApplyArgs(e).Some?
    ensures GoodVals(strict, ApplyArgs(e).value)
  {
    if e.Pair? {
      GoodElems(strict, e);
    }
  }

  // ---------- instructions that neither call nor return ----------

  lemma GoodCapture(strict: bool, code: seq<Instr>, locals: seq<Frame>)
    requires GoodFrames(strict, locals)
    ensures GoodFrame(strict, Capture(code, locals))
  {
    hide Mentions, LookupLocal;
    var c := Capture(code, locals);
    forall s | s in c ensures GoodVal(strict, c[s]) {
      GoodLookup(strict, locals, s);
    }
  }

  /** What `put` stores and what `explode` takes apart is no marker. */
  ghost predicate TopIsValue(i: Instr, m: Machine) {
    i.Put? && m.data != [] ==> !m.data[|m.data| - 1].Marker?
  }

  /** They keep all values good. */
  lemma PlainGood(strict: bool, i: Instr, m: Machine)
    requires GoodState(strict, m) && GoodInstr(strict, i) && Plain(i, m).Some? && (strict ==> TopIsValue(i, m))
    ensures GoodState(strict, Plain(i, m).value)
    ensures Plain(i, m).value.curfunc == m.curfunc && Plain(i, m).value.host == m.host
  {
    hide GoodVal, MarkerFree, ToMarker, Capture, LookupLocal;
    match i
    case PushClosure(f) => ClosureGood(strict, f, m);
    case Get(s) => GetGood(strict, s, m);
    case Put(s) => PutGood(strict, s, m);
    case Explode => ExplodeGood(strict, m);
    case Squash => GatherGood(strict, i, m);
    case Vectorize => GatherGood(strict, i, m);
    case _ =>
  }

  lemma ClosureGood(strict: bool, f: Function, m: Machine)
    requires GoodState(strict, m) && GoodFun(strict, f)
    ensures GoodState(strict, Plain(PushClosure(f), m).value)
  {
    hide MarkerFree, Mentions, LookupLocal;
    GoodCapture(strict, f.fun, m.locals);
    var scope := if f.user then [m.glob] + m.locals else [Capture(f.fun, m.locals)];
    var f' := f.(close := Some(scope));
    SameBody(f, f');
    assert GoodFun(strict, f');
  }

  /** A typing does not depend on what was captured. */
  lemma SameBody(f: Function, f': Function)
    requires f' == f.(close := f'.close)
    ensures TypedBody(f) ==> TypedBody(f')
  {
    if TypedBody(f) {
      var ts :| Types(f, ts);
      assert Types(f', ts);
    }
  }

  lemma GetGood(strict: bool, s: Symbol, m: Machine)
    requires GoodState(strict, m) && Plain(Get(s), m).Some?
    ensures GoodState(strict, Plain(Get(s), m).value)
  {
    hide GoodVal, MarkerFree, LookupLocal;
    GoodLookup(strict, m.locals, s.num);
  }

  lemma PutGood(strict: bool, s: Symbol, m: Machine)
    requires GoodState(strict, m) && Plain(Put(s), m).Some? && (strict ==> TopIsValue(Put(s), m))
    ensures GoodState(strict, Plain(Put(s), m).value)
  {
    hide MarkerFree;
    var v := m.data[|m.data| - 1];
    assert GoodVal(strict, v);
    hide GoodVal;
  }

  lemma ExplodeGood(strict: bool, m: Machine)
    requires GoodState(strict, m) && Plain(Explode, m).Some?
    ensures GoodState(strict, Plain(Explode, m).value)
  {
    hide MarkerFree, IsList;
    var n := |m.data| - 1;
    var es := Elems(m.data[n]);
    assert GoodVals(strict, es) by {
      NotMarkerList(m.data[n]);
      GoodElems(strict, m.data[n]);
    }
    hide GoodVal, Elems;
  }

  lemma NotMarkerList(e: Value)
    requires IsList(e)
    ensures !e.Marker?
  {
  }

  lemma GatherGood(strict: bool, i: Instr, m: Machine)
    requires GoodState(strict, m) && (i == Squash || i == Vectorize) && Plain(i, m).Some?
    ensures GoodState(strict, Plain(i, m).value)
  {
    hide MarkerFree, ToMarker;
    GoodAbove(strict, m.data);
    var (above, below) := ToMarker(m.data).value;
    GoodMakeList(strict, above);
    assert GoodVal(strict, Arr(above));
    hide GoodVal;
  }
}
