/** Texts whose compiled code means what they mean. `Regular` says of a text what the
    well-formedness predicate says of one function: every function in it, however deeply
    nested, has a body in which `tail` is set only where a jump is right. */
module Regularity {
  import opened Sexps
  import opened Scoping
  import opened Instructions
  import opened Codegen
  import opened Evaluator
  import opened Wellformed

  /** The names that evaluating `e` may bind in the scope it is evaluated in. */
  function Binds(e: Value): set<int>
    decreases Size(e), 0
  {
    match e
    case Pair(h, t) =>
      if !IsList(e) then {}
      else if h.Sym? then BindsForm(h.sym, Elems(t))
      else Binds(h) + BindsAll(Elems(t))
    case Arr(es) => BindsAll(es)
    case _ => {}
  }

  function BindsAll(es: seq<Value>): set<int>
    decreases SizeSeq(es), 0
  {
    if es == [] then {} else Binds(es[0]) + BindsAll(es[1..])
  }

  function BindsForm(s: Symbol, args: seq<Value>): set<int>
    decreases SizeSeq(args), 1
  {
    match FormOf(s.name)
    case Quote => {}
    case Fn => {}
    case Let => {}
    case LetStar => {}
    case Def => if |args| == 2 && args[0].Sym? then (SizeAt(args, 1); {args[0].sym.num} + Binds(args[1])) else {}
    case Defn => if args != [] && args[0].Sym? then {args[0].sym.num} else {}
    case SyntaxQuote => if |args| == 1 then BindsQuasi(args[0]) else {}
    case _ => BindsAll(args)
  }

  function BindsQuasi(x: Value): set<int>
    decreases Size(x), 0
  {
    if x.Arr? then BindsQuasiAll(x.elems)
    else if x.Pair? && IsList(x) then
      var es := Elems(x);
      if IsUnquote(es, "unquote") || IsUnquote(es, "unquote-splicing") then (SizeAt(es, 1); Binds(es[1]))
      else BindsQuasiAll(es)
    else {}
  }

  function BindsQuasiAll(xs: seq<Value>): set<int>
    decreases SizeSeq(xs), 0
  {
    if xs == [] then {} else BindsQuasi(xs[0]) + BindsQuasiAll(xs[1..])
  }

  // ---------- regular texts ----------

  /** The functions that may call themselves by jumping, by the numbers of their names. */
  type Loops = map<int, Closure>

  /** Where a text is evaluated. `Anyhow`: it does not matter. `Inner`: inside a function or a
      `let`, where at most these names are bound locally. `Outer`: in the global scope, where
      the functions of the table may be defined. */
  datatype Place = Anyhow | Inner(names: set<int>) | Outer(loops: Loops)

  function Wider(p: Place, names: set<int>): Place {
    if p.Inner? then Inner(p.names + names) else p
  }

  /** Inside a `let` or a function that captures. */
  function Enclosed(p: Place): Place {
    if p.Outer? then Inner({}) else p
  }

  /** Where `defn` compiles its function: it captures nothing. */
  function Apart(p: Place): Place {
    if p.Anyhow? then Anyhow else Inner({})
  }

  /** What a `defn` defines. */
  function Defined(s: Symbol, params: seq<Value>, body: seq<Value>): Closure {
    Closure(FunName(s.name), Some(s.num), params, body, map[])
  }

  /** The names of the table are bound to its functions and to nothing else. */
  predicate KeepsTable(p: Place, n: int, c: Option<Closure>) {
    p.Outer? && n in p.loops ==> c == Some(p.loops[n])
  }

  predicate MayLoop(p: Place, n: int) {
    p.Anyhow? || (p.Outer? && n in p.loops)
  }

  /** Every function in the evaluated parts of `e` is regular. Unless the place does not
      matter, also: no function but those of the table loops, and each one mentions itself
      the local names that functions nested in it need. */
  predicate Regular(a: Symbol, p: Place, e: Value)
    decreases Size(e), 0
  {
    match e
    case Pair(h, t) =>
      IsList(e) ==>
        if h.Sym? then RegularForm(a, p, h.sym, Elems(t)) else Regular(a, p, h) && RegularAll(a, p, Elems(t))
    case Arr(es) => RegularAll(a, p, es)
    case _ => true
  }

  predicate RegularAll(a: Symbol, p: Place, es: seq<Value>)
    decreases SizeSeq(es), 0
  {
    es == [] || (Regular(a, p, es[0]) && RegularAll(a, p, es[1..]))
  }

  predicate RegularForm(a: Symbol, p: Place, s: Symbol, args: seq<Value>)
    decreases SizeSeq(args), 1
  {
    match FormOf(s.name)
    case Quote => true
    case Def => RegularAll(a, p, args) && (|args| == 2 && args[0].Sym? ==> KeepsTable(p, args[0].sym.num, None))
    case Fn =>
      |args| >= 2 && args[0].Arr? ==>
        (SizeAt(args, 1); RegularFun(a, Enclosed(p), false, ANON, 0, args[0].elems, args[1..]))
    case Defn =>
      |args| >= 3 && args[1].Arr? && args[0].Sym? ==>
        (SizeAt(args, 2);
         var s, params, body := args[0].sym, args[1].elems, args[2..];
         && KeepsTable(p, s.num, Some(Defined(s, params, body)))
         && RegularFun(a, Apart(p), MayLoop(p, s.num), FunName(s.name), s.num, params, body))
    case Let => RegularLet(a, Enclosed(p), args)
    case LetStar => RegularLet(a, Enclosed(p), args)
    case SyntaxQuote => |args| == 1 ==> !Splice(args[0]) && RegularQuasi(a, p, args[0])
    case _ => RegularAll(a, p, args)
  }

  predicate RegularLet(a: Symbol, p: Place, args: seq<Value>)
    decreases SizeSeq(args), 0
  {
    |args| >= 2 && args[0].Arr? ==>
      var b := ParseBindings(args[0].elems);
      b.Bindings? ==>
        (SizeAt(args, 0);
         var inner := Wider(p, LetNames(b, args[1..]));
         RegularAll(a, inner, b.rights) && RegularAll(a, inner, args[1..]))
  }

  /** The names bound in the scope of a `let`. */
  function LetNames(b: Bindings, body: seq<Value>): set<int>
    requires b.Bindings?
  {
    Nums(b.names) + BindsAll(b.rights) + BindsAll(body)
  }

  predicate Splice(x: Value) {
    x.Pair? && IsList(x) && IsUnquote(Elems(x), "unquote-splicing")
  }

  predicate RegularQuasi(a: Symbol, p: Place, x: Value)
    decreases Size(x), 0
  {
    if x.Arr? then RegularQuasiAll(a, p, x.elems)
    else if x.Pair? && IsList(x) then
      var es := Elems(x);
      if IsUnquote(es, "unquote") || IsUnquote(es, "unquote-splicing") then (SizeAt(es, 1); Regular(a, p, es[1]))
      else RegularQuasiAll(a, p, es)
    else true
  }

  predicate RegularQuasiAll(a: Symbol, p: Place, xs: seq<Value>)
    decreases SizeSeq(xs), 0
  {
    xs == [] || (RegularQuasi(a, p, xs[0]) && RegularQuasiAll(a, p, xs[1..]))
  }

  /** A function text; `may` says that it may call itself by jumping. */
  predicate RegularFun(a: Symbol, p: Place, may: bool, name: string, num: int, params: seq<Value>,
                       body: seq<Value>)
    decreases SizeSeq(body), 2
  {
    var ps, b := ParseParams(params), BuildFun(a, name, params, body);
    && ps.Params? && b.err == Ok
    && RegularAll(a, Wider(p, Nums(ps.names) + BindsAll(body)), body)
    && (p.Inner? ==> forall s | s in Nested(b.fn.fun) && s in p.names :: s in Mentions(b.fn.fun))
    && (|| WFBegin(a, name, body, Gst(true, 0), Ctx(true, num, ps.nargs, false, true, 0))
        || (may && !ps.varargs && WFBegin(a, name, body, Gst(true, 0), Ctx(true, num, ps.nargs, true, true, 0))))
  }

  lemma RegularTail(a: Symbol, p: Place, es: seq<Value>)
    requires RegularAll(a, p, es) && |es| >= 2
    ensures Regular(a, p, es[0]) && Regular(a, p, es[1]) && RegularAll(a, p, es[2..])
  {
    hide Regular;
    assert es[1..][1..] == es[2..] && es[1..][0] == es[1];
  }

  // ---------- the functions that loop ----------

  /** The functions that evaluating `e` in the global scope may define there and whose body
      is well-formed only as that of a function that loops. */
  function LoopsIn(a: Symbol, e: Value): Loops
    decreases Size(e), 0
  {
    match e
    case Pair(h, t) =>
      if !IsList(e) then map[]
      else if h.Sym? then LoopsForm(a, h.sym, Elems(t))
      else LoopsIn(a, h) + LoopsAll(a, Elems(t))
    case Arr(es) => LoopsAll(a, es)
    case _ => map[]
  }

  function LoopsAll(a: Symbol, es: seq<Value>): Loops
    decreases SizeSeq(es), 0
  {
    if es == [] then map[] else LoopsIn(a, es[0]) + LoopsAll(a, es[1..])
  }

  function LoopsForm(a: Symbol, s: Symbol, args: seq<Value>): Loops
    decreases SizeSeq(args), 1
  {
    match FormOf(s.name)
    case Quote => map[]
    case Fn => map[]
    case Let => map[]
    case LetStar => map[]
    case Defn =>
      if |args| >= 3 && args[1].Arr? && args[0].Sym? then
        var s, params, body := args[0].sym, args[1].elems, args[2..];
        if Straight(a, s, params, body) then map[] else map[s.num := Defined(s, params, body)]
      else map[]
    case SyntaxQuote => if |args| == 1 then LoopsQuasi(a, args[0]) else map[]
    case _ => LoopsAll(a, args)
  }

  /** A function that need not loop. */
  predicate Straight(a: Symbol, s: Symbol, params: seq<Value>, body: seq<Value>) {
    && ParseParams(params).Params?
    && WFBegin(a, FunName(s.name), body, Gst(true, 0), Ctx(true, s.num, ParseParams(params).nargs, false, true, 0))
  }

  function LoopsQuasi(a: Symbol, x: Value): Loops
    decreases Size(x), 0
  {
    if x.Arr? then LoopsQuasiAll(a, x.elems)
    else if x.Pair? && IsList(x) then
      var es := Elems(x);
      if IsUnquote(es, "unquote") || IsUnquote(es, "unquote-splicing") then (SizeAt(es, 1); LoopsIn(a, es[1]))
      else LoopsQuasiAll(a, es)
    else map[]
  }

  function LoopsQuasiAll(a: Symbol, xs: seq<Value>): Loops
    decreases SizeSeq(xs), 0
  {
    if xs == [] then map[] else LoopsQuasi(a, xs[0]) + LoopsQuasiAll(a, xs[1..])
  }
}
