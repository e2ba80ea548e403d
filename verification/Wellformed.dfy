/** The source shapes whose compiled code means what the source means.

    `generator.go` leaves `tail` set in positions that are not tail positions (right-hand
    sides of `let`, array elements, operands of a computed call, `assert`, unquotes), where
    a self call would discard pending work; a self tail call enters the body again in the
    same scope, without the arity check; and several callers drop generation errors. */
module Wellformed {
  import opened Sexps
  import opened Scoping
  import opened Builtins
  import opened Instructions
  import opened Codegen
  import opened Evaluator

  /** Where an expression stands. `num` and `nargs` are those of the enclosing function,
      `loops` says that it calls itself in tail position; `safe`, that this position is
      one; `depth` counts the `let` scopes open around it. */
  datatype Ctx = Ctx(inFn: bool, num: int, nargs: nat, loops: bool, safe: bool, depth: nat)
  {
    function Unsafe(): Ctx {
      this.(safe := false)
    }

    /** The scopes of the current function or of the main program. */
    function Own(): nat {
      depth + if inFn then 1 else 0
    }
  }

  const MAIN := Ctx(false, 0, 0, false, false, 0)

  /** A function that loops may bind neither its own name nor, in the scope that the next
      iteration reuses, any name but its parameters. */
  predicate MayBind(s: Symbol, atDepth: nat, cx: Ctx) {
    cx.loops ==> atDepth > 0 && s.num != cx.num
  }

  /** A form leaves `scopes` as it found it and never turns `tail` on. */
  predicate Keeps(g: Gst, st: Gst) {
    st.scopes == g.scopes && (st.tail ==> g.tail)
  }

  predicate WF(a: Symbol, fname: string, e: Source, g: Gst, cx: Ctx)
    decreases Size(e), 0
  {
    match e
    case Sym(_) => true
    case Pair(h, t) =>
      if !IsList(e) then IsData(e)
      else if h.Sym? then WFForm(a, fname, h.sym, Elems(t), g, cx)
      else
        var args := Elems(t);
        var o := GenAll(a, fname, args, g);
        && WFAll(a, fname, args, g, cx.Unsafe()) && o.err == Ok
        && WF(a, fname, h, o.st, cx.Unsafe()) && Gen(a, fname, h, o.st).err == Ok
    case Arr(es) => WFAll(a, fname, es, g, cx.Unsafe())
    case _ => IsData(e)
  }

  predicate WFAll(a: Symbol, fname: string, es: seq<Source>, g: Gst, cx: Ctx)
    decreases SizeSeq(es), 1
  {
    es == [] ||
    (&& WF(a, fname, es[0], g, cx)
     && WFAll(a, fname, es[1..], Gen(a, fname, es[0], g).st, cx))
  }

  predicate WFBegin(a: Symbol, fname: string, es: seq<Source>, g: Gst, cx: Ctx)
    decreases SizeSeq(es), 2
  {
    && es != []
    && var n := |es| - 1;
       SizeAt(es, n);
       && WFAll(a, fname, es[..n], g.(tail := false), cx.Unsafe())
       && WF(a, fname, es[n], GenPops(a, fname, es[..n], g.(tail := false)).st.(tail := g.tail), cx)
  }

  predicate WFShort(a: Symbol, fname: string, es: seq<Source>, g: Gst, cx: Ctx)
    requires es != []
    decreases SizeSeq(es), 2
  {
    if |es| == 1 then WF(a, fname, es[0], g, cx) && Gen(a, fname, es[0], g).err == Ok
    else
      && WF(a, "", es[0], Gst(false, 0), cx.Unsafe()) && Gen(a, "", es[0], Gst(false, 0)).err == Ok
      && WFShort(a, fname, es[1..], g, cx)
  }

  predicate WFCond(a: Symbol, fname: string, es: seq<Source>, g: Gst, cx: Ctx)
    requires |es| % 2 == 1
    decreases SizeSeq(es), 2
  {
    if |es| == 1 then WF(a, fname, es[0], g, cx)
    else
      SizeAt(es, 1);
      SizeAt(es, 2);
      && WF(a, fname, es[0], Gst(false, 0), cx.Unsafe())
      && WF(a, fname, es[1], g, cx)
      && WFCond(a, fname, es[2..], g, cx)
  }

  predicate WFLet(a: Symbol, fname: string, star: bool, args: seq<Source>, g: Gst, cx: Ctx)
    decreases SizeSeq(args), 3
  {
    && |args| >= 2 && args[0].Arr?
    && var b := ParseBindings(args[0].elems);
       && b.Bindings?
       && (forall i | 0 <= i < |b.names| :: MayBind(b.names[i], cx.depth + 1, cx))
       && var inner := cx.(depth := cx.depth + 1);
          var g1 := g.(scopes := g.scopes + 1);
          SizeAt(args, 0);
          && WFAll(a, fname, b.rights, g1, inner.Unsafe())
          && WFBegin(a, fname, args[1..], GenBindings(a, fname, star, b, g1).st, inner)
  }

  predicate WFForm(a: Symbol, fname: string, s: Symbol, args: seq<Source>, g: Gst, cx: Ctx)
    decreases SizeSeq(args), 4
  {
    match FormOf(s.name)
    case And => args != [] && WFShort(a, fname, args, g, cx)
    case Or => args != [] && WFShort(a, fname, args, g, cx)
    case Cond => |args| % 2 == 1 && WFCond(a, fname, args, g, cx)
    case Quote => |args| == 1 && IsData(args[0])
    case Def =>
      && |args| == 2 && args[0].Sym?
      && (SizeAt(args, 1); WF(a, fname, args[1], g.(tail := false), cx.Unsafe()))
      && MayBind(args[0].sym, cx.depth, cx)
    case Fn => true
    case Defn => |args| >= 3 && args[0].Sym? && MayBind(args[0].sym, cx.depth, cx)
    case Begin => WFBegin(a, fname, args, g, cx)
    case Let => WFLet(a, fname, false, args, g, cx)
    case LetStar => WFLet(a, fname, true, args, g, cx)
    case Assert => |args| == 1 && WF(a, fname, args[0], g, cx.Unsafe())
    case SyntaxQuote => |args| == 1 && WFQuasi(a, fname, args[0], g, cx.Unsafe())
    case Elsewhere => false
    case Ordinary =>
      && WFAll(a, fname, args, g.(tail := false), cx.Unsafe())
      && (g.tail && s.name == fname ==> cx.safe && cx.loops && s.num == cx.num && |args| == cx.nargs)
  }

  predicate WFQuasi(a: Symbol, fname: string, x: Source, g: Gst, cx: Ctx)
    decreases Size(x), 1
  {
    if x.Arr? then WFQuasiAll(a, fname, x.elems, g, cx)
    else if x.Pair? && IsList(x) then
      var es := Elems(x);
      if IsUnquote(es, "unquote") || IsUnquote(es, "unquote-splicing") then
        SizeAt(es, 1);
        WF(a, fname, es[1], g, cx) && Gen(a, fname, es[1], g).err == Ok
      else WFQuasiAll(a, fname, es, g, cx)
    else IsData(x)
  }

  predicate WFQuasiAll(a: Symbol, fname: string, xs: seq<Source>, g: Gst, cx: Ctx)
    decreases SizeSeq(xs), 2
  {
    xs == [] ||
    (&& WFQuasi(a, fname, xs[0], g, cx)
     && WFQuasiAll(a, fname, xs[1..], GenQuasi(a, fname, xs[0], g).st, cx))
  }

  // ---------- functions ----------

  function BodyCtx(c: Closure, loops: bool): Ctx
    requires c.Closure? && ParseParams(c.params).Params?
  {
    Ctx(true, if c.num.Some? then c.num.value else 0, ParseParams(c.params).nargs, loops, true, 0)
  }

  /** The name of `c` means `c` itself inside its body: a call of it is a self call. */
  predicate NamesItself(host: Host, c: Closure, glob: EFrame) {
    && c.Closure? && c.num.Some?
    && var p := ParseParams(c.params);
       && p.Params? && !p.varargs && c.num.value !in Nums(p.names)
       && c.num.value !in host.builtins
       && c.num.value in glob && glob[c.num.value] == Fun(c)
  }

  /** The capture scan is not recursive: what a nested function needs from outside `c`,
      the code of `c` must name itself. */
  predicate CapturesEnough(c: Closure, code: seq<Instr>) {
    c.Closure? && forall s | s in Nested(code) && s in c.env :: s in Mentions(code)
  }

  /** The functions whose compiled code may stand for them. */
  predicate Preserved(host: Host, c: Closure, glob: EFrame) {
    && c.Closure?
    && var p, b := ParseParams(c.params), BuildFun(host.arr, c.name, c.params, c.body);
       && p.Params? && b.err == Ok
       && (c.num.Some? ==> c.env == map[])
       && CapturesEnough(c, b.fn.fun)
       && (|| WFBegin(host.arr, c.name, c.body, Gst(true, 0), BodyCtx(c, false))
           || (&& WFBegin(host.arr, c.name, c.body, Gst(true, 0), BodyCtx(c, true))
               && NamesItself(host, c, glob)))
  }
}
