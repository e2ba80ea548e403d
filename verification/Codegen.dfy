/** The code that generator.go emits, as a function of the expression and of the three
    generator fields that steer it: `funcname`, `tail` and `scopes`.

    `tail` is state, not a parameter: `def` clears it for good, and some forms do not
    clear it where they should. Errors leave the instructions emitted so far behind,
    and some callers drop the error and go on; a Go panic is never dropped. */
module Codegen {
  import opened Sexps
  import opened Instructions

  /** How generation ended. `Unmodelled` marks the forms this model leaves out. */
  datatype Fault = Ok | Failed | Panicked | Unmodelled

  /** The fields of a generator that change while it runs. */
  datatype Gst = Gst(tail: bool, scopes: int)

  datatype Out = Out(code: seq<Instr>, st: Gst, err: Fault)

  datatype Form =
    | And | Or | Cond | Quote | Def | Fn | Defn | Begin | Let | LetStar | Assert
    | SyntaxQuote | Elsewhere | Ordinary

  function FormOf(name: string): Form {
    if name == "and" then And
    else if name == "or" then Or
    else if name == "cond" then Cond
    else if name == "quote" then Quote
    else if name == "def" then Def
    else if name == "fn" then Fn
    else if name == "defn" then Defn
    else if name == "begin" then Begin
    else if name == "let" then Let
    else if name == "let*" then LetStar
    else if name == "assert" then Assert
    else if name == "syntax-quote" then SyntaxQuote
    else if name == "defmac" || name == "macexpand" || name == "include" || name == "import" then Elsewhere
    else Ordinary
  }

  // ---------- parameter lists and binding lists ----------

  datatype Params = Params(names: seq<Symbol>, nargs: nat, varargs: bool) | BadParams

  predicate AllSymbols(es: seq<Value>) {
    forall i | 0 <= i < |es| :: es[i].Sym?
  }

  function Symbols(es: seq<Value>): (ss: seq<Symbol>)
    requires AllSymbols(es)
    ensures |ss| == |es|
  {
    seq(|es|, i requires 0 <= i < |es| => es[i].sym)
  }

  /** A `&` before the last parameter makes that one collect the remaining arguments. */
  function ParseParams(es: seq<Value>): (p: Params)
    ensures p.Params? ==> |p.names| == p.nargs + (if p.varargs then 1 else 0)
  {
    if !AllSymbols(es) then BadParams
    else
      var ss := Symbols(es);
      var n := |ss|;
      if n >= 2 && ss[n - 2].name == "&"
      then Params(ss[..n - 2] + [ss[n - 1]], n - 2, true)
      else Params(ss, n, false)
  }

  datatype Bindings = Bindings(names: seq<Symbol>, rights: seq<Value>) | BadBindings

  /** The names and right-hand sides of a `let` vector. */
  function ParseBindings(es: seq<Value>): (b: Bindings)
    ensures b.Bindings? ==> |b.names| == |b.rights| && SizeSeq(b.rights) <= SizeSeq(es)
  {
    if es == [] then Bindings([], [])
    else if |es| == 1 || !es[0].Sym? then BadBindings
    else
      match ParseBindings(es[2..])
      case BadBindings => BadBindings
      case Bindings(ns, rs) =>
        assert es[1..][1..] == es[2..];
        Bindings([es[0].sym] + ns, [es[1]] + rs)
  }

  // ---------- small pieces of code ----------

  /** One `put` per name, last name first. */
  function Puts(names: seq<Symbol>): (code: seq<Instr>)
    ensures |code| == |names|
  {
    if names == [] then [] else [Put(names[|names| - 1])] + Puts(names[..|names| - 1])
  }

  function Removes(k: int): (code: seq<Instr>)
    ensures |code| == if k > 0 then k else 0
    ensures forall i | 0 <= i < k :: code[i] == RemoveScope
  {
    if k <= 0 then [] else [RemoveScope] + Removes(k - 1)
  }

  const ANON := "__anon"

  /** A function without a name of its own is given one. */
  function FunName(name: string): string {
    if name == "" then ANON else name
  }

  // ---------- the generator ----------

  /** `a` is the interned symbol `array`; `fname` is the generator's `funcname`. */
  function Gen(a: Symbol, fname: string, e: Value, g: Gst): (r: Out)
    decreases Size(e), 0
    ensures r.st.tail ==> g.tail
  {
    match e
    case Sym(s) => Out([Get(s)], g, Ok)
    case Pair(h, t) =>
      if !IsList(e) then Out([Push(e)], g, Ok)
      else if h.Sym? then GenForm(a, fname, h.sym, Elems(t), g)
      else GenDispatch(a, fname, h, Elems(t), g)
    case Arr(es) =>
      var o := GenAll(a, fname, es, g);
      if o.err != Ok then o else Out(o.code + [Call(a, |es|)], o.st, Ok)
    case _ => Out([Push(e)], g, Ok)
  }

  /** Errors in the operands or the operator are dropped here. */
  function GenDispatch(a: Symbol, fname: string, h: Value, args: seq<Value>, g: Gst): (r: Out)
    decreases Size(h) + SizeSeq(args), 3
    ensures r.st.tail ==> g.tail
  {
    var o := GenAll(a, fname, args, g);
    if o.err != Ok && o.err != Failed then o
    else
      var p := Gen(a, fname, h, o.st);
      if p.err != Ok && p.err != Failed then Out(o.code + p.code, p.st, p.err)
      else Out(o.code + p.code + [Dispatch(|args|)], p.st, Ok)
  }

  function GenAll(a: Symbol, fname: string, es: seq<Value>, g: Gst): (r: Out)
    decreases SizeSeq(es), 1
    ensures r.st.tail ==> g.tail
  {
    if es == [] then Out([], g, Ok)
    else
      var o := Gen(a, fname, es[0], g);
      if o.err != Ok then o
      else
        var p := GenAll(a, fname, es[1..], o.st);
        Out(o.code + p.code, p.st, p.err)
  }

  function GenPops(a: Symbol, fname: string, es: seq<Value>, g: Gst): (r: Out)
    decreases SizeSeq(es), 1
    ensures r.st.tail ==> g.tail
  {
    if es == [] then Out([], g, Ok)
    else
      var o := Gen(a, fname, es[0], g);
      if o.err != Ok then o
      else
        var p := GenPops(a, fname, es[1..], o.st);
        Out(o.code + [Pop] + p.code, p.st, p.err)
  }

  function GenBegin(a: Symbol, fname: string, es: seq<Value>, g: Gst): (r: Out)
    decreases SizeSeq(es), 2
    ensures r.st.tail ==> g.tail
  {
    if es == [] then Out([], g.(tail := false), Failed)
    else
      var n := |es| - 1;
      SizeAt(es, n);
      var o := GenPops(a, fname, es[..n], g.(tail := false));
      if o.err != Ok then o
      else
        var p := Gen(a, fname, es[n], o.st.(tail := g.tail));
        Out(o.code + p.code, p.st, p.err)
  }

  datatype Built = Built(fn: Function, err: Fault)

  /** A function body is generated in tail position by a generator of its own. */
  function BuildFun(a: Symbol, name: string, params: seq<Value>, body: seq<Value>): Built
    decreases SizeSeq(body), 3
  {
    var missing := BuiltinFunction("__missing");
    match ParseParams(params)
    case BadParams => Built(missing, Failed)
    case Params(names, nargs, varargs) =>
      var o := GenBegin(a, name, body, Gst(true, 0));
      if o.err != Ok then Built(missing, o.err)
      else Built(Function(name, false, nargs, varargs, Puts(names) + o.code + [Return(false)], None), Ok)
  }

  function GenShort(a: Symbol, fname: string, or: bool, args: seq<Value>, g: Gst): (r: Out)
    requires args != []
    decreases SizeSeq(args), 3
    ensures r.st.tail ==> g.tail
  {
    if |args| == 1 then
      var o := Gen(a, fname, args[0], g);
      Out(o.code, g, if o.err == Failed then Ok else o.err)
    else
      var rest := GenShort(a, fname, or, args[1..], g);
      if rest.err != Ok then rest
      else
        var p := Gen(a, "", args[0], Gst(false, 0));
        Out(p.code + [Dup, Branch(or, |rest.code| + 2), Pop] + rest.code, g,
            if p.err == Failed then Ok else p.err)
  }

  /** The clauses are generated from the last to the first; an error emits nothing. */
  function GenCond(a: Symbol, fname: string, args: seq<Value>, g: Gst): (r: Out)
    requires |args| % 2 == 1
    decreases SizeSeq(args), 3
    ensures r.st.tail ==> g.tail
  {
    if |args| == 1 then
      var o := Gen(a, fname, args[0], g);
      Out(if o.err == Ok then o.code else [], g, o.err)
    else
      SizeAt(args, 1);
      SizeAt(args, 2);
      var rest := GenCond(a, fname, args[2..], g);
      if rest.err != Ok then rest
      else
        var p := Gen(a, fname, args[0], Gst(false, 0));
        if p.err != Ok then Out([], g, p.err)
        else
          var b := Gen(a, fname, args[1], g);
          if b.err != Ok then Out([], g, b.err)
          else Out(p.code + [Branch(false, |b.code| + 2)] + b.code + [Jump(|rest.code| + 1)] + rest.code, g, Ok)
  }

  function GenLetStar(a: Symbol, fname: string, names: seq<Symbol>, rights: seq<Value>, g: Gst): (r: Out)
    requires |names| == |rights|
    decreases SizeSeq(rights), 1
    ensures r.st.tail ==> g.tail
  {
    if names == [] then Out([], g, Ok)
    else
      var o := Gen(a, fname, rights[0], g);
      if o.err != Ok then o
      else
        var p := GenLetStar(a, fname, names[1..], rights[1..], o.st);
        Out(o.code + [Put(names[0])] + p.code, p.st, p.err)
  }

  /** The right-hand sides are generated inside the new scope, with `tail` as it stands. */
  function GenBindings(a: Symbol, fname: string, star: bool, b: Bindings, g: Gst): (r: Out)
    requires b.Bindings? && |b.names| == |b.rights|
    decreases SizeSeq(b.rights), 2
    ensures r.st.tail ==> g.tail
  {
    if star then GenLetStar(a, fname, b.names, b.rights, g)
    else
      var o := GenAll(a, fname, b.rights, g);
      if o.err != Ok then o else Out(o.code + Puts(b.names), o.st, Ok)
  }

  function GenLet(a: Symbol, fname: string, star: bool, args: seq<Value>, g: Gst): (r: Out)
    decreases SizeSeq(args), 3
    ensures r.st.tail ==> g.tail
  {
    if |args| < 2 || !args[0].Arr? then Out([], g, Failed)
    else
      var b := ParseBindings(args[0].elems);
      if b.BadBindings? then Out([], g, Failed)
      else
        SizeAt(args, 0);
        var o := GenBindings(a, fname, star, b, g.(scopes := g.scopes + 1));
        if o.err != Ok then o.(code := [AddScope] + o.code)
        else
          var p := GenBegin(a, fname, args[1..], o.st);
          if p.err != Ok then p.(code := [AddScope] + o.code + p.code)
          else
            Out([AddScope] + o.code + p.code + [RemoveScope],
                p.st.(scopes := p.st.scopes - 1), Ok)
  }

  function GenForm(a: Symbol, fname: string, s: Symbol, args: seq<Value>, g: Gst): (r: Out)
    decreases SizeSeq(args), 4
    ensures r.st.tail ==> g.tail
  {
    match FormOf(s.name)
    case And => if args == [] then Out([], g, Panicked) else GenShort(a, fname, false, args, g)
    case Or => if args == [] then Out([], g, Panicked) else GenShort(a, fname, true, args, g)
    case Cond => if |args| % 2 == 0 then Out([], g, Failed) else GenCond(a, fname, args, g)
    case Quote => Out(seq(|args|, i requires 0 <= i < |args| => Push(args[i])), g, Ok)
    case Def =>
      if |args| != 2 || !args[0].Sym? then Out([], g, Failed)
      else
        SizeAt(args, 1);
        var o := Gen(a, fname, args[1], g.(tail := false));
        if o.err != Ok then o else Out(o.code + [Put(args[0].sym), Push(Null)], o.st, Ok)
    case Fn =>
      if |args| < 2 || !args[0].Arr? then Out([], g, Failed)
      else
        var b := BuildFun(a, ANON, args[0].elems, args[1..]);
        if b.err != Ok then Out([], g, b.err) else Out([PushClosure(b.fn)], g, Ok)
    case Defn =>
      if |args| < 3 || !args[1].Arr? || !args[0].Sym? then Out([], g, Failed)
      else
        SizeAt(args, 2);
        var b := BuildFun(a, FunName(args[0].sym.name), args[1].elems, args[2..]);
        if b.err != Ok then Out([], g, b.err)
        else Out([Push(Fun(b.fn)), Put(args[0].sym), Push(Null)], g, Ok)
    case Begin => GenBegin(a, fname, args, g)
    case Let => GenLet(a, fname, false, args, g)
    case LetStar => GenLet(a, fname, true, args, g)
    case Assert =>
      if |args| != 1 then Out([], g, Failed)
      else
        var o := Gen(a, fname, args[0], g);
        if o.err != Ok then o else Out(o.code + [Branch(true, 2), Return(true), Push(Null)], o.st, Ok)
    case SyntaxQuote =>
      if |args| != 1 then Out([], g, Failed) else GenQuasi(a, fname, args[0], g)
    case Elsewhere => Out([], g, Unmodelled)
    case Ordinary =>
      var o := GenAll(a, fname, args, g.(tail := false));
      if o.err != Ok then o
      else
        var jump := if g.tail && s.name == fname then Removes(o.st.scopes) + [Goto(0)] else [Call(s, |args|)];
        Out(o.code + jump, o.st.(tail := g.tail), Ok)
  }

  /** The two element lists the quasi-quoter treats specially. */
  predicate IsUnquote(es: seq<Value>, name: string) {
    |es| == 2 && es[0].Sym? && es[0].sym.name == name
  }

  lemma TwoElements(es: seq<Value>)
    requires IsUnquote(es, "unquote") || IsUnquote(es, "unquote-splicing")
    ensures |es| == 2
  {
  }

  /** Template `x` of a `syntax-quote`; every error below it is dropped. */
  function GenQuasi(a: Symbol, fname: string, x: Value, g: Gst): (r: Out)
    decreases Size(x), 1
    ensures (r.st.tail ==> g.tail) && r.err != Failed
  {
    if x.Arr? then
      var o := GenQuasiEach(a, fname, x.elems, g);
      Out([Push(Marker)] + o.code + [Vectorize], o.st, o.err)
    else if x.Pair? && IsList(x) then
      var es := Elems(x);
      if IsUnquote(es, "unquote") then
        SizeAt(es, 1);
        var o := Gen(a, fname, es[1], g);
        Out(o.code, o.st, if o.err == Failed then Ok else o.err)
      else if IsUnquote(es, "unquote-splicing") then
        SizeAt(es, 1);
        var o := Gen(a, fname, es[1], g);
        Out(o.code + [Explode], o.st, if o.err == Failed then Ok else o.err)
      else
        var o := GenQuasiAll(a, fname, es, g);
        Out([Push(Marker)] + o.code + [Squash], o.st, o.err)
    else Out([Push(x)], g, Ok)
  }

  /** The elements of a list template. */
  function GenQuasiAll(a: Symbol, fname: string, xs: seq<Value>, g: Gst): (r: Out)
    decreases SizeSeq(xs), 2
    ensures (r.st.tail ==> g.tail) && r.err != Failed
  {
    if xs == [] then Out([], g, Ok)
    else
      var o := GenQuasi(a, fname, xs[0], g);
      if o.err != Ok then o
      else
        var p := GenQuasiAll(a, fname, xs[1..], o.st);
        Out(o.code + p.code, p.st, p.err)
  }

  /** The elements of an array template: each one is squashed and exploded again. */
  function GenQuasiEach(a: Symbol, fname: string, xs: seq<Value>, g: Gst): (r: Out)
    decreases SizeSeq(xs), 2
    ensures (r.st.tail ==> g.tail) && r.err != Failed
  {
    if xs == [] then Out([], g, Ok)
    else
      var o := GenQuasi(a, fname, xs[0], g);
      if o.err != Ok then o
      else
        var p := GenQuasiEach(a, fname, xs[1..], o.st);
        Out([Push(Marker)] + o.code + [Squash, Explode] + p.code, p.st, p.err)
  }
}
