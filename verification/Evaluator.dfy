/** A big-step evaluator of the source language. It knows nothing of instructions: its
    functions hold source text and the local bindings visible where they were created.

    It fixes the language's own choices: a builtin name in call position wins over every
    binding; `let` evaluates its right-hand sides inside the new scope and, of several
    bindings of one name, the first one stays; closures capture by value when they are
    created; `defn` captures nothing. `fuel` bounds the depth of function calls. */
module Evaluator {
  import opened Sexps
  import opened Scoping
  import opened Builtins
  import opened Instructions
  import opened Codegen

  /** Source text, as the reader gives it. */
  type Source = Value

  /** `num` is the symbol number `defn` binds; anonymous functions have none. */
  datatype Closure =
    | Closure(name: string, num: Option<int>, params: seq<Source>, body: seq<Source>, env: map<int, Sexp<Closure>>)
    | Builtin(which: string)

  type V = Sexp<Closure>
  type EFrame = map<int, V>

  /** Which functions may be applied under which global scope; anything else has no value. */
  type Policy = (Closure, EFrame) -> bool

  datatype Scopes = Scopes(host: Host, ok: Policy, glob: EFrame, locals: seq<EFrame>)
  {
    function Bind(s: int, v: V): Scopes {
      if locals == [] then this.(glob := glob[s := v])
      else
        var n := |locals| - 1;
        this.(locals := locals[n := locals[n][s := v]])
    }

    function BindList(names: seq<Symbol>, vs: seq<V>): Scopes
      requires |names| == |vs|
    {
      if locals == [] then this.(glob := BindAll(glob, names, vs))
      else
        var n := |locals| - 1;
        this.(locals := locals[n := BindAll(locals[n], names, vs)])
    }

    function Enter(): Scopes {
      this.(locals := locals + [map[]])
    }

    function Leave(): Scopes
      requires locals != []
    {
      this.(locals := locals[..|locals| - 1])
    }
  }

  /** What evaluation leaves of the scopes it started from: only the innermost changes. */
  ghost predicate Follows(a: Scopes, b: Scopes) {
    && b.host == a.host && b.ok == a.ok && |b.locals| == |a.locals|
    && (a.locals != [] ==> b.glob == a.glob && b.locals[..|b.locals| - 1] == a.locals[..|a.locals| - 1])
  }

  datatype Outcome = Val(v: V, sc: Scopes) | Stuck

  datatype Outcomes = Vals(vs: seq<V>, after: Scopes) | NoVals

  function Constant(e: Source, sc: Scopes): Outcome {
    if IsData(e) then Val(Recast(e), sc) else Stuck
  }

  function Eval(fuel: nat, e: Source, sc: Scopes): (r: Outcome)
    decreases fuel, Size(e), 0
    ensures r.Val? ==> Follows(sc, r.sc)
  {
    match e
    case Sym(s) =>
      (match Lookup(sc.glob, sc.locals, s.num)
       case None => Stuck
       case Some(v) => Val(v, sc))
    case Pair(h, t) =>
      if !IsList(e) then Constant(e, sc)
      else if h.Sym? then EvalForm(fuel, h.sym, Elems(t), sc)
      else EvalDispatch(fuel, h, Elems(t), sc)
    case Arr(es) =>
      (match EvalAll(fuel, es, sc)
       case NoVals => Stuck
       case Vals(vs, sc') => Val(Arr(vs), sc'))
    case _ => Constant(e, sc)
  }

  function EvalAll(fuel: nat, es: seq<Source>, sc: Scopes): (r: Outcomes)
    decreases fuel, SizeSeq(es), 1
    ensures r.Vals? ==> Follows(sc, r.after) && |r.vs| == |es|
  {
    if es == [] then Vals([], sc)
    else
      match Eval(fuel, es[0], sc)
      case Stuck => NoVals
      case Val(v, sc') =>
        match EvalAll(fuel, es[1..], sc')
        case NoVals => NoVals
        case Vals(vs, sc'') => Vals([v] + vs, sc'')
  }

  function EvalDispatch(fuel: nat, h: Source, args: seq<Source>, sc: Scopes): (r: Outcome)
    decreases fuel, Size(h) + SizeSeq(args), 3
    ensures r.Val? ==> Follows(sc, r.sc)
  {
    match EvalAll(fuel, args, sc)
    case NoVals => Stuck
    case Vals(vs, sc') =>
      match Eval(fuel, h, sc')
      case Stuck => Stuck
      case Val(f, sc'') =>
        if !f.Fun? then Stuck
        else
          match ApplyNamed(fuel, f.fn, if f.fn.Builtin? then f.fn.which else f.fn.name, vs, sc'')
          case None => Stuck
          case Some(v) => Val(v, sc'')
  }

  /** The value of the last of a sequence of expressions. */
  function EvalBegin(fuel: nat, es: seq<Source>, sc: Scopes): (r: Outcome)
    decreases fuel, SizeSeq(es), 2
    ensures r.Val? ==> Follows(sc, r.sc)
  {
    if es == [] then Stuck
    else
      match Eval(fuel, es[0], sc)
      case Stuck => Stuck
      case Val(v, sc') => if |es| == 1 then Val(v, sc') else EvalBegin(fuel, es[1..], sc')
  }

  function EvalShort(fuel: nat, or: bool, es: seq<Source>, sc: Scopes): (r: Outcome)
    requires es != []
    decreases fuel, SizeSeq(es), 2
    ensures r.Val? ==> Follows(sc, r.sc)
  {
    match Eval(fuel, es[0], sc)
    case Stuck => Stuck
    case Val(v, sc') =>
      if |es| == 1 || IsTruthy(v) == or then Val(v, sc') else EvalShort(fuel, or, es[1..], sc')
  }

  function EvalCond(fuel: nat, es: seq<Source>, sc: Scopes): (r: Outcome)
    requires |es| % 2 == 1
    decreases fuel, SizeSeq(es), 2
    ensures r.Val? ==> Follows(sc, r.sc)
  {
    if |es| == 1 then Eval(fuel, es[0], sc)
    else
      SizeAt(es, 1);
      SizeAt(es, 2);
      match Eval(fuel, es[0], sc)
      case Stuck => Stuck
      case Val(v, sc') => if IsTruthy(v) then Eval(fuel, es[1], sc') else EvalCond(fuel, es[2..], sc')
  }

  function EvalLetStar(fuel: nat, names: seq<Symbol>, rights: seq<Source>, sc: Scopes): (r: Option<Scopes>)
    requires |names| == |rights|
    decreases fuel, SizeSeq(rights), 2
    ensures r.Some? ==> Follows(sc, r.value)
  {
    if names == [] then Some(sc)
    else
      match Eval(fuel, rights[0], sc)
      case Stuck => None
      case Val(v, sc') => EvalLetStar(fuel, names[1..], rights[1..], sc'.Bind(names[0].num, v))
  }

  /** The scopes with the bindings of a `let` made in the innermost one. */
  function EvalBindings(fuel: nat, star: bool, b: Bindings, sc: Scopes): (r: Option<Scopes>)
    requires b.Bindings? && |b.names| == |b.rights|
    decreases fuel, SizeSeq(b.rights), 3
    ensures r.Some? ==> Follows(sc, r.value)
  {
    if star then EvalLetStar(fuel, b.names, b.rights, sc)
    else
      match EvalAll(fuel, b.rights, sc)
      case NoVals => None
      case Vals(vs, sc') => Some(sc'.BindList(b.names, vs))
  }

  function EvalLet(fuel: nat, star: bool, args: seq<Source>, sc: Scopes): (r: Outcome)
    decreases fuel, SizeSeq(args), 3
    ensures r.Val? ==> Follows(sc, r.sc)
  {
    if |args| < 2 || !args[0].Arr? then Stuck
    else
      var b := ParseBindings(args[0].elems);
      if b.BadBindings? then Stuck
      else
        SizeAt(args, 0);
        match EvalBindings(fuel, star, b, sc.Enter())
        case None => Stuck
        case Some(sc') =>
          match EvalBegin(fuel, args[1..], sc')
          case Stuck => Stuck
          case Val(v, sc'') => Val(v, sc''.Leave())
  }

  function EvalForm(fuel: nat, s: Symbol, args: seq<Source>, sc: Scopes): (r: Outcome)
    decreases fuel, SizeSeq(args), 4
    ensures r.Val? ==> Follows(sc, r.sc)
  {
    match FormOf(s.name)
    case And => if args == [] then Stuck else EvalShort(fuel, false, args, sc)
    case Or => if args == [] then Stuck else EvalShort(fuel, true, args, sc)
    case Cond => if |args| % 2 == 0 then Stuck else EvalCond(fuel, args, sc)
    case Quote => if |args| != 1 then Stuck else Constant(args[0], sc)
    case Def =>
      if |args| != 2 || !args[0].Sym? then Stuck
      else
        SizeAt(args, 1);
        (match Eval(fuel, args[1], sc)
         case Stuck => Stuck
         case Val(v, sc') => Val(Null, sc'.Bind(args[0].sym.num, v)))
    case Fn =>
      if |args| < 2 || !args[0].Arr? then Stuck
      else Val(Fun(Closure(ANON, None, args[0].elems, args[1..], Visible(sc.locals))), sc)
    case Defn =>
      if |args| < 3 || !args[1].Arr? || !args[0].Sym? then Stuck
      else
        var s := args[0].sym;
        Val(Null, sc.Bind(s.num, Fun(Closure(FunName(s.name), Some(s.num), args[1].elems, args[2..], map[]))))
    case Begin => EvalBegin(fuel, args, sc)
    case Let => EvalLet(fuel, false, args, sc)
    case LetStar => EvalLet(fuel, true, args, sc)
    case Assert =>
      if |args| != 1 then Stuck
      else
        (match Eval(fuel, args[0], sc)
         case Stuck => Stuck
         case Val(v, sc') => if IsTruthy(v) then Val(Null, sc') else Stuck)
    case SyntaxQuote =>
      if |args| != 1 then Stuck
      else
        (match Expand(fuel, args[0], sc)
         case NoVals => Stuck
         case Vals(vs, sc') => if |vs| == 1 then Val(vs[0], sc') else Stuck)
    case Elsewhere => Stuck
    case Ordinary =>
      match EvalAll(fuel, args, sc)
      case NoVals => Stuck
      case Vals(vs, sc') =>
        var f := if s.num in sc'.host.builtins then Some(Fun(Builtin(sc'.host.builtins[s.num])))
                 else Lookup(sc'.glob, sc'.locals, s.num);
        match f
        case None => Stuck
        case Some(f) =>
          if !f.Fun? then Stuck
          else
            match ApplyNamed(fuel, f.fn, s.name, vs, sc')
            case None => Stuck
            case Some(v) => Val(v, sc')
  }

  /** Quasi-quotation: the values that template `x` contributes to what surrounds it. One
      for most templates, any number for a splice. No value may be the marker. */
  function Expand(fuel: nat, x: Source, sc: Scopes): (r: Outcomes)
    decreases fuel, Size(x), 1
    ensures r.Vals? ==> Follows(sc, r.after)
  {
    if x.Arr? then
      match ExpandAll(fuel, x.elems, sc)
      case NoVals => NoVals
      case Vals(vs, sc') => if Marker in vs then NoVals else Vals([Arr(vs)], sc')
    else if x.Pair? && IsList(x) then
      var es := Elems(x);
      if IsUnquote(es, "unquote") || IsUnquote(es, "unquote-splicing") then
        SizeAt(es, 1);
        match Eval(fuel, es[1], sc)
        case Stuck => NoVals
        case Val(v, sc') =>
          if IsUnquote(es, "unquote") then Vals([v], sc')
          else if IsList(v) then Vals(Elems(v), sc')
          else NoVals
      else
        match ExpandAll(fuel, es, sc)
        case NoVals => NoVals
        case Vals(vs, sc') => if Marker in vs then NoVals else Vals([MakeList(vs)], sc')
    else
      match Constant(x, sc)
      case Stuck => NoVals
      case Val(v, sc') => Vals([v], sc')
  }

  function ExpandAll(fuel: nat, xs: seq<Source>, sc: Scopes): (r: Outcomes)
    decreases fuel, SizeSeq(xs), 2
    ensures r.Vals? ==> Follows(sc, r.after)
  {
    if xs == [] then Vals([], sc)
    else
      match Expand(fuel, xs[0], sc)
      case NoVals => NoVals
      case Vals(vs, sc') =>
        match ExpandAll(fuel, xs[1..], sc')
        case NoVals => NoVals
        case Vals(ws, sc'') => Vals(vs + ws, sc'')
  }

  // ---------- application ----------

  /** The values the parameters are bound to, or nothing when the number of arguments is
      wrong: a rest parameter takes the list of all the arguments that are left. */
  function ParamValues(p: Params, args: seq<V>): (r: Option<seq<V>>)
    requires p.Params? && |p.names| == p.nargs + (if p.varargs then 1 else 0)
    ensures r.Some? ==> |r.value| == |p.names|
  {
    if p.varargs then
      if |args| < p.nargs then None else Some(args[..p.nargs] + [MakeList(args[p.nargs..])])
    else if |args| == p.nargs then Some(args)
    else None
  }

  /** Applies `f`, which its caller calls `name`. A script function runs over the global
      scope, its captured bindings and a fresh scope, and can change none of its caller's. */
  function ApplyNamed(fuel: nat, f: Closure, name: string, args: seq<V>, sc: Scopes): Option<V>
    decreases fuel, 0, 0
  {
    match f
    case Builtin(which) => if fuel == 0 then None else EvalBuiltin(fuel - 1, which, name, args, sc)
    case Closure(_, _, params, body, env) =>
      var p := ParseParams(params);
      if fuel == 0 || p.BadParams? || !sc.ok(f, sc.glob) then None
      else
        match ParamValues(p, args)
        case None => None
        case Some(vs) =>
          match EvalBegin(fuel - 1, body, sc.(locals := [env, BindAll(map[], p.names, vs)]))
          case Stuck => None
          case Val(v, _) => Some(v)
  }

  function EvalBuiltin(fuel: nat, which: string, name: string, args: seq<V>, sc: Scopes): Option<V>
    decreases fuel, 2, 0
  {
    if which == "apply" then
      if |args| != 2 || !args[0].Fun? then None
      else
        match ApplyArgs(args[1])
        case None => None
        case Some(es) => ApplyValue(fuel, args[0].fn, es, sc)
    else if which == "map" then
      if |args| != 2 || !args[0].Fun? then None
      else if args[1].Arr? then
        match MapValues(fuel, args[0].fn, args[1].elems, sc)
        case None => None
        case Some(vs) => Some(Arr(vs))
      else if args[1].Pair? && IsList(args[1]) then
        match MapValues(fuel, args[0].fn, Elems(args[1]), sc)
        case None => None
        case Some(vs) => Some(MakeList(vs))
      else None
    else Prim(sc.host, which, name, args)
  }

  /** Application from inside a builtin: a function goes by its own name. */
  function ApplyValue(fuel: nat, f: Closure, args: seq<V>, sc: Scopes): Option<V>
    decreases fuel, 0, 1
  {
    ApplyNamed(fuel, f, if f.Builtin? then f.which else f.name, args, sc)
  }

  function MapValues(fuel: nat, f: Closure, es: seq<V>, sc: Scopes): Option<seq<V>>
    decreases fuel, 1, |es|
  {
    if es == [] then Some([])
    else
      match ApplyValue(fuel, f, es[..1], sc)
      case None => None
      case Some(v) =>
        match MapValues(fuel, f, es[1..], sc)
        case None => None
        case Some(vs) => Some([v] + vs)
  }
}
