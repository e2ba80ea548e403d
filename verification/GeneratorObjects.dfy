/** The generator as the object of generator.go: it appends to `instructions`, saves, clears
    and restores `tail`, counts `scopes`, and compiles sub-expressions with generators of
    their own. Each method emits exactly the code that Codegen specifies. */
module GeneratorObjects {
  import opened Sexps
  import opened Instructions
  import opened Codegen

  /** What no caller drops: a Go panic, or a form outside this model. */
  predicate Stops(err: Fault) {
    err == Panicked || err == Unmodelled
  }

  /** `o` after `code`. */
  function After(code: seq<Instr>, o: Out): Out {
    o.(code := code + o.code)
  }

  lemma AfterAfter(c: seq<Instr>, d: seq<Instr>, o: Out)
    ensures After(c, After(d, o)) == After(c + d, o)
  {
  }

  // ---------- one round of each loop ----------

  lemma AllRound(a: Symbol, fname: string, es: seq<Value>, i: nat, g: Gst)
    requires i <= |es|
    ensures GenAll(a, fname, es[i..], g) ==
            if i == |es| then Out([], g, Ok)
            else var o := Gen(a, fname, es[i], g); if o.err != Ok then o
                else After(o.code, GenAll(a, fname, es[i + 1..], o.st))
    ensures i < |es| ==> Size(es[i]) < SizeSeq(es)
  {
    hide Gen;
    if i < |es| {
      SizeAt(es, i);
      assert es[i..][1..] == es[i + 1..];
    }
  }

  lemma PopsRound(a: Symbol, fname: string, es: seq<Value>, i: nat, g: Gst)
    requires i <= |es|
    ensures GenPops(a, fname, es[i..], g) ==
            if i == |es| then Out([], g, Ok)
            else var o := Gen(a, fname, es[i], g);
                 if o.err != Ok then o else After(o.code + [Pop], GenPops(a, fname, es[i + 1..], o.st))
  {
    hide Gen;
    if i < |es| {
      assert es[i..][1..] == es[i + 1..];
    }
  }

  lemma StarRound(a: Symbol, fname: string, names: seq<Symbol>, rights: seq<Value>, i: nat, g: Gst)
    requires |names| == |rights| && i <= |names|
    ensures GenLetStar(a, fname, names[i..], rights[i..], g) ==
            if i == |names| then Out([], g, Ok)
            else var o := Gen(a, fname, rights[i], g);
                 if o.err != Ok then o
                 else After(o.code + [Put(names[i])], GenLetStar(a, fname, names[i + 1..], rights[i + 1..], o.st))
    ensures i < |rights| ==> Size(rights[i]) < SizeSeq(rights)
  {
    hide Gen;
    if i < |names| {
      SizeAt(rights, i);
      assert names[i..][1..] == names[i + 1..] && rights[i..][1..] == rights[i + 1..];
    }
  }

  lemma QuasiRound(a: Symbol, fname: string, xs: seq<Value>, i: nat, g: Gst)
    requires i <= |xs|
    ensures GenQuasiAll(a, fname, xs[i..], g) ==
            if i == |xs| then Out([], g, Ok)
            else var o := GenQuasi(a, fname, xs[i], g);
                 if o.err != Ok then o else After(o.code, GenQuasiAll(a, fname, xs[i + 1..], o.st))
    ensures GenQuasiEach(a, fname, xs[i..], g) ==
            if i == |xs| then Out([], g, Ok)
            else var o := GenQuasi(a, fname, xs[i], g);
                 if o.err != Ok then o
                 else After([Push(Marker)] + o.code + [Squash, Explode], GenQuasiEach(a, fname, xs[i + 1..], o.st))
    ensures i < |xs| ==> Size(xs[i]) < SizeSeq(xs)
  {
    hide GenQuasi;
    if i < |xs| {
      SizeAt(xs, i);
      assert xs[i..][1..] == xs[i + 1..];
    }
  }

  lemma PutsRound(names: seq<Symbol>, i: nat)
    requires i < |names|
    ensures Puts(names[..i + 1]) == [Put(names[i])] + Puts(names[..i])
  {
    assert names[..i + 1][..i] == names[..i];
  }

  /** An error in a later clause is the error of the whole form. */
  lemma {:induction false} CondFault(a: Symbol, fname: string, args: seq<Value>, i: nat, g: Gst)
    requires |args| % 2 == 1 && i % 2 == 0 && i < |args| && GenCond(a, fname, args[i..], g).err != Ok
    ensures GenCond(a, fname, args, g) == GenCond(a, fname, args[i..], g)
  {
    hide Gen;
    if i == 0 {
      assert args[0..] == args;
    } else {
      assert args[2..][i - 2..] == args[i..];
      CondFault(a, fname, args[2..], i - 2, g);
    }
  }

  lemma {:induction false} ShortFault(a: Symbol, fname: string, or: bool, args: seq<Value>, i: nat, g: Gst)
    requires i < |args| && GenShort(a, fname, or, args[i..], g).err != Ok
    ensures GenShort(a, fname, or, args, g).err == GenShort(a, fname, or, args[i..], g).err
  {
    hide Gen;
    if i == 0 {
      assert args[0..] == args;
    } else {
      assert args[1..][i - 1..] == args[i..];
      ShortFault(a, fname, or, args[1..], i - 1, g);
    }
  }

  /** Bindings read so far, before those still to be read. */
  function Joined(names: seq<Symbol>, rights: seq<Value>, b: Bindings): Bindings {
    if b.BadBindings? then b else Bindings(names + b.names, rights + b.rights)
  }

  lemma JoinedRound(names: seq<Symbol>, rights: seq<Value>, s: Symbol, r: Value, b: Bindings)
    ensures Joined(names, rights, Joined([s], [r], b)) == Joined(names + [s], rights + [r], b)
  {
  }

  lemma BindingsRound(es: seq<Value>, i: nat)
    requires i + 1 < |es|
    ensures ParseBindings(es[i..]) == if es[i].Sym? then Joined([es[i].sym], [es[i + 1]], ParseBindings(es[i + 2..]))
            else BadBindings
  {
    assert es[i..][2..] == es[i + 2..];
  }

  lemma {:induction false} OddBindings(es: seq<Value>)
    requires |es| % 2 == 1
    ensures ParseBindings(es) == BadBindings
  {
    if |es| > 1 && es[0].Sym? {
      OddBindings(es[2..]);
    }
  }

  lemma AfterNothing(o: Out)
    ensures After([], o) == o
  {
  }

  lemma AfterFields(code: seq<Instr>, o: Out)
    ensures After(code, o).st == o.st && After(code, o).err == o.err && After(code, o).code == code + o.code
  {
  }

  lemma NoPuts()
    ensures Puts([]) == []
  {
  }

  /** `code` is that of the tests from `i` on. */
  predicate ShortFrom(a: Symbol, fname: string, or: bool, args: seq<Value>, i: nat, g: Gst, code: seq<Instr>) {
    i < |args| && GenShort(a, fname, or, args[i..], g) == Out(code, g, Ok)
  }

  lemma ShortLast(a: Symbol, fname: string, or: bool, args: seq<Value>, g: Gst)
    requires args != []
    ensures var n, o := |args| - 1, Gen(a, fname, args[|args| - 1], g);
            if Stops(o.err) then GenShort(a, fname, or, args, g).err == o.err
            else ShortFrom(a, fname, or, args, n, g, o.code)
  {
    hide Gen;
    var n := |args| - 1;
    if Stops(Gen(a, fname, args[n], g).err) {
      ShortFault(a, fname, or, args, n, g);
    }
  }

  /** One test more; its errors other than a panic are dropped. */
  lemma ShortRound(a: Symbol, fname: string, or: bool, args: seq<Value>, i: nat, g: Gst, rest: seq<Instr>)
    requires ShortFrom(a, fname, or, args, i + 1, g, rest)
    ensures var p := Gen(a, "", args[i], Gst(false, 0));
            if Stops(p.err) then GenShort(a, fname, or, args, g).err == p.err
            else ShortFrom(a, fname, or, args, i, g, p.code + [Dup, Branch(or, |rest| + 2), Pop] + rest)
  {
    hide Gen;
    assert args[i..][1..] == args[i + 1..];
    if Stops(Gen(a, "", args[i], Gst(false, 0)).err) {
      ShortFault(a, fname, or, args, i, g);
    }
  }

  lemma ShortWhole(a: Symbol, fname: string, or: bool, args: seq<Value>, g: Gst, code: seq<Instr>)
    requires ShortFrom(a, fname, or, args, 0, g, code)
    ensures GenShort(a, fname, or, args, g) == Out(code, g, Ok)
  {
    hide GenShort;
    assert args[0..] == args;
  }

  lemma CondLast(a: Symbol, fname: string, args: seq<Value>, g: Gst)
    requires |args| % 2 == 1
    ensures var n, o := |args| - 1, Gen(a, fname, args[|args| - 1], g);
            if o.err == Ok then CondFrom(a, fname, args, n, g, o.code) else GenCond(a, fname, args, g).err == o.err
  {
    hide Gen;
    var n := |args| - 1;
    if Gen(a, fname, args[n], g).err != Ok {
      CondFault(a, fname, args, n, g);
    }
  }

  lemma {:induction false} CondError(a: Symbol, fname: string, args: seq<Value>, g: Gst)
    requires |args| % 2 == 1
    ensures GenCond(a, fname, args, g).st == g
    ensures GenCond(a, fname, args, g).err != Ok ==> GenCond(a, fname, args, g).code == []
  {
    hide Gen;
    if |args| > 1 {
      CondError(a, fname, args[2..], g);
    }
  }

  /** A clause with predicate code `p` and body code `b` before `rest`. */
  function Clause(p: Out, b: Out, rest: seq<Instr>, g: Gst): Out {
    if p.err != Ok then Out([], g, p.err)
    else if b.err != Ok then Out([], g, b.err)
    else Out(p.code + [Branch(false, |b.code| + 2)] + b.code + [Jump(|rest| + 1)] + rest, g, Ok)
  }

  lemma {:induction false} TwoSizes(es: seq<Value>, i: nat)
    requires i + 1 < |es|
    ensures Size(es[i]) + Size(es[i + 1]) < SizeSeq(es)
  {
    if i == 0 {
      assert es[1..][0] == es[1];
    } else {
      TwoSizes(es[1..], i - 1);
    }
  }

  /** `code` is that of the clauses from `i` on. */
  predicate CondFrom(a: Symbol, fname: string, args: seq<Value>, i: nat, g: Gst, code: seq<Instr>) {
    i < |args| && (|args| - i) % 2 == 1 && GenCond(a, fname, args[i..], g) == Out(code, g, Ok)
  }

  lemma CondWhole(a: Symbol, fname: string, args: seq<Value>, g: Gst, code: seq<Instr>)
    requires CondFrom(a, fname, args, 0, g, code)
    ensures GenCond(a, fname, args, g) == Out(code, g, Ok)
  {
    hide GenCond;
    assert args[0..] == args;
  }

  lemma CondUnfolds(a: Symbol, fname: string, args: seq<Value>, g: Gst)
    requires |args| % 2 == 1 && |args| > 1 && GenCond(a, fname, args[2..], g).err == Ok
    ensures GenCond(a, fname, args, g) == Clause(Gen(a, fname, args[0], Gst(false, 0)), Gen(a, fname, args[1], g),
            GenCond(a, fname, args[2..], g).code, g)
  {
    hide Gen;
  }

  lemma CondLater(a: Symbol, fname: string, args: seq<Value>, i: nat, g: Gst)
    requires i + 2 < |args| && (|args| - i) % 2 == 1 && GenCond(a, fname, args[i + 2..], g).err == Ok
    ensures var o := GenCond(a, fname, args[i..], g);
            && o.st == g
            && o == Clause(Gen(a, fname, args[i], Gst(false, 0)), Gen(a, fname, args[i + 1], g),
               GenCond(a, fname, args[i + 2..], g).code, g)
  {
    hide Gen, GenCond, Clause;
    var later := args[i..];
    assert later[2..] == args[i + 2..] && later[0] == args[i] && later[1] == args[i + 1];
    CondUnfolds(a, fname, later, g);
    CondError(a, fname, later, g);
  }

  /** One clause more; an error in it is the error of the whole. */
  lemma CondRound(a: Symbol, fname: string, args: seq<Value>, i: nat, g: Gst, rest: seq<Instr>, o: Out)
    requires |args| % 2 == 1 && i % 2 == 0 && CondFrom(a, fname, args, i + 2, g, rest)
    requires o == Clause(Gen(a, fname, args[i], Gst(false, 0)), Gen(a, fname, args[i + 1], g), rest, g)
    ensures if o.err == Ok then CondFrom(a, fname, args, i, g, o.code) else GenCond(a, fname, args, g).err == o.err
  {
    hide Gen, GenCond, Clause;
    CondLater(a, fname, args, i, g);
    if o.err != Ok {
      CondFault(a, fname, args, i, g);
    }
  }

  class Generator {
    /** The interned symbol `array`. */
    const arr: Symbol
    var funcname: string
    var tail: bool
    var scopes: int
    var instructions: seq<Instr>

    constructor (arr: Symbol)
      ensures this.arr == arr && funcname == "" && State() == Gst(false, 0) && instructions == []
    {
      this.arr, funcname, tail, scopes, instructions := arr, "", false, 0, [];
    }

    function State(): Gst
      reads this
    {
      Gst(tail, scopes)
    }

    /** The new state is as `o` says, unless generation stopped. */
    twostate predicate Emits(o: Out, err: Fault)
      reads this
    {
      && err == o.err && funcname == old(funcname)
      && (!Stops(err) ==> instructions == old(instructions) + o.code && State() == o.st)
    }

    method AddInstructions(instrs: seq<Instr>)
      modifies this`instructions
      ensures instructions == old(instructions) + instrs
    {
      instructions := instructions + instrs;
    }

    method AddInstruction(instr: Instr)
      modifies this`instructions
      ensures instructions == old(instructions) + [instr]
    {
      instructions := instructions + [instr];
    }

    method GenerateAll(expressions: seq<Value>) returns (err: Fault)
      modifies this
      ensures Emits(GenAll(arr, old(funcname), expressions, old(State())), err)
      decreases SizeSeq(expressions), 1
    {
      hide Gen, GenAll, After;
      ghost var whole := GenAll(arr, funcname, expressions, State());
      ghost var code: seq<Instr> := [];
      assert expressions[0..] == expressions;
      AfterNothing(whole);
      for i := 0 to |expressions|
        invariant funcname == old(funcname) && instructions == old(instructions) + code
        invariant whole == After(code, GenAll(arr, funcname, expressions[i..], State()))
      {
        AllRound(arr, funcname, expressions, i, State());
        ghost var o := Gen(arr, funcname, expressions[i], State());
        AfterFields(code, o);
        err := Generate(expressions[i]);
        if err != Ok {
          return;
        }
        AfterAfter(code, o.code, GenAll(arr, funcname, expressions[i + 1..], o.st));
        code := code + o.code;
      }
      AllRound(arr, funcname, expressions, |expressions|, State());
      AfterFields(code, Out([], State(), Ok));
      err := Ok;
    }

    method GenerateBegin(expressions: seq<Value>) returns (err: Fault)
      modifies this
      ensures Emits(GenBegin(arr, old(funcname), expressions, old(State())), err)
      decreases SizeSeq(expressions), 2
    {
      hide Gen, GenPops, After;
      var size := |expressions|;
      var oldtail := tail;
      tail := false;
      if size == 0 {
        return Failed;
      }
      ghost var firsts := expressions[..size - 1];
      ghost var pops := GenPops(arr, funcname, firsts, State());
      ghost var code: seq<Instr> := [];
      assert firsts[0..] == firsts;
      AfterNothing(pops);
      for i := 0 to size - 1
        invariant funcname == old(funcname) && instructions == old(instructions) + code
        invariant pops == After(code, GenPops(arr, funcname, firsts[i..], State()))
      {
        SizeAt(expressions, i);
        PopsRound(arr, funcname, firsts, i, State());
        ghost var o := Gen(arr, funcname, expressions[i], State());
        AfterFields(code, o);
        err := Generate(expressions[i]);
        if err != Ok {
          return;
        }
        // drop the value, so that the stack stays clean
        AddInstruction(Pop);
        AfterAfter(code, o.code + [Pop], GenPops(arr, funcname, firsts[i + 1..], o.st));
        code := code + (o.code + [Pop]);
      }
      PopsRound(arr, funcname, firsts, size - 1, State());
      AfterFields(code, Out([], State(), Ok));
      tail := oldtail;
      SizeAt(expressions, size - 1);
      err := Generate(expressions[size - 1]);
    }

    method BuildSexpFun(name: string, funcargs: seq<Value>, funcbody: seq<Value>) returns (built: Built)
      ensures var b := BuildFun(arr, FunName(name), funcargs, funcbody);
              built.err == b.err && (b.err == Ok ==> built == b)
      decreases SizeSeq(funcbody), 3
    {
      hide GenBegin, Puts, ParseParams, FunName;
      var missing := BuiltinFunction("__missing");
      var gen := new Generator(arr);
      gen.tail := true;
      gen.NameFunction(name);
      var params := ReadParams(funcargs);
      if params.BadParams? {
        return Built(missing, Failed);
      }
      gen.GeneratePuts(params.names);
      var err := gen.GenerateBegin(funcbody);
      if err != Ok {
        return Built(missing, err);
      }
      gen.AddInstruction(Return(false));
      built := Built(Function(gen.funcname, false, params.nargs, params.varargs, gen.instructions, None), Ok);
    }

    method NameFunction(name: string)
      modifies this`funcname
      ensures funcname == FunName(name)
    {
      if |name| == 0 {
        funcname := ANON;
      } else {
        funcname := name;
      }
    }

    /** The loop over the parameters, and the `&` before the last one. */
    static method ReadParams(funcargs: seq<Value>) returns (params: Params)
      ensures params == ParseParams(funcargs)
    {
      var argsyms: seq<Symbol> := [];
      for i := 0 to |funcargs|
        invariant AllSymbols(funcargs[..i]) && argsyms == Symbols(funcargs[..i])
      {
        if !funcargs[i].Sym? {
          return BadParams;
        }
        argsyms := argsyms + [funcargs[i].sym];
      }
      assert funcargs[..|funcargs|] == funcargs;
      var varargs, nargs := false, |funcargs|;
      if |argsyms| >= 2 && argsyms[|argsyms| - 2].name == "&" {
        argsyms := argsyms[|argsyms| - 2 := argsyms[|argsyms| - 1]];
        argsyms := argsyms[..|argsyms| - 1];
        varargs := true;
        nargs := |argsyms| - 1;
      }
      params := Params(argsyms, nargs, varargs);
    }

    /** The loops that emit one `put` per name, last name first. */
    method GeneratePuts(names: seq<Symbol>)
      modifies this`instructions
      ensures instructions == old(instructions) + Puts(names)
    {
      hide Puts;
      var i := |names| - 1;
      assert names[..|names|] == names;
      while i >= 0
        invariant -1 <= i < |names|
        invariant instructions + Puts(names[..i + 1]) == old(instructions) + Puts(names)
      {
        PutsRound(names, i);
        AddInstruction(Put(names[i]));
        i := i - 1;
      }
      NoPuts();
      assert names[..0] == [];
    }

    method GenerateFn(args: seq<Value>) returns (err: Fault)
      modifies this
      ensures Emits(if |args| < 2 || !args[0].Arr? then Out([], old(State()), Failed)
                    else var b := BuildFun(arr, ANON, args[0].elems, args[1..]);
                         if b.err != Ok then Out([], old(State()), b.err)
                             else Out([PushClosure(b.fn)], old(State()), Ok), err)
      decreases SizeSeq(args), 3
    {
      hide BuildFun;
      if |args| < 2 || !args[0].Arr? {
        return Failed;
      }
      SizeAt(args, 1);
      var sfun := BuildSexpFun("", args[0].elems, args[1..]);
      if sfun.err != Ok {
        return sfun.err;
      }
      AddInstruction(PushClosure(sfun.fn));
      err := Ok;
    }

    method GenerateDef(args: seq<Value>) returns (err: Fault)
      modifies this
      ensures Emits(if |args| != 2 || !args[0].Sym? then Out([], old(State()), Failed)
                    else var o := Gen(arr, old(funcname), args[1], old(State()).(tail := false));
                         if o.err != Ok then o else Out(o.code + [Put(args[0].sym), Push(Null)], o.st, Ok), err)
      decreases SizeSeq(args), 3
    {
      hide Gen;
      if |args| != 2 || !args[0].Sym? {
        return Failed;
      }
      SizeAt(args, 1);
      tail := false;
      err := Generate(args[1]);
      if err != Ok {
        return;
      }
      AddInstruction(Put(args[0].sym));
      AddInstruction(Push(Null));
    }

    method GenerateDefn(args: seq<Value>) returns (err: Fault)
      modifies this
      ensures Emits(if |args| < 3 || !args[1].Arr? || !args[0].Sym? then Out([], old(State()), Failed)
                    else var b := BuildFun(arr, FunName(args[0].sym.name), args[1].elems, args[2..]);
                         if b.err != Ok then Out([], old(State()), b.err)
                         else Out([Push(Fun(b.fn)), Put(args[0].sym), Push(Null)], old(State()), Ok), err)
      decreases SizeSeq(args), 3
    {
      hide BuildFun;
      if |args| < 3 || !args[1].Arr? || !args[0].Sym? {
        return Failed;
      }
      SizeAt(args, 2);
      var sfun := BuildSexpFun(args[0].sym.name, args[1].elems, args[2..]);
      if sfun.err != Ok {
        return sfun.err;
      }
      AddInstruction(Push(Fun(sfun.fn)));
      AddInstruction(Put(args[0].sym));
      AddInstruction(Push(Null));
      err := Ok;
    }

    /** The code of one sub-expression, from a generator of its own. */
    method SubCode(fname: string, st: Gst, expr: Value) returns (code: seq<Instr>, err: Fault)
      ensures var o := Gen(arr, fname, expr, st); err == o.err && (!Stops(err) ==> code == o.code)
      decreases Size(expr), 1
    {
      hide Gen;
      var subgen := new Generator(arr);
      subgen.funcname, subgen.tail, subgen.scopes := fname, st.tail, st.scopes;
      err := subgen.Generate(expr);
      code := subgen.instructions;
    }

    method GenerateShortCircuit(or: bool, args: seq<Value>) returns (err: Fault)
      modifies this
      ensures Emits(if args == [] then Out([], old(State()), Panicked)
              else GenShort(arr, old(funcname), or, args, old(State())), err)
      decreases SizeSeq(args), 3
    {
      hide GenShort;
      if |args| == 0 {
        // the index of the last argument is out of range
        return Panicked;
      }
      var instrs;
      instrs, err := ShortClauses(or, args);
      if Stops(err) {
        return;
      }
      AddInstructions(instrs);
    }

    /** All the tests, from the last to the first; errors in them are dropped. */
    method ShortClauses(or: bool, args: seq<Value>) returns (instrs: seq<Instr>, err: Fault)
      requires args != []
      ensures var o := GenShort(arr, funcname, or, args, State());
              err == o.err && (!Stops(err) ==> err == Ok && instrs == o.code && State() == o.st)
      decreases SizeSeq(args), 2
    {
      hide Gen, GenShort, ShortFrom;
      var size := |args|;
      SizeAt(args, size - 1);
      ShortLast(arr, funcname, or, args, State());
      instrs, err := SubCode(funcname, State(), args[size - 1]);
      if Stops(err) {
        return;
      }
      var i := size - 2;
      while i >= 0
        invariant -1 <= i <= size - 2
        invariant ShortFrom(arr, funcname, or, args, i + 1, State(), instrs)
      {
        SizeAt(args, i);
        ShortRound(arr, funcname, or, args, i, State(), instrs);
        var code;
        code, err := SubCode("", Gst(false, 0), args[i]);
        if Stops(err) {
          return;
        }
        instrs := code + [Dup, Branch(or, |instrs| + 2), Pop] + instrs;
        i := i - 1;
      }
      ShortWhole(arr, funcname, or, args, State(), instrs);
      err := Ok;
    }

    /** One clause of a `cond` before the code of the later ones. */
    method CondClause(pred: Value, body: Value, rest: seq<Instr>) returns (code: seq<Instr>, err: Fault)
      ensures Out(code, State(), err) == Clause(Gen(arr, funcname, pred, Gst(false, 0)),
              Gen(arr, funcname, body, State()), rest, State())
      ensures err != Ok ==> code == []
      decreases Size(pred) + Size(body), 2
    {
      hide Gen;
      var predCode, bodyCode;
      predCode, err := SubCode(funcname, Gst(false, 0), pred);
      if err != Ok {
        return [], err;
      }
      bodyCode, err := SubCode(funcname, State(), body);
      if err != Ok {
        return [], err;
      }
      code := predCode + [Branch(false, |bodyCode| + 2)] + bodyCode + [Jump(|rest| + 1)] + rest;
    }

    /** All the clauses, from the last to the first. */
    method CondClauses(args: seq<Value>) returns (code: seq<Instr>, err: Fault)
      requires |args| % 2 == 1
      ensures var o := GenCond(arr, funcname, args, State()); err == o.err && (!Stops(err) ==> code == o.code)
      decreases SizeSeq(args), 2
    {
      hide Gen, GenCond, Clause, CondFrom;
      var size := |args|;
      SizeAt(args, size - 1);
      CondLast(arr, funcname, args, State());
      CondError(arr, funcname, args, State());
      code, err := SubCode(funcname, State(), args[size - 1]);
      if err != Ok {
        return [], err;
      }
      var i := size - 3;
      while i >= 0
        invariant -2 <= i <= size - 3 && i % 2 == 0
        invariant err == Ok && CondFrom(arr, funcname, args, i + 2, State(), code)
      {
        TwoSizes(args, i);
        ghost var rest := code;
        code, err := CondClause(args[i], args[i + 1], code);
        CondRound(arr, funcname, args, i, State(), rest, Out(code, State(), err));
        if err != Ok {
          return;
        }
        i := i - 2;
      }
      CondWhole(arr, funcname, args, State(), code);
    }

    method GenerateCond(args: seq<Value>) returns (err: Fault)
      modifies this
      ensures Emits(if |args| % 2 == 0 then Out([], old(State()), Failed)
              else GenCond(arr, old(funcname), args, old(State())), err)
      decreases SizeSeq(args), 3
    {
      hide GenCond;
      if |args| % 2 == 0 {
        return Failed;
      }
      var instrs;
      instrs, err := CondClauses(args);
      CondError(arr, funcname, args, State());
      if err != Ok {
        return;
      }
      AddInstructions(instrs);
    }

    method GenerateQuote(args: seq<Value>)
      modifies this`instructions
      ensures instructions == old(instructions) + seq(|args|, i requires 0 <= i < |args| => Push(args[i]))
    {
      for i := 0 to |args|
        invariant instructions == old(instructions) + seq(i, j requires 0 <= j < i => Push(args[j]))
      {
        AddInstruction(Push(args[i]));
      }
    }

    method Generate(expr: Value) returns (err: Fault)
      modifies this
      ensures Emits(Gen(arr, old(funcname), expr, old(State())), err)
      decreases Size(expr), 0
    {
      match expr
      case Sym(s) =>
        AddInstruction(Get(s));
        err := Ok;
      case Pair(_, _) =>
        if IsList(expr) {
          err := GenerateCall(expr);
        } else {
          AddInstruction(Push(expr));
          err := Ok;
        }
      case Arr(es) => err := GenerateArray(es);
      case _ =>
        AddInstruction(Push(expr));
        err := Ok;
    }

    method GenerateArray(es: seq<Value>) returns (err: Fault)
      modifies this
      ensures var o := GenAll(arr, old(funcname), es, old(State()));
              Emits(if o.err != Ok then o else Out(o.code + [Call(arr, |es|)], o.st, Ok), err)
      decreases SizeSeq(es), 2
    {
      err := GenerateAll(es);
      if err != Ok {
        return;
      }
      AddInstruction(Call(arr, |es|));
    }

    method GenerateCall(expr: Value) returns (err: Fault)
      requires expr.Pair? && IsList(expr)
      modifies this
      ensures var args := Elems(expr.tail);
              Emits(if expr.head.Sym? then GenForm(arr, old(funcname), expr.head.sym, args, old(State()))
                    else GenDispatch(arr, old(funcname), expr.head, args, old(State())), err)
      decreases Size(expr.head) + SizeSeq(Elems(expr.tail)), 5
    {
      var args := Elems(expr.tail);
      match expr.head
      case Sym(s) => err := GenerateCallBySymbol(s, args);
      case _ => err := GenerateDispatch(expr.head, args);
    }

    method GenerateDispatch(fun: Value, args: seq<Value>) returns (err: Fault)
      modifies this
      ensures Emits(GenDispatch(arr, old(funcname), fun, args, old(State())), err)
      decreases Size(fun) + SizeSeq(args), 3
    {
      hide GenAll, Gen;
      err := GenerateAll(args);
      if Stops(err) {
        return;
      }
      err := Generate(fun);
      if Stops(err) {
        return;
      }
      AddInstruction(Dispatch(|args|));
      err := Ok;
    }

    method GenerateLet(name: string, args: seq<Value>) returns (err: Fault)
      requires name == "let" || name == "let*"
      modifies this
      ensures Emits(GenLet(arr, old(funcname), name == "let*", args, old(State())), err)
      decreases SizeSeq(args), 3
    {
      hide GenBindings, GenBegin, ParseBindings;
      if |args| < 2 || !args[0].Arr? {
        return Failed;
      }
      var b := ReadBindings(args[0].elems);
      if b.BadBindings? {
        return Failed;
      }
      SizeAt(args, 0);
      AddInstruction(AddScope);
      scopes := scopes + 1;
      err := GenerateBindings(name, b.names, b.rights);
      if err != Ok {
        return;
      }
      err := GenerateBegin(args[1..]);
      if err != Ok {
        return;
      }
      AddInstruction(RemoveScope);
      scopes := scopes - 1;
    }

    /** The names and right-hand sides of the vector of a `let`. */
    method ReadBindings(bindings: seq<Value>) returns (b: Bindings)
      ensures b == ParseBindings(bindings)
    {
      var names: seq<Symbol>, rights: seq<Value> := [], [];
      if |bindings| % 2 != 0 {
        OddBindings(bindings);
        return BadBindings;
      }
      assert bindings[0..] == bindings;
      for i := 0 to |bindings| / 2
        invariant |names| == |rights|
        invariant ParseBindings(bindings) == Joined(names, rights, ParseBindings(bindings[2 * i..]))
      {
        BindingsRound(bindings, 2 * i);
        if !bindings[2 * i].Sym? {
          return BadBindings;
        }
        JoinedRound(names, rights, bindings[2 * i].sym, bindings[2 * i + 1], ParseBindings(bindings[2 * i + 2..]));
        names := names + [bindings[2 * i].sym];
        rights := rights + [bindings[2 * i + 1]];
      }
      assert bindings[|bindings|..] == [] && names + [] == names && rights + [] == rights;
      b := Bindings(names, rights);
    }

    /** The right-hand sides and the `put`s of a `let`. */
    method GenerateBindings(name: string, names: seq<Symbol>, rights: seq<Value>) returns (err: Fault)
      requires |names| == |rights|
      modifies this
      ensures Emits(GenBindings(arr, old(funcname), name == "let*", Bindings(names, rights), old(State())), err)
      decreases SizeSeq(rights), 2
    {
      hide GenAll, GenLetStar, Gen, After;
      if name != "let*" {
        err := GenerateAll(rights);
        if err == Ok {
          GeneratePuts(names);
        }
        return;
      }
      ghost var whole := GenLetStar(arr, funcname, names, rights, State());
      ghost var code: seq<Instr> := [];
      assert names[0..] == names && rights[0..] == rights;
      AfterNothing(whole);
      for i := 0 to |rights|
        invariant funcname == old(funcname) && instructions == old(instructions) + code
        invariant whole == After(code, GenLetStar(arr, funcname, names[i..], rights[i..], State()))
      {
        StarRound(arr, funcname, names, rights, i, State());
        ghost var o := Gen(arr, funcname, rights[i], State());
        AfterFields(code, o);
        err := Generate(rights[i]);
        if err != Ok {
          return;
        }
        AddInstruction(Put(names[i]));
        AfterAfter(code, o.code + [Put(names[i])], GenLetStar(arr, funcname, names[i + 1..], rights[i + 1..], o.st));
        code := code + (o.code + [Put(names[i])]);
      }
      StarRound(arr, funcname, names, rights, |rights|, State());
      AfterFields(code, Out([], State(), Ok));
      err := Ok;
    }

    method GenerateAssert(args: seq<Value>) returns (err: Fault)
      modifies this
      ensures Emits(if |args| != 1 then Out([], old(State()), Failed)
                    else var o := Gen(arr, old(funcname), args[0], old(State()));
                         if o.err != Ok then o
                             else Out(o.code + [Branch(true, 2), Return(true), Push(Null)], o.st, Ok), err)
      decreases SizeSeq(args), 3
    {
      hide Gen;
      if |args| != 1 {
        return Failed;
      }
      SizeAt(args, 0);
      err := Generate(args[0]);
      if err != Ok {
        return;
      }
      AddInstruction(Branch(true, 2));
      AddInstruction(Return(true));
      AddInstruction(Push(Null));
    }

    /** An ordinary call; a call of the enclosing function in tail position removes the open
        scopes and starts the function again. */
    method GenerateNamedCall(sym: Symbol, args: seq<Value>) returns (err: Fault)
      modifies this
      ensures var g, o := old(State()), GenAll(arr, old(funcname), args, old(State()).(tail := false));
              Emits(if o.err != Ok then o
                    else Out(o.code + (if g.tail && sym.name == old(funcname) then Removes(o.st.scopes) + [Goto(0)]
                        else [Call(sym, |args|)]),
                             o.st.(tail := g.tail), Ok), err)
      decreases SizeSeq(args), 3
    {
      hide GenAll, Removes;
      var oldtail := tail;
      tail := false;
      err := GenerateAll(args);
      if err != Ok {
        return;
      }
      if oldtail && sym.name == funcname {
        GenerateRemoves();
        AddInstruction(Goto(0));
      } else {
        AddInstruction(Call(sym, |args|));
      }
      tail := oldtail;
    }

    method GenerateRemoves()
      modifies this`instructions
      ensures instructions == old(instructions) + Removes(scopes)
    {
      var i := 0;
      while i < scopes
        invariant i <= scopes || i == 0
        invariant 0 <= i && instructions + Removes(scopes - i) == old(instructions) + Removes(scopes)
        decreases scopes - i
      {
        assert Removes(scopes - i) == [RemoveScope] + Removes(scopes - (i + 1));
        AddInstruction(RemoveScope);
        i := i + 1;
      }
      assert Removes(scopes - i) == [];
    }

    /** Programs come with their macros expanded. */
    method GenerateCallBySymbol(sym: Symbol, args: seq<Value>) returns (err: Fault)
      modifies this
      ensures Emits(GenForm(arr, old(funcname), sym, args, old(State())), err)
      decreases SizeSeq(args), 4
    {
      hide Gen, GenAll, GenShort, GenCond, GenBegin, GenLet, GenQuasi, BuildFun, Removes;
      match sym.name
      case "and" => err := GenerateShortCircuit(false, args);
      case "or" => err := GenerateShortCircuit(true, args);
      case "cond" => err := GenerateCond(args);
      case "quote" =>
        GenerateQuote(args);
        err := Ok;
      case "def" => err := GenerateDef(args);
      case "fn" => err := GenerateFn(args);
      case "defn" => err := GenerateDefn(args);
      case "begin" => err := GenerateBegin(args);
      case "let" => err := GenerateLet("let", args);
      case "let*" => err := GenerateLet("let*", args);
      case "assert" => err := GenerateAssert(args);
      case "syntax-quote" => err := GenerateSyntaxQuote(args);
      case "defmac" => err := Unmodelled;
      case "macexpand" => err := Unmodelled;
      case "include" => err := Unmodelled;
      case "import" => err := Unmodelled;
      case _ => err := GenerateNamedCall(sym, args);
    }

    // ---------- syntax-quote ----------

    method GenerateSyntaxQuote(args: seq<Value>) returns (err: Fault)
      modifies this
      ensures Emits(if |args| != 1 then Out([], old(State()), Failed)
              else GenQuasi(arr, old(funcname), args[0], old(State())), err)
      decreases SizeSeq(args), 3
    {
      if |args| != 1 {
        return Failed;
      }
      SizeAt(args, 0);
      err := GenerateTemplate(args[0]);
    }

    method GenerateTemplate(arg: Value) returns (err: Fault)
      modifies this
      ensures Emits(GenQuasi(arr, old(funcname), arg, old(State())), err)
      decreases Size(arg), 1
    {
      hide GenQuasiAll, GenQuasiEach, Gen;
      if arg.Arr? {
        err := GenerateSyntaxQuoteArray(arg.elems);
      } else if arg.Pair? && IsList(arg) {
        err := GenerateSyntaxQuoteList(arg);
      } else {
        AddInstruction(Push(arg));
        err := Ok;
      }
    }

    /** Errors of what is unquoted are dropped. */
    method GenerateSyntaxQuoteList(arg: Value) returns (err: Fault)
      requires arg.Pair? && IsList(arg)
      modifies this
      ensures Emits(GenQuasi(arr, old(funcname), arg, old(State())), err)
      decreases Size(arg), 0
    {
      hide GenQuasiAll, GenQuasiEach, Gen;
      var quotebody := Elems(arg);
      if |quotebody| == 2 && quotebody[0].Sym? {
        SizeAt(quotebody, 1);
        if quotebody[0].sym.name == "unquote" {
          err := Generate(quotebody[1]);
          return if Stops(err) then err else Ok;
        } else if quotebody[0].sym.name == "unquote-splicing" {
          err := Generate(quotebody[1]);
          if Stops(err) {
            return;
          }
          AddInstruction(Explode);
          return Ok;
        }
      }
      AddInstruction(Push(Marker));
      err := GenerateElements(quotebody);
      AddInstruction(Squash);
    }

    method GenerateElements(xs: seq<Value>) returns (err: Fault)
      modifies this
      ensures Emits(GenQuasiAll(arr, old(funcname), xs, old(State())), err)
      decreases SizeSeq(xs), 2
    {
      hide GenQuasi, GenQuasiAll, GenQuasiEach, After;
      ghost var whole := GenQuasiAll(arr, funcname, xs, State());
      ghost var code: seq<Instr> := [];
      assert xs[0..] == xs;
      AfterNothing(whole);
      for i := 0 to |xs|
        invariant funcname == old(funcname) && instructions == old(instructions) + code
        invariant whole == After(code, GenQuasiAll(arr, funcname, xs[i..], State()))
      {
        QuasiRound(arr, funcname, xs, i, State());
        ghost var o := GenQuasi(arr, funcname, xs[i], State());
        AfterFields(code, o);
        err := GenerateTemplate(xs[i]);
        if Stops(err) {
          return;
        }
        AfterAfter(code, o.code, GenQuasiAll(arr, funcname, xs[i + 1..], o.st));
        code := code + o.code;
      }
      QuasiRound(arr, funcname, xs, |xs|, State());
      AfterFields(code, Out([], State(), Ok));
      err := Ok;
    }

    method GenerateSyntaxQuoteArray(xs: seq<Value>) returns (err: Fault)
      modifies this
      ensures Emits(GenQuasi(arr, old(funcname), Arr(xs), old(State())), err)
      decreases SizeSeq(xs), 3
    {
      hide GenQuasiAll, GenQuasiEach, After;
      AddInstruction(Push(Marker));
      ghost var whole := GenQuasiEach(arr, funcname, xs, State());
      assert GenQuasi(arr, funcname, Arr(xs), State()) ==
             Out([Push(Marker)] + whole.code + [Vectorize], whole.st, whole.err);
      hide GenQuasi;
      ghost var code: seq<Instr> := [];
      assert xs[0..] == xs;
      AfterNothing(whole);
      for i := 0 to |xs|
        invariant funcname == old(funcname) && instructions == old(instructions) + [Push(Marker)] + code
        invariant whole == After(code, GenQuasiEach(arr, funcname, xs[i..], State()))
      {
        QuasiRound(arr, funcname, xs, i, State());
        ghost var o := GenQuasi(arr, funcname, xs[i], State());
        AfterFields(code, o);
        AddInstruction(Push(Marker));
        err := GenerateTemplate(xs[i]);
        if Stops(err) {
          return;
        }
        AddInstruction(Squash);
        AddInstruction(Explode);
        ghost var round := [Push(Marker)] + o.code + [Squash, Explode];
        AfterAfter(code, round, GenQuasiEach(arr, funcname, xs[i + 1..], o.st));
        code := code + round;
      }
      QuasiRound(arr, funcname, xs, |xs|, State());
      AfterFields(code, Out([], State(), Ok));
      AddInstruction(Vectorize);
      err := Ok;
    }
  }
}
