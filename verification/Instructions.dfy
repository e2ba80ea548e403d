/** The instruction set and the compiled function values of vm.go. */
module Instructions {
  import opened Sexps

  type Value = Sexp<Function>

  /** A scope binds symbol numbers. */
  type Frame = map<int, Value>

  /** A script function (`fun`, and the scope captured when it was created), or a
      builtin (`user`), which `name` identifies. */
  datatype Function = Function(name: string, user: bool, nargs: int, varargs: bool,
                               fun: seq<Instr>, close: Option<seq<Frame>>)

  datatype Instr =
    | Jump(loc: int)
    | Goto(loc: int)
    | Branch(direction: bool, loc: int)
    | PushClosure(fn: Function)
    | Push(e: Value)
    | Pop
    | Dup
    | Get(sym: Symbol)
    | Put(sym: Symbol)
    | Call(sym: Symbol, nargs: nat)
    | Dispatch(nargs: nat)
    | Return(fails: bool)
    | AddScope
    | RemoveScope
    | Explode
    | Squash
    | Vectorize

  function BuiltinFunction(name: string): Function {
    Function(name, true, 0, false, [], None)
  }

  // ---------- the symbols a piece of code names ----------

  function InstrMentions(i: Instr): set<int> {
    match i
    case Get(s) => {s.num}
    case Put(s) => {s.num}
    case Call(s, _) => {s.num}
    case _ => {}
  }

  /** What the capture scan of a closure looks for: the symbols that the instructions
      of `code` name themselves, not those of functions nested in it. */
  function Mentions(code: seq<Instr>): set<int> {
    set i, s | 0 <= i < |code| && s in InstrMentions(code[i]) :: s
  }

  /** The scan looks for the symbols that are got, put or called by name, and no others. */
  lemma MentionsExact(code: seq<Instr>, s: int)
    ensures s in Mentions(code) <==>
            exists i | 0 <= i < |code| :: (code[i].Get? || code[i].Put? || code[i].Call?) && code[i].sym.num == s
  {
    if i :| 0 <= i < |code| && (code[i].Get? || code[i].Put? || code[i].Call?) && code[i].sym.num == s {
      assert s in InstrMentions(code[i]);
    }
  }

  function InstrNested(i: Instr): set<int> {
    match i
    case PushClosure(f) => Mentions(f.fun)
    case _ => {}
  }

  /** The symbols that the functions created by `code` will capture. */
  function Nested(code: seq<Instr>): set<int> {
    set i, s | 0 <= i < |code| && s in InstrNested(code[i]) :: s
  }
}
