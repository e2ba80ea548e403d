/** The virtual machine of vm.go and environment.go, as a function on machine states.

    A builtin may run script functions on the same machine before it returns, so one
    instruction can contain whole nested runs; `k` bounds the nesting and the length of
    nested runs. No result means an error, a Go panic, or that `k` was too small. */
module Machines {
  import opened Sexps
  import opened Instructions
  import opened Scoping
  import opened Builtins

  datatype Address = Address(fn: Function, pos: int)

  /** `locals` is the current scope stack above the global scope; `saved` holds those of
      the callers, which `stackstack` keeps. Tops are at the end. */
  datatype Machine = Machine(
    host: Host, glob: Frame, locals: seq<Frame>, data: seq<Value>,
    addrs: seq<Address>, saved: seq<seq<Frame>>, curfunc: Function, pc: int)
  {
    function FunctionSize(): int {
      if curfunc.user then 0 else |curfunc.fun|
    }

    predicate IsDone() {
      pc == -1 || pc == FunctionSize()
    }

    function Pushed(vs: seq<Value>): Machine {
      this.(data := data + vs)
    }

    function Bind(s: int, v: Value): Machine {
      if locals == [] then this.(glob := glob[s := v])
      else
        var n := |locals| - 1;
        this.(locals := locals[n := locals[n][s := v]])
    }
  }

  type Result = Option<Machine>

  const MISSING := BuiltinFunction("__missing")

  /** What a new environment binds in the global scope: every builtin, under its name. */
  function BuiltinFrame(host: Host): Frame {
    map s | s in host.builtins :: Fun(BuiltinFunction(host.builtins[s]))
  }

  /** A new environment. */
  function NewMachine(host: Host): Machine {
    Machine(host, BuiltinFrame(host), [], [], [], [], Function("__main", false, 0, false, [], None), 0)
  }

  function JumpTo(m: Machine, loc: int): Result {
    if 0 <= loc <= m.FunctionSize() then Some(m.(pc := loc)) else None
  }

  /** What a closure captures: the local bindings that its own instructions name. */
  function Capture(code: seq<Instr>, locals: seq<Frame>): Frame {
    map s | s in Mentions(code) && LookupLocal(locals, s).Some? :: LookupLocal(locals, s).value
  }

  /** The values above the topmost marker, and the stack below it. */
  function ToMarker(data: seq<Value>): Option<(seq<Value>, seq<Value>)> {
    if data == [] then None
    else
      var n := |data| - 1;
      if data[n].Marker? then Some(([], data[..n]))
      else
        match ToMarker(data[..n])
        case None => None
        case Some((above, below)) => Some((above + [data[n]], below))
  }

  // ---------- calls and returns ----------

  /** `wrangleOptargs`: the arguments beyond the fixed ones become one list. */
  function Wrangle(data: seq<Value>, fnargs: int, nargs: int): Option<seq<Value>> {
    if nargs < fnargs then None
    else if nargs == fnargs then Some(data + [Null])
    else
      var n := |data| - (nargs - fnargs);
      if n < 0 then None else Some(data[..n] + [MakeList(data[n..])])
  }

  function Arguments(f: Function, nargs: int, data: seq<Value>): Option<seq<Value>> {
    if f.varargs then Wrangle(data, f.nargs, nargs)
    else if nargs == f.nargs then Some(data)
    else None
  }

  function CallFunction(f: Function, nargs: int, m: Machine): Result {
    match Arguments(f, nargs, m.data)
    case None => None
    case Some(data) =>
      var base := if f.close.Some? then f.close.value else [];
      Some(m.(data := data,
              saved := m.saved + [m.locals],
              locals := base + [map[]],
              addrs := m.addrs + [Address(m.curfunc, m.pc + 1)],
              curfunc := f,
              pc := 0))
  }

  function ReturnFromFunction(m: Machine): Result {
    if m.addrs == [] || m.saved == [] then None
    else
      var a := m.addrs[|m.addrs| - 1];
      Some(m.(curfunc := a.fn, pc := a.pos, addrs := m.addrs[..|m.addrs| - 1],
              locals := m.saved[|m.saved| - 1], saved := m.saved[..|m.saved| - 1]))
  }

  function PopAddr(m: Machine): Machine {
    if m.addrs == [] then m.(curfunc := MISSING, pc := 0)
    else
      var a := m.addrs[|m.addrs| - 1];
      m.(curfunc := a.fn, pc := a.pos, addrs := m.addrs[..|m.addrs| - 1])
  }

  function CallUserFunction(k: nat, f: Function, name: string, nargs: nat, m: Machine): Result
    decreases k, 4
  {
    if nargs > |m.data| then None
    else
      var n := |m.data| - nargs;
      var inside := m.(data := m.data[..n], addrs := m.addrs + [Address(m.curfunc, m.pc + 1)],
                       curfunc := f, pc := -1);
      match RunBuiltin(k, f.name, name, m.data[n..], inside)
      case None => None
      case Some((v, m')) => Some(PopAddr(m'.Pushed([v])))
  }

  /** The Go function of a builtin. */
  function RunBuiltin(k: nat, which: string, name: string, args: seq<Value>, m: Machine): Option<(Value, Machine)>
    decreases k, 3
  {
    if which == "apply" then
      if |args| != 2 || !args[0].Fun? then None
      else
        match ApplyArgs(args[1])
        case None => None
        case Some(es) => Apply(k, args[0].fn, es, m)
    else if which == "map" then
      if |args| != 2 || !args[0].Fun? then None
      else if args[1].Arr? then
        match MapArray(k, args[0].fn, args[1].elems, m)
        case None => None
        case Some((vs, m')) => Some((Arr(vs), m'))
      else if args[1].Pair? then MapList(k, args[0].fn, args[1], m)
      else None
    else
      match Prim(m.host, which, name, args)
      case None => None
      case Some(v) => Some((v, m))
  }

  function MapArray(k: nat, f: Function, es: seq<Value>, m: Machine): Option<(seq<Value>, Machine)>
    decreases k, 2, |es|
  {
    if es == [] then Some(([], m))
    else
      match Apply(k, f, es[..1], m)
      case None => None
      case Some((v, m')) =>
        match MapArray(k, f, es[1..], m')
        case None => None
        case Some((vs, m'')) => Some(([v] + vs, m''))
  }

  function MapList(k: nat, f: Function, e: Value, m: Machine): Option<(Value, Machine)>
    decreases k, 2, Size(e)
  {
    match e
    case Null => Some((Null, m))
    case Pair(h, t) =>
      (match Apply(k, f, [h], m)
       case None => None
       case Some((v, m')) =>
         match MapList(k, f, t, m')
         case None => None
         case Some((vs, m'')) => Some((Pair(v, vs), m'')))
    case _ => None
  }

  /** `Apply` of environment.go, as a builtin uses it. */
  function Apply(k: nat, f: Function, args: seq<Value>, m: Machine): Option<(Value, Machine)>
    decreases k, 1
  {
    if k == 0 then None
    else if f.user then RunBuiltin(k - 1, f.name, f.name, args, m)
    else
      match CallFunction(f, |args|, m.(pc := -2).Pushed(args))
      case None => None
      case Some(m') => Run(k - 1, m')
  }

  /** Steps until the machine is done, then pops the result. */
  function Run(k: nat, m: Machine): Option<(Value, Machine)>
    decreases k, 0
  {
    if k == 0 then None
    else
      match Exec(k - 1, m)
      case None => None
      case Some(m') =>
        if !m'.IsDone() then Run(k - 1, m')
        else if m'.data == [] then None
        else
          var n := |m'.data| - 1;
          Some((m'.data[n], m'.(data := m'.data[..n])))
  }

  // ---------- instructions ----------

  /** The instructions that neither call nor return. */
  function Plain(i: Instr, m: Machine): Result {
    var n := |m.data| - 1;
    var next := m.(pc := m.pc + 1);
    match i
    case Jump(l) => JumpTo(m, m.pc + l)
    case Goto(l) => JumpTo(m, l)
    case Branch(dir, l) =>
      if n < 0 then None
      else
        var popped := m.(data := m.data[..n]);
        if dir == IsTruthy(m.data[n]) then JumpTo(popped, m.pc + l) else Some(popped.(pc := m.pc + 1))
    case PushClosure(f) =>
      var scope := if f.user then [m.glob] + m.locals else [Capture(f.fun, m.locals)];
      Some(next.Pushed([Fun(f.(close := Some(scope)))]))
    case Push(e) => Some(next.Pushed([e]))
    case Pop => if n < 0 then None else Some(next.(data := m.data[..n]))
    case Dup => if n < 0 then None else Some(next.Pushed([m.data[n]]))
    case Get(s) =>
      (match Lookup(m.glob, m.locals, s.num)
       case None => None
       case Some(v) => Some(next.Pushed([v])))
    case Put(s) => if n < 0 then None else Some(next.(data := m.data[..n]).Bind(s.num, m.data[n]))
    case AddScope => Some(next.(locals := m.locals + [map[]]))
    case RemoveScope =>
      if m.locals == [] then None else Some(next.(locals := m.locals[..|m.locals| - 1]))
    case Explode =>
      if n < 0 || !IsList(m.data[n]) then None
      else Some(next.(data := m.data[..n] + Elems(m.data[n])))
    case Squash =>
      (match ToMarker(m.data)
       case None => None
       case Some((above, below)) => Some(next.(data := below + [MakeList(above)])))
    case Vectorize =>
      (match ToMarker(m.data)
       case None => None
       case Some((above, below)) => Some(next.(data := below + [Arr(above)])))
    case Call(_, _) => None
    case Dispatch(_) => None
    case Return(_) => None
  }

  function CallNamed(k: nat, s: Symbol, nargs: nat, m: Machine): Result
    decreases k, 5
  {
    if s.num in m.host.builtins then
      CallUserFunction(k, BuiltinFunction(m.host.builtins[s.num]), s.name, nargs, m)
    else
      match Lookup(m.glob, m.locals, s.num)
      case None => None
      case Some(v) =>
        if !v.Fun? then None
        else if v.fn.user then CallUserFunction(k, v.fn, s.name, nargs, m)
        else CallFunction(v.fn, nargs, m)
  }

  function CallTop(k: nat, nargs: nat, m: Machine): Result
    decreases k, 5
  {
    var n := |m.data| - 1;
    if n < 0 || !m.data[n].Fun? then None
    else
      var f, popped := m.data[n].fn, m.(data := m.data[..n]);
      if f.user then CallUserFunction(k, f, f.name, nargs, popped) else CallFunction(f, nargs, popped)
  }

  /** Executes the instruction at the program counter. */
  function Exec(k: nat, m: Machine): Result
    decreases k, 6
  {
    if m.curfunc.user || !(0 <= m.pc < |m.curfunc.fun|) then None
    else
      match m.curfunc.fun[m.pc]
      case Call(s, nargs) => CallNamed(k, s, nargs, m)
      case Dispatch(nargs) => CallTop(k, nargs, m)
      case Return(fails) => if fails then None else ReturnFromFunction(m)
      case i => Plain(i, m)
  }

  /** `n` instructions in a row, none of them past the point where the machine is done. */
  function Steps(k: nat, n: nat, m: Machine): Result
    decreases n
  {
    if n == 0 then Some(m)
    else
      match Exec(k, m)
      case None => None
      case Some(m') => Steps(k, n - 1, m')
  }

  ghost predicate Reaches(m: Machine, m': Machine) {
    exists k: nat, n: nat :: Steps(k, n, m) == Some(m')
  }
}
