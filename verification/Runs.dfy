/** Facts about runs of the machine: a larger bound changes no result, runs compose, and
    a sequence of steps that ends where the machine is done is what `Run` performs. */
module Runs {
  import opened Sexps
  import opened Instructions
  import opened Machines

  // ---------- a larger bound gives the same result ----------

  lemma {:induction false} MonoExec(k: nat, k': nat, m: Machine)
    requires k <= k' && Exec(k, m).Some?
    ensures Exec(k', m) == Exec(k, m)
    decreases k, 5
  {
    match m.curfunc.fun[m.pc]
    case Call(s, nargs) =>
      if s.num in m.host.builtins {
        MonoUser(k, k', BuiltinFunction(m.host.builtins[s.num]), s.name, nargs, m);
      } else {
        var f := Scoping.Lookup(m.glob, m.locals, s.num).value.fn;
        if f.user {
          MonoUser(k, k', f, s.name, nargs, m);
        }
      }
    case Dispatch(nargs) =>
      var n := |m.data| - 1;
      var f := m.data[n].fn;
      if f.user {
        MonoUser(k, k', f, f.name, nargs, m.(data := m.data[..n]));
      }
    case _ =>
  }

  lemma {:induction false} MonoUser(k: nat, k': nat, f: Function, name: string, nargs: nat, m: Machine)
    requires k <= k' && CallUserFunction(k, f, name, nargs, m).Some?
    ensures CallUserFunction(k', f, name, nargs, m) == CallUserFunction(k, f, name, nargs, m)
    decreases k, 4
  {
    var n := |m.data| - nargs;
    var inside := m.(data := m.data[..n], addrs := m.addrs + [Address(m.curfunc, m.pc + 1)],
                     curfunc := f, pc := -1);
    MonoBuiltin(k, k', f.name, name, m.data[n..], inside);
  }

  lemma {:induction false} MonoBuiltin(k: nat, k': nat, which: string, name: string, args: seq<Value>, m: Machine)
    requires k <= k' && RunBuiltin(k, which, name, args, m).Some?
    ensures RunBuiltin(k', which, name, args, m) == RunBuiltin(k, which, name, args, m)
    decreases k, 3
  {
    if which == "apply" {
      MonoApply(k, k', args[0].fn, Builtins.ApplyArgs(args[1]).value, m);
    } else if which == "map" {
      if args[1].Arr? {
        MonoMapArray(k, k', args[0].fn, args[1].elems, m);
      } else {
        MonoMapList(k, k', args[0].fn, args[1], m);
      }
    }
  }

  lemma {:induction false} MonoMapArray(k: nat, k': nat, f: Function, es: seq<Value>, m: Machine)
    requires k <= k' && MapArray(k, f, es, m).Some?
    ensures MapArray(k', f, es, m) == MapArray(k, f, es, m)
    decreases k, 2, |es|
  {
    if es != [] {
      MonoApply(k, k', f, es[..1], m);
      MonoMapArray(k, k', f, es[1..], Apply(k, f, es[..1], m).value.1);
    }
  }

  lemma {:induction false} MonoMapList(k: nat, k': nat, f: Function, e: Value, m: Machine)
    requires k <= k' && MapList(k, f, e, m).Some?
    ensures MapList(k', f, e, m) == MapList(k, f, e, m)
    decreases k, 2, Size(e)
  {
    if e.Pair? {
      MonoApply(k, k', f, [e.head], m);
      MonoMapList(k, k', f, e.tail, Apply(k, f, [e.head], m).value.1);
    }
  }

  lemma {:induction false} MonoApply(k: nat, k': nat, f: Function, args: seq<Value>, m: Machine)
    requires k <= k' && Apply(k, f, args, m).Some?
    ensures Apply(k', f, args, m) == Apply(k, f, args, m)
    decreases k, 1
  {
    if f.user {
      MonoBuiltin(k - 1, k' - 1, f.name, f.name, args, m);
    } else {
      MonoRun(k - 1, k' - 1, CallFunction(f, |args|, m.(pc := -2).Pushed(args)).value);
    }
  }

  lemma {:induction false} MonoRun(k: nat, k': nat, m: Machine)
    requires k <= k' && Run(k, m).Some?
    ensures Run(k', m) == Run(k, m)
    decreases k, 0
  {
    MonoExec(k - 1, k' - 1, m);
    var m' := Exec(k - 1, m).value;
    if !m'.IsDone() {
      MonoRun(k - 1, k' - 1, m');
    }
  }

  lemma {:induction false} MonoSteps(k: nat, k': nat, n: nat, m: Machine)
    requires k <= k' && Steps(k, n, m).Some?
    ensures Steps(k', n, m) == Steps(k, n, m)
    decreases n
  {
    if n > 0 {
      MonoExec(k, k', m);
      MonoSteps(k, k', n - 1, Exec(k, m).value);
    }
  }

  // ---------- composition ----------

  lemma {:induction false} StepsAppend(k: nat, i: nat, j: nat, m: Machine)
    requires Steps(k, i, m).Some?
    ensures Steps(k, i + j, m) == Steps(k, j, Steps(k, i, m).value)
    decreases i
  {
    if i > 0 {
      StepsAppend(k, i - 1, j, Exec(k, m).value);
    }
  }

  lemma Transitive(m: Machine, m': Machine, m'': Machine)
    requires Reaches(m, m') && Reaches(m', m'')
    ensures Reaches(m, m'')
  {
    hide Exec;
    var k: nat, i: nat :| Steps(k, i, m) == Some(m');
    var k': nat, j: nat :| Steps(k', j, m') == Some(m'');
    var top := if k < k' then k' else k;
    MonoSteps(k, top, i, m);
    MonoSteps(k', top, j, m');
    StepsAppend(top, i, j, m);
    assert Steps(top, i + j, m) == Some(m'');
  }

  lemma Stays(m: Machine)
    ensures Reaches(m, m)
  {
    assert Steps(0, 0, m) == Some(m);
  }

  lemma OneStep(k: nat, m: Machine, m': Machine)
    requires Exec(k, m) == Some(m')
    ensures Reaches(m, m')
  {
    assert Steps(k, 0, m') == Some(m');
    assert Steps(k, 1, m) == Some(m');
  }

  /** `m` reaches `m'`, and one more instruction leads on to `m''`. */
  lemma ThenStep(m: Machine, m': Machine, k: nat, m'': Machine)
    requires Reaches(m, m') && Exec(k, m') == Some(m'')
    ensures Reaches(m, m'')
  {
    OneStep(k, m', m'');
    Transitive(m, m', m'');
  }

  // ---------- `Run` ----------

  lemma {:induction false} RunSteps(k: nat, n: nat, m: Machine, m': Machine)
    requires n > 0 && Steps(k, n, m) == Some(m') && m'.IsDone() && m'.data != []
    ensures Run(k + n, m) == Some((m'.data[|m'.data| - 1], m'.(data := m'.data[..|m'.data| - 1])))
    decreases n
  {
    var m1 := Exec(k, m).value;
    MonoExec(k, k + n - 1, m);
    if n > 1 {
      assert !m1.IsDone() by {
        assert Steps(k, n - 1, m1) == Some(m');
        assert Exec(k, m1).Some?;
      }
      RunSteps(k, n - 1, m1, m');
    }
  }

  lemma RunReaches(m: Machine, m': Machine) returns (k: nat)
    requires Reaches(m, m') && !m.IsDone() && m'.IsDone() && m'.data != []
    ensures Run(k, m) == Some((m'.data[|m'.data| - 1], m'.(data := m'.data[..|m'.data| - 1])))
  {
    var k0: nat, n: nat :| Steps(k0, n, m) == Some(m');
    RunSteps(k0, n, m, m');
    k := k0 + n;
  }

  /** The machine is deterministic: a finished run has one result only. */
  lemma RunUnique(m: Machine, k: nat, k': nat)
    requires Run(k, m).Some? && Run(k', m).Some?
    ensures Run(k, m) == Run(k', m)
  {
    if k <= k' {
      MonoRun(k, k', m);
    } else {
      MonoRun(k', k, m);
    }
  }
}
