/** The run queue never gets stuck, and the machine thread alone brings it to rest: every
    callback is then called and every byte delivered. */
module Progress {
  import opened Sexps
  import opened Delivery

  // ---------- buffers that are named exist ----------

  function Named(pc: ProducerPc): set<int> {
    match pc
    case Resting => {}
    case AddLock(b, _) => {b}
    case AddWrite(b, _) => {b}
    case AddClose(b, _) => {b}
    case AddCheck(b) => {b}
    case QueueLock(fn, back) => NamedIn(fn) + NamedBack(back)
    case QueueHas(fn, back) => NamedIn(fn) + NamedBack(back)
    case QueueAppend(fn, back) => NamedIn(fn) + NamedBack(back)
    case QueueUnlock(back) => NamedBack(back)
    case AddUnlock(b) => {b}
  }

  function NamedIn(f: Callback): set<int> {
    if f.Runner? then {f.buf} else {}
  }

  function NamedBack(back: Option<int>): set<int> {
    if back.Some? then {back.value} else {}
  }

  ghost predicate AllNamed(fs: seq<Callback>, bufs: map<int, Buffer>) {
    forall i | 0 <= i < |fs| :: NamedIn(fs[i]) <= bufs.Keys
  }

  ghost predicate DrainNamed(d: Drain, bufs: map<int, Buffer>) {
    AllNamed(d.run, bufs) && NamedBack(RunBuffer(d.pc)) <= bufs.Keys
  }

  ghost predicate Known(s: State) {
    && (forall p | p in s.threads :: Named(s.threads[p]) <= s.bufs.Keys)
    && AllNamed(s.queued, s.bufs)
    && forall i | 0 <= i < |s.drains| :: DrainNamed(s.drains[i], s.bufs)
  }

  /** What a step of a producer leaves alone, and where it stands afterwards. */
  ghost predicate Produced(s: State, s': State, p: int)
    requires p in s.threads
  {
    && s'.bufs.Keys == s.bufs.Keys && s'.drains == s.drains && p in s'.threads
    && s'.threads == s.threads[p := s'.threads[p]] && Named(s'.threads[p]) <= Named(s.threads[p])
    && (s'.queued == s.queued ||
        (s.threads[p].QueueAppend? && s'.queued == s.queued + [s.threads[p].fn]))
  }

  lemma ProduceSteps(s: State, s': State, p: int)
    requires Produce(s, s', p)
    ensures Produced(s, s', p)
  {
    hide LockStep, WriteStep, CloseStep, CheckStep, UnlockStep, Produced;
    match s.threads[p]
    case AddLock(b, data) => LockSteps(s, s', p, b, data);
    case AddWrite(b, data) => WriteSteps(s, s', p, b, data);
    case AddClose(b, data) => CloseSteps(s, s', p, b, data);
    case AddCheck(b) => CheckSteps(s, s', p, b);
    case AddUnlock(b) => UnlockSteps(s, s', p, b);
    case _ => QueueSteps(s, s', p);
  }

  lemma QueueSteps(s: State, s': State, p: int)
    requires p in s.threads && Produce(s, s', p)
    requires var pc := s.threads[p]; pc.QueueLock? || pc.QueueHas? || pc.QueueAppend? || pc.QueueUnlock?
    ensures Produced(s, s', p)
  {
    hide LockStep, WriteStep, CloseStep, CheckStep, UnlockStep;
  }

  lemma LockSteps(s: State, s': State, p: int, b: int, data: seq<int>)
    requires p in s.threads && s.threads[p] == AddLock(b, data) && LockStep(s, s', p, b, data)
    ensures Produced(s, s', p)
  {
  }

  lemma WriteSteps(s: State, s': State, p: int, b: int, data: seq<int>)
    requires p in s.threads && s.threads[p] == AddWrite(b, data) && WriteStep(s, s', p, b, data)
    ensures Produced(s, s', p)
  {
  }

  lemma CloseSteps(s: State, s': State, p: int, b: int, data: seq<int>)
    requires p in s.threads && s.threads[p] == AddClose(b, data) && CloseStep(s, s', p, b, data)
    ensures Produced(s, s', p)
  {
  }

  lemma CheckSteps(s: State, s': State, p: int, b: int)
    requires p in s.threads && s.threads[p] == AddCheck(b) && CheckStep(s, s', p, b)
    ensures Produced(s, s', p)
  {
  }

  lemma UnlockSteps(s: State, s': State, p: int, b: int)
    requires p in s.threads && s.threads[p] == AddUnlock(b) && UnlockStep(s, s', p, b)
    ensures Produced(s, s', p)
  {
  }

  lemma KnownProduce(s: State, s': State, p: int)
    requires Known(s) && Produce(s, s', p)
    ensures Known(s')
  {
    ProduceSteps(s, s', p);
    hide Produce, DrainNamed;
    forall i | 0 <= i < |s.drains| ensures DrainNamed(s'.drains[i], s'.bufs) {
      SameNamed(s.drains[i], s.bufs, s'.bufs);
    }
    assert Named(s.threads[p]) <= s.bufs.Keys;
    assert AllNamed(s'.queued, s'.bufs);
    hide Named, NamedIn, Produced;
  }

  lemma SameNamed(d: Drain, bufs: map<int, Buffer>, bufs': map<int, Buffer>)
    requires DrainNamed(d, bufs) && bufs'.Keys == bufs.Keys
    ensures DrainNamed(d, bufs')
  {
  }

  // ---------- the machine thread alone ----------

  function Waiting(queued: seq<Callback>): nat {
    if queued == [] then 0 else 10 * |queued| + 9
  }

  /** Bounds the steps that the machine thread takes alone until nothing is left. */
  function Work(s: State): nat {
    if s.drains == [] then Waiting(s.queued) else Load(s.drains[|s.drains| - 1], s.queued)
  }

  function Load(d: Drain, queued: seq<Callback>): nat {
    var left := if d.idx <= |d.run| then |d.run| - d.idx else 0;
    if d.pc.DrainLock? || d.pc.DrainHas? || d.pc.DrainCopy? then 10 * |queued| + Rank(d.pc)
    else if d.pc.DrainTruncate? then 10 * left + Rank(d.pc)
    else 10 * left + Rank(d.pc) + Waiting(queued)
  }

  /** What the invariant says of an activation. */
  predicate Sound(d: Drain, queued: seq<Callback>) {
    && d.idx <= |d.run| && (Starting(d.pc) ==> d.idx == 0) && (d.pc.DrainTruncate? ==> d.run == queued)
  }

  /** What a step of the machine thread inside `CallQueued` leaves alone, and what becomes
      of the activation. */
  ghost predicate Stepped(s: State, s': State, d: Drain)
    requires s.drains != []
  {
    && s'.bufs.Keys == s.bufs.Keys && s'.threads == s.threads && s'.submitted == s.submitted && s'.added == s.added
    && (s'.queued == s.queued || s'.queued == []) && (!d.pc.NextCall? ==> s'.executed == s.executed)
    && (s'.drains == s.drains[..|s.drains| - 1] ||
        (&& |s'.drains| == |s.drains| && s'.drains[..|s.drains| - 1] == s.drains[..|s.drains| - 1]
         && Follows(s, d, s'.drains[|s.drains| - 1])))
  }

  predicate Follows(s: State, d: Drain, d': Drain) {
    && (d'.run == d.run || d'.run == s.queued)
    && (|| RunBuffer(d'.pc) == None || RunBuffer(d'.pc) == RunBuffer(d.pc)
        || exists i | 0 <= i < |d.run| :: d.run[i].Runner? && RunBuffer(d'.pc) == Some(d.run[i].buf))
  }

  lemma LockQueueSteps(s: State, s': State, d: Drain)
    requires s.drains != [] && d == s.drains[|s.drains| - 1] && d.pc == DrainLock && LockQueue(s, s', d)
    ensures Stepped(s, s', d) && (Sound(d, s.queued) && |s.drains| == 1 ==> Work(s') < Work(s))
  {
  }

  lemma LowerHasSteps(s: State, s': State, d: Drain)
    requires s.drains != [] && d == s.drains[|s.drains| - 1] && d.pc == DrainHas && LowerHas(s, s', d)
    ensures Stepped(s, s', d) && (Sound(d, s.queued) && |s.drains| == 1 ==> Work(s') < Work(s))
  {
  }

  lemma CopyQueueSteps(s: State, s': State, d: Drain)
    requires s.drains != [] && d == s.drains[|s.drains| - 1] && d.pc == DrainCopy && CopyQueue(s, s', d)
    ensures Stepped(s, s', d) && (Sound(d, s.queued) && |s.drains| == 1 ==> Work(s') < Work(s))
  {
  }

  lemma TruncateQueueSteps(s: State, s': State, d: Drain)
    requires s.drains != [] && d == s.drains[|s.drains| - 1] && d.pc == DrainTruncate && TruncateQueue(s, s', d)
    ensures Stepped(s, s', d) && (Sound(d, s.queued) && |s.drains| == 1 ==> Work(s') < Work(s))
  {
  }

  lemma UnlockQueueSteps(s: State, s': State, d: Drain)
    requires s.drains != [] && d == s.drains[|s.drains| - 1] && d.pc == DrainUnlock && UnlockQueue(s, s', d)
    ensures Stepped(s, s', d) && (Sound(d, s.queued) && |s.drains| == 1 ==> Work(s') < Work(s))
  {
  }

  lemma SetDrainingSteps(s: State, s': State, d: Drain)
    requires s.drains != [] && d == s.drains[|s.drains| - 1] && d.pc == DrainSet && SetDraining(s, s', d)
    ensures Stepped(s, s', d) && (Sound(d, s.queued) && |s.drains| == 1 ==> Work(s') < Work(s))
  {
  }

  lemma CallNextSteps(s: State, s': State, d: Drain)
    requires s.drains != [] && d == s.drains[|s.drains| - 1] && d.pc == NextCall && CallNext(s, s', d)
    ensures Stepped(s, s', d) && (Sound(d, s.queued) && |s.drains| == 1 ==> Work(s') < Work(s))
  {
  }

  lemma CallReturnsSteps(s: State, s': State, d: Drain)
    requires s.drains != [] && d == s.drains[|s.drains| - 1] && d.pc == InCall && CallReturns(s, s', d)
    ensures Stepped(s, s', d) && (Sound(d, s.queued) && |s.drains| == 1 ==> Work(s') < Work(s))
  {
  }

  lemma DrainSteps(s: State, s': State, d: Drain)
    requires s.drains != [] && d == s.drains[|s.drains| - 1] && DrainStep(s, s', d)
    ensures Stepped(s, s', d) && (Sound(d, s.queued) && |s.drains| == 1 ==> Work(s') < Work(s))
  {
    hide Stepped, Work, Sound, LockQueue, LowerHas, CopyQueue, TruncateQueue, UnlockQueue, SetDraining, CallNext;
    hide CallReturns;
    match d.pc
    case DrainLock => LockQueueSteps(s, s', d);
    case DrainHas => LowerHasSteps(s, s', d);
    case DrainCopy => CopyQueueSteps(s, s', d);
    case DrainTruncate => TruncateQueueSteps(s, s', d);
    case DrainUnlock => UnlockQueueSteps(s, s', d);
    case DrainSet => SetDrainingSteps(s, s', d);
    case NextCall => CallNextSteps(s, s', d);
    case InCall => CallReturnsSteps(s, s', d);
  }

  lemma RunSteps(s: State, s': State, d: Drain, b: int)
    requires s.drains != [] && d == s.drains[|s.drains| - 1] && RunBuffer(d.pc) == Some(b) && RunStep(s, s', d, b)
    ensures Stepped(s, s', d) && Work(s') < Work(s)
  {
    RunStepKeeps(s, s', d, b);
    hide RunStep;
    var n := |s.drains| - 1;
    assert s'.drains[..n] == s.drains[..n];
  }

  lemma ConsumeSteps(s: State, s': State)
    requires Consume(s, s')
    ensures s.drains != [] && Stepped(s, s', s.drains[|s.drains| - 1])
    ensures Sound(s.drains[|s.drains| - 1], s.queued) && |s.drains| == 1 ==> Work(s') < Work(s)
  {
    hide Stepped, DrainStep, RunStep, Sound, Work;
    var d := s.drains[|s.drains| - 1];
    if RunBuffer(d.pc).Some? {
      RunSteps(s, s', d, RunBuffer(d.pc).value);
    } else {
      DrainSteps(s, s', d);
    }
  }

  lemma KnownConsume(s: State, s': State)
    requires Known(s) && Consume(s, s')
    ensures Known(s') && s'.bufs.Keys == s.bufs.Keys
  {
    ConsumeSteps(s, s');
    hide Consume;
    var d := s.drains[|s.drains| - 1];
    assert s'.bufs.Keys == s.bufs.Keys && s'.threads == s.threads && (s'.queued == s.queued || s'.queued == []);
    hide DrainNamed, Stepped;
    forall i | 0 <= i < |s'.drains| ensures DrainNamed(s'.drains[i], s'.bufs) {
      SteppedNamed(s, s', d, i);
    }
  }

  lemma SteppedNamed(s: State, s': State, d: Drain, i: nat)
    requires Known(s) && s.drains != [] && d == s.drains[|s.drains| - 1] && Stepped(s, s', d) && i < |s'.drains|
    ensures DrainNamed(s'.drains[i], s'.bufs)
  {
    var n := |s.drains| - 1;
    hide DrainNamed, Follows;
    assert DrainNamed(d, s.bufs);
    if i < n {
      assert s'.drains[i] == s'.drains[..n][i] == s.drains[i];
      SameNamed(s.drains[i], s.bufs, s'.bufs);
    } else {
      FollowsNamed(s, d, s'.drains[n], s'.bufs);
    }
  }

  lemma FollowsNamed(s: State, d: Drain, d': Drain, bufs: map<int, Buffer>)
    requires Follows(s, d, d') && DrainNamed(d, s.bufs) && AllNamed(s.queued, s.bufs) && bufs.Keys == s.bufs.Keys
    ensures DrainNamed(d', bufs)
  {
    if i :| 0 <= i < |d.run| && d.run[i].Runner? && RunBuffer(d'.pc) == Some(d.run[i].buf) {
      assert NamedIn(d.run[i]) <= s.bufs.Keys;
    }
  }

  lemma KnownNext(s: State, s': State)
    requires Known(s) && Next(s, s')
    ensures Known(s')
  {
    hide Produce, Consume, Known, StartAdd, StartQueue, StartDrain;
    if p :| Produce(s, s', p) {
      KnownProduce(s, s', p);
    } else if Consume(s, s') {
      KnownConsume(s, s');
    } else if StartDrain(s, s') {
      KnownDrain(s, s');
    } else if p, b, data :| StartAdd(s, s', p, b, data) {
      KnownBegin(s, s', p, AddLock(b, data));
    } else {
      var p, tag :| StartQueue(s, s', p, tag);
      KnownBegin(s, s', p, QueueLock(Other(tag), None));
    }
  }

  lemma KnownBegin(s: State, s': State, p: int, pc: ProducerPc)
    requires Known(s) && ((exists b, data :: pc == AddLock(b, data) && StartAdd(s, s', p, b, data))
                          || exists tag :: pc == QueueLock(Other(tag), None) && StartQueue(s, s', p, tag))
    ensures Known(s')
  {
    hide DrainNamed, AllNamed;
    assert s' == At(s, p, pc) && Named(pc) <= s.bufs.Keys;
  }

  lemma KnownDrain(s: State, s': State)
    requires Known(s) && StartDrain(s, s')
    ensures Known(s')
  {
    hide DrainNamed, AllNamed, Named;
    NewNamed(s.bufs);
    forall i | 0 <= i < |s'.drains| ensures DrainNamed(s'.drains[i], s'.bufs) {
      assert i < |s.drains| ==> s'.drains[i] == s.drains[i];
    }
  }

  lemma NewNamed(bufs: map<int, Buffer>)
    ensures DrainNamed(Drain(DrainLock, [], 0, []), bufs)
  {
  }

  lemma {:induction false} RunKeepsKnown(run: seq<State>, i: nat)
    requires IsRun(run) && i < |run|
    ensures Known(run[i])
  {
    if i > 0 {
      RunKeepsKnown(run, i - 1);
      assert Next(run[i - 1], run[i - 1 + 1]);
      KnownNext(run[i - 1], run[i]);
    }
  }

  // ---------- no deadlock ----------

  /** Some thread goes on with what it is doing, or starts to drain. */
  ghost predicate Moves(s: State, s': State) {
    (exists p :: Produce(s, s', p)) || StartDrain(s, s') || Consume(s, s')
  }

  /** Something is left to be done. */
  predicate Busy(s: State) {
    (exists p | p in s.threads :: s.threads[p] != Resting) || s.drains != [] || s.queued != []
  }

  /** A producer that does not wait for a lock can go on. */
  lemma ProducerMoves(s: State, p: int) returns (s': State)
    requires Inv(s) && Known(s) && p in s.threads
    requires s.threads[p] != Resting && !s.threads[p].AddLock? && !s.threads[p].QueueLock?
    ensures Produce(s, s', p)
  {
    hide Inv;
    assert Named(s.threads[p]) <= s.bufs.Keys;
    SameKeys(s);
    match s.threads[p]
    case AddWrite(b, data) =>
      s' := At(s, p, AddClose(b, data)).(
        bufs := s.bufs[b := s.bufs[b].(bytes := s.bufs[b].bytes + data)], added := s.added[b := s.added[b] + data]);
    case AddClose(b, data) =>
      s' := At(s, p, AddCheck(b)).(bufs := s.bufs[b := s.bufs[b].(closed := s.bufs[b].closed || data == [])]);
    case AddCheck(b) =>
      s' := if s.bufs[b].runner then At(s, p, AddUnlock(b))
            else At(s, p, QueueLock(Runner(b), Some(b))).(bufs := s.bufs[b := s.bufs[b].(runner := true)]);
    case QueueHas(fn, back) => s' := At(s, p, QueueAppend(fn, back)).(has := true);
    case QueueAppend(fn, back) =>
      s' := At(s, p, QueueUnlock(back)).(queued := s.queued + [fn], submitted := s.submitted + [fn]);
    case QueueUnlock(back) =>
      s' := At(s, p, if back.Some? then AddUnlock(back.value) else Resting).(qlock := None);
    case AddUnlock(b) =>
      s' := At(s, p, Resting).(bufs := s.bufs[b := s.bufs[b].(lock := None)]);
  }

  lemma SameKeys(s: State)
    requires Inv(s)
    ensures s.added.Keys == s.delivered.Keys == s.bufs.Keys
  {
  }

  /** The machine thread waits for no lock. */
  predicate Unhindered(s: State) {
    s.drains != [] &&
    var pc := s.drains[|s.drains| - 1].pc;
    (pc.DrainLock? ==> s.qlock == None) && (pc.RunLock? ==> pc.b in s.bufs && s.bufs[pc.b].lock == None)
  }

  lemma MachineMoves(s: State) returns (s': State)
    requires Inv(s) && Known(s) && Unhindered(s)
    ensures Consume(s, s')
  {
    hide Inv;
    SameKeys(s);
    var d := s.drains[|s.drains| - 1];
    assert DrainNamed(d, s.bufs);
    match d.pc
    case DrainLock => s' := Now(s, d.(pc := DrainHas)).(qlock := Some(Machine));
    case DrainHas => s' := Now(s, d.(pc := DrainCopy)).(has := false);
    case DrainCopy => s' := Now(s, d.(pc := DrainTruncate, run := s.queued));
    case DrainTruncate => s' := Now(s, d.(pc := DrainUnlock)).(queued := []);
    case DrainUnlock => s' := Now(s, d.(pc := DrainSet)).(qlock := None);
    case DrainSet => s' := Now(s, d.(pc := NextCall)).(draining := true);
    case NextCall =>
      if d.idx < |d.run| {
        var f := d.run[d.idx];
        s' := Now(s, d.(idx := d.idx + 1, pc := if f.Runner? then RunLock(f.buf) else InCall))
              .(executed := s.executed + [f]);
      } else {
        s' := s.(drains := s.drains[..|s.drains| - 1], draining := false);
      }
    case InCall => s' := Now(s, d.(pc := NextCall));
    case RunLock(b) =>
      s' := Now(s, d.(pc := RunCopy(b))).(bufs := s.bufs[b := s.bufs[b].(lock := Some(Machine))]);
    case RunCopy(b) => s' := Now(s, d.(pc := RunReset(b), batch := s.bufs[b].bytes));
    case RunReset(b) => s' := Now(s, d.(pc := RunClear(b))).(bufs := s.bufs[b := s.bufs[b].(bytes := [])]);
    case RunClear(b) => s' := Now(s, d.(pc := RunUnlock(b))).(bufs := s.bufs[b := s.bufs[b].(runner := false)]);
    case RunUnlock(b) => s' := Now(s, d.(pc := RunDeliver(b))).(bufs := s.bufs[b := s.bufs[b].(lock := None)]);
    case RunDeliver(b) =>
      s' := Now(s, d.(pc := RunClose(b))).(delivered := s.delivered[b := s.delivered[b] + [d.batch]]);
    case RunClose(b) =>
      s' := Now(s, d.(pc := InCall)).(
        delivered := if s.bufs[b].closed && d.batch != [] then s.delivered[b := s.delivered[b] + [[]]]
                     else s.delivered);
  }

  /** Whoever holds the lock of the queue can go on. */
  lemma QueueHolderMoves(s: State) returns (s': State)
    requires Inv(s) && Known(s) && s.qlock.Some?
    ensures Moves(s, s')
  {
    hide Produce, Consume, StartDrain, BufferInv, QueueOk, Known;
    if s.qlock.value.Producer? {
      var q := s.qlock.value.p;
      assert HasQueueLock(s.threads[q]);
      s' := ProducerMoves(s, q);
    } else {
      s' := MachineMoves(s);
    }
  }

  /** Whoever holds the lock of a buffer can go on, or waits for one who can. */
  lemma BufferHolderMoves(s: State, b: int) returns (s': State)
    requires Inv(s) && Known(s) && b in s.bufs && s.bufs[b].lock.Some?
    ensures Moves(s, s')
  {
    hide Produce, Consume, StartDrain, BufferOk, QueueOk, QueueExclusion, Known;
    assert BufferInv(s, b);
    if s.bufs[b].lock.value.Producer? {
      var q := s.bufs[b].lock.value.p;
      assert Locks(s.threads[q]) == Some(b);
      if s.threads[q].QueueLock? {
        s' := QueueWaiterMoves(s, q);
      } else {
        s' := ProducerMoves(s, q);
      }
    } else {
      s' := MachineMoves(s);
    }
  }

  lemma QueueWaiterMoves(s: State, p: int) returns (s': State)
    requires Inv(s) && Known(s) && p in s.threads && s.threads[p].QueueLock?
    ensures Moves(s, s')
  {
    if s.qlock == None {
      s' := At(s, p, QueueHas(s.threads[p].fn, s.threads[p].back)).(qlock := Some(Producer(p)));
      assert Produce(s, s', p);
    } else {
      s' := QueueHolderMoves(s);
    }
  }

  /** No deadlock: in every reachable state in which something is left to be done, some
      thread has a next step. */
  lemma NeverStuck(s: State) returns (s': State)
    requires Inv(s) && Known(s) && Busy(s)
    ensures Moves(s, s')
  {
    if p :| p in s.threads && s.threads[p] != Resting {
      if s.threads[p].AddLock? {
        var b := s.threads[p].b;
        assert Named(s.threads[p]) <= s.bufs.Keys;
        if s.bufs[b].lock == None {
          s' := At(s, p, AddWrite(b, s.threads[p].data)).(
            bufs := s.bufs[b := s.bufs[b].(lock := Some(Producer(p)))]);
          assert Produce(s, s', p);
        } else {
          s' := BufferHolderMoves(s, b);
        }
      } else if s.threads[p].QueueLock? {
        s' := QueueWaiterMoves(s, p);
      } else {
        s' := ProducerMoves(s, p);
      }
    } else if s.drains != [] {
      s' := AloneMoves(s);
    } else {
      s' := StartMoves(s);
    }
  }

  predicate Rested(s: State) {
    forall p | p in s.threads :: s.threads[p] == Resting
  }

  /** While all producers rest, the machine thread waits for no lock. */
  lemma AloneMoves(s: State) returns (s': State)
    requires Inv(s) && Known(s) && Rested(s) && s.drains != []
    ensures Consume(s, s') && Moves(s, s')
  {
    var d := s.drains[|s.drains| - 1];
    assert DrainNamed(d, s.bufs);
    LocksFree(s, d);
    hide Inv, Known, Rested, DrainNamed, Consume, StartDrain, Produce;
    s' := MachineMoves(s);
  }

  lemma LocksFree(s: State, d: Drain)
    requires Inv(s) && Rested(s) && s.drains != [] && d == s.drains[|s.drains| - 1] && DrainNamed(d, s.bufs)
    ensures Unhindered(s)
  {
    hide BufferOk, QueueOk, AllNamed, Queues;
    if d.pc.RunLock? {
      assert BufferInv(s, d.pc.b);
    }
    hide BufferInv;
  }

  lemma StartMoves(s: State) returns (s': State)
    requires Inv(s) && Rested(s) && s.drains == [] && s.queued != []
    ensures StartDrain(s, s') && Moves(s, s')
  {
    assert s.qlock == None;
    s' := s.(drains := s.drains + [Drain(DrainLock, [], 0, [])]);
  }

  // ---------- everything is delivered ----------

  lemma WorkShrinks(s: State, s': State)
    requires Inv(s) && Consume(s, s')
    ensures Work(s') < Work(s)
  {
    hide BufferInv, QueueExclusion, Consume, Work, Queues, Stepped;
    ConsumeSteps(s, s');
    assert Sound(s.drains[0], s.queued);
  }

  lemma WorkStarts(s: State, s': State)
    requires s.drains == [] && StartDrain(s, s') && s.queued != []
    ensures Work(s') < Work(s)
  {
  }

  /** Steps of the machine thread alone. */
  ghost predicate MachineRun(run: seq<State>) {
    run != [] && forall i | 0 <= i < |run| - 1 :: StartDrain(run[i], run[i + 1]) || Consume(run[i], run[i + 1])
  }

  /** From every reachable state in which the producers rest the machine thread alone comes
      to a state in which it rests too; then every submitted callback has been called, in
      order, and every added byte has been delivered. */
  lemma {:induction false} DrainsAll(s: State) returns (run: seq<State>)
    requires Inv(s) && Known(s) && Rested(s)
    ensures MachineRun(run) && run[0] == s
    ensures var end := run[|run| - 1];
            && !Busy(end) && end.executed == s.submitted
            && end.added == s.added && end.delivered.Keys == s.added.Keys
            && forall b | b in s.added :: Flat(end.delivered[b]) == s.added[b]
    decreases Work(s)
  {
    if !Busy(s) {
      run := [s];
      RestIsDone(s);
      assert run[0] == s;
    } else {
      var s' := AloneStep(s);
      run := DrainsAll(s');
      hide StartDrain, Consume, Inv, Known, Busy, Work, Rested, Flat;
      RunMore(s, run);
      run := [s] + run;
    }
  }

  lemma RunMore(s: State, run: seq<State>)
    requires MachineRun(run) && (StartDrain(s, run[0]) || Consume(s, run[0]))
    ensures MachineRun([s] + run) && ([s] + run)[|run|] == run[|run| - 1]
  {
    hide StartDrain, Consume;
    var all := [s] + run;
    forall i | 0 <= i < |all| - 1 ensures StartDrain(all[i], all[i + 1]) || Consume(all[i], all[i + 1]) {
      if i > 0 {
        assert all[i] == run[i - 1] && all[i + 1] == run[(i - 1) + 1];
      }
    }
  }

  lemma AloneStep(s: State) returns (s': State)
    requires Inv(s) && Known(s) && Rested(s) && Busy(s)
    ensures (StartDrain(s, s') || Consume(s, s')) && Work(s') < Work(s)
    ensures Inv(s') && Known(s') && Rested(s') && s'.submitted == s.submitted && s'.added == s.added
  {
    hide Inv, Known, Work, Consume, StartDrain, Stepped, Moves;
    if s.drains != [] {
      s' := AloneMoves(s);
      WorkShrinks(s, s');
      ConsumeSteps(s, s');
      SteppedSame(s, s', s.drains[|s.drains| - 1]);
    } else {
      s' := StartMoves(s);
      WorkStarts(s, s');
      StartedSame(s, s');
    }
    NextInv(s, s');
    KnownNext(s, s');
  }

  lemma SteppedSame(s: State, s': State, d: Drain)
    requires s.drains != [] && Stepped(s, s', d)
    ensures s'.threads == s.threads && s'.submitted == s.submitted && s'.added == s.added
  {
  }

  lemma StartedSame(s: State, s': State)
    requires StartDrain(s, s')
    ensures s'.threads == s.threads && s'.submitted == s.submitted && s'.added == s.added
  {
  }

  lemma RestIsDone(s: State)
    requires Inv(s) && !Busy(s)
    ensures s.executed == s.submitted
    ensures s.added.Keys == s.delivered.Keys == s.bufs.Keys
    ensures forall b | b in s.bufs :: Flat(s.delivered[b]) == s.added[b] && s.bufs[b].bytes == []
  {
    hide Flat;
    assert s.executed + [] + [] == s.executed;
    forall b | b in s.bufs ensures Flat(s.delivered[b]) == s.added[b] && s.bufs[b].bytes == [] {
      assert BufferInv(s, b);
      DeliveredAll(s, b);
    }
  }

  lemma DeliveredAll(s: State, b: int)
    requires b in s.bufs && b in s.added && b in s.delivered && BufferInv(s, b) && !Busy(s)
    ensures Flat(s.delivered[b]) == s.added[b] && s.bufs[b].bytes == []
  {
    hide Flat;
    assert Count([], Runner(b)) == 0;
    assert Holder(s.bufs[b].lock, s.threads) == Resting;
    assert !s.bufs[b].runner;
    assert Flat(s.delivered[b]) + [] + [] == Flat(s.delivered[b]);
  }

  // ---------- in every run ----------

  /** No deadlock in any interleaving. */
  lemma RunNeverStuck(run: seq<State>, i: nat) returns (s': State)
    requires IsRun(run) && i < |run| && Busy(run[i])
    ensures Moves(run[i], s')
  {
    hide IsRun, Moves, Busy, Inv, Known;
    RunKeepsInv(run, i);
    RunKeepsKnown(run, i);
    s' := NeverStuck(run[i]);
  }

  /** Whatever the threads did before: once the producers rest, the machine thread alone
      calls every submitted callback and delivers every added byte. */
  lemma RunDrains(run: seq<State>, i: nat) returns (more: seq<State>)
    requires IsRun(run) && i < |run| && Rested(run[i])
    ensures MachineRun(more) && more[0] == run[i]
    ensures var end := more[|more| - 1];
            && !Busy(end) && end.executed == run[i].submitted && end.delivered.Keys == run[i].added.Keys
            && forall b | b in run[i].added :: Flat(end.delivered[b]) == run[i].added[b]
  {
    hide IsRun, MachineRun, Busy, Inv, Known, Flat, Rested;
    RunKeepsInv(run, i);
    RunKeepsKnown(run, i);
    more := DrainsAll(run[i]);
  }
}
