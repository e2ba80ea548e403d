/** The end of a stream: adding no bytes closes a buffer, and the last batch delivered from
    a closed buffer is then empty. */
module Endings {
  import opened Sexps
  import opened Delivery
  import opened Progress

  /** A producer closes buffer `b`. */
  ghost predicate Closes(s: State, s': State, p: int, b: int) {
    p in s.threads && p in s'.threads && s.threads[p] == AddClose(b, []) && s'.threads[p] == AddCheck(b)
  }

  ghost predicate ClosedBy(s: State, s': State, b: int) {
    exists p :: Closes(s, s', p, b)
  }

  predicate Ended(batches: seq<seq<int>>) {
    batches != [] && batches[|batches| - 1] == []
  }

  // ---------- the invariant of one buffer ----------

  /** There is something to be delivered: bytes, or the end. */
  predicate Filled(buf: Buffer) {
    buf.bytes != [] || buf.closed
  }

  /** The machine thread has taken the bytes of `b` and cleared its runner. */
  predicate Leaving(d: Option<Drain>, b: int) {
    Doing(d, RunUnlock(b)) || Doing(d, RunDeliver(b)) || Doing(d, RunClose(b))
  }

  predicate Holding(d: Option<Drain>, b: int) {
    Doing(d, RunReset(b)) || Doing(d, RunClear(b)) || Leaving(d, b)
  }

  /** An empty batch is delivered and a runner is outstanding only with a reason; and a
      closed buffer has had its empty batch or will have it. */
  ghost predicate EndOk(b: int, buf: Buffer, batches: seq<seq<int>>, d: Option<Drain>, holder: ProducerPc) {
    && (forall i | 0 <= i < |batches| :: batches[i] == [] ==> buf.closed)
    && (holder.AddClose? && holder.data != [] ==> buf.bytes != [])
    && (holder.AddCheck? ==> Filled(buf))
    && (buf.runner && !Doing(d, RunClear(b)) ==> Filled(buf))
    && (Holding(d, b) && d.value.batch == [] ==> buf.closed)
    && (Doing(d, RunClose(b)) ==> batches != [] && batches[|batches| - 1] == d.value.batch)
    && (buf.closed ==> buf.runner || holder.AddCheck? || Leaving(d, b) || Ended(batches))
  }

  ghost predicate BufferEnds(s: State, b: int)
    requires b in s.bufs && b in s.delivered
  {
    EndOk(b, s.bufs[b], s.delivered[b], Current(s), Holder(s.bufs[b].lock, s.threads))
  }

  ghost predicate Ends(s: State) {
    forall b | b in s.bufs && b in s.delivered :: BufferEnds(s, b)
  }

  // ---------- producers ----------

  /** A buffer that a producer neither holds nor changes, or holds on its way through
      `QueueRun`. */
  lemma OtherEnds(s: State, s': State, p: int, b: int)
    requires p in s.threads && p in s'.threads && s'.threads == s.threads[p := s'.threads[p]]
    requires b in s.bufs && b in s.delivered && b in s.added && BufferInv(s, b) && BufferEnds(s, b)
    requires b in s'.bufs && b in s'.delivered && s'.bufs[b] == s.bufs[b] && s'.delivered[b] == s.delivered[b]
    requires s'.drains == s.drains
    requires Locks(s.threads[p]) != Some(b) || Passing(s.threads[p], s'.threads[p])
    ensures BufferEnds(s', b)
  {
    HolderMove(s.bufs[b].lock, s.threads, p, s'.threads[p]);
    if Locks(s.threads[p]) == Some(b) {
      Owns(s, p, b);
    }
    hide BufferOk, Locks, Filled, Ended, Holding, Leaving;
  }

  predicate Passing(pc: ProducerPc, pc': ProducerPc) {
    !pc.AddClose? && !pc.AddCheck? && !pc'.AddClose? && !pc'.AddCheck?
  }

  lemma LockEnds(s: State, s': State, p: int, b: int, data: seq<int>)
    requires p in s.threads && s.threads[p] == AddLock(b, data) && LockStep(s, s', p, b, data)
    requires b in s.delivered && BufferEnds(s, b)
    ensures b in s'.delivered && BufferEnds(s', b)
  {
    hide Ended, Holding, Leaving;
  }

  lemma WriteEnds(s: State, s': State, p: int, b: int, data: seq<int>)
    requires p in s.threads && s.threads[p] == AddWrite(b, data) && WriteStep(s, s', p, b, data)
    requires b in s.bufs && b in s.added && b in s.delivered && BufferInv(s, b) && BufferEnds(s, b)
    ensures b in s'.delivered && BufferEnds(s', b)
  {
    Owns(s, p, b);
    hide BufferInv, Ended, Holding, Leaving;
  }

  lemma CloseEnds(s: State, s': State, p: int, b: int, data: seq<int>)
    requires p in s.threads && s.threads[p] == AddClose(b, data) && CloseStep(s, s', p, b, data)
    requires b in s.bufs && b in s.added && b in s.delivered && BufferInv(s, b) && BufferEnds(s, b)
    ensures b in s'.delivered && BufferEnds(s', b)
  {
    Owns(s, p, b);
    hide BufferInv, Ended, Holding, Leaving;
  }

  lemma CheckEnds(s: State, s': State, p: int, b: int)
    requires p in s.threads && s.threads[p] == AddCheck(b) && CheckStep(s, s', p, b)
    requires b in s.bufs && b in s.added && b in s.delivered && BufferInv(s, b) && BufferEnds(s, b)
    ensures b in s'.delivered && BufferEnds(s', b)
  {
    Owns(s, p, b);
    Checked(s, s', p, b);
    hide CheckStep, BufferInv, BufferEnds, Holder;
    CheckedEnds(b, s.bufs[b], s.delivered[b], Current(s), s'.threads[p]);
    assert BufferEnds(s', b) by {
      HolderMove(s.bufs[b].lock, s.threads, p, s'.threads[p]);
    }
  }

  lemma Checked(s: State, s': State, p: int, b: int)
    requires p in s.threads && CheckStep(s, s', p, b)
    ensures p in s'.threads && s'.threads == s.threads[p := s'.threads[p]] && Passing(Resting, s'.threads[p])
    ensures b in s'.bufs && s'.bufs[b] == s.bufs[b].(runner := true)
    ensures s'.delivered == s.delivered && Current(s') == Current(s)
  {
  }

  lemma CheckedEnds(b: int, buf: Buffer, batches: seq<seq<int>>, d: Option<Drain>, pc: ProducerPc)
    requires EndOk(b, buf, batches, d, AddCheck(b)) && Passing(Resting, pc)
    ensures EndOk(b, buf.(runner := true), batches, d, pc)
  {
    hide Ended, Holding, Leaving;
  }

  lemma UnlockEnds(s: State, s': State, p: int, b: int)
    requires p in s.threads && s.threads[p] == AddUnlock(b) && UnlockStep(s, s', p, b)
    requires b in s.bufs && b in s.added && b in s.delivered && BufferInv(s, b) && BufferEnds(s, b)
    ensures b in s'.delivered && BufferEnds(s', b)
  {
    Owns(s, p, b);
    hide BufferInv, Ended, Holding, Leaving;
  }

  lemma AddsTo(s: State, s': State, p: int, b: int)
    requires Produce(s, s', p) && AddBuffer(s.threads[p]) == Some(b)
    ensures b in s.bufs
  {
  }

  /** A step of `AddData` outside `QueueRun`. */
  lemma AddEnds(s: State, s': State, p: int, b: int)
    requires Inv(s) && Ends(s) && Produce(s, s', p) && AddBuffer(s.threads[p]) == Some(b)
    ensures AddKeeps(s, s', p, b) && b in s'.delivered && BufferEnds(s', b)
  {
    AddsTo(s, s', p, b);
    hide LockStep, WriteStep, CloseStep, CheckStep, UnlockStep, BufferInv, BufferEnds, QueueOk, Drains,
         QueueExclusion, Queues, AddKeeps;
    match s.threads[p]
    case AddLock(_, data) =>
      LockKeeps(s, s', p, b, data);
      LockEnds(s, s', p, b, data);
    case AddWrite(_, data) =>
      WriteKeeps(s, s', p, b, data);
      WriteEnds(s, s', p, b, data);
    case AddClose(_, data) =>
      CloseKeeps(s, s', p, b, data);
      CloseEnds(s, s', p, b, data);
    case AddCheck(_) =>
      CheckKeeps(s, s', p, b);
      CheckEnds(s, s', p, b);
    case AddUnlock(_) =>
      UnlockKeeps(s, s', p, b);
      UnlockEnds(s, s', p, b);
  }

  /** What a step of `QueueRun` leaves alone. */
  ghost predicate QueueKeeps(s: State, s': State, p: int)
    requires p in s.threads
  {
    && p in s'.threads && s'.threads == s.threads[p := s'.threads[p]] && Passing(s.threads[p], s'.threads[p])
    && s'.bufs == s.bufs && s'.added == s.added && s'.delivered == s.delivered && s'.drains == s.drains
    && s'.executed == s.executed
  }

  lemma QueuePasses(s: State, s': State, p: int)
    requires Produce(s, s', p) && AddBuffer(s.threads[p]) == None
    ensures QueueKeeps(s, s', p)
  {
    hide LockStep, WriteStep, CloseStep, CheckStep, UnlockStep, QueueKeeps;
    var pc := s.threads[p];
    var pc' := match pc
      case QueueLock(fn, back) => QueueHas(fn, back)
      case QueueHas(fn, back) => QueueAppend(fn, back)
      case QueueAppend(_, back) => QueueUnlock(back)
      case QueueUnlock(back) => if back.Some? then AddUnlock(back.value) else Resting
      case _ => Resting;
    assert Passing(pc, pc');
    Passed(s, s', p, pc');
  }

  lemma Passed(s: State, s': State, p: int, pc: ProducerPc)
    requires p in s.threads && Passing(s.threads[p], pc)
    requires s' == At(s, p, pc).(has := s'.has, qlock := s'.qlock, queued := s'.queued, submitted := s'.submitted)
    ensures QueueKeeps(s, s', p)
  {
  }

  lemma ProduceEnds(s: State, s': State, p: int)
    requires Inv(s) && Ends(s) && Produce(s, s', p)
    ensures Ends(s')
  {
    assert p in s.threads;
    hide Produce, BufferInv, BufferEnds, QueueOk, Drains, QueueExclusion, Queues, Locks, Passing;
    if AddBuffer(s.threads[p]).Some? {
      var b := AddBuffer(s.threads[p]).value;
      AddEnds(s, s', p, b);
      forall c | c in s'.bufs && c in s'.delivered ensures BufferEnds(s', c) {
        if c != b {
          OtherEnds(s, s', p, c);
        }
      }
    } else {
      QueuePasses(s, s', p);
      forall c | c in s'.bufs && c in s'.delivered ensures BufferEnds(s', c) {
        OtherEnds(s, s', p, c);
      }
    }
  }

  lemma BeginEnds(s: State, s': State, p: int, pc: ProducerPc)
    requires Inv(s) && Ends(s) && p in s.threads && s.threads[p] == Resting && s' == At(s, p, pc)
    requires Passing(Resting, pc)
    ensures Ends(s')
  {
    hide BufferInv, BufferEnds, QueueOk, Drains, QueueExclusion, Queues, Locks, Passing;
    forall c | c in s'.bufs && c in s'.delivered ensures BufferEnds(s', c) {
      OtherEnds(s, s', p, c);
    }
  }

  // ---------- the machine thread ----------

  /** A buffer whose bytes the machine thread does not hold. */
  lemma SameEnds(s: State, s': State, b: int)
    requires b in s.bufs && b in s.delivered && BufferEnds(s, b) && s'.threads == s.threads
    requires b in s'.bufs && b in s'.delivered && s'.bufs[b] == s.bufs[b] && s'.delivered[b] == s.delivered[b]
    requires !Holding(Current(s), b) && !Holding(Current(s'), b)
    ensures BufferEnds(s', b)
  {
    hide Filled, Ended;
  }

  lemma CallsNext(s: State, s': State, d: Drain)
    requires |s.drains| == 1 && d == s.drains[0] && CallNext(s, s', d)
    ensures Quiet(Current(s')) || (Current(s').Some? && Current(s').value.pc.RunLock?)
  {
  }

  lemma DrainGoes(s: State, s': State, d: Drain)
    requires Drains(s.drains, s.draining) && s.drains != [] && d == s.drains[0] && DrainStep(s, s', d)
    ensures Quiet(Current(s')) || (Current(s').Some? && Current(s').value.pc.RunLock?)
  {
    DrainKeeps(s, s', d);
    hide LockQueue, LowerHas, CopyQueue, TruncateQueue, UnlockQueue, SetDraining, CallNext, CallReturns, Left, Quiet,
         ThreadsSame;
    if d.pc.NextCall? {
      CallsNext(s, s', d);
    }
  }

  lemma NoneHeld(d: Option<Drain>)
    ensures Quiet(d) || (d.Some? && d.value.pc.RunLock?) ==> forall b: int :: !Holding(d, b)
  {
  }

  lemma DrainEnds(s: State, s': State, d: Drain)
    requires Inv(s) && Ends(s) && s.drains != [] && d == s.drains[0] && RunBuffer(d.pc) == None && DrainStep(s, s', d)
    ensures Ends(s')
  {
    hide BufferInv, BufferEnds, QueueExclusion, QueueOk, Queues, DrainStep, Left;
    DrainGoes(s, s', d);
    DrainKeeps(s, s', d);
    NoneHeld(Current(s));
    NoneHeld(Current(s'));
    hide Holding;
    forall c | c in s'.bufs && c in s'.delivered ensures BufferEnds(s', c) {
      SameEnds(s, s', c);
    }
  }

  /** What the invariant says of a buffer that the runner is working on. */
  lemma AtWork(s: State, d: Drain, b: int)
    requires |s.drains| == 1 && d == s.drains[0]
    requires b in s.bufs && b in s.added && b in s.delivered && BufferInv(s, b)
    ensures Running(Some(d), b) ==> s.bufs[b].runner
    ensures DrainLocks(Some(d), b) ==> Holder(s.bufs[b].lock, s.threads) == Resting
  {
    hide Left, Count, Flat, InHand;
  }

  lemma LocksEnds(s: State, s': State, d: Drain, b: int)
    requires |s.drains| == 1 && d == s.drains[0] && b in s.bufs && b in s.added && b in s.delivered
    requires BufferInv(s, b) && BufferEnds(s, b) && d.pc == RunLock(b) && RunnerLocks(s, s', d, b)
    ensures BufferEnds(s', b)
  {
    AtWork(s, d, b);
    hide BufferInv, Ended;
  }

  lemma CopiesEnds(s: State, s': State, d: Drain, b: int)
    requires |s.drains| == 1 && d == s.drains[0] && b in s.bufs && b in s.added && b in s.delivered
    requires BufferInv(s, b) && BufferEnds(s, b) && d.pc == RunCopy(b) && RunnerCopies(s, s', d, b)
    ensures BufferEnds(s', b)
  {
    AtWork(s, d, b);
    hide BufferInv, Ended;
  }

  lemma ResetsEnds(s: State, s': State, d: Drain, b: int)
    requires |s.drains| == 1 && d == s.drains[0] && b in s.bufs && b in s.added && b in s.delivered
    requires BufferInv(s, b) && BufferEnds(s, b) && d.pc == RunReset(b) && RunnerResets(s, s', d, b)
    ensures BufferEnds(s', b)
  {
    AtWork(s, d, b);
    hide BufferInv, Ended;
  }

  lemma ClearsEnds(s: State, s': State, d: Drain, b: int)
    requires |s.drains| == 1 && d == s.drains[0] && b in s.bufs && b in s.added && b in s.delivered
    requires BufferInv(s, b) && BufferEnds(s, b) && d.pc == RunClear(b) && RunnerClears(s, s', d, b)
    ensures BufferEnds(s', b)
  {
    AtWork(s, d, b);
    hide BufferInv, Ended;
  }

  lemma UnlocksEnds(s: State, s': State, d: Drain, b: int)
    requires |s.drains| == 1 && d == s.drains[0] && b in s.bufs && b in s.added && b in s.delivered
    requires BufferInv(s, b) && BufferEnds(s, b) && d.pc == RunUnlock(b) && RunnerUnlocks(s, s', d, b)
    ensures BufferEnds(s', b)
  {
    AtWork(s, d, b);
    hide BufferInv, Ended;
  }

  lemma DeliversEnds(s: State, s': State, d: Drain, b: int)
    requires |s.drains| == 1 && d == s.drains[0] && b in s.bufs && b in s.delivered
    requires BufferEnds(s, b) && d.pc == RunDeliver(b) && RunnerDelivers(s, s', d, b)
    ensures BufferEnds(s', b)
  {
  }

  lemma ClosesEnds(s: State, s': State, d: Drain, b: int)
    requires |s.drains| == 1 && d == s.drains[0] && b in s.bufs && b in s.delivered
    requires BufferEnds(s, b) && d.pc == RunClose(b) && RunnerCloses(s, s', d, b)
    ensures b in s'.delivered && BufferEnds(s', b)
  {
  }

  lemma ItselfEnds(s: State, s': State, d: Drain, b: int)
    requires |s.drains| == 1 && d == s.drains[0] && b in s.bufs && b in s.added && b in s.delivered
    requires BufferInv(s, b) && BufferEnds(s, b) && RunBuffer(d.pc) == Some(b) && RunStep(s, s', d, b)
    ensures b in s'.bufs && b in s'.delivered && BufferEnds(s', b)
  {
    RunStepKeeps(s, s', d, b);
    hide BufferInv, BufferEnds, RunnerLocks, RunnerCopies, RunnerResets, RunnerClears, RunnerUnlocks, RunnerDelivers,
         RunnerCloses;
    match d.pc
    case RunLock(_) => LocksEnds(s, s', d, b);
    case RunCopy(_) => CopiesEnds(s, s', d, b);
    case RunReset(_) => ResetsEnds(s, s', d, b);
    case RunClear(_) => ClearsEnds(s, s', d, b);
    case RunUnlock(_) => UnlocksEnds(s, s', d, b);
    case RunDeliver(_) => DeliversEnds(s, s', d, b);
    case RunClose(_) => ClosesEnds(s, s', d, b);
  }

  lemma RunPasses(s: State, s': State, d: Drain, b: int, c: int)
    requires Ends(s) && |s.drains| == 1 && d == s.drains[0] && RunBuffer(d.pc) == Some(b) && RunKeeps(s, s', d, b)
    requires c in s'.bufs && c in s'.delivered && c != b
    ensures BufferEnds(s', c)
  {
    assert BufferEnds(s, c);
    hide BufferEnds;
    SameEnds(s, s', c);
  }

  lemma RunEnds(s: State, s': State, d: Drain, b: int)
    requires Inv(s) && Ends(s) && s.drains != [] && d == s.drains[0]
    requires RunBuffer(d.pc) == Some(b) && RunStep(s, s', d, b)
    ensures Ends(s')
  {
    hide BufferInv, BufferEnds, QueueExclusion, QueueOk, Queues, RunnerLocks, RunnerCopies, RunnerResets,
         RunnerClears, RunnerUnlocks, RunnerDelivers, RunnerCloses;
    assert |s.drains| == 1;
    RunStepKeeps(s, s', d, b);
    ItselfEnds(s, s', d, b);
    hide RunStep, RunKeeps;
    forall c | c in s'.bufs && c in s'.delivered ensures BufferEnds(s', c) {
      if c != b {
        RunPasses(s, s', d, b, c);
      }
    }
  }

  // ---------- every run ----------

  lemma StartEnds(s: State, s': State)
    requires Inv(s) && Ends(s) && StartDrain(s, s')
    ensures Ends(s')
  {
    hide BufferInv, BufferEnds, QueueExclusion, QueueOk, Queues, StartDrain, Drains, Left;
    StartDrainQueue(s, s');
    forall c | c in s'.bufs && c in s'.delivered ensures BufferEnds(s', c) {
      SameEnds(s, s', c);
    }
  }

  lemma ConsumeEnds(s: State, s': State)
    requires Inv(s) && Ends(s) && Consume(s, s')
    ensures Ends(s')
  {
    hide BufferInv, QueueExclusion, QueueOk, Queues, DrainStep, RunStep, Ends;
    var d := s.drains[0];
    if RunBuffer(d.pc).Some? {
      RunEnds(s, s', d, RunBuffer(d.pc).value);
    } else {
      DrainEnds(s, s', d);
    }
  }

  lemma NextEnds(s: State, s': State)
    requires Inv(s) && Ends(s) && Next(s, s')
    ensures Ends(s')
  {
    hide Inv, Ends, Produce, Consume, StartDrain;
    if p, b, data :| StartAdd(s, s', p, b, data) {
      BeginEnds(s, s', p, AddLock(b, data));
    } else if p, tag :| StartQueue(s, s', p, tag) {
      BeginEnds(s, s', p, QueueLock(Other(tag), None));
    } else if p :| Produce(s, s', p) {
      ProduceEnds(s, s', p);
    } else if StartDrain(s, s') {
      StartEnds(s, s');
    } else {
      ConsumeEnds(s, s');
    }
  }

  lemma {:induction false} RunKeepsEnds(run: seq<State>, i: nat)
    requires IsRun(run) && i < |run|
    ensures Ends(run[i])
  {
    if i > 0 {
      hide Init, Next, Inv, Ends;
      RunKeepsInv(run, i - 1);
      RunKeepsEnds(run, i - 1);
      NextEnds(run[i - 1], run[i]);
    }
  }

  // ---------- which buffers are closed ----------

  /** What a step of a producer does to the mark of a buffer. */
  ghost predicate Marks(s: State, s': State, p: int, b: int)
    requires b in s.bufs
  {
    && p in s.threads && p in s'.threads && s'.threads == s.threads[p := s'.threads[p]]
    && b in s'.bufs && (s'.bufs[b].closed <==> s.bufs[b].closed || s.threads[p] == AddClose(b, []))
    && (s.threads[p] == AddClose(b, []) ==> s'.threads[p] == AddCheck(b))
  }

  lemma ClosingMarks(s: State, s': State, p: int, c: int, data: seq<int>, b: int)
    requires p in s.threads && s.threads[p] == AddClose(c, data) && CloseStep(s, s', p, c, data) && b in s.bufs
    ensures Marks(s, s', p, b)
  {
  }

  /** The other steps of `AddData`. */
  lemma AddingMarks(s: State, s': State, p: int, c: int, b: int)
    requires p in s.threads && !s.threads[p].AddClose? && AddKeeps(s, s', p, c) && b in s.bufs && b in s.added
    requires c in s'.bufs && s'.bufs[c].closed == s.bufs[c].closed
    ensures Marks(s, s', p, b)
  {
    hide Locks, HasQueueLock, Queues;
  }

  lemma ProduceMarks(s: State, s': State, p: int, b: int)
    requires Produce(s, s', p) && b in s.bufs && s.bufs.Keys == s.added.Keys
    ensures Marks(s, s', p, b)
  {
    hide AddKeeps, Marks, QueueKeeps;
    var pc := s.threads[p];
    match pc
    case AddLock(c, data) =>
      LockKeeps(s, s', p, c, data);
      AddingMarks(s, s', p, c, b);
    case AddWrite(c, data) =>
      WriteKeeps(s, s', p, c, data);
      AddingMarks(s, s', p, c, b);
    case AddClose(c, data) => ClosingMarks(s, s', p, c, data, b);
    case AddCheck(c) =>
      CheckKeeps(s, s', p, c);
      Checked(s, s', p, c);
      AddingMarks(s, s', p, c, b);
    case AddUnlock(c) =>
      UnlockKeeps(s, s', p, c);
      AddingMarks(s, s', p, c, b);
    case _ =>
      QueuePasses(s, s', p);
      QueueMarks(s, s', p, b);
  }

  lemma QueueMarks(s: State, s': State, p: int, b: int)
    requires p in s.threads && QueueKeeps(s, s', p) && b in s.bufs
    ensures Marks(s, s', p, b)
  {
  }

  lemma MarksExact(s: State, s': State, p: int, b: int)
    requires b in s.bufs && Marks(s, s', p, b)
    ensures b in s'.bufs && (s'.bufs[b].closed <==> s.bufs[b].closed || ClosedBy(s, s', b))
  {
    assert s.threads[p] == AddClose(b, []) ==> Closes(s, s', p, b);
    assert forall q | Closes(s, s', q, b) :: q == p;
  }

  lemma RunMarks(s: State, s': State, d: Drain, b: int)
    requires s.drains != [] && RunStep(s, s', d, b)
    ensures b in s.bufs && b in s'.bufs && s'.bufs[b].closed == s.bufs[b].closed
  {
    match d.pc
    case RunLock(_) =>
    case RunCopy(_) =>
    case RunReset(_) =>
    case RunClear(_) =>
    case RunUnlock(_) =>
    case RunDeliver(_) =>
    case RunClose(_) =>
  }

  lemma RunnerMarks(s: State, s': State, d: Drain, c: int, b: int)
    requires s.drains != [] && d == s.drains[|s.drains| - 1] && RunStep(s, s', d, c) && b in s.bufs
    ensures b in s'.bufs && s'.bufs[b].closed == s.bufs[b].closed && s'.threads == s.threads
  {
    RunMarks(s, s', d, c);
    RunStepKeeps(s, s', d, c);
    hide RunStep;
  }

  lemma ConsumeMarks(s: State, s': State, b: int)
    requires Drains(s.drains, s.draining) && Consume(s, s') && b in s.bufs
    ensures b in s'.bufs && s'.bufs[b].closed == s.bufs[b].closed && s'.threads == s.threads
  {
    var d := s.drains[0];
    hide DrainStep, RunStep, Left;
    if RunBuffer(d.pc).Some? {
      RunnerMarks(s, s', d, RunBuffer(d.pc).value, b);
    } else {
      DrainKeeps(s, s', d);
    }
  }

  lemma BeginMarks(s: State, s': State, p: int, pc: ProducerPc, b: int)
    requires p in s.threads && s.threads[p] == Resting && s' == At(s, p, pc) && !pc.AddCheck? && b in s.bufs
    ensures b in s'.bufs && s'.bufs[b].closed == s.bufs[b].closed && !ClosedBy(s, s', b)
  {
  }

  lemma ClosedStep(s: State, s': State, b: int)
    requires Inv(s) && Next(s, s') && b in s.bufs
    ensures b in s'.bufs && (s'.bufs[b].closed <==> s.bufs[b].closed || ClosedBy(s, s', b))
  {
    assert s.bufs.Keys == s.added.Keys && Drains(s.drains, s.draining);
    hide Inv, Drains, Produce, Consume, StartDrain, Marks;
    if p :| Produce(s, s', p) {
      ProduceMarks(s, s', p, b);
      MarksExact(s, s', p, b);
    } else if p, c, data :| StartAdd(s, s', p, c, data) {
      BeginMarks(s, s', p, AddLock(c, data), b);
    } else if p, tag :| StartQueue(s, s', p, tag) {
      BeginMarks(s, s', p, QueueLock(Other(tag), None), b);
    } else if Consume(s, s') {
      ConsumeMarks(s, s', b);
    } else {
      DrainMarks(s, s');
    }
  }

  lemma DrainMarks(s: State, s': State)
    requires StartDrain(s, s')
    ensures s'.bufs == s.bufs && s'.threads == s.threads
  {
  }

  /** A buffer is closed if and only if some producer has added no bytes to it. */
  lemma {:induction false} ClosedExact(run: seq<State>, i: nat, b: int)
    requires IsRun(run) && i < |run| && b in run[0].bufs
    ensures b in run[i].bufs
    ensures run[i].bufs[b].closed <==> exists j: nat :: j < i && ClosedBy(run[j], run[j + 1], b)
  {
    if i > 0 {
      var h := i - 1;
      assert Next(run[h], run[h + 1]);
      hide IsRun, Next, Inv, ClosedBy;
      ClosedExact(run, h, b);
      RunKeepsInv(run, h);
      ClosedStep(run[h], run[h + 1], b);
    }
  }

  // ---------- the end is delivered ----------

  lemma EndsAtRest(s: State, b: int)
    requires Inv(s) && Ends(s) && !Busy(s) && b in s.bufs
    ensures b in s.delivered && (s.bufs[b].closed ==> Ended(s.delivered[b]))
  {
    assert BufferInv(s, b) && BufferEnds(s, b);
    hide BufferOk;
    assert Holder(s.bufs[b].lock, s.threads) == Resting;
    NoRunner(s, b);
  }

  lemma NoRunner(s: State, b: int)
    requires Inv(s) && !Busy(s) && b in s.bufs
    ensures !s.bufs[b].runner
  {
    hide Flat;
    assert BufferInv(s, b);
    assert Count([], Runner(b)) == 0;
    assert Holder(s.bufs[b].lock, s.threads) == Resting;
  }

  /** No empty batch is ever delivered from a buffer that is not closed; and when nothing is
      left to be done, a closed buffer has delivered an empty batch last. */
  lemma EndDelivered(run: seq<State>, i: nat, b: int)
    requires IsRun(run) && i < |run| && b in run[i].bufs
    ensures b in run[i].delivered
    ensures forall j | 0 <= j < |run[i].delivered[b]| :: run[i].delivered[b][j] == [] ==> run[i].bufs[b].closed
    ensures !Busy(run[i]) && run[i].bufs[b].closed ==> Ended(run[i].delivered[b])
  {
    RunKeepsInv(run, i);
    RunKeepsEnds(run, i);
    hide IsRun, BufferInv, Busy;
    assert BufferEnds(run[i], b);
    if !Busy(run[i]) {
      EndsAtRest(run[i], b);
    }
  }

  lemma {:induction false} MachineKeepsEnds(run: seq<State>, i: nat, b: int)
    requires MachineRun(run) && i < |run| && Inv(run[0]) && Ends(run[0]) && b in run[0].bufs
    ensures Inv(run[i]) && Ends(run[i])
    ensures b in run[i].bufs && run[i].bufs[b].closed == run[0].bufs[b].closed
  {
    hide Inv, Ends, StartDrain, Consume;
    if i > 0 {
      MachineKeepsEnds(run, i - 1, b);
      assert StartDrain(run[i - 1], run[i - 1 + 1]) || Consume(run[i - 1], run[i - 1 + 1]);
      NextInv(run[i - 1], run[i]);
      NextEnds(run[i - 1], run[i]);
      MachineLeaves(run[i - 1], run[i], b);
    }
  }

  lemma MachineLeaves(s: State, s': State, b: int)
    requires Inv(s) && (StartDrain(s, s') || Consume(s, s')) && b in s.bufs
    ensures b in s'.bufs && s'.bufs[b].closed == s.bufs[b].closed
  {
    assert Drains(s.drains, s.draining);
    hide Inv, Drains, StartDrain, Consume;
    if StartDrain(s, s') {
      DrainMarks(s, s');
    } else {
      ConsumeMarks(s, s', b);
    }
  }

  /** Whatever the threads did before: once the producers rest, the machine thread alone
      delivers every byte of a closed buffer, and then the empty batch. */
  lemma StreamEnds(run: seq<State>, i: nat, b: int) returns (more: seq<State>)
    requires IsRun(run) && i < |run| && Rested(run[i]) && b in run[i].bufs && run[i].bufs[b].closed
    ensures MachineRun(more) && more[0] == run[i] && !Busy(more[|more| - 1])
    ensures b in run[i].added && b in more[|more| - 1].delivered
    ensures Flat(more[|more| - 1].delivered[b]) == run[i].added[b] && Ended(more[|more| - 1].delivered[b])
  {
    RunKeepsInv(run, i);
    RunKeepsEnds(run, i);
    assert b in run[i].added;
    hide IsRun, Inv, Ends, Busy, Rested, Flat, Ended;
    more := RunDrains(run, i);
    assert MachineRun(more);
    MachineKeepsEnds(more, |more| - 1, b);
    hide MachineRun;
    EndsAtRest(more[|more| - 1], b);
  }

  // ---------- at most one end for each call ----------

  /** How often an empty batch was delivered. */
  function Empties(batches: seq<seq<int>>): nat {
    if batches == [] then 0
    else Empties(batches[..|batches| - 1]) + (if batches[|batches| - 1] == [] then 1 else 0)
  }

  /** The current call of `b`'s runner may still deliver an empty batch. */
  function Owed(d: Option<Drain>, b: int): nat {
    if d.None? || RunBuffer(d.value.pc) != Some(b) then 0
    else if d.value.pc.RunClose? && d.value.batch == [] then 0
    else 1
  }

  ghost predicate OnceOk(s: State, b: int)
    requires b in s.delivered
  {
    Empties(s.delivered[b]) + Owed(Current(s), b) <= Count(s.executed, Runner(b))
  }

  ghost predicate Once(s: State) {
    forall b | b in s.delivered :: OnceOk(s, b)
  }

  lemma EmptiesPush(batches: seq<seq<int>>, batch: seq<int>)
    ensures Empties(batches + [batch]) == Empties(batches) + (if batch == [] then 1 else 0)
  {
    assert (batches + [batch])[..|batches|] == batches;
  }

  lemma SameOnce(s: State, s': State)
    requires Once(s) && s'.delivered == s.delivered && s'.executed == s.executed
    requires forall b: int :: Owed(Current(s'), b) <= Owed(Current(s), b)
    ensures Once(s')
  {
    hide Owed, Count, Empties;
    forall b | b in s'.delivered ensures OnceOk(s', b) {
      assert OnceOk(s, b);
    }
  }

  lemma ProduceOnce(s: State, s': State, p: int)
    requires Once(s) && Produce(s, s', p)
    ensures Once(s')
  {
    var pc := s.threads[p];
    hide Once, LockStep, WriteStep, CloseStep, CheckStep, UnlockStep, Owed;
    match pc
    case AddLock(c, data) =>
      LockKeeps(s, s', p, c, data);
      SameOnce(s, s');
    case AddWrite(c, data) =>
      WriteKeeps(s, s', p, c, data);
      SameOnce(s, s');
    case AddClose(c, data) =>
      CloseKeeps(s, s', p, c, data);
      SameOnce(s, s');
    case AddCheck(c) =>
      CheckKeeps(s, s', p, c);
      SameOnce(s, s');
    case AddUnlock(c) =>
      UnlockKeeps(s, s', p, c);
      SameOnce(s, s');
    case _ =>
      QueuePasses(s, s', p);
      SameOnce(s, s');
  }

  lemma DrainExecutes(s: State, s': State, d: Drain)
    requires s.drains != [] && DrainStep(s, s', d) && !d.pc.NextCall?
    requires d == s.drains[|s.drains| - 1]
    ensures s'.executed == s.executed
  {
    DrainSteps(s, s', d);
    hide DrainStep, Sound;
  }

  lemma CallOnce(s: State, s': State, d: Drain)
    requires Once(s) && |s.drains| == 1 && d == s.drains[0] && d.pc == NextCall && CallNext(s, s', d)
    ensures Once(s')
  {
    CallNextSame(s, s', d);
    if d.idx < |d.run| {
      CallOneSame(s, s', d);
      var f := d.run[d.idx];
      assert forall b | Owed(Current(s'), b) > 0 :: f == Runner(b);
      hide CallNext, Owed, Current, Empties;
      forall b | b in s'.delivered ensures OnceOk(s', b) {
        assert OnceOk(s, b);
        CountPush(s.executed, f, Runner(b));
      }
    } else {
      SameOnce(s, s');
    }
  }

  lemma DrainOnce(s: State, s': State, d: Drain)
    requires Once(s) && Drains(s.drains, s.draining) && s.drains != [] && d == s.drains[0] && DrainStep(s, s', d)
    ensures Once(s')
  {
    if d.pc.NextCall? {
      CallOnce(s, s', d);
    } else {
      DrainKeeps(s, s', d);
      DrainExecutes(s, s', d);
      hide DrainStep, Left, Once;
      SameOnce(s, s');
    }
  }

  lemma RunOnce(s: State, s': State, d: Drain, b: int)
    requires Once(s) && |s.drains| == 1 && d == s.drains[0] && RunBuffer(d.pc) == Some(b) && RunStep(s, s', d, b)
    ensures Once(s')
  {
    RunStepKeeps(s, s', d, b);
    OwesLess(s, s', d, b);
    hide RunStep;
    forall c | c in s'.delivered ensures OnceOk(s', c) {
      assert OnceOk(s, c);
      hide OnceOk, Owed, Empties, Count;
    }
  }

  lemma OwesLess(s: State, s': State, d: Drain, b: int)
    requires |s.drains| == 1 && d == s.drains[0] && RunBuffer(d.pc) == Some(b) && RunStep(s, s', d, b)
    ensures b in s.delivered && b in s'.delivered
    ensures Empties(s'.delivered[b]) + Owed(Current(s'), b) <= Empties(s.delivered[b]) + Owed(Current(s), b)
    ensures forall c | c != b :: Owed(Current(s'), c) == 0
  {
    RunStepKeeps(s, s', d, b);
    if d.pc.RunDeliver? {
      hide RunKeeps;
      EmptiesPush(s.delivered[b], d.batch);
    } else if d.pc.RunClose? {
      hide RunKeeps;
      EmptiesPush(s.delivered[b], []);
    } else {
      NothingDelivered(s, s', d, b);
      hide RunStep, Empties;
    }
  }

  lemma NothingDelivered(s: State, s': State, d: Drain, b: int)
    requires s.drains != [] && RunStep(s, s', d, b) && !d.pc.RunDeliver? && !d.pc.RunClose?
    ensures b in s.delivered && s'.delivered == s.delivered
  {
  }

  lemma NextOnce(s: State, s': State)
    requires Inv(s) && Once(s) && Next(s, s')
    ensures Once(s')
  {
    assert Drains(s.drains, s.draining);
    hide Inv, Drains, Produce, Consume, Once;
    if p :| Produce(s, s', p) {
      ProduceOnce(s, s', p);
    } else if Consume(s, s') {
      ConsumeOnce(s, s');
    } else {
      assert s'.drains == s.drains || s'.drains == s.drains + [Drain(DrainLock, [], 0, [])];
      SameOnce(s, s');
    }
  }

  lemma ConsumeOnce(s: State, s': State)
    requires Drains(s.drains, s.draining) && Once(s) && Consume(s, s')
    ensures Once(s')
  {
    hide RunStep, DrainStep, Once;
    var d := s.drains[0];
    if RunBuffer(d.pc).Some? {
      RunOnce(s, s', d, RunBuffer(d.pc).value);
    } else {
      DrainOnce(s, s', d);
    }
  }

  /** Each call of a buffer's runner delivers the end at most once. */
  lemma {:induction false} EndsCounted(run: seq<State>, i: nat, b: int)
    requires IsRun(run) && i < |run| && b in run[i].delivered
    ensures Empties(run[i].delivered[b]) <= Count(run[i].executed, Runner(b))
  {
    RunKeepsOnce(run, i);
    hide IsRun, Empties, Count, Owed;
    assert OnceOk(run[i], b);
  }

  lemma {:induction false} RunKeepsOnce(run: seq<State>, i: nat)
    requires IsRun(run) && i < |run|
    ensures Once(run[i])
  {
    if i > 0 {
      RunKeepsInv(run, i - 1);
      RunKeepsOnce(run, i - 1);
      hide Init, Next, Inv, Once;
      NextOnce(run[i - 1], run[i]);
    } else {
      forall b | b in run[0].delivered ensures OnceOk(run[0], b) {
        assert b in run[0].bufs && run[0].delivered[b] == [];
      }
    }
  }
}
