/** The run queue of an environment (QueueRun, CallQueued) and the batched delivery built on
    it (BufferRunner.AddData and its runner), as atomic steps of many producer threads and
    the one thread that runs the machine. Every interleaving of the steps is a run. */
module Delivery {
  import opened Sexps

  datatype Callback = Runner(buf: int) | Other(tag: int)

  datatype Owner = Producer(p: int) | Machine

  /** `lock`, `bytes`, `runner` (not nil) and `closed` of a BufferRunner. */
  datatype Buffer = Buffer(lock: Option<Owner>, bytes: seq<int>, runner: bool, closed: bool)

  /** Where a producer stands in `AddData` or `QueueRun`. `back` is the buffer whose
      `AddData` is queueing, if any. */
  datatype ProducerPc =
    | Resting
    | AddLock(b: int, data: seq<int>)
    | AddWrite(b: int, data: seq<int>)
    | AddClose(b: int, data: seq<int>)
    | AddCheck(b: int)
    | QueueLock(fn: Callback, back: Option<int>)
    | QueueHas(fn: Callback, back: Option<int>)
    | QueueAppend(fn: Callback, back: Option<int>)
    | QueueUnlock(back: Option<int>)
    | AddUnlock(b: int)

  /** Where the machine thread stands in `CallQueued`; `b` is the buffer of the runner being
      executed. `InCall` is inside, or at the end of, a callback. */
  datatype DrainPc =
    | DrainLock | DrainHas | DrainCopy | DrainTruncate | DrainUnlock | DrainSet
    | NextCall | InCall
    | RunLock(b: int) | RunCopy(b: int) | RunReset(b: int) | RunClear(b: int) | RunUnlock(b: int)
    | RunDeliver(b: int) | RunClose(b: int)

  /** One activation of `CallQueued`: the drained copy, the next index, the batch in hand. */
  datatype Drain = Drain(pc: DrainPc, run: seq<Callback>, idx: nat, batch: seq<int>)

  /** `submitted`, `executed`, `added` and `delivered` record the history. */
  datatype State = State(
    queued: seq<Callback>, has: bool, draining: bool, qlock: Option<Owner>,
    bufs: map<int, Buffer>, threads: map<int, ProducerPc>, drains: seq<Drain>,
    submitted: seq<Callback>, executed: seq<Callback>,
    added: map<int, seq<int>>, delivered: map<int, seq<seq<int>>>)

  ghost predicate Init(s: State) {
    && s.queued == [] && !s.has && !s.draining && s.qlock == None && s.drains == []
    && s.submitted == [] && s.executed == []
    && s.added.Keys == s.delivered.Keys == s.bufs.Keys
    && (forall p | p in s.threads :: s.threads[p] == Resting)
    && (forall b | b in s.bufs ::
          s.bufs[b] == Buffer(None, [], false, false) && s.added[b] == [] && s.delivered[b] == [])
  }

  // ---------- producer steps ----------

  function At(s: State, p: int, pc: ProducerPc): State {
    s.(threads := s.threads[p := pc])
  }

  ghost predicate StartAdd(s: State, s': State, p: int, b: int, data: seq<int>) {
    p in s.threads && s.threads[p] == Resting && b in s.bufs && s' == At(s, p, AddLock(b, data))
  }

  ghost predicate StartQueue(s: State, s': State, p: int, tag: int) {
    p in s.threads && s.threads[p] == Resting && s' == At(s, p, QueueLock(Other(tag), None))
  }

  ghost predicate LockStep(s: State, s': State, p: int, b: int, data: seq<int>) {
    && b in s.bufs && s.bufs[b].lock == None
    && s' == At(s, p, AddWrite(b, data)).(bufs := s.bufs[b := s.bufs[b].(lock := Some(Producer(p)))])
  }

  ghost predicate WriteStep(s: State, s': State, p: int, b: int, data: seq<int>) {
    && b in s.bufs && b in s.added
    && s' == At(s, p, AddClose(b, data)).(
               bufs := s.bufs[b := s.bufs[b].(bytes := s.bufs[b].bytes + data)],
               added := s.added[b := s.added[b] + data])
  }

  /** Adding no bytes marks the end of the stream. */
  ghost predicate CloseStep(s: State, s': State, p: int, b: int, data: seq<int>) {
    && b in s.bufs
    && s' == At(s, p, AddCheck(b)).(bufs := s.bufs[b := s.bufs[b].(closed := s.bufs[b].closed || data == [])])
  }

  ghost predicate CheckStep(s: State, s': State, p: int, b: int) {
    && b in s.bufs
    && s' == if s.bufs[b].runner then At(s, p, AddUnlock(b))
             else At(s, p, QueueLock(Runner(b), Some(b))).(bufs := s.bufs[b := s.bufs[b].(runner := true)])
  }

  ghost predicate UnlockStep(s: State, s': State, p: int, b: int) {
    b in s.bufs && s' == At(s, p, Resting).(bufs := s.bufs[b := s.bufs[b].(lock := None)])
  }

  /** The next step of a producer inside `AddData` or `QueueRun`. */
  ghost predicate Produce(s: State, s': State, p: int) {
    && p in s.threads
    && match s.threads[p]
       case Resting => false
       case AddLock(b, data) => LockStep(s, s', p, b, data)
       case AddWrite(b, data) => WriteStep(s, s', p, b, data)
       case AddClose(b, data) => CloseStep(s, s', p, b, data)
       case AddCheck(b) => CheckStep(s, s', p, b)
       case QueueLock(fn, back) =>
         s.qlock == None && s' == At(s, p, QueueHas(fn, back)).(qlock := Some(Producer(p)))
       case QueueHas(fn, back) => s' == At(s, p, QueueAppend(fn, back)).(has := true)
       case QueueAppend(fn, back) =>
         s' == At(s, p, QueueUnlock(back)).(queued := s.queued + [fn], submitted := s.submitted + [fn])
       case QueueUnlock(back) =>
         s' == At(s, p, if back.Some? then AddUnlock(back.value) else Resting).(qlock := None)
       case AddUnlock(b) => UnlockStep(s, s', p, b)
  }

  // ---------- steps of the machine thread ----------

  function Now(s: State, d: Drain): State
    requires s.drains != []
  {
    s.(drains := s.drains[|s.drains| - 1 := d])
  }

  /** A callback is running: `deliver` and other callbacks may run scripts. */
  predicate InScript(pc: DrainPc) {
    pc.InCall? || pc.RunDeliver? || pc.RunClose?
  }

  /** `CallQueued` passes its guard: from outside, or from inside a callback. */
  ghost predicate StartDrain(s: State, s': State) {
    && (s.drains == [] || InScript(s.drains[|s.drains| - 1].pc))
    && !s.draining && s.has
    && s' == s.(drains := s.drains + [Drain(DrainLock, [], 0, [])])
  }

  ghost predicate LockQueue(s: State, s': State, d: Drain)
    requires s.drains != []
  {
    s.qlock == None && s' == Now(s, d.(pc := DrainHas)).(qlock := Some(Machine))
  }

  ghost predicate LowerHas(s: State, s': State, d: Drain)
    requires s.drains != []
  {
    s' == Now(s, d.(pc := DrainCopy)).(has := false)
  }

  ghost predicate CopyQueue(s: State, s': State, d: Drain)
    requires s.drains != []
  {
    s' == Now(s, d.(pc := DrainTruncate, run := s.queued))
  }

  ghost predicate TruncateQueue(s: State, s': State, d: Drain)
    requires s.drains != []
  {
    s' == Now(s, d.(pc := DrainUnlock)).(queued := [])
  }

  ghost predicate UnlockQueue(s: State, s': State, d: Drain)
    requires s.drains != []
  {
    s' == Now(s, d.(pc := DrainSet)).(qlock := None)
  }

  ghost predicate SetDraining(s: State, s': State, d: Drain)
    requires s.drains != []
  {
    s' == Now(s, d.(pc := NextCall)).(draining := true)
  }

  /** The loop over the drained copy calls the next callback, or ends. */
  ghost predicate CallNext(s: State, s': State, d: Drain)
    requires s.drains != []
  {
    if d.idx < |d.run| then
      var f := d.run[d.idx];
      s' == Now(s, d.(idx := d.idx + 1, pc := if f.Runner? then RunLock(f.buf) else InCall))
            .(executed := s.executed + [f])
    else s' == s.(drains := s.drains[..|s.drains| - 1], draining := false)
  }

  ghost predicate CallReturns(s: State, s': State, d: Drain)
    requires s.drains != []
  {
    s' == Now(s, d.(pc := NextCall))
  }

  /** The steps of `CallQueued` outside the runner closures. */
  ghost predicate DrainStep(s: State, s': State, d: Drain)
    requires s.drains != []
  {
    match d.pc
    case DrainLock => LockQueue(s, s', d)
    case DrainHas => LowerHas(s, s', d)
    case DrainCopy => CopyQueue(s, s', d)
    case DrainTruncate => TruncateQueue(s, s', d)
    case DrainUnlock => UnlockQueue(s, s', d)
    case DrainSet => SetDraining(s, s', d)
    case NextCall => CallNext(s, s', d)
    case InCall => CallReturns(s, s', d)
    case _ => false
  }

  ghost predicate RunnerLocks(s: State, s': State, d: Drain, b: int)
    requires s.drains != [] && b in s.bufs
  {
    && s.bufs[b].lock == None
    && s' == Now(s, d.(pc := RunCopy(b))).(bufs := s.bufs[b := s.bufs[b].(lock := Some(Machine))])
  }

  ghost predicate RunnerCopies(s: State, s': State, d: Drain, b: int)
    requires s.drains != [] && b in s.bufs
  {
    s' == Now(s, d.(pc := RunReset(b), batch := s.bufs[b].bytes))
  }

  ghost predicate RunnerResets(s: State, s': State, d: Drain, b: int)
    requires s.drains != [] && b in s.bufs
  {
    s' == Now(s, d.(pc := RunClear(b))).(bufs := s.bufs[b := s.bufs[b].(bytes := [])])
  }

  ghost predicate RunnerClears(s: State, s': State, d: Drain, b: int)
    requires s.drains != [] && b in s.bufs
  {
    s' == Now(s, d.(pc := RunUnlock(b))).(bufs := s.bufs[b := s.bufs[b].(runner := false)])
  }

  ghost predicate RunnerUnlocks(s: State, s': State, d: Drain, b: int)
    requires s.drains != [] && b in s.bufs
  {
    s' == Now(s, d.(pc := RunDeliver(b))).(bufs := s.bufs[b := s.bufs[b].(lock := None)])
  }

  ghost predicate RunnerDelivers(s: State, s': State, d: Drain, b: int)
    requires s.drains != [] && b in s.delivered
  {
    s' == Now(s, d.(pc := RunClose(b))).(delivered := s.delivered[b := s.delivered[b] + [d.batch]])
  }

  /** A non-empty batch is followed by an empty one once the stream is closed. */
  ghost predicate RunnerCloses(s: State, s': State, d: Drain, b: int)
    requires s.drains != [] && b in s.bufs && b in s.delivered
  {
    s' == Now(s, d.(pc := InCall)).(
            delivered := if s.bufs[b].closed && d.batch != [] then s.delivered[b := s.delivered[b] + [[]]]
                        else s.delivered)
  }

  /** The runner closure of buffer `b`. */
  ghost predicate RunStep(s: State, s': State, d: Drain, b: int)
    requires s.drains != []
  {
    && b in s.bufs && b in s.delivered
    && match d.pc
       case RunLock(_) => RunnerLocks(s, s', d, b)
       case RunCopy(_) => RunnerCopies(s, s', d, b)
       case RunReset(_) => RunnerResets(s, s', d, b)
       case RunClear(_) => RunnerClears(s, s', d, b)
       case RunUnlock(_) => RunnerUnlocks(s, s', d, b)
       case RunDeliver(_) => RunnerDelivers(s, s', d, b)
       case RunClose(_) => RunnerCloses(s, s', d, b)
       case _ => false
  }

  function RunBuffer(pc: DrainPc): Option<int> {
    match pc
    case RunLock(b) => Some(b)
    case RunCopy(b) => Some(b)
    case RunReset(b) => Some(b)
    case RunClear(b) => Some(b)
    case RunUnlock(b) => Some(b)
    case RunDeliver(b) => Some(b)
    case RunClose(b) => Some(b)
    case _ => None
  }

  /** The next step of the machine thread inside `CallQueued`. */
  ghost predicate Consume(s: State, s': State) {
    && s.drains != []
    && var d := s.drains[|s.drains| - 1];
       if RunBuffer(d.pc).Some? then RunStep(s, s', d, RunBuffer(d.pc).value)
       else DrainStep(s, s', d)
  }

  ghost predicate Next(s: State, s': State) {
    || (exists p, b, data :: StartAdd(s, s', p, b, data))
    || (exists p, tag :: StartQueue(s, s', p, tag))
    || (exists p :: Produce(s, s', p))
    || StartDrain(s, s')
    || Consume(s, s')
  }

  // ---------- what the state means ----------

  function Current(s: State): Option<Drain> {
    if s.drains == [] then None else Some(s.drains[|s.drains| - 1])
  }

  predicate Doing(d: Option<Drain>, pc: DrainPc) {
    d.Some? && d.value.pc == pc
  }

  /** The callbacks of the drained copy that are still to be called. While the copy is
      being made they are still in the queue. */
  function Left(d: Option<Drain>): seq<Callback> {
    if d.None? || d.value.pc.DrainTruncate? || d.value.idx > |d.value.run| then [] else d.value.run[d.value.idx..]
  }

  function Flat(bs: seq<seq<int>>): seq<int> {
    if bs == [] then [] else Flat(bs[..|bs| - 1]) + bs[|bs| - 1]
  }

  /** The batch taken from `b` and not yet delivered. */
  function InHand(d: Option<Drain>, b: int): seq<int> {
    if Doing(d, RunClear(b)) || Doing(d, RunUnlock(b)) || Doing(d, RunDeliver(b)) then d.value.batch else []
  }

  function Count(fs: seq<Callback>, f: Callback): nat {
    if fs == [] then 0 else Count(fs[..|fs| - 1], f) + (if fs[|fs| - 1] == f then 1 else 0)
  }

  /** What the producer that holds a lock is doing. */
  function Holder(lock: Option<Owner>, threads: map<int, ProducerPc>): ProducerPc {
    match lock
    case Some(Producer(p)) => if p in threads then threads[p] else Resting
    case _ => Resting
  }

  predicate Queueing(pc: ProducerPc) {
    pc.QueueLock? || pc.QueueHas? || pc.QueueAppend?
  }

  /** The machine thread is in the runner of `b` and has not yet cleared `b.runner`. */
  predicate Running(d: Option<Drain>, b: int) {
    Doing(d, RunLock(b)) || Doing(d, RunCopy(b)) || Doing(d, RunReset(b)) || Doing(d, RunClear(b))
  }

  /** The runners of `b` that are outstanding: queued, drained, set by the producer `holder`
      and about to be queued, or at work on the buffer. */
  function Outstanding(b: int, d: Option<Drain>, queued: seq<Callback>, holder: ProducerPc): nat {
    Count(Left(d), Runner(b)) + Count(queued, Runner(b))
    + (if Queueing(holder) then 1 else 0) + (if Running(d, b) then 1 else 0)
  }

  // ---------- the invariant, component by component ----------

  predicate HasQueueLock(pc: ProducerPc) {
    pc.QueueHas? || pc.QueueAppend? || pc.QueueUnlock?
  }

  /** The buffer whose lock a producer holds. */
  function Locks(pc: ProducerPc): Option<int> {
    match pc
    case AddWrite(b, _) => Some(b)
    case AddClose(b, _) => Some(b)
    case AddCheck(b) => Some(b)
    case AddUnlock(b) => Some(b)
    case QueueLock(_, back) => back
    case QueueHas(_, back) => back
    case QueueAppend(_, back) => back
    case QueueUnlock(back) => back
    case _ => None
  }

  predicate DrainHasLock(d: Option<Drain>) {
    d.Some? && (d.value.pc.DrainHas? || d.value.pc.DrainCopy? || d.value.pc.DrainTruncate? || d.value.pc.DrainUnlock?)
  }

  predicate DrainLocks(d: Option<Drain>, b: int) {
    Doing(d, RunCopy(b)) || Doing(d, RunReset(b)) || Doing(d, RunClear(b)) || Doing(d, RunUnlock(b))
  }

  /** The queue lock is held by whoever stands in its critical sections, and no one else. */
  ghost predicate QueueExclusion(qlock: Option<Owner>, threads: map<int, ProducerPc>, d: Option<Drain>) {
    && (forall p | p in threads :: qlock == Some(Producer(p)) <==> HasQueueLock(threads[p]))
    && (qlock.Some? && qlock.value.Producer? ==> qlock.value.p in threads)
    && (qlock == Some(Machine) <==> DrainHasLock(d))
  }

  /** Likewise for the lock of buffer `b`. */
  ghost predicate BufferExclusion(b: int, lock: Option<Owner>, threads: map<int, ProducerPc>, d: Option<Drain>) {
    && (forall p | p in threads :: lock == Some(Producer(p)) <==> Locks(threads[p]) == Some(b))
    && (lock.Some? && lock.value.Producer? ==> lock.value.p in threads)
    && (lock == Some(Machine) <==> DrainLocks(d, b))
  }

  predicate Starting(pc: DrainPc) {
    pc.DrainLock? || pc.DrainHas? || pc.DrainCopy? || pc.DrainTruncate? || pc.DrainUnlock? || pc.DrainSet?
  }

  /** `CallQueued` never nests, and the flag says whether it is calling. */
  ghost predicate Drains(drains: seq<Drain>, draining: bool) {
    && |drains| <= 1
    && (draining <==> drains != [] && !Starting(drains[0].pc))
    && (drains != [] ==>
          var d := drains[0];
          && d.idx <= |d.run| && (Starting(d.pc) ==> d.idx == 0)
          && (d.pc.DrainLock? || d.pc.DrainHas? || d.pc.DrainCopy? ==> d.run == []))
  }

  /** Every submitted callback was called, is still to be called from the copy, or is still
      queued, in the order of submission; `has` is right whenever the lock is free. */
  ghost predicate QueueOk(s: State, d: Option<Drain>, qpc: ProducerPc) {
    && s.executed + Left(d) + s.queued == s.submitted
    && (s.qlock == None || qpc.QueueHas? || Doing(d, DrainHas) ==> (s.has <==> s.queued != []))
    && (qpc.QueueAppend? ==> s.has)
    && (qpc.QueueUnlock? ==> s.has && s.queued != [])
    && (Doing(d, DrainCopy) || Doing(d, DrainTruncate) || Doing(d, DrainUnlock) ==> !s.has)
    && (Doing(d, DrainTruncate) ==> d.value.run == s.queued)
    && (Doing(d, DrainUnlock) ==> s.queued == [])
  }

  /** What a producer queues while it is inside `AddData` is that buffer's runner. */
  predicate Queues(pc: ProducerPc) {
    match pc
    case QueueLock(fn, back) => if back.Some? then fn == Runner(back.value) else fn.Other?
    case QueueHas(fn, back) => if back.Some? then fn == Runner(back.value) else fn.Other?
    case QueueAppend(fn, back) => if back.Some? then fn == Runner(back.value) else fn.Other?
    case _ => true
  }

  /** No byte of `b` is lost, doubled or moved; its `runner` is set exactly when one runner
      is outstanding, and it is set whenever the buffer holds bytes, except while the
      producer that added them is about to set it. */
  ghost predicate BufferOk(b: int, buf: Buffer, added: seq<int>, delivered: seq<seq<int>>,
                           d: Option<Drain>, queued: seq<Callback>, holder: ProducerPc)
  {
    && Flat(delivered) + InHand(d, b) + buf.bytes == added
    && (Doing(d, RunReset(b)) ==> d.value.batch == buf.bytes)
    && (Doing(d, RunClear(b)) || Doing(d, RunUnlock(b)) ==> buf.bytes == [])
    && Outstanding(b, d, queued, holder) == (if buf.runner then 1 else 0)
    && (buf.bytes != [] && !buf.runner ==> holder.AddClose? || holder.AddCheck?)
    && (Queueing(holder) || holder.QueueUnlock? || holder.AddUnlock? ==> buf.runner)
  }

  ghost predicate BufferInv(s: State, b: int)
    requires b in s.bufs && b in s.added && b in s.delivered
  {
    && BufferExclusion(b, s.bufs[b].lock, s.threads, Current(s))
    && BufferOk(b, s.bufs[b], s.added[b], s.delivered[b], Current(s), s.queued, Holder(s.bufs[b].lock, s.threads))
  }

  ghost predicate Inv(s: State) {
    && s.added.Keys == s.delivered.Keys == s.bufs.Keys
    && Drains(s.drains, s.draining)
    && (forall p | p in s.threads :: Queues(s.threads[p]))
    && QueueExclusion(s.qlock, s.threads, Current(s))
    && QueueOk(s, Current(s), Holder(s.qlock, s.threads))
    && forall b | b in s.bufs :: BufferInv(s, b)
  }

  // ---------- counting ----------

  lemma {:induction false} CountAppend(a: seq<Callback>, b: seq<Callback>, f: Callback)
    ensures Count(a + b, f) == Count(a, f) + Count(b, f)
  {
    if b == [] {
      assert a + b == a;
    } else {
      var n := |b| - 1;
      assert (a + b)[..|a| + n] == a + b[..n];
      CountAppend(a, b[..n], f);
    }
  }

  lemma CountPush(fs: seq<Callback>, f: Callback, g: Callback)
    ensures Count(fs + [f], g) == Count(fs, g) + (if f == g then 1 else 0)
    ensures Count([f], g) == if f == g then 1 else 0
  {
    assert (fs + [f])[..|fs|] == fs && [f][..0] == [];
  }

  lemma FlatPush(bs: seq<seq<int>>, batch: seq<int>)
    ensures Flat(bs + [batch]) == Flat(bs) + batch
  {
    assert (bs + [batch])[..|bs|] == bs;
  }

  // ---------- one thread moves ----------

  lemma QueueExclusionMove(qlock: Option<Owner>, threads: map<int, ProducerPc>, d: Option<Drain>, p: int,
                           pc: ProducerPc)
    requires QueueExclusion(qlock, threads, d) && p in threads && HasQueueLock(pc) == HasQueueLock(threads[p])
    ensures QueueExclusion(qlock, threads[p := pc], d)
  {
  }

  lemma BufferExclusionMove(b: int, lock: Option<Owner>, threads: map<int, ProducerPc>, d: Option<Drain>, p: int,
                            pc: ProducerPc)
    requires BufferExclusion(b, lock, threads, d) && p in threads
    requires Locks(pc) == Some(b) <==> Locks(threads[p]) == Some(b)
    ensures BufferExclusion(b, lock, threads[p := pc], d)
  {
    hide Locks, DrainLocks;
  }

  lemma HolderMove(lock: Option<Owner>, threads: map<int, ProducerPc>, p: int, pc: ProducerPc)
    requires p in threads
    ensures Holder(lock, threads[p := pc]) == if lock == Some(Producer(p)) then pc else Holder(lock, threads)
  {
  }

  /** A buffer that the moving producer neither holds nor takes nor releases. */
  lemma OtherBuffer(s: State, s': State, p: int, pc: ProducerPc, b: int)
    requires p in s.threads && s'.threads == s.threads[p := pc]
    requires Locks(s.threads[p]) != Some(b) && Locks(pc) != Some(b)
    requires b in s.bufs && b in s.added && b in s.delivered && BufferInv(s, b)
    requires b in s'.bufs && b in s'.added && b in s'.delivered
    requires s'.bufs[b] == s.bufs[b] && s'.added[b] == s.added[b] && s'.delivered[b] == s.delivered[b]
    requires s'.drains == s.drains && s'.queued == s.queued
    ensures BufferInv(s', b)
  {
    hide BufferOk, Locks;
    BufferExclusionMove(b, s.bufs[b].lock, s.threads, Current(s), p, pc);
    HolderMove(s.bufs[b].lock, s.threads, p, pc);
    assert s.bufs[b].lock != Some(Producer(p)) by {
      hide DrainLocks;
    }
  }

  /** The parts of the invariant that a step outside the queue's critical sections keeps. */
  lemma QueueSame(s: State, s': State, p: int, pc: ProducerPc)
    requires p in s.threads && s'.threads == s.threads[p := pc] && !HasQueueLock(pc) && !HasQueueLock(s.threads[p])
    requires QueueExclusion(s.qlock, s.threads, Current(s)) && QueueOk(s, Current(s), Holder(s.qlock, s.threads))
    requires s'.executed == s.executed && s'.queued == s.queued && s'.submitted == s.submitted
    requires s'.has == s.has && s'.qlock == s.qlock && s'.drains == s.drains
    ensures QueueExclusion(s'.qlock, s'.threads, Current(s')) && QueueOk(s', Current(s'), Holder(s'.qlock, s'.threads))
  {
    HolderMove(s.qlock, s.threads, p, pc);
    QueueExclusionMove(s.qlock, s.threads, Current(s), p, pc);
    hide Left, DrainHasLock;
  }

  // ---------- producers ----------

  lemma InitInv(s: State)
    requires Init(s)
    ensures Inv(s)
  {
  }

  /** A producer that begins an operation. */
  lemma BeginInv(s: State, s': State, p: int, pc: ProducerPc)
    requires Inv(s) && p in s.threads && s.threads[p] == Resting && s' == At(s, p, pc)
    requires Locks(pc) == None && !HasQueueLock(pc) && Queues(pc)
    ensures Inv(s')
  {
    hide BufferInv, QueueOk, Drains, QueueExclusion, Queues;
    QueueSame(s, s', p, pc);
    forall c | c in s.bufs ensures BufferInv(s', c) {
      OtherBuffer(s, s', p, pc, c);
    }
  }

  /** The buffer that a step of `AddData` changes. */
  function AddBuffer(pc: ProducerPc): Option<int> {
    match pc
    case AddLock(b, _) => Some(b)
    case AddWrite(b, _) => Some(b)
    case AddClose(b, _) => Some(b)
    case AddCheck(b) => Some(b)
    case AddUnlock(b) => Some(b)
    case _ => None
  }

  lemma TakeLock(b: int, buf: Buffer, threads: map<int, ProducerPc>, d: Option<Drain>, p: int, pc: ProducerPc)
    requires BufferExclusion(b, None, threads, d) && p in threads && Locks(pc) == Some(b)
    ensures BufferExclusion(b, Some(Producer(p)), threads[p := pc], d)
  {
    hide Locks, DrainLocks;
  }

  lemma DropLock(b: int, threads: map<int, ProducerPc>, d: Option<Drain>, p: int, pc: ProducerPc)
    requires BufferExclusion(b, Some(Producer(p)), threads, d) && p in threads && Locks(pc) != Some(b)
    ensures BufferExclusion(b, None, threads[p := pc], d)
  {
    hide Locks, DrainLocks;
  }

  lemma Owns(s: State, p: int, b: int)
    requires b in s.bufs && b in s.added && b in s.delivered && BufferInv(s, b)
    requires p in s.threads && Locks(s.threads[p]) == Some(b)
    ensures s.bufs[b].lock == Some(Producer(p)) && Holder(s.bufs[b].lock, s.threads) == s.threads[p]
  {
    hide BufferOk, Locks, DrainLocks;
  }

  lemma LockedBuffer(s: State, s': State, p: int, b: int, data: seq<int>)
    requires b in s.bufs && b in s.added && b in s.delivered && BufferInv(s, b)
    requires LockStep(s, s', p, b, data) && p in s.threads && s.threads[p] == AddLock(b, data)
    ensures BufferInv(s', b)
  {
    hide Count, Flat;
    TakeLock(b, s.bufs[b], s.threads, Current(s), p, AddWrite(b, data));
  }

  lemma WrittenBuffer(s: State, s': State, p: int, b: int, data: seq<int>)
    requires b in s.bufs && b in s.added && b in s.delivered && BufferInv(s, b)
    requires WriteStep(s, s', p, b, data) && p in s.threads && s.threads[p] == AddWrite(b, data)
    ensures BufferInv(s', b)
  {
    hide BufferOk;
    Owns(s, p, b);
    BufferExclusionMove(b, s.bufs[b].lock, s.threads, Current(s), p, AddClose(b, data));
    assert !DrainLocks(Current(s), b);
    hide BufferExclusion, DrainLocks;
    WrittenOk(b, s.bufs[b], s.added[b], s.delivered[b], Current(s), s.queued, data);
  }

  lemma WrittenOk(b: int, buf: Buffer, added: seq<int>, delivered: seq<seq<int>>, d: Option<Drain>,
                  queued: seq<Callback>, data: seq<int>)
    requires BufferOk(b, buf, added, delivered, d, queued, AddWrite(b, data)) && !DrainLocks(d, b)
    ensures BufferOk(b, buf.(bytes := buf.bytes + data), added + data, delivered, d, queued, AddClose(b, data))
  {
    hide Count, Flat;
    var kept := Flat(delivered) + InHand(d, b);
    assert kept + (buf.bytes + data) == kept + buf.bytes + data;
  }

  lemma ClosedBuffer(s: State, s': State, p: int, b: int, data: seq<int>)
    requires b in s.bufs && b in s.added && b in s.delivered && BufferInv(s, b)
    requires CloseStep(s, s', p, b, data) && p in s.threads && s.threads[p] == AddClose(b, data)
    ensures BufferInv(s', b)
  {
    hide Count, Flat;
    Owns(s, p, b);
    BufferExclusionMove(b, s.bufs[b].lock, s.threads, Current(s), p, AddCheck(b));
  }

  lemma CheckedBuffer(s: State, s': State, p: int, b: int)
    requires b in s.bufs && b in s.added && b in s.delivered && BufferInv(s, b)
    requires CheckStep(s, s', p, b) && p in s.threads && s.threads[p] == AddCheck(b)
    ensures BufferInv(s', b)
  {
    hide BufferOk;
    Owns(s, p, b);
    assert !DrainLocks(Current(s), b);
    CheckedOk(b, s.bufs[b], s.added[b], s.delivered[b], Current(s), s.queued);
    var pc := if s.bufs[b].runner then AddUnlock(b) else QueueLock(Runner(b), Some(b));
    BufferExclusionMove(b, s.bufs[b].lock, s.threads, Current(s), p, pc);
    hide BufferExclusion, DrainLocks;
    assert s'.threads == s.threads[p := pc] && s'.bufs[b] == s.bufs[b].(runner := true);
    hide CheckStep;
  }

  lemma CheckedOk(b: int, buf: Buffer, added: seq<int>, delivered: seq<seq<int>>, d: Option<Drain>,
                  queued: seq<Callback>)
    requires BufferOk(b, buf, added, delivered, d, queued, AddCheck(b)) && !DrainLocks(d, b)
    ensures if buf.runner then BufferOk(b, buf, added, delivered, d, queued, AddUnlock(b))
            else BufferOk(b, buf.(runner := true), added, delivered, d, queued, QueueLock(Runner(b), Some(b)))
  {
    hide Count, Flat, Left, InHand;
  }

  lemma UnlockedBuffer(s: State, s': State, p: int, b: int)
    requires b in s.bufs && b in s.added && b in s.delivered && BufferInv(s, b)
    requires UnlockStep(s, s', p, b) && p in s.threads && s.threads[p] == AddUnlock(b)
    ensures BufferInv(s', b)
  {
    hide Count, Flat;
    Owns(s, p, b);
    DropLock(b, s.threads, Current(s), p, Resting);
  }

  /** What the steps of `AddData` outside `QueueRun` leave alone. */
  ghost predicate AddKeeps(s: State, s': State, p: int, b: int)
    requires p in s.threads
  {
    && b in s.bufs && p in s'.threads && s'.threads == s.threads[p := s'.threads[p]] && Queues(s'.threads[p])
    && !HasQueueLock(s.threads[p]) && !HasQueueLock(s'.threads[p])
    && Locks(s.threads[p]) in {None, Some(b)} && Locks(s'.threads[p]) in {None, Some(b)}
    && s'.executed == s.executed && s'.queued == s.queued && s'.submitted == s.submitted && s'.draining == s.draining
    && s'.has == s.has && s'.qlock == s.qlock && s'.drains == s.drains && s'.delivered == s.delivered
    && s'.bufs.Keys == s.bufs.Keys && s'.added.Keys == s.added.Keys
    && forall c | c in s.bufs && c in s.added && c != b :: s'.bufs[c] == s.bufs[c] && s'.added[c] == s.added[c]
  }

  lemma LockKeeps(s: State, s': State, p: int, b: int, data: seq<int>)
    requires LockStep(s, s', p, b, data) && p in s.threads && s.threads[p] == AddLock(b, data)
    ensures AddKeeps(s, s', p, b)
  {
  }

  lemma WriteKeeps(s: State, s': State, p: int, b: int, data: seq<int>)
    requires WriteStep(s, s', p, b, data) && p in s.threads && s.threads[p] == AddWrite(b, data)
    ensures AddKeeps(s, s', p, b)
  {
  }

  lemma CloseKeeps(s: State, s': State, p: int, b: int, data: seq<int>)
    requires CloseStep(s, s', p, b, data) && p in s.threads && s.threads[p] == AddClose(b, data)
    ensures AddKeeps(s, s', p, b)
  {
  }

  lemma CheckKeeps(s: State, s': State, p: int, b: int)
    requires CheckStep(s, s', p, b) && p in s.threads && s.threads[p] == AddCheck(b)
    ensures AddKeeps(s, s', p, b)
  {
  }

  lemma UnlockKeeps(s: State, s': State, p: int, b: int)
    requires UnlockStep(s, s', p, b) && p in s.threads && s.threads[p] == AddUnlock(b)
    ensures AddKeeps(s, s', p, b)
  {
  }

  lemma AddAssemble(s: State, s': State, p: int, b: int)
    requires Inv(s) && p in s.threads && AddKeeps(s, s', p, b)
    requires b in s'.bufs && b in s'.added && b in s'.delivered && BufferInv(s', b)
    ensures Inv(s')
  {
    hide BufferInv, QueueOk, Drains, QueueExclusion, Queues, Locks;
    QueueSame(s, s', p, s'.threads[p]);
    forall c | c in s.bufs ensures BufferInv(s', c) {
      if c != b {
        OtherBuffer(s, s', p, s'.threads[p], c);
      }
    }
  }

  /** The steps of `AddData` that do not touch the queue. */
  lemma AddInv(s: State, s': State, p: int, b: int)
    requires Inv(s) && Produce(s, s', p) && AddBuffer(s.threads[p]) == Some(b)
    ensures Inv(s')
  {
    hide LockStep, WriteStep, CloseStep, CheckStep, UnlockStep, BufferInv, QueueOk, Drains, QueueExclusion, Queues,
         Locks;
    match s.threads[p]
    case AddLock(_, data) =>
      LockKeeps(s, s', p, b, data);
      LockedBuffer(s, s', p, b, data);
      AddAssemble(s, s', p, b);
    case AddWrite(_, data) =>
      WriteKeeps(s, s', p, b, data);
      WrittenBuffer(s, s', p, b, data);
      AddAssemble(s, s', p, b);
    case AddClose(_, data) =>
      CloseKeeps(s, s', p, b, data);
      ClosedBuffer(s, s', p, b, data);
      AddAssemble(s, s', p, b);
    case AddCheck(_) =>
      CheckKeeps(s, s', p, b);
      CheckedBuffer(s, s', p, b);
      AddAssemble(s, s', p, b);
    case AddUnlock(_) =>
      UnlockKeeps(s, s', p, b);
      UnlockedBuffer(s, s', p, b);
      AddAssemble(s, s', p, b);
  }

  // ---------- QueueRun ----------

  /** A buffer does not notice which step of `QueueRun` its holder is at, except that
      appending a runner turns an intention into a queued callback. */
  lemma QueueBuffer(s: State, s': State, p: int, pc: ProducerPc, b: int)
    requires p in s.threads && s'.threads == s.threads[p := pc] && Locks(pc) == Locks(s.threads[p])
    requires Queueing(pc) == Queueing(s.threads[p])
    requires (s.threads[p].QueueUnlock? || Queueing(s.threads[p]))
             && (pc.QueueUnlock? || pc.AddUnlock? || pc.Resting? || Queueing(pc))
    requires b in s.bufs && b in s.added && b in s.delivered && BufferInv(s, b)
    requires s'.bufs == s.bufs && s'.added == s.added && s'.delivered == s.delivered && s'.drains == s.drains
             && s'.queued == s.queued
    ensures BufferInv(s', b)
  {
    hide Count, Flat, Left, InHand;
    BufferExclusionMove(b, s.bufs[b].lock, s.threads, Current(s), p, pc);
    HolderMove(s.bufs[b].lock, s.threads, p, pc);
    if Locks(s.threads[p]) == Some(b) {
      Owns(s, p, b);
    }
    hide BufferExclusion;
  }

  lemma AppendBuffer(s: State, s': State, p: int, fn: Callback, back: Option<int>, b: int)
    requires p in s.threads && s.threads[p] == QueueAppend(fn, back) && Queues(s.threads[p])
    requires s' == At(s, p, QueueUnlock(back)).(queued := s.queued + [fn], submitted := s.submitted + [fn])
    requires b in s.bufs && b in s.added && b in s.delivered && BufferInv(s, b)
    ensures BufferInv(s', b)
  {
    hide Count, Flat, Left, InHand;
    BufferExclusionMove(b, s.bufs[b].lock, s.threads, Current(s), p, QueueUnlock(back));
    HolderMove(s.bufs[b].lock, s.threads, p, QueueUnlock(back));
    CountPush(s.queued, fn, Runner(b));
    if back == Some(b) {
      Owns(s, p, b);
    } else {
      assert s.bufs[b].lock != Some(Producer(p));
    }
    hide BufferExclusion;
  }

  lemma QueueLockInv(s: State, s': State, p: int)
    requires Inv(s) && Produce(s, s', p) && s.threads[p].QueueLock?
    ensures Inv(s')
  {
    hide Drains, QueueOk;
    var pc := s'.threads[p];
    HolderMove(s.qlock, s.threads, p, pc);
    assert QueueOk(s', Current(s'), pc) by {
      hide QueueExclusion, BufferInv, Left;
      QueueOkLock(s, s', pc);
    }
    forall b | b in s.bufs ensures BufferInv(s', b) {
      hide BufferInv;
      QueueBuffer(s, s', p, pc, b);
    }
  }

  lemma QueueOkLock(s: State, s': State, pc: ProducerPc)
    requires s.qlock == None && QueueOk(s, Current(s), Resting) && pc.QueueHas?
    requires s'.executed == s.executed && s'.queued == s.queued && s'.submitted == s.submitted && s'.has == s.has
             && s'.drains == s.drains
    requires s'.qlock != None
    ensures QueueOk(s', Current(s'), pc)
  {
    hide Left;
  }

  lemma QueueHolder(s: State, p: int)
    requires QueueExclusion(s.qlock, s.threads, Current(s)) && p in s.threads && HasQueueLock(s.threads[p])
    ensures s.qlock == Some(Producer(p)) && Holder(s.qlock, s.threads) == s.threads[p] && !DrainHasLock(Current(s))
  {
  }

  lemma QueueHasInv(s: State, s': State, p: int)
    requires Inv(s) && Produce(s, s', p) && s.threads[p].QueueHas?
    ensures Inv(s')
  {
    hide Drains, BufferInv;
    var pc := s'.threads[p];
    QueueHolder(s, p);
    HolderMove(s.qlock, s.threads, p, pc);
    QueueExclusionMove(s.qlock, s.threads, Current(s), p, pc);
    assert QueueOk(s', Current(s'), pc) by {
      hide QueueExclusion, Left;
    }
    hide QueueOk, QueueExclusion;
    forall b | b in s.bufs ensures BufferInv(s', b) {
      QueueBuffer(s, s', p, pc, b);
    }
  }

  lemma QueueAppendInv(s: State, s': State, p: int)
    requires Inv(s) && Produce(s, s', p) && s.threads[p].QueueAppend?
    ensures Inv(s')
  {
    hide Drains, BufferInv;
    var pc, fn := s'.threads[p], s.threads[p].fn;
    QueueHolder(s, p);
    HolderMove(s.qlock, s.threads, p, pc);
    QueueExclusionMove(s.qlock, s.threads, Current(s), p, pc);
    assert QueueOk(s', Current(s'), pc) by {
      hide QueueExclusion, Left;
      assert s.executed + Left(Current(s)) + (s.queued + [fn]) == s.executed + Left(Current(s)) + s.queued + [fn];
    }
    hide QueueOk, QueueExclusion;
    forall b | b in s.bufs ensures BufferInv(s', b) {
      AppendBuffer(s, s', p, fn, s.threads[p].back, b);
    }
  }

  lemma QueueUnlockInv(s: State, s': State, p: int)
    requires Inv(s) && Produce(s, s', p) && s.threads[p].QueueUnlock?
    ensures Inv(s')
  {
    hide Drains, BufferInv;
    var pc := s'.threads[p];
    QueueHolder(s, p);
    assert QueueExclusion(None, s'.threads, Current(s'));
    assert QueueOk(s', Current(s'), Resting) by {
      hide QueueExclusion, Left;
    }
    hide QueueOk, QueueExclusion;
    forall b | b in s.bufs ensures BufferInv(s', b) {
      QueueBuffer(s, s', p, pc, b);
    }
  }

  // ---------- the machine thread ----------

  /** A buffer that a step of the machine thread leaves alone, as far as it can tell. */
  lemma DrainMoves(s: State, s': State, b: int)
    requires b in s.bufs && b in s.added && b in s.delivered && BufferInv(s, b)
    requires b in s'.bufs && b in s'.added && b in s'.delivered && s'.threads == s.threads
    requires s'.bufs[b] == s.bufs[b] && s'.added[b] == s.added[b] && s'.delivered[b] == s.delivered[b]
    requires var d, d' := Current(s), Current(s');
             && !DrainLocks(d, b) && !DrainLocks(d', b) && InHand(d, b) == InHand(d', b) == []
             && Count(Left(d), Runner(b)) + Count(s.queued, Runner(b)) + (if Running(d, b) then 1 else 0) ==
                Count(Left(d'), Runner(b)) + Count(s'.queued, Runner(b)) + (if Running(d', b) then 1 else 0)
    ensures BufferInv(s', b)
  {
    hide Count, Flat, Left, InHand, Running;
  }

  /** A step outside the runners that leaves the queue and what is left to call alone. */
  lemma QuietBuffer(s: State, s': State, b: int)
    requires b in s.bufs && b in s.added && b in s.delivered && BufferInv(s, b)
    requires s'.bufs == s.bufs && s'.added == s.added && s'.delivered == s.delivered && s'.threads == s.threads
    requires Quiet(Current(s)) && Quiet(Current(s'))
    requires Count(Left(Current(s)), Runner(b)) + Count(s.queued, Runner(b)) ==
             Count(Left(Current(s')), Runner(b)) + Count(s'.queued, Runner(b))
    ensures BufferInv(s', b)
  {
    hide BufferInv, Left, Count;
    DrainMoves(s, s', b);
  }

  predicate Quiet(d: Option<Drain>) {
    d.None? || RunBuffer(d.value.pc) == None
  }

  /** The parts of the invariant about the queue. */
  ghost predicate QueueInv(s: State) {
    && Drains(s.drains, s.draining)
    && QueueExclusion(s.qlock, s.threads, Current(s))
    && QueueOk(s, Current(s), Holder(s.qlock, s.threads))
  }

  /** What every step of the machine thread leaves alone. */
  ghost predicate ThreadsSame(s: State, s': State) {
    s'.threads == s.threads && s'.bufs.Keys == s.bufs.Keys && s'.added == s.added
        && s'.delivered.Keys == s.delivered.Keys
    && s'.submitted == s.submitted
  }

  lemma Assemble(s: State, s': State)
    requires Inv(s) && ThreadsSame(s, s') && QueueInv(s')
    requires forall b | b in s'.bufs && b in s'.added && b in s'.delivered :: BufferInv(s', b)
    ensures Inv(s')
  {
    hide BufferInv, Drains, QueueExclusion, QueueOk, Queues;
  }

  /** What the steps of `CallQueued` other than calling leave alone. */
  ghost predicate DrainSame(s: State, s': State) {
    ThreadsSame(s, s') && s'.bufs == s.bufs && s'.delivered == s.delivered && Quiet(Current(s)) && Quiet(Current(s'))
  }

  lemma StartDrainQueue(s: State, s': State)
    requires QueueInv(s) && StartDrain(s, s')
    ensures QueueInv(s') && s.drains == [] && ThreadsSame(s, s') && s'.bufs == s.bufs && s'.delivered == s.delivered
    ensures s'.queued == s.queued && Left(Current(s')) == Left(Current(s)) && Quiet(Current(s'))
  {
  }

  lemma StartDrainInv(s: State, s': State)
    requires Inv(s) && StartDrain(s, s')
    ensures Inv(s')
  {
    hide BufferInv, StartDrain, QueueExclusion, QueueOk, Drains, Left, Queues;
    StartDrainQueue(s, s');
    forall b | b in s.bufs ensures b in s'.bufs && b in s'.added && b in s'.delivered && BufferInv(s', b) {
      QuietBuffer(s, s', b);
    }
    Assemble(s, s');
  }

  lemma LockQueueInv(s: State, s': State, d: Drain)
    requires QueueInv(s) && s.drains != [] && d == s.drains[0] && d.pc == DrainLock && LockQueue(s, s', d)
    ensures QueueInv(s')
  {
  }

  lemma LockQueueSame(s: State, s': State, d: Drain)
    requires Drains(s.drains, s.draining) && s.drains != [] && d == s.drains[0] && d.pc == DrainLock
             && LockQueue(s, s', d)
    ensures DrainSame(s, s') && s'.queued == s.queued && Left(Current(s')) == Left(Current(s))
  {
  }

  lemma LowerHasInv(s: State, s': State, d: Drain)
    requires QueueInv(s) && s.drains != [] && d == s.drains[0] && d.pc == DrainHas && LowerHas(s, s', d)
    ensures QueueInv(s')
  {
  }

  lemma LowerHasSame(s: State, s': State, d: Drain)
    requires Drains(s.drains, s.draining) && s.drains != [] && d == s.drains[0] && d.pc == DrainHas
             && LowerHas(s, s', d)
    ensures DrainSame(s, s') && s'.queued == s.queued && Left(Current(s')) == Left(Current(s))
  {
  }

  lemma CopyQueueInv(s: State, s': State, d: Drain)
    requires QueueInv(s) && s.drains != [] && d == s.drains[0] && d.pc == DrainCopy && CopyQueue(s, s', d)
    ensures QueueInv(s')
  {
  }

  lemma CopyQueueSame(s: State, s': State, d: Drain)
    requires Drains(s.drains, s.draining) && s.drains != [] && d == s.drains[0] && d.pc == DrainCopy
             && CopyQueue(s, s', d)
    ensures DrainSame(s, s') && s'.queued == s.queued && Left(Current(s')) == Left(Current(s))
  {
  }

  lemma TruncateQueueInv(s: State, s': State, d: Drain)
    requires QueueInv(s) && s.drains != [] && d == s.drains[0] && d.pc == DrainTruncate && TruncateQueue(s, s', d)
    ensures QueueInv(s')
  {
    assert Left(Current(s')) == s.queued;
  }

  lemma TruncateQueueSame(s: State, s': State, d: Drain)
    requires Drains(s.drains, s.draining) && s.drains != [] && d == s.drains[0] && d.pc == DrainTruncate
             && TruncateQueue(s, s', d)
    ensures DrainSame(s, s')
  {
  }

  lemma UnlockQueueInv(s: State, s': State, d: Drain)
    requires QueueInv(s) && s.drains != [] && d == s.drains[0] && d.pc == DrainUnlock && UnlockQueue(s, s', d)
    ensures QueueInv(s')
  {
  }

  lemma UnlockQueueSame(s: State, s': State, d: Drain)
    requires Drains(s.drains, s.draining) && s.drains != [] && d == s.drains[0] && d.pc == DrainUnlock
             && UnlockQueue(s, s', d)
    ensures DrainSame(s, s') && s'.queued == s.queued && Left(Current(s')) == Left(Current(s))
  {
  }

  lemma SetDrainingInv(s: State, s': State, d: Drain)
    requires QueueInv(s) && s.drains != [] && d == s.drains[0] && d.pc == DrainSet && SetDraining(s, s', d)
    ensures QueueInv(s')
  {
  }

  lemma SetDrainingSame(s: State, s': State, d: Drain)
    requires Drains(s.drains, s.draining) && s.drains != [] && d == s.drains[0] && d.pc == DrainSet
             && SetDraining(s, s', d)
    ensures DrainSame(s, s') && s'.queued == s.queued && Left(Current(s')) == Left(Current(s))
  {
  }

  lemma CallReturnsInv(s: State, s': State, d: Drain)
    requires QueueInv(s) && s.drains != [] && d == s.drains[0] && d.pc == InCall && CallReturns(s, s', d)
    ensures QueueInv(s')
  {
  }

  lemma CallReturnsSame(s: State, s': State, d: Drain)
    requires Drains(s.drains, s.draining) && s.drains != [] && d == s.drains[0] && d.pc == InCall
             && CallReturns(s, s', d)
    ensures DrainSame(s, s') && s'.queued == s.queued && Left(Current(s')) == Left(Current(s))
  {
  }

  /** What calling the next callback changes. */
  lemma CallOneSame(s: State, s': State, d: Drain)
    requires |s.drains| == 1 && d == s.drains[0] && CallNext(s, s', d) && d.idx < |d.run|
    ensures |s'.drains| == 1 && s'.drains[0].run == d.run && s'.drains[0].idx == d.idx + 1
    ensures s'.drains[0].pc == InCall || s'.drains[0].pc.RunLock?
    ensures s'.executed == s.executed + [d.run[d.idx]]
    ensures s'.qlock == s.qlock && s'.threads == s.threads && s'.has == s.has && s'.queued == s.queued
    ensures s'.submitted == s.submitted && s'.draining == s.draining
  {
  }

  lemma CallOneInv(s: State, s': State, d: Drain)
    requires QueueInv(s) && s.drains != [] && d == s.drains[0] && d.pc == NextCall && CallNext(s, s', d)
             && d.idx < |d.run|
    ensures QueueInv(s')
  {
    hide CallNext, Left, QueueExclusion;
    CallOneSame(s, s', d);
    CallOneLeft(s, s', d);
    CallOneLocks(s, s', d);
    hide Current;
  }

  lemma CallOneLeft(s: State, s': State, d: Drain)
    requires |s.drains| == 1 && d == s.drains[0] && d.pc == NextCall && CallNext(s, s', d) && d.idx < |d.run|
    ensures s'.executed + Left(Current(s')) == s.executed + Left(Current(s))
  {
    CallOneSame(s, s', d);
    hide CallNext;
    assert d.run[d.idx..] == [d.run[d.idx]] + d.run[d.idx + 1..];
  }

  lemma CallOneLocks(s: State, s': State, d: Drain)
    requires |s.drains| == 1 && d == s.drains[0] && d.pc == NextCall && CallNext(s, s', d) && d.idx < |d.run|
    requires QueueExclusion(s.qlock, s.threads, Current(s))
    ensures QueueExclusion(s'.qlock, s'.threads, Current(s'))
  {
    CallOneSame(s, s', d);
    hide CallNext;
  }

  lemma CallDoneInv(s: State, s': State, d: Drain)
    requires QueueInv(s) && s.drains != [] && d == s.drains[0] && d.pc == NextCall && CallNext(s, s', d)
             && d.idx == |d.run|
    ensures QueueInv(s')
  {
    assert Left(Current(s)) == [];
  }

  lemma CallNextSame(s: State, s': State, d: Drain)
    requires s.drains != [] && CallNext(s, s', d)
    ensures ThreadsSame(s, s') && s'.bufs == s.bufs && s'.delivered == s.delivered
  {
  }

  // ---------- what the steps of CallQueued mean for the buffers ----------

  /** Truncating the queue hands the callbacks over to the drained copy; calling one hands
      its runner over to the machine thread. */
  lemma TruncateCounts(s: State, s': State, d: Drain, f: Callback)
    requires QueueInv(s) && s.drains != [] && d == s.drains[0] && d.pc == DrainTruncate && TruncateQueue(s, s', d)
    ensures Count(Left(Current(s)), f) + Count(s.queued, f) == Count(Left(Current(s')), f) + Count(s'.queued, f)
  {
    hide Count, QueueExclusion;
    CountNone(f);
    assert Left(Current(s)) == [] && Left(Current(s')) == s.queued;
  }

  lemma CountNone(f: Callback)
    ensures Count([], f) == 0
  {
  }

  lemma CallBuffer(s: State, s': State, d: Drain, b: int)
    requires QueueInv(s) && s.drains != [] && d == s.drains[0] && d.pc == NextCall && CallNext(s, s', d)
    requires b in s.bufs && b in s.added && b in s.delivered && BufferInv(s, b)
    ensures BufferInv(s', b)
  {
    hide BufferInv, QueueExclusion, QueueOk;
    CallCounts(s, s', d, b);
    CallNextSame(s, s', d);
    hide CallNext, Count, Left, Running, InHand, DrainLocks;
    DrainMoves(s, s', b);
  }

  lemma CallCounts(s: State, s': State, d: Drain, b: int)
    requires Drains(s.drains, s.draining) && s.drains != [] && d == s.drains[0]
    requires d.pc == NextCall && CallNext(s, s', d)
    ensures var e, e' := Current(s), Current(s');
            && !DrainLocks(e, b) && !DrainLocks(e', b) && InHand(e, b) == InHand(e', b) == []
            && Count(Left(e), Runner(b)) + (if Running(e, b) then 1 else 0) ==
               Count(Left(e'), Runner(b)) + (if Running(e', b) then 1 else 0)
    ensures s'.queued == s.queued
  {
    CountNone(Runner(b));
    hide Count;
    if d.idx < |d.run| {
      assert d.run[d.idx..] == [d.run[d.idx]] + d.run[d.idx + 1..];
      CountAppend([d.run[d.idx]], d.run[d.idx + 1..], Runner(b));
      CountPush([], d.run[d.idx], Runner(b));
    } else {
      assert d.run[d.idx..] == [];
    }
  }

  lemma DrainKeeps(s: State, s': State, d: Drain)
    requires Drains(s.drains, s.draining) && s.drains != [] && d == s.drains[0] && DrainStep(s, s', d)
    ensures ThreadsSame(s, s') && s'.bufs == s.bufs && s'.delivered == s.delivered
    ensures !d.pc.NextCall? ==> DrainSame(s, s')
    ensures !d.pc.NextCall? && !d.pc.DrainTruncate? ==> s'.queued == s.queued && Left(Current(s')) == Left(Current(s))
  {
    hide Drains, Left, LockQueue, LowerHas, CopyQueue, TruncateQueue, UnlockQueue, SetDraining, CallNext, CallReturns;
    match d.pc
    case DrainLock => LockQueueSame(s, s', d);
    case DrainHas => LowerHasSame(s, s', d);
    case DrainCopy => CopyQueueSame(s, s', d);
    case DrainTruncate => TruncateQueueSame(s, s', d);
    case DrainUnlock => UnlockQueueSame(s, s', d);
    case DrainSet => SetDrainingSame(s, s', d);
    case NextCall => CallNextSame(s, s', d);
    case InCall => CallReturnsSame(s, s', d);
  }

  lemma DrainQueueInv(s: State, s': State, d: Drain)
    requires QueueInv(s) && s.drains != [] && d == s.drains[0] && DrainStep(s, s', d)
    ensures QueueInv(s')
  {
    hide QueueExclusion, QueueOk, LockQueue, LowerHas, CopyQueue, TruncateQueue, UnlockQueue, SetDraining, CallNext,
         CallReturns;
    match d.pc
    case DrainLock => LockQueueInv(s, s', d);
    case DrainHas => LowerHasInv(s, s', d);
    case DrainCopy => CopyQueueInv(s, s', d);
    case DrainTruncate => TruncateQueueInv(s, s', d);
    case DrainUnlock => UnlockQueueInv(s, s', d);
    case DrainSet => SetDrainingInv(s, s', d);
    case NextCall => if d.idx < |d.run| { CallOneInv(s, s', d); } else { CallDoneInv(s, s', d); }
    case InCall => CallReturnsInv(s, s', d);
  }

  lemma DrainBuffer(s: State, s': State, d: Drain, b: int)
    requires QueueInv(s) && s.drains != [] && d == s.drains[0] && DrainStep(s, s', d)
    requires b in s.bufs && b in s.added && b in s.delivered && BufferInv(s, b)
    ensures b in s'.bufs && b in s'.added && b in s'.delivered && BufferInv(s', b)
  {
    hide BufferInv, QueueExclusion, QueueOk, Drains, Left, Count, CallNext, TruncateQueue, LockQueue, LowerHas,
         CopyQueue, UnlockQueue, SetDraining, CallReturns;
    DrainKeeps(s, s', d);
    if d.pc.NextCall? {
      CallBuffer(s, s', d, b);
    } else {
      if d.pc.DrainTruncate? {
        TruncateCounts(s, s', d, Runner(b));
      }
      QuietBuffer(s, s', b);
    }
  }

  lemma DrainInv(s: State, s': State, d: Drain)
    requires Inv(s) && s.drains != [] && d == s.drains[0] && DrainStep(s, s', d)
    ensures Inv(s')
  {
    hide BufferInv, Drains, QueueExclusion, QueueOk, Queues, DrainStep;
    DrainKeeps(s, s', d);
    DrainQueueInv(s, s', d);
    forall b | b in s.bufs ensures BufferInv(s', b) {
      DrainBuffer(s, s', d, b);
    }
    Assemble(s, s');
  }

  // ---------- the runner of a buffer ----------

  /** How many steps a callback, or what comes before the callbacks, still takes. */
  function Rank(pc: DrainPc): nat {
    match pc
    case RunLock(_) => 9
    case RunCopy(_) => 8
    case RunReset(_) => 7
    case RunClear(_) => 6
    case RunUnlock(_) => 5
    case RunDeliver(_) => 4
    case RunClose(_) => 3
    case InCall => 2
    case NextCall => 1
    case DrainLock => 8
    case DrainHas => 7
    case DrainCopy => 6
    case DrainTruncate => 5
    case DrainUnlock => 4
    case DrainSet => 3
  }

  /** The part of a step of `b`'s runner that everything else can see. */
  ghost predicate RunKeeps(s: State, s': State, d: Drain, b: int)
    requires s.drains != []
  {
    && ThreadsSame(s, s') && s'.queued == s.queued && s'.executed == s.executed && s'.has == s.has
    && s'.qlock == s.qlock && s'.draining == s.draining
    && |s'.drains| == |s.drains|
    && (var d' := s'.drains[|s.drains| - 1];
        && s'.drains == s.drains[|s.drains| - 1 := d']
        && d'.run == d.run && d'.idx == d.idx && (d'.pc == InCall || RunBuffer(d'.pc) == Some(b))
        && Rank(d'.pc) < Rank(d.pc))
    && (forall c | c in s.bufs && c != b :: s'.bufs[c] == s.bufs[c])
    && (forall c | c in s.delivered && c != b :: s'.delivered[c] == s.delivered[c])
  }

  lemma RunnerLocksKeeps(s: State, s': State, d: Drain, b: int)
    requires s.drains != [] && d.pc.RunLock? && b in s.bufs && b in s.delivered && RunnerLocks(s, s', d, b)
    ensures RunKeeps(s, s', d, b)
  {
  }

  lemma RunnerCopiesKeeps(s: State, s': State, d: Drain, b: int)
    requires s.drains != [] && d.pc.RunCopy? && b in s.bufs && b in s.delivered && RunnerCopies(s, s', d, b)
    ensures RunKeeps(s, s', d, b)
  {
  }

  lemma RunnerResetsKeeps(s: State, s': State, d: Drain, b: int)
    requires s.drains != [] && d.pc.RunReset? && b in s.bufs && b in s.delivered && RunnerResets(s, s', d, b)
    ensures RunKeeps(s, s', d, b)
  {
  }

  lemma RunnerClearsKeeps(s: State, s': State, d: Drain, b: int)
    requires s.drains != [] && d.pc.RunClear? && b in s.bufs && b in s.delivered && RunnerClears(s, s', d, b)
    ensures RunKeeps(s, s', d, b)
  {
  }

  lemma RunnerUnlocksKeeps(s: State, s': State, d: Drain, b: int)
    requires s.drains != [] && d.pc.RunUnlock? && b in s.bufs && b in s.delivered && RunnerUnlocks(s, s', d, b)
    ensures RunKeeps(s, s', d, b)
  {
  }

  lemma RunnerDeliversKeeps(s: State, s': State, d: Drain, b: int)
    requires s.drains != [] && d.pc.RunDeliver? && b in s.bufs && b in s.delivered && RunnerDelivers(s, s', d, b)
    ensures RunKeeps(s, s', d, b)
  {
  }

  lemma RunnerClosesKeeps(s: State, s': State, d: Drain, b: int)
    requires s.drains != [] && d.pc.RunClose? && b in s.bufs && b in s.delivered && RunnerCloses(s, s', d, b)
    ensures RunKeeps(s, s', d, b)
  {
  }

  lemma RunStepKeeps(s: State, s': State, d: Drain, b: int)
    requires s.drains != [] && RunStep(s, s', d, b)
    ensures RunKeeps(s, s', d, b)
  {
    hide RunKeeps, RunnerLocks, RunnerCopies, RunnerResets, RunnerClears, RunnerUnlocks, RunnerDelivers, RunnerCloses;
    match d.pc
    case RunLock(_) => RunnerLocksKeeps(s, s', d, b);
    case RunCopy(_) => RunnerCopiesKeeps(s, s', d, b);
    case RunReset(_) => RunnerResetsKeeps(s, s', d, b);
    case RunClear(_) => RunnerClearsKeeps(s, s', d, b);
    case RunUnlock(_) => RunnerUnlocksKeeps(s, s', d, b);
    case RunDeliver(_) => RunnerDeliversKeeps(s, s', d, b);
    case RunClose(_) => RunnerClosesKeeps(s, s', d, b);
  }

  lemma RunQueueInv(s: State, s': State, d: Drain, b: int)
    requires QueueInv(s) && s.drains != [] && d == s.drains[0] && RunBuffer(d.pc) == Some(b) && RunKeeps(s, s', d, b)
    ensures QueueInv(s')
  {
    assert Left(Current(s')) == Left(Current(s));
    hide Left;
  }

  lemma RunOthers(s: State, s': State, d: Drain, b: int, c: int)
    requires Drains(s.drains, s.draining) && s.drains != [] && d == s.drains[0] && RunBuffer(d.pc) == Some(b)
             && RunKeeps(s, s', d, b)
    requires c in s.bufs && c != b && c in s.added && c in s.delivered && BufferInv(s, c)
    ensures BufferInv(s', c)
  {
    assert Left(Current(s')) == Left(Current(s));
    hide BufferInv, Count, Left;
    DrainMoves(s, s', c);
  }

  lemma RunnerLocked(s: State, s': State, d: Drain, b: int)
    requires |s.drains| == 1 && d == s.drains[0] && b in s.bufs && b in s.added && b in s.delivered && BufferInv(s, b)
    requires d.pc == RunLock(b) && RunnerLocks(s, s', d, b)
    ensures BufferInv(s', b)
  {
    assert Left(Current(s')) == Left(Current(s));
    hide Count, Flat, Left;
    assert BufferExclusion(b, s'.bufs[b].lock, s'.threads, Current(s')) by {
      hide BufferOk;
    }
    hide BufferExclusion;
  }

  lemma RunnerCopied(s: State, s': State, d: Drain, b: int)
    requires |s.drains| == 1 && d == s.drains[0] && b in s.bufs && b in s.added && b in s.delivered && BufferInv(s, b)
    requires d.pc == RunCopy(b) && RunnerCopies(s, s', d, b)
    ensures BufferInv(s', b)
  {
    assert Left(Current(s')) == Left(Current(s));
    hide Count, Flat, Left;
  }

  lemma RunnerReset(s: State, s': State, d: Drain, b: int)
    requires |s.drains| == 1 && d == s.drains[0] && b in s.bufs && b in s.added && b in s.delivered && BufferInv(s, b)
    requires d.pc == RunReset(b) && RunnerResets(s, s', d, b)
    ensures BufferInv(s', b)
  {
    assert Left(Current(s')) == Left(Current(s));
    hide Count, Flat, Left;
    var flat := Flat(s.delivered[b]);
    assert flat + [] + s.bufs[b].bytes == flat + s.bufs[b].bytes + [];
  }

  lemma RunnerCleared(s: State, s': State, d: Drain, b: int)
    requires |s.drains| == 1 && d == s.drains[0] && b in s.bufs && b in s.added && b in s.delivered && BufferInv(s, b)
    requires d.pc == RunClear(b) && RunnerClears(s, s', d, b)
    ensures BufferInv(s', b)
  {
    assert Left(Current(s')) == Left(Current(s));
    hide Count, Flat, Left;
  }

  lemma RunnerUnlocked(s: State, s': State, d: Drain, b: int)
    requires |s.drains| == 1 && d == s.drains[0] && b in s.bufs && b in s.added && b in s.delivered && BufferInv(s, b)
    requires d.pc == RunUnlock(b) && RunnerUnlocks(s, s', d, b)
    ensures BufferInv(s', b)
  {
    assert Left(Current(s')) == Left(Current(s));
    hide Count, Flat, Left;
  }

  /** After the runner has unlocked its buffer, only what is delivered changes. */
  lemma RunMoves(s: State, s': State, d: Drain, b: int)
    requires b in s.bufs && b in s.added && b in s.delivered && BufferInv(s, b) && |s.drains| == |s'.drains| == 1
             && d == s.drains[0]
    requires b in s'.bufs && b in s'.added && b in s'.delivered && s'.threads == s.threads && s'.queued == s.queued
    requires s'.bufs[b] == s.bufs[b] && s'.added[b] == s.added[b]
    requires var d' := s'.drains[0];
             && d'.run == d.run && d'.idx == d.idx
             && ((d.pc == RunDeliver(b) && d'.pc == RunClose(b)) || (d.pc == RunClose(b) && d'.pc == InCall))
    requires Flat(s'.delivered[b]) + InHand(Current(s'), b) + s.bufs[b].bytes ==
             Flat(s.delivered[b]) + InHand(Current(s), b) + s.bufs[b].bytes
    ensures BufferInv(s', b)
  {
    assert Left(Current(s')) == Left(Current(s));
    hide Count, Flat, Left, InHand;
  }

  lemma RunnerDelivered(s: State, s': State, d: Drain, b: int)
    requires |s.drains| == 1 && d == s.drains[0] && b in s.bufs && b in s.added && b in s.delivered && BufferInv(s, b)
    requires d.pc == RunDeliver(b) && RunnerDelivers(s, s', d, b)
    ensures BufferInv(s', b)
  {
    hide BufferInv;
    RunnerDeliversKeeps(s, s', d, b);
    assert s'.drains[0].pc == RunClose(b) && s'.bufs == s.bufs && s'.delivered[b] == s.delivered[b] + [d.batch];
    assert InHand(Current(s), b) == d.batch && InHand(Current(s'), b) == [];
    hide RunnerDelivers, InHand, Current;
    FlatPush(s.delivered[b], d.batch);
    hide Flat;
    var flat := Flat(s.delivered[b]) + d.batch;
    assert flat + [] == flat;
    RunMoves(s, s', d, b);
  }

  lemma RunnerClosed(s: State, s': State, d: Drain, b: int)
    requires |s.drains| == 1 && d == s.drains[0] && b in s.bufs && b in s.added && b in s.delivered && BufferInv(s, b)
    requires d.pc == RunClose(b) && RunnerCloses(s, s', d, b)
    ensures BufferInv(s', b)
  {
    hide BufferInv;
    RunnerClosesKeeps(s, s', d, b);
    assert s'.drains[0].pc == InCall && s'.bufs == s.bufs && s'.delivered[b] in {s.delivered[b], s.delivered[b] + [[]]};
    hide RunnerCloses;
    FlatPush(s.delivered[b], []);
    assert Flat(s.delivered[b]) + [] == Flat(s.delivered[b]);
    hide Flat;
    RunMoves(s, s', d, b);
  }

  lemma RunItself(s: State, s': State, d: Drain, b: int)
    requires |s.drains| == 1 && d == s.drains[0] && b in s.bufs && b in s.added && b in s.delivered && BufferInv(s, b)
    requires RunBuffer(d.pc) == Some(b) && RunStep(s, s', d, b)
    ensures b in s'.bufs && b in s'.added && b in s'.delivered && BufferInv(s', b)
  {
    RunStepKeeps(s, s', d, b);
    hide BufferInv, RunnerLocks, RunnerCopies, RunnerResets, RunnerClears, RunnerUnlocks, RunnerDelivers, RunnerCloses;
    match d.pc
    case RunLock(_) => RunnerLocked(s, s', d, b);
    case RunCopy(_) => RunnerCopied(s, s', d, b);
    case RunReset(_) => RunnerReset(s, s', d, b);
    case RunClear(_) => RunnerCleared(s, s', d, b);
    case RunUnlock(_) => RunnerUnlocked(s, s', d, b);
    case RunDeliver(_) => RunnerDelivered(s, s', d, b);
    case RunClose(_) => RunnerClosed(s, s', d, b);
  }

  lemma RunInv(s: State, s': State, d: Drain, b: int)
    requires Inv(s) && s.drains != [] && d == s.drains[0] && RunBuffer(d.pc) == Some(b) && RunStep(s, s', d, b)
    ensures Inv(s')
  {
    hide BufferInv, QueueExclusion, QueueOk, Queues, RunnerLocks, RunnerCopies, RunnerResets, RunnerClears,
         RunnerUnlocks, RunnerDelivers, RunnerCloses;
    assert |s.drains| == 1;
    RunStepKeeps(s, s', d, b);
    RunQueueInv(s, s', d, b);
    RunItself(s, s', d, b);
    forall c | c in s.bufs ensures c in s'.bufs && c in s'.added && c in s'.delivered && BufferInv(s', c) {
      if c != b {
        RunOthers(s, s', d, b, c);
      }
    }
    Assemble(s, s');
  }

  // ---------- every run ----------

  /** Every step of every thread keeps the invariant. */
  lemma NextInv(s: State, s': State)
    requires Inv(s) && Next(s, s')
    ensures Inv(s')
  {
    hide Inv, StartDrain, StartAdd, StartQueue, Consume, Produce;
    if p, b, data :| StartAdd(s, s', p, b, data) {
      StartAddInv(s, s', p, b, data);
    } else if p, tag :| StartQueue(s, s', p, tag) {
      StartQueueInv(s, s', p, tag);
    } else if p :| Produce(s, s', p) {
      ProduceInv(s, s', p);
    } else if StartDrain(s, s') {
      StartDrainInv(s, s');
    } else {
      ConsumeInv(s, s');
    }
  }

  lemma StartAddInv(s: State, s': State, p: int, b: int, data: seq<int>)
    requires Inv(s) && StartAdd(s, s', p, b, data)
    ensures Inv(s')
  {
    hide Inv;
    BeginInv(s, s', p, AddLock(b, data));
  }

  lemma StartQueueInv(s: State, s': State, p: int, tag: int)
    requires Inv(s) && StartQueue(s, s', p, tag)
    ensures Inv(s')
  {
    hide Inv;
    BeginInv(s, s', p, QueueLock(Other(tag), None));
  }

  lemma ProduceInv(s: State, s': State, p: int)
    requires Inv(s) && Produce(s, s', p)
    ensures Inv(s')
  {
    hide Inv, LockStep, WriteStep, CloseStep, CheckStep, UnlockStep;
    match s.threads[p]
    case QueueLock(_, _) => QueueLockInv(s, s', p);
    case QueueHas(_, _) => QueueHasInv(s, s', p);
    case QueueAppend(_, _) => QueueAppendInv(s, s', p);
    case QueueUnlock(_) => QueueUnlockInv(s, s', p);
    case AddLock(b, _) => AddInv(s, s', p, b);
    case AddWrite(b, _) => AddInv(s, s', p, b);
    case AddClose(b, _) => AddInv(s, s', p, b);
    case AddCheck(b) => AddInv(s, s', p, b);
    case AddUnlock(b) => AddInv(s, s', p, b);
  }

  lemma ConsumeInv(s: State, s': State)
    requires Inv(s) && Consume(s, s')
    ensures Inv(s')
  {
    hide BufferInv, QueueExclusion, QueueOk, Queues, DrainStep, RunStep;
    var d := s.drains[0];
    if RunBuffer(d.pc).Some? {
      RunInv(s, s', d, RunBuffer(d.pc).value);
    } else {
      DrainInv(s, s', d);
    }
  }

  ghost predicate IsRun(run: seq<State>) {
    && run != [] && Init(run[0])
    && forall i :: 0 <= i < |run| - 1 ==> Next(run[i], run[i + 1])
  }

  lemma {:induction false} RunKeepsInv(run: seq<State>, i: nat)
    requires IsRun(run) && i < |run|
    ensures Inv(run[i])
  {
    hide Init, Next, Inv;
    if i == 0 {
      InitInv(run[0]);
    } else {
      RunKeepsInv(run, i - 1);
      NextInv(run[i - 1], run[i]);
    }
  }

  /** No interleaving loses, doubles or reorders a byte: what was delivered, followed by the
      batch in hand and the buffer, is what was added. */
  lemma BytesConserved(run: seq<State>, i: nat, b: int)
    requires IsRun(run) && i < |run| && b in run[i].bufs
    ensures b in run[i].added && b in run[i].delivered
    ensures Flat(run[i].delivered[b]) + InHand(Current(run[i]), b) + run[i].bufs[b].bytes == run[i].added[b]
  {
    hide Init, Next, Flat, InHand;
    RunKeepsInv(run, i);
    assert BufferInv(run[i], b);
  }

  /** Between critical sections a buffer with bytes in it has exactly one outstanding
      runner, and never more than one. */
  lemma OneRunner(run: seq<State>, i: nat, b: int)
    requires IsRun(run) && i < |run| && b in run[i].bufs
    ensures var s := run[i];
            var n := Outstanding(b, Current(s), s.queued, Holder(s.bufs[b].lock, s.threads));
            n <= 1 && (s.bufs[b].bytes != [] && s.bufs[b].lock == None ==> n == 1)
  {
    hide Init, Next, Flat, InHand, Outstanding;
    RunKeepsInv(run, i);
    assert BufferInv(run[i], b);
  }

  /** Every submitted callback was called, is left in the drained copy or is still queued:
      once each, in the order of submission. */
  lemma CallbacksConserved(run: seq<State>, i: nat)
    requires IsRun(run) && i < |run|
    ensures var s := run[i]; s.executed + Left(Current(s)) + s.queued == s.submitted
  {
    hide Init, Next, BufferInv, Left;
    RunKeepsInv(run, i);
  }

  /** When nobody holds the queue lock, the flag tells whether the queue is empty. */
  lemma FlagExact(run: seq<State>, i: nat)
    requires IsRun(run) && i < |run| && run[i].qlock == None
    ensures run[i].has <==> run[i].queued != []
  {
    hide Init, Next, BufferInv, Left;
    RunKeepsInv(run, i);
  }

  /** `CallQueued` is never active twice, although callbacks may call it. */
  lemma DrainingNeverNests(run: seq<State>, i: nat)
    requires IsRun(run) && i < |run|
    ensures |run[i].drains| <= 1
  {
    hide Init, Next, BufferInv, Left;
    RunKeepsInv(run, i);
  }
}
