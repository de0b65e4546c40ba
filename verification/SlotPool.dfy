/**
 * libsmqttclient_mt/connection.c: the send buffers as they travel between the application thread and the
 * session thread. A step is what one thread does under the mutex, or what it does alone between two such
 * sections. `submitted` and `handed` record what the application queued and what server_send was given.
 */
module SlotPool {
  import opened Bytes

  datatype Slot = Slot(buffer: seq<byte>, length: nat) {
    function Block(): seq<byte>
      requires length <= |buffer|
    {
      buffer[..length]
    }
  }

  /** get_buffer_slot holds the mutex while it spins. */
  datatype AppState = AppIdle | AppSpinning | AppFilling(slot: nat) | AppReady(slot: nat)

  datatype WorkerState = WorkerIdle | WorkerSending(slot: nat) | WorkerRecycling(slot: nat)

  datatype Pool = Pool(
    free: seq<nat>,
    send: seq<nat>,
    slots: seq<Slot>,
    app: AppState,
    worker: WorkerState,
    submitted: seq<seq<byte>>,
    handed: seq<seq<byte>>)

  datatype Step =
    | AppAsk
    | AppRetry
    | AppWrite(buffer: seq<byte>)
    | AppSetLength(length: nat)
    | AppSubmit
    | WorkerTake
    | WorkerSend
    | WorkerRecycle

  /** start_session_thread: every slot starts in the free queue. */
  function Init(count: nat, size: nat): Pool {
    Pool(Indices(count), [], seq(count, _ => Slot(seq(size, _ => 0), 0)), AppIdle, WorkerIdle, [], [])
  }

  function Indices(count: nat): (s: seq<nat>)
    ensures |s| == count && forall i :: 0 <= i < count ==> s[i] == i
  {
    if count == 0 then [] else Indices(count - 1) + [count - 1]
  }

  predicate Enabled(s: Pool, step: Step) {
    match step
    case AppAsk => s.app.AppIdle?
    case AppRetry => s.app.AppSpinning?
    case AppWrite(buffer) => s.app.AppFilling? && s.app.slot < |s.slots| && |buffer| == |s.slots[s.app.slot].buffer|
    case AppSetLength(n) => s.app.AppFilling? && s.app.slot < |s.slots| && n <= |s.slots[s.app.slot].buffer|
    case AppSubmit => s.app.AppReady? && s.app.slot < |s.slots| && Sound(s.slots[s.app.slot])
    case WorkerTake => s.worker.WorkerIdle? && !s.app.AppSpinning? && s.send != []
    case WorkerSend => s.worker.WorkerSending? && s.worker.slot < |s.slots| && Sound(s.slots[s.worker.slot])
    case WorkerRecycle => s.worker.WorkerRecycling? && !s.app.AppSpinning?
  }

  predicate Sound(slot: Slot) {
    slot.length <= |slot.buffer|
  }

  function TakeFree(s: Pool): Pool {
    if s.free == [] then s.(app := AppSpinning)
    else s.(app := AppFilling(s.free[0]), free := s.free[1..])
  }

  function Do(s: Pool, step: Step): Pool
    requires Enabled(s, step)
  {
    match step
    case AppAsk => TakeFree(s)
    case AppRetry => TakeFree(s)
    case AppWrite(buffer) => s.(slots := s.slots[s.app.slot := s.slots[s.app.slot].(buffer := buffer)])
    case AppSetLength(n) =>
      s.(slots := s.slots[s.app.slot := s.slots[s.app.slot].(length := n)], app := AppReady(s.app.slot))
    case AppSubmit =>
      s.(send := s.send + [s.app.slot], app := AppIdle, submitted := s.submitted + [s.slots[s.app.slot].Block()])
    case WorkerTake => s.(worker := WorkerSending(s.send[0]), send := s.send[1..])
    case WorkerSend =>
      s.(worker := WorkerRecycling(s.worker.slot), handed := s.handed + [s.slots[s.worker.slot].Block()])
    case WorkerRecycle => s.(worker := WorkerIdle, free := s.free + [s.worker.slot])
  }

  predicate Legal(s: Pool, steps: seq<Step>)
    decreases |steps|
  {
    steps == [] || (Enabled(s, steps[0]) && Legal(Do(s, steps[0]), steps[1..]))
  }

  function Run(s: Pool, steps: seq<Step>): Pool
    requires Legal(s, steps)
    decreases |steps|
  {
    if steps == [] then s else Run(Do(s, steps[0]), steps[1..])
  }

  // ----- conservation

  function AppSlots(s: Pool): seq<nat> {
    if s.app.AppFilling? || s.app.AppReady? then [s.app.slot] else []
  }

  function WorkerSlots(s: Pool): seq<nat> {
    if s.worker.WorkerIdle? then [] else [s.worker.slot]
  }

  ghost function Owned(s: Pool): multiset<nat> {
    multiset(s.free) + multiset(s.send) + multiset(AppSlots(s)) + multiset(WorkerSlots(s))
  }

  /** Every index is in exactly one of the four places, exactly once. */
  ghost predicate Conserved(s: Pool) {
    Owned(s) == multiset(Indices(|s.slots|))
  }

  ghost predicate Inv(s: Pool) {
    && Conserved(s)
    && QueuesSound(s)
    && s.submitted == s.handed + Pending(s)
  }

  lemma {:induction false} IndicesOnce(count: nat, i: nat)
    ensures multiset(Indices(count))[i] == if i < count then 1 else 0
  {
    if count > 0 { IndicesOnce(count - 1, i); }
  }

  lemma OwnedCount(s: Pool, i: nat)
    requires Conserved(s)
    ensures multiset(s.free)[i] + multiset(s.send)[i] + multiset(AppSlots(s))[i] + multiset(WorkerSlots(s))[i]
            == if i < |s.slots| then 1 else 0
  {
    IndicesOnce(|s.slots|, i);
    assert Owned(s)[i] == multiset(Indices(|s.slots|))[i];
  }

  /** A slot held by one thread is held by nobody else and stands in no queue. */
  lemma OwnedOnce(s: Pool)
    requires Conserved(s)
    ensures forall i :: i in s.free || i in s.send || i in AppSlots(s) || i in WorkerSlots(s) ==> i < |s.slots|
    ensures forall i :: i in AppSlots(s) ==> i !in s.free && i !in s.send && i !in WorkerSlots(s)
    ensures forall i :: i in WorkerSlots(s) ==> i !in s.free && i !in s.send
  {
    forall i: nat | i in s.free || i in s.send || i in AppSlots(s) || i in WorkerSlots(s)
      ensures i < |s.slots|
      ensures i in AppSlots(s) ==> i !in s.free && i !in s.send && i !in WorkerSlots(s)
      ensures i in WorkerSlots(s) ==> i !in s.free && i !in s.send
    {
      OwnedCount(s, i);
    }
  }

  /** No queue holds an index twice. */
  lemma QueuedOnce(s: Pool, j: nat, k: nat)
    requires Conserved(s) && j < k
    ensures k < |s.send| ==> s.send[j] != s.send[k]
    ensures k < |s.free| ==> s.free[j] != s.free[k]
  {
    if k < |s.send| && s.send[j] == s.send[k] {
      TwiceCounts(s.send, j, k);
      OwnedCount(s, s.send[j]);
    }
    if k < |s.free| && s.free[j] == s.free[k] {
      TwiceCounts(s.free, j, k);
      OwnedCount(s, s.free[j]);
    }
  }

  lemma TwiceCounts(q: seq<nat>, j: nat, k: nat)
    requires j < k < |q| && q[j] == q[k]
    ensures multiset(q)[q[j]] >= 2
  {
    assert q == q[..j] + [q[j]] + q[j + 1..k] + [q[k]] + q[k + 1..];
  }

  // ----- refinement of a plain queue of byte strings

  datatype Action = Put(block: seq<byte>) | Get(block: seq<byte>) | Silent

  /** The simple form: a FIFO queue of byte strings. */
  ghost predicate FifoStep(q: seq<seq<byte>>, a: Action, q': seq<seq<byte>>) {
    match a
    case Put(block) => q' == q + [block]
    case Get(block) => q != [] && block == q[0] && q' == q[1..]
    case Silent => q' == q
  }

  function Visible(s: Pool, step: Step): Action
    requires Enabled(s, step)
  {
    match step
    case AppSubmit => Put(s.slots[s.app.slot].Block())
    case WorkerSend => Get(s.slots[s.worker.slot].Block())
    case _ => Silent
  }

  function Blocks(s: Pool, queue: seq<nat>): (b: seq<seq<byte>>)
    ensures |b| == |queue|
  {
    if queue == [] then []
    else [if queue[0] < |s.slots| && Sound(s.slots[queue[0]]) then s.slots[queue[0]].Block() else []]
         + Blocks(s, queue[1..])
  }

  /** What the pool stands for: the blocks submitted but not yet handed to server_send. */
  function Pending(s: Pool): seq<seq<byte>> {
    Blocks(s, Sending(s) + s.send)
  }

  lemma {:induction false} BlocksFrame(s: Pool, t: Pool, queue: seq<nat>)
    requires |s.slots| == |t.slots|
    requires forall i :: i in queue && i < |s.slots| ==> s.slots[i] == t.slots[i]
    ensures Blocks(s, queue) == Blocks(t, queue)
    decreases |queue|
  {
    if queue != [] { BlocksFrame(s, t, queue[1..]); }
  }

  lemma {:induction false} BlocksAppend(s: Pool, q: seq<nat>, r: seq<nat>)
    ensures Blocks(s, q + r) == Blocks(s, q) + Blocks(s, r)
    decreases |q|
  {
    if q == [] {
      assert q + r == r;
    } else {
      BlocksAppend(s, q[1..], r);
      assert (q + r)[1..] == q[1..] + r;
    }
  }

  function Sending(s: Pool): seq<nat> {
    if s.worker.WorkerSending? then [s.worker.slot] else []
  }

  lemma WriteKeepsPending(s: Pool, step: Step)
    requires Inv(s) && Enabled(s, step) && (step.AppWrite? || step.AppSetLength?)
    ensures Pending(Do(s, step)) == Pending(s)
  {
    AppSlotNotPending(s);
    ChangedElsewhere(s, Do(s, step), s.app.slot);
  }

  /** The slot the application holds is neither queued nor being sent. */
  lemma AppSlotNotPending(s: Pool)
    requires Conserved(s) && (s.app.AppFilling? || s.app.AppReady?)
    ensures s.app.slot !in Sending(s) && s.app.slot !in s.send
  {
    OwnedOnce(s);
    assert s.app.slot in AppSlots(s);
  }

  /** What becomes of a slot outside the queue does not show. */
  lemma ChangedElsewhere(s: Pool, t: Pool, i: nat)
    requires |t.slots| == |s.slots| && t.send == s.send && t.worker == s.worker
    requires forall j :: 0 <= j < |s.slots| && j != i ==> t.slots[j] == s.slots[j]
    requires i !in Sending(s) && i !in s.send
    ensures Pending(t) == Pending(s)
  {
    var queue := Sending(s) + s.send;
    assert i !in queue;
    BlocksFrame(s, t, queue);
  }

  lemma SubmitPuts(s: Pool)
    requires Inv(s) && Enabled(s, AppSubmit)
    ensures Pending(Do(s, AppSubmit)) == Pending(s) + [s.slots[s.app.slot].Block()]
  {
    var t, queue := Do(s, AppSubmit), Sending(s) + s.send;
    assert t.slots == s.slots && Sending(t) + t.send == queue + [s.app.slot];
    AppendedBlock(s, t, queue, s.app.slot);
  }

  lemma AppendedBlock(s: Pool, t: Pool, queue: seq<nat>, i: nat)
    requires t.slots == s.slots && i < |s.slots| && Sound(s.slots[i])
    ensures Blocks(t, queue + [i]) == Blocks(s, queue) + [s.slots[i].Block()]
  {
    BlocksFrame(s, t, queue + [i]);
    BlocksAppend(s, queue, [i]);
    OneBlock(s, i);
  }

  lemma OneBlock(s: Pool, i: nat)
    requires i < |s.slots| && Sound(s.slots[i])
    ensures Blocks(s, [i]) == [s.slots[i].Block()]
  {
    assert [i][1..] == [] && Blocks(s, []) == [];
  }

  lemma WorkerMovesQueue(s: Pool, step: Step)
    requires Inv(s) && Enabled(s, step) && (step.WorkerTake? || step.WorkerSend? || step.WorkerRecycle?)
    ensures FifoStep(Pending(s), Visible(s, step), Pending(Do(s, step)))
  {
    var t := Do(s, step);
    BlocksFrame(s, t, Sending(t) + t.send);
    match step
    case WorkerTake => assert Sending(t) + t.send == Sending(s) + s.send;
    case WorkerSend => assert (Sending(s) + s.send)[1..] == Sending(t) + t.send;
    case WorkerRecycle =>
  }

  lemma TakeKeepsPending(s: Pool)
    ensures Pending(TakeFree(s)) == Pending(s)
  {
    BlocksFrame(s, TakeFree(s), Sending(s) + s.send);
  }

  /** Every step of the pool is a step of the plain queue on the blocks the pool stands for. */
  lemma RefinesFifo(s: Pool, step: Step)
    requires Inv(s) && Enabled(s, step)
    ensures FifoStep(Pending(s), Visible(s, step), Pending(Do(s, step)))
  {
    match step
    case AppAsk => TakeKeepsPending(s);
    case AppRetry => TakeKeepsPending(s);
    case AppWrite(_) => WriteKeepsPending(s, step);
    case AppSetLength(_) => WriteKeepsPending(s, step);
    case AppSubmit => SubmitPuts(s);
    case WorkerTake => WorkerMovesQueue(s, step);
    case WorkerSend => WorkerMovesQueue(s, step);
    case WorkerRecycle => WorkerMovesQueue(s, step);
  }

  lemma Head(q: seq<nat>)
    requires q != []
    ensures multiset(q) == multiset([q[0]]) + multiset(q[1..])
  {
    assert q == [q[0]] + q[1..];
  }

  lemma TakeConserves(s: Pool)
    requires AppSlots(s) == []
    ensures Owned(TakeFree(s)) == Owned(s)
  {
    if s.free != [] { Head(s.free); }
  }

  lemma SubmitConserves(s: Pool)
    requires Enabled(s, AppSubmit)
    ensures Owned(Do(s, AppSubmit)) == Owned(s)
  {
    assert multiset(s.send + [s.app.slot]) == multiset(s.send) + multiset([s.app.slot]);
  }

  lemma RecycleConserves(s: Pool)
    requires Enabled(s, WorkerRecycle)
    ensures Owned(Do(s, WorkerRecycle)) == Owned(s)
  {
    assert multiset(s.free + [s.worker.slot]) == multiset(s.free) + multiset([s.worker.slot]);
  }

  lemma SendTakeConserves(s: Pool)
    requires Enabled(s, WorkerTake)
    ensures Owned(Do(s, WorkerTake)) == Owned(s)
  {
    Head(s.send);
  }

  lemma QuietConserves(s: Pool, step: Step)
    requires Enabled(s, step) && (step.AppWrite? || step.AppSetLength? || step.WorkerSend?)
    ensures Owned(Do(s, step)) == Owned(s)
  {
    var t := Do(s, step);
    assert t.free == s.free && t.send == s.send && AppSlots(t) == AppSlots(s) && WorkerSlots(t) == WorkerSlots(s);
  }

  lemma OwnedKept(s: Pool, step: Step)
    requires Enabled(s, step)
    ensures Owned(Do(s, step)) == Owned(s)
  {
    match step
    case AppAsk => TakeConserves(s);
    case AppRetry => TakeConserves(s);
    case AppWrite(_) => QuietConserves(s, step);
    case AppSetLength(_) => QuietConserves(s, step);
    case AppSubmit => SubmitConserves(s);
    case WorkerTake => SendTakeConserves(s);
    case WorkerSend => QuietConserves(s, step);
    case WorkerRecycle => RecycleConserves(s);
  }

  /** No step creates, loses or doubles a slot. */
  lemma ConservedStep(s: Pool, step: Step)
    requires Conserved(s) && Enabled(s, step)
    ensures Conserved(Do(s, step))
  {
    OwnedKept(s, step);
    assert |Do(s, step).slots| == |s.slots|;
  }

  ghost predicate QueuesSound(s: Pool) {
    && (forall k :: 0 <= k < |s.send| ==> s.send[k] < |s.slots| && Sound(s.slots[s.send[k]]))
    && (s.app.AppReady? ==> s.app.slot < |s.slots| && Sound(s.slots[s.app.slot]))
    && (s.worker.WorkerSending? ==> s.worker.slot < |s.slots| && Sound(s.slots[s.worker.slot]))
  }

  lemma SoundStep(s: Pool, step: Step)
    requires QueuesSound(s) && Enabled(s, step)
    ensures QueuesSound(Do(s, step))
  {
  }

  lemma InvStep(s: Pool, step: Step)
    requires Inv(s) && Enabled(s, step)
    ensures Inv(Do(s, step))
  {
    ConservedStep(s, step);
    SoundStep(s, step);
    RefinesFifo(s, step);
    LogsStep(s, step);
  }

  lemma LogsStep(s: Pool, step: Step)
    requires s.submitted == s.handed + Pending(s) && Enabled(s, step)
    requires FifoStep(Pending(s), Visible(s, step), Pending(Do(s, step)))
    ensures Do(s, step).submitted == Do(s, step).handed + Pending(Do(s, step))
  {
    LogsAction(s, Do(s, step), Visible(s, step), Pending(s), Pending(Do(s, step)));
  }

  /** The logs agree with the queue after the action if they did before. */
  lemma LogsAction(s: Pool, t: Pool, a: Action, q: seq<seq<byte>>, q': seq<seq<byte>>)
    requires s.submitted == s.handed + q && FifoStep(q, a, q')
    requires t.submitted == s.submitted + (if a.Put? then [a.block] else [])
    requires t.handed == s.handed + (if a.Get? then [a.block] else [])
    ensures t.submitted == t.handed + q'
  {
    match a
    case Put(block) => assert t.handed == s.handed;
    case Get(block) => assert q == [block] + q';
    case Silent =>
  }

  lemma InitInv(count: nat, size: nat)
    ensures Inv(Init(count, size))
  {
  }

  lemma {:induction false} RunInv(s: Pool, steps: seq<Step>)
    requires Inv(s) && Legal(s, steps)
    ensures Inv(Run(s, steps))
    decreases |steps|
  {
    if steps != [] {
      InvStep(s, steps[0]);
      RunInv(Do(s, steps[0]), steps[1..]);
    }
  }

  /**
   * In every interleaving the blocks handed to server_send are a prefix of the blocks submitted, byte for
   * byte and in order, and the slots are partitioned between the queues and the threads.
   */
  lemma PoolIsFifo(count: nat, size: nat, steps: seq<Step>)
    requires Legal(Init(count, size), steps)
    ensures var s := Run(Init(count, size), steps);
            && s.handed <= s.submitted
            && s.submitted == s.handed + Pending(s)
            && Conserved(s)
  {
    InitInv(count, size);
    RunInv(Init(count, size), steps);
  }

  /** The application never writes a slot that is queued, free or being sent. */
  lemma WritesArePrivate(s: Pool, step: Step)
    requires Inv(s) && Enabled(s, step)
    ensures forall i :: (i in s.send || i in s.free || i in WorkerSlots(s)) ==>
              i < |s.slots| == |Do(s, step).slots| && Do(s, step).slots[i] == s.slots[i]
  {
    OwnedOnce(s);
  }

  // ----- get_buffer_slot spins with the mutex held

  lemma {:induction false} SpinForever(s: Pool, steps: seq<Step>)
    requires s.app.AppSpinning? && s.free == [] && Legal(s, steps)
    ensures Run(s, steps).app.AppSpinning? && Run(s, steps).free == []
    decreases |steps|
  {
    if steps != [] {
      SpinForever(Do(s, steps[0]), steps[1..]);
    }
  }

  /** get_buffer_slot returns in some continuation exactly when it finds a free slot at once. */
  lemma AskReturns(s: Pool)
    requires Enabled(s, AppAsk)
    ensures (exists steps :: Legal(Do(s, AppAsk), steps) && Run(Do(s, AppAsk), steps).app.AppFilling?)
            <==> s.free != []
  {
    var t := Do(s, AppAsk);
    if s.free != [] {
      assert Legal(t, []) && Run(t, []).app.AppFilling?;
    } else {
      forall steps | Legal(t, steps)
        ensures !Run(t, steps).app.AppFilling?
      {
        SpinForever(t, steps);
      }
    }
  }

  /** An application that submits one message per slot before the session thread runs once. */
  function Burst(count: nat): seq<Step> {
    if count == 0 then [] else [AppAsk, AppSetLength(0), AppSubmit] + Burst(count - 1)
  }

  function AfterOne(s: Pool): Pool
    requires Inv(s) && s.app.AppIdle? && s.free != []
  {
    OwnedOnce(s);
    assert s.free[0] in s.free;
    var slots := s.slots[s.free[0] := s.slots[s.free[0]].(length := 0)];
    s.(free := s.free[1..], slots := slots, send := s.send + [s.free[0]], submitted := s.submitted + [[]])
  }

  lemma OneSubmission(s: Pool)
    requires Inv(s) && s.app.AppIdle? && s.free != []
    ensures var asked := Do(s, AppAsk);
            Enabled(asked, AppSetLength(0)) &&
            var sized := Do(asked, AppSetLength(0));
            Enabled(sized, AppSubmit) && Do(sized, AppSubmit) == AfterOne(s) && Inv(AfterOne(s))
  {
    var asked := Do(s, AppAsk);
    OwnedOnce(s);
    assert s.free[0] in s.free;
    assert Enabled(asked, AppSetLength(0));
    InvStep(s, AppAsk);
    var sized := Do(asked, AppSetLength(0));
    InvStep(asked, AppSetLength(0));
    InvStep(sized, AppSubmit);
    assert Do(sized, AppSubmit) == AfterOne(s);
  }

  lemma {:induction false} BurstEmpties(s: Pool, n: nat)
    requires Inv(s) && s.app.AppIdle? && n == |s.free|
    ensures Legal(s, Burst(n)) && Run(s, Burst(n)).app.AppIdle? && Run(s, Burst(n)).free == []
    decreases n
  {
    if n > 0 {
      OneSubmission(s);
      BurstEmpties(AfterOne(s), n - 1);
      OneRound(s, Burst(n - 1));
    }
  }

  lemma OneRound(s: Pool, rest: seq<Step>)
    requires Inv(s) && s.app.AppIdle? && s.free != [] && Legal(AfterOne(s), rest)
    ensures var steps := [AppAsk, AppSetLength(0), AppSubmit] + rest;
            Legal(s, steps) && Run(s, steps) == Run(AfterOne(s), rest)
  {
    OneSubmission(s);
    ThreeSteps(s, AppAsk, AppSetLength(0), AppSubmit, rest);
  }

  lemma OneStep(s: Pool, a: Step, rest: seq<Step>)
    requires Enabled(s, a) && Legal(Do(s, a), rest)
    ensures Legal(s, [a] + rest) && Run(s, [a] + rest) == Run(Do(s, a), rest)
  {
    assert ([a] + rest)[1..] == rest;
  }

  lemma ThreeSteps(s: Pool, a: Step, b: Step, c: Step, rest: seq<Step>)
    requires Enabled(s, a) && Enabled(Do(s, a), b) && Enabled(Do(Do(s, a), b), c)
    requires Legal(Do(Do(Do(s, a), b), c), rest)
    ensures Legal(s, [a, b, c] + rest) && Run(s, [a, b, c] + rest) == Run(Do(Do(Do(s, a), b), c), rest)
  {
    OneStep(Do(Do(s, a), b), c, rest);
    OneStep(Do(s, a), b, [c] + rest);
    OneStep(s, a, [b] + ([c] + rest));
    assert [a, b, c] + rest == [a] + ([b] + ([c] + rest));
  }

  /** So with any number of slots the client can get stuck for good while the connection is healthy. */
  lemma StuckReachable(count: nat, size: nat)
    ensures var steps := Burst(count);
            && Legal(Init(count, size), steps)
            && var s := Run(Init(count, size), steps);
            && Enabled(s, AppAsk)
            && forall more :: Legal(Do(s, AppAsk), more) ==> Run(Do(s, AppAsk), more).app.AppSpinning?
  {
    InitInv(count, size);
    BurstEmpties(Init(count, size), count);
    var s := Run(Init(count, size), Burst(count));
    forall more | Legal(Do(s, AppAsk), more)
      ensures Run(Do(s, AppAsk), more).app.AppSpinning?
    {
      SpinForever(Do(s, AppAsk), more);
    }
  }
}
