/** libsmqttclient_mt/connection.c: the buffer slots and their two queues, as the program stores them. */
module SlotBuffers {
  import opened Bytes
  import opened Queues
  import P = SlotPool

  ghost predicate Apart<T>(a: seq<Entry<T>>, b: seq<Entry<T>>) {
    forall i, j :: 0 <= i < |a| && 0 <= j < |b| ==> a[i] != b[j]
  }

  class BufferSlot {
    const buffer: array<byte>
    var messageLength: nat

    constructor (size: nat)
      ensures buffer.Length == size && messageLength == 0 && fresh(buffer)
    {
      buffer := new byte[size];
      messageLength := 0;
    }
  }

  class Buffers {
    const freeQueue: Queue<nat>
    const sendQueue: Queue<nat>
    const slots: seq<BufferSlot>
    ghost var submitted: seq<seq<byte>>
    ghost var handed: seq<seq<byte>>

    ghost predicate SlotsApart() {
      forall i, j :: 0 <= i < j < |slots| ==> slots[i] != slots[j] && slots[i].buffer != slots[j].buffer
    }

    ghost predicate Valid()
      reads this, freeQueue, freeQueue.entries, sendQueue, sendQueue.entries
    {
      && freeQueue != sendQueue && freeQueue.Forward() && sendQueue.Forward()
      && Apart(freeQueue.entries, sendQueue.entries)
      && SlotsApart()
    }

    ghost function Slots(): (s: seq<P.Slot>)
      reads slots, set i | 0 <= i < |slots| :: slots[i].buffer
      ensures |s| == |slots|
      ensures forall i :: 0 <= i < |s| ==> s[i] == P.Slot(slots[i].buffer[..], slots[i].messageLength)
    {
      SlotsFrom(slots)
    }

    /** The pool as the transition system sees it, the threads being in the given states. */
    ghost function Look(app: P.AppState, worker: P.WorkerState): P.Pool
      reads this, freeQueue, sendQueue, slots, set i | 0 <= i < |slots| :: slots[i].buffer
    {
      P.Pool(freeQueue.Contents(), sendQueue.Contents(), Slots(), app, worker, submitted, handed)
    }

    /** The set-up in start_session_thread; the contents of fresh buffers are arbitrary. */
    constructor (count: nat, size: nat)
      ensures Valid() && fresh(freeQueue) && fresh(sendQueue) && |slots| == count
      ensures forall i :: 0 <= i < count ==> fresh(slots[i]) && fresh(slots[i].buffer) && slots[i].buffer.Length == size
      ensures var s := Look(P.AppIdle, P.WorkerIdle);
              s == P.Init(count, size).(slots := s.slots) && forall i :: 0 <= i < count ==> s.slots[i].length == 0
    {
      var send := new Queue<nat>();
      var free, all := MakeSlots(count, size);
      freeQueue, sendQueue, slots := free, send, all;
      submitted, handed := [], [];
      new;
      assert Look(P.AppIdle, P.WorkerIdle).free == P.Indices(count);
    }

    /** The loop that allocates the slots and queues their indices. */
    static method MakeSlots(count: nat, size: nat) returns (free: Queue<nat>, all: seq<BufferSlot>)
      ensures fresh(free) && free.Forward() && free.Contents() == P.Indices(count) && |all| == count
      ensures forall k :: 0 <= k < |free.entries| ==> fresh(free.entries[k])
      ensures forall j :: 0 <= j < count ==>
                fresh(all[j]) && fresh(all[j].buffer) && all[j].buffer.Length == size && all[j].messageLength == 0
      ensures forall j, k :: 0 <= j < k < count ==> all[j] != all[k] && all[j].buffer != all[k].buffer
    {
      free := new Queue<nat>();
      all := [];
      var i := 0;
      while i < count
        invariant 0 <= i == |all| <= count && fresh(free)
        invariant free.Forward() && free.Contents() == P.Indices(i)
        invariant forall k :: 0 <= k < |free.entries| ==> fresh(free.entries[k])
        invariant forall j :: 0 <= j < i ==>
                    fresh(all[j]) && fresh(all[j].buffer) && all[j].buffer.Length == size && all[j].messageLength == 0
        invariant forall j, k :: 0 <= j < k < i ==> all[j] != all[k] && all[j].buffer != all[k].buffer
      {
        var slot := new BufferSlot(size);
        free.Enqueue(i);
        all := all + [slot];
        i := i + 1;
      }
    }

    method TakeFree() returns (position: Option<nat>)
      requires Valid()
      modifies freeQueue
      ensures Valid()
      ensures old(freeQueue.Contents()) == [] ==> position == None && freeQueue.Contents() == []
      ensures old(freeQueue.Contents()) != [] ==>
                position == Some(old(freeQueue.Contents())[0]) && freeQueue.Contents() == old(freeQueue.Contents())[1..]
      ensures forall e :: e in freeQueue.entries ==> e in old(freeQueue.entries)
    {
      position := freeQueue.Dequeue();
    }

    method TakeQueued() returns (position: Option<nat>)
      requires Valid()
      modifies sendQueue
      ensures Valid()
      ensures old(sendQueue.Contents()) == [] ==> position == None && sendQueue.Contents() == []
      ensures old(sendQueue.Contents()) != [] ==>
                position == Some(old(sendQueue.Contents())[0]) && sendQueue.Contents() == old(sendQueue.Contents())[1..]
      ensures freeQueue.Contents() == old(freeQueue.Contents()) && Slots() == old(Slots())
      ensures forall e :: e in sendQueue.entries ==> e in old(sendQueue.entries)
    {
      position := sendQueue.Dequeue();
    }

    method PutFree(position: nat)
      requires Valid()
      modifies freeQueue, freeQueue.entries
      ensures Valid() && freeQueue.Contents() == old(freeQueue.Contents()) + [position]
      ensures sendQueue.Contents() == old(sendQueue.Contents()) && Slots() == old(Slots())
      ensures forall e :: e in freeQueue.entries ==> e in old(freeQueue.entries) || fresh(e)
    {
      freeQueue.Enqueue(position);
    }

    method PutQueued(position: nat)
      requires Valid()
      modifies sendQueue, sendQueue.entries
      ensures Valid() && sendQueue.Contents() == old(sendQueue.Contents()) + [position]
      ensures forall e :: e in sendQueue.entries ==> e in old(sendQueue.entries) || fresh(e)
    {
      sendQueue.Enqueue(position);
    }

    /** One pass of the loop in get_buffer_slot: without a free slot it goes on spinning, mutex in hand. */
    method AskOnce() returns (position: Option<nat>)
      requires Valid()
      modifies freeQueue
      ensures Valid()
      ensures if old(freeQueue.Contents()) == [] then position == None && freeQueue.Contents() == []
              else && position == Some(old(freeQueue.Contents())[0])
                   && freeQueue.Contents() == old(freeQueue.Contents())[1..]
      ensures var app := if position.Some? then P.AppFilling(position.value) else P.AppSpinning;
              forall w :: && Look(app, w) == P.Do(old(Look(P.AppIdle, w)), P.AppAsk)
                          && Look(app, w) == P.Do(old(Look(P.AppSpinning, w)), P.AppRetry)
      ensures forall e :: e in freeQueue.entries ==> e in old(freeQueue.entries)
    {
      position := TakeFree();
    }

    /** get_buffer_slot, for a free queue that is not empty: otherwise the call does not return. */
    method GetBufferSlot() returns (position: nat)
      requires Valid() && freeQueue.Contents() != []
      modifies freeQueue
      ensures Valid()
      ensures forall w :: Look(P.AppFilling(position), w) == P.Do(old(Look(P.AppIdle, w)), P.AppAsk)
      ensures position == old(freeQueue.Contents())[0] && freeQueue.Contents() == old(freeQueue.Contents())[1..]
      ensures forall e :: e in freeQueue.entries ==> e in old(freeQueue.entries)
    {
      var slot := AskOnce();
      position := slot.value;
    }

    /** enqueue_slot_for_send: the length is stored first, the slot is queued under the mutex. */
    method EnqueueSlotForSend(position: nat, length: nat)
      requires Valid() && position < |slots| && length <= slots[position].buffer.Length
      modifies this`submitted, slots[position], sendQueue, sendQueue.entries
      ensures Valid()
      ensures forall w :: Look(P.AppIdle, w)
                == P.Do(P.Do(old(Look(P.AppFilling(position), w)), P.AppSetLength(length)), P.AppSubmit)
      ensures sendQueue.Contents() == old(sendQueue.Contents()) + [position] && slots[position].messageLength == length
      ensures submitted == old(submitted) + [slots[position].buffer[..length]]
      ensures forall e :: e in sendQueue.entries ==> e in old(sendQueue.entries) || fresh(e)
    {
      StoreAndQueue(position, length);
      forall w ensures Look(P.AppIdle, w)
                 == P.Do(P.Do(old(Look(P.AppFilling(position), w)), P.AppSetLength(length)), P.AppSubmit)
      {
        SubmitIsTwoSteps(old(Look(P.AppFilling(position), w)), length);
      }
    }

    method StoreAndQueue(position: nat, length: nat)
      requires Valid() && position < |slots| && length <= slots[position].buffer.Length
      modifies this`submitted, slots[position], sendQueue, sendQueue.entries
      ensures Valid()
      ensures forall w :: Look(P.AppIdle, w) == AfterSubmit(old(Look(P.AppFilling(position), w)), length)
      ensures sendQueue.Contents() == old(sendQueue.Contents()) + [position] && slots[position].messageLength == length
      ensures submitted == old(submitted) + [slots[position].buffer[..length]]
      ensures forall e :: e in sendQueue.entries ==> e in old(sendQueue.entries) || fresh(e)
    {
      SetLength(position, length);
      label L:
      submitted := submitted + [slots[position].buffer[..length]];
      PutQueued(position);
      assert Slots() == old@L(Slots());
    }

    method SetLength(position: nat, length: nat)
      requires Valid() && position < |slots|
      modifies slots[position]
      ensures Valid() && Slots() == old(Slots())[position := old(Slots())[position].(length := length)]
    {
      slots[position].messageLength := length;
    }

    /** server_send is given the first messageLength bytes of the slot, which is then free again. */
    method SendSlot(position: nat) returns (block: seq<byte>)
      requires Valid() && position < |slots| && slots[position].messageLength <= slots[position].buffer.Length
      modifies this`handed, freeQueue, freeQueue.entries
      ensures Valid() && block == old(Slots())[position].Block() && handed == old(handed) + [block]
      ensures freeQueue.Contents() == old(freeQueue.Contents()) + [position]
      ensures sendQueue.Contents() == old(sendQueue.Contents()) && Slots() == old(Slots())
    {
      var slot := slots[position];
      block := slot.buffer[..slot.messageLength];
      handed := handed + [block];
      PutFree(position);
    }

    /** The sending half of the session thread's loop: take a slot, send its block, free the slot. */
    method SendQueued() returns (block: Option<seq<byte>>)
      requires Valid()
      requires sendQueue.Contents() != [] ==>
                 var i := sendQueue.Contents()[0]; i < |slots| && slots[i].messageLength <= slots[i].buffer.Length
      modifies this`handed, sendQueue, freeQueue, freeQueue.entries
      ensures Valid() && Slots() == old(Slots())
      ensures old(sendQueue.Contents()) == [] ==>
                && block == None && sendQueue.Contents() == []
                && freeQueue.Contents() == old(freeQueue.Contents()) && handed == old(handed)
      ensures var send := old(sendQueue.Contents());
              send != [] ==>
                && sendQueue.Contents() == send[1..] && freeQueue.Contents() == old(freeQueue.Contents()) + [send[0]]
                && block == Some(old(Slots())[send[0]].Block()) && handed == old(handed) + [block.value]
    {
      var next := TakeQueued();
      if next == None {
        return None;
      }
      var sent := SendSlot(next.value);
      return Some(sent);
    }

    /** As the transition system sees it, that is nothing at all or the pool's three steps. */
    method SendNext() returns (block: Option<seq<byte>>)
      requires Valid()
      requires sendQueue.Contents() != [] ==>
                 var i := sendQueue.Contents()[0]; i < |slots| && slots[i].messageLength <= slots[i].buffer.Length
      modifies this`handed, sendQueue, freeQueue, freeQueue.entries
      ensures Valid()
      ensures var s0, s3 := old(Look(P.AppIdle, P.WorkerIdle)), Look(P.AppIdle, P.WorkerIdle);
              if s0.send == [] then block == None && s3 == s0
              else && block == Some(s0.slots[s0.send[0]].Block())
                   && s3 == P.Do(P.Do(P.Do(s0, P.WorkerTake), P.WorkerSend), P.WorkerRecycle)
    {
      ghost var s := Look(P.AppIdle, P.WorkerIdle);
      block := SendQueued();
      assert Look(P.AppIdle, P.WorkerIdle) == if s.send == [] then s else AfterSend(s);
      if s.send != [] { SendIsThreeSteps(s); }
    }
  }

  /** The slot at the head of the send queue has been sent and is free again. */
  ghost function AfterSend(s: P.Pool): P.Pool
    requires s.send != [] && s.send[0] < |s.slots| && P.Sound(s.slots[s.send[0]])
  {
    s.(send := s.send[1..], free := s.free + [s.send[0]], handed := s.handed + [s.slots[s.send[0]].Block()])
  }

  /** That is what the three steps of the session thread lead to one after the other. */
  lemma SendIsThreeSteps(s: P.Pool)
    requires s.worker.WorkerIdle? && !s.app.AppSpinning?
    requires s.send != [] && s.send[0] < |s.slots| && P.Sound(s.slots[s.send[0]])
    ensures AfterSend(s) == P.Do(P.Do(P.Do(s, P.WorkerTake), P.WorkerSend), P.WorkerRecycle)
  {
  }

  /** The application's slot has been given its length and stands at the end of the send queue. */
  ghost function AfterSubmit(s: P.Pool, length: nat): P.Pool
    requires s.app.AppFilling? && s.app.slot < |s.slots| && length <= |s.slots[s.app.slot].buffer|
  {
    var slot := s.slots[s.app.slot].(length := length);
    s.(slots := s.slots[s.app.slot := slot], submitted := s.submitted + [slot.Block()],
       send := s.send + [s.app.slot], app := P.AppIdle)
  }

  /** That is what the two steps of enqueue_slot_for_send lead to. */
  lemma SubmitIsTwoSteps(s: P.Pool, length: nat)
    requires s.app.AppFilling? && s.app.slot < |s.slots| && length <= |s.slots[s.app.slot].buffer|
    ensures AfterSubmit(s, length) == P.Do(P.Do(s, P.AppSetLength(length)), P.AppSubmit)
  {
  }

  ghost function SlotsFrom(slots: seq<BufferSlot>): (s: seq<P.Slot>)
    reads slots, set i | 0 <= i < |slots| :: slots[i].buffer
    ensures |s| == |slots|
    ensures forall i :: 0 <= i < |s| ==> s[i] == P.Slot(slots[i].buffer[..], slots[i].messageLength)
  {
    seq(|slots|, i requires 0 <= i < |slots| reads slots, set j | 0 <= j < |slots| :: slots[j].buffer =>
      P.Slot(slots[i].buffer[..], slots[i].messageLength))
  }
}
