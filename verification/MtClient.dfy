/** libsmqttclient_mt/smqttc_mt.c: the calls of the application thread, for a pool with a free slot. */
module MtClient {
  import opened Bytes
  import opened Frames
  import opened Queues
  import opened AckQueue
  import S = Session
  import P = SlotPool
  import opened SlotBuffers
  import opened Handling
  import B = Builders

  datatype Status = OK | NotConnected | Invalid

  class Client {
    var connected: bool
    var publishPacketId: uint16
    const slots: Buffers
    const thread: SessionThread

    constructor (bufferCount: nat, bufferSize: nat)
      requires bufferSize >= 4
      ensures Valid() && fresh(slots) && fresh(thread) && connected && publishPacketId == 1
      ensures slots.freeQueue.Contents() == P.Indices(bufferCount) && slots.sendQueue.Contents() == []
      ensures thread.ackQueue.Contents() == []
    {
      connected, publishPacketId := true, 1;
      slots := new Buffers(bufferCount, bufferSize);
      thread := new SessionThread(bufferSize);
    }

    ghost predicate Valid()
      reads this, slots, slots.freeQueue, slots.freeQueue.entries, slots.sendQueue, slots.sendQueue.entries
      reads thread, thread.ackQueue, thread.ackQueue.entries
    {
      && slots.Valid() && thread.Valid()
      && forall i :: 0 <= i < |slots.slots| ==> slots.slots[i].buffer != thread.receiveBuffer
    }

    /** A slot is free and large enough for the frame, as the program takes for granted. */
    ghost predicate SlotReady(size: nat)
      reads slots, slots.freeQueue
    {
      var free := slots.freeQueue.Contents();
      free != [] && free[0] < |slots.slots| && size <= slots.slots[free[0]].buffer.Length
    }

    /** The frame has gone into the first free slot and to the end of the send queue. */
    twostate predicate Queued(frame: seq<byte>)
      reads slots, slots.freeQueue, slots.sendQueue, slots.slots
      reads set i | 0 <= i < |slots.slots| :: slots.slots[i].buffer
    {
      var free := old(slots.freeQueue.Contents());
      && free != [] && free[0] < |slots.slots|
      && slots.freeQueue.Contents() == free[1..]
      && slots.sendQueue.Contents() == old(slots.sendQueue.Contents()) + [free[0]]
      && slots.submitted == old(slots.submitted) + [frame]
      && var slot := slots.slots[free[0]];
         slot.messageLength == |frame| <= slot.buffer.Length && slot.buffer[..slot.messageLength] == frame
    }

    /** The slot has been taken out of the free queue and holds the frame. */
    twostate predicate Filled(position: nat, len: nat, frame: seq<byte>)
      reads slots, slots.freeQueue, slots.sendQueue, slots.slots
      reads set i | 0 <= i < |slots.slots| :: slots.slots[i].buffer
    {
      var free := old(slots.freeQueue.Contents());
      && free != [] && position == free[0] < |slots.slots|
      && slots.freeQueue.Contents() == free[1..]
      && slots.sendQueue.Contents() == old(slots.sendQueue.Contents()) && slots.submitted == old(slots.submitted)
      && len == |frame| <= slots.slots[position].buffer.Length && slots.slots[position].buffer[..len] == frame
    }

    method FillPing() returns (position: nat, len: nat)
      requires Valid() && SlotReady(2)
      modifies slots.freeQueue, set i | 0 <= i < |slots.slots| :: slots.slots[i].buffer
      ensures Valid() && Filled(position, len, BareFrame(PINGREQ))
    {
      position := slots.GetBufferSlot();
      len := B.MakePingreq(slots.slots[position].buffer);
    }

    method FillPublish(a: PublishArgs) returns (position: nat, len: nat)
      requires Valid() && SlotReady(|PublishFrame(a)|)
      modifies slots.freeQueue, set i | 0 <= i < |slots.slots| :: slots.slots[i].buffer
      ensures Valid() && Filled(position, len, PublishFrame(a))
    {
      position := slots.GetBufferSlot();
      len := B.MakePublish(slots.slots[position].buffer, a);
    }

    method Submit(position: nat, len: nat, ghost frame: seq<byte>)
      requires Valid() && position < |slots.slots|
      requires len == |frame| <= slots.slots[position].buffer.Length && slots.slots[position].buffer[..len] == frame
      modifies slots, slots.slots[position], slots.sendQueue, slots.sendQueue.entries
      ensures Valid() && slots.freeQueue.Contents() == old(slots.freeQueue.Contents())
      ensures slots.sendQueue.Contents() == old(slots.sendQueue.Contents()) + [position]
      ensures slots.submitted == old(slots.submitted) + [frame] && slots.slots[position].messageLength == len
      ensures slots.slots[position].buffer[..len] == frame
      ensures thread.ackQueue.Contents() == old(thread.ackQueue.Contents())
    {
      slots.EnqueueSlotForSend(position, len);
    }

    method Ping(context: nat) returns (status: Status)
      requires Valid() && (connected ==> SlotReady(2))
      modifies slots, slots.freeQueue, slots.sendQueue, slots.sendQueue.entries
      modifies thread.ackQueue, thread.ackQueue.entries
      modifies slots.slots, set i | 0 <= i < |slots.slots| :: slots.slots[i].buffer
      ensures Valid()
      ensures status == if connected then OK else NotConnected
      ensures status == OK ==>
                && Queued(BareFrame(PINGREQ))
                && thread.ackQueue.Contents() == old(thread.ackQueue.Contents()) + [S.Request(PINGRESP, 0, context)]
      ensures status != OK ==> unchanged(this, slots, slots.freeQueue, slots.sendQueue, thread.ackQueue)
      ensures status != OK ==> unchanged(slots.sendQueue.entries) && unchanged(thread.ackQueue.entries)
      ensures status != OK ==>
                unchanged(slots.slots) && unchanged(set i | 0 <= i < |slots.slots| :: slots.slots[i].buffer)
    {
      if !connected {
        return NotConnected;
      }
      PingConnected(context);
      return OK;
    }

    method PingConnected(context: nat)
      requires Valid() && SlotReady(2)
      modifies slots, slots.freeQueue, slots.sendQueue, slots.sendQueue.entries
      modifies thread.ackQueue, thread.ackQueue.entries
      modifies slots.slots, set i | 0 <= i < |slots.slots| :: slots.slots[i].buffer
      ensures Valid() && Queued(BareFrame(PINGREQ))
      ensures thread.ackQueue.Contents() == old(thread.ackQueue.Contents()) + [S.Request(PINGRESP, 0, context)]
    {
      var position, len := FillPing();
      thread.EnqueueWaiting(S.Request(PINGRESP, 0, context));
      assert Filled(position, len, BareFrame(PINGREQ));
      Submit(position, len, BareFrame(PINGREQ));
    }

    /** The record a publish registers: none at QoS 0. */
    static function Record(qos: nat, packetId: uint16, context: nat): seq<Waiting> {
      if qos == 1 then [S.Request(PUBACK, packetId, context)]
      else if qos == 2 then [S.Request(PUBREC, packetId, context)]
      else []
    }

    method Publish(topic: CString, msg: Option<CString>, qos: nat, retain: bool, context: nat) returns (status: Status)
      requires Valid()
      requires connected && qos <= 2 ==>
                 SlotReady(|PublishFrame(PublishArgs(topic, publishPacketId, qos, retain, msg))|)
      modifies this`publishPacketId, slots, slots.freeQueue, slots.sendQueue, slots.sendQueue.entries
      modifies thread.ackQueue, thread.ackQueue.entries
      modifies slots.slots, set i | 0 <= i < |slots.slots| :: slots.slots[i].buffer
      ensures Valid()
      ensures status == if !connected then NotConnected else if qos > 2 then Invalid else OK
      ensures status == OK ==>
                && Queued(PublishFrame(PublishArgs(topic, old(publishPacketId), qos, retain, msg)))
                && thread.ackQueue.Contents()
                   == old(thread.ackQueue.Contents()) + Record(qos, old(publishPacketId), context)
                && publishPacketId == if qos == 0 then old(publishPacketId) else NextId(old(publishPacketId))
      ensures status != OK ==> unchanged(this, slots, slots.freeQueue, slots.sendQueue, thread.ackQueue)
      ensures status != OK ==> unchanged(slots.sendQueue.entries) && unchanged(thread.ackQueue.entries)
      ensures status != OK ==>
                unchanged(slots.slots) && unchanged(set i | 0 <= i < |slots.slots| :: slots.slots[i].buffer)
    {
      if !connected {
        return NotConnected;
      }
      if qos > 2 {
        return Invalid;
      }
      PublishConnected(PublishArgs(topic, publishPacketId, qos, retain, msg), context);
      return OK;
    }

    method PublishConnected(a: PublishArgs, context: nat)
      requires Valid() && a.qos <= 2 && a.packetId == publishPacketId && SlotReady(|PublishFrame(a)|)
      modifies this`publishPacketId, slots, slots.freeQueue, slots.sendQueue, slots.sendQueue.entries
      modifies thread.ackQueue, thread.ackQueue.entries
      modifies slots.slots, set i | 0 <= i < |slots.slots| :: slots.slots[i].buffer
      ensures Valid() && Queued(PublishFrame(a))
      ensures thread.ackQueue.Contents() == old(thread.ackQueue.Contents()) + Record(a.qos, a.packetId, context)
      ensures publishPacketId == if a.qos == 0 then a.packetId else NextId(a.packetId)
    {
      var position, len := FillAndRegister(a, context);
      Submit(position, len, PublishFrame(a));
    }

    /** The record is registered before the slot is queued. */
    method FillAndRegister(a: PublishArgs, context: nat) returns (position: nat, len: nat)
      requires Valid() && a.qos <= 2 && a.packetId == publishPacketId && SlotReady(|PublishFrame(a)|)
      modifies this`publishPacketId, slots.freeQueue, thread.ackQueue, thread.ackQueue.entries
      modifies set i | 0 <= i < |slots.slots| :: slots.slots[i].buffer
      ensures Valid() && Filled(position, len, PublishFrame(a))
      ensures thread.ackQueue.Contents() == old(thread.ackQueue.Contents()) + Record(a.qos, a.packetId, context)
      ensures publishPacketId == if a.qos == 0 then a.packetId else NextId(a.packetId)
    {
      position, len := FillPublish(a);
      RegisterPublish(a.qos, context);
    }

    /** The switch on the QoS: build the record, register it, count the id up. */
    method RegisterPublish(qos: nat, context: nat)
      requires Valid() && qos <= 2
      modifies this`publishPacketId, thread.ackQueue, thread.ackQueue.entries
      ensures Valid()
      ensures thread.ackQueue.Contents() == old(thread.ackQueue.Contents()) + Record(qos, old(publishPacketId), context)
      ensures publishPacketId == if qos == 0 then old(publishPacketId) else NextId(old(publishPacketId))
    {
      if qos == 1 {
        thread.EnqueueWaiting(S.Request(PUBACK, publishPacketId, context));
        publishPacketId := NextId(publishPacketId);
      } else if qos == 2 {
        thread.EnqueueWaiting(S.Request(PUBREC, publishPacketId, context));
        publishPacketId := NextId(publishPacketId);
      } else {
        assert thread.ackQueue.Contents() + [] == thread.ackQueue.Contents();
      }
    }
  }
}
