/** What the session thread does with one received frame (session_thread_loop), on bytes and in place. */
module Handling {
  import opened Bytes
  import opened SizeCodec
  import opened Frames
  import opened Queues
  import opened AckQueue
  import opened Deserializer
  import B = Builders

  datatype Delivery = Delivery(topic: seq<byte>, msg: seq<byte>, qos: Qos, retain: bool)

  /** callback, or the sub_callback of a subscription with what the SUBACK says. */
  datatype Callback =
    | Plain(context: nat)
    | Verdicts(context: nat, packetId: uint16, success: seq<bool>, granted: seq<Qos>)

  function CallbackFor(resp: Response, context: nat): Callback {
    match resp
    case Suback(id, success, granted) => Verdicts(context, id, success, granted)
    case _ => Plain(context)
  }

  /**
   * The ack queue afterwards, the blocks given to server_send, the callbacks made and the messages delivered.
   * A fault is a use of a null response, an unset record or bytes outside the buffer.
   */
  datatype Effects = Effects(
    acks: seq<Waiting>, sent: seq<seq<byte>>, called: seq<Callback>, delivered: seq<Delivery>, fault: bool)

  function Nothing(acks: seq<Waiting>): Effects {
    Effects(acks, [], [], [], false)
  }

  function Fault(acks: seq<Waiting>): Effects {
    Effects(acks, [], [], [], true)
  }

  /** PINGRESP, PUBACK, PUBCOMP, SUBACK and UNSUBACK: find the record and call back. */
  function Answered(acks: seq<Waiting>, messageType: nat, packetId: uint16, resp: Response): Effects {
    match Lookup(acks, messageType, packetId)
    case NotFound => Nothing(acks)
    case FoundUnset => Fault(acks)
    case FoundAt(i) => Effects(Without(acks, i), [], [CallbackFor(resp, acks[i].context)], [], false)
  }

  /** PUBREC: answer with PUBREL; if that is sent, the record waits for PUBCOMP. */
  function Released(acks: seq<Waiting>, packetId: uint16, ok: bool): Effects {
    match Lookup(acks, PUBREC, packetId)
    case FoundAt(i) =>
      var again := if ok then [acks[i].(messageType := PUBCOMP, packetId := packetId)] else [];
      Effects(Without(acks, i) + again, [PubrelFrame(packetId)], [], [], false)
    case _ => Nothing(acks)
  }

  /** PUBREL: answer with PUBCOMP; if that is sent, the stored message is delivered. */
  function Completed(acks: seq<Waiting>, packetId: uint16, ok: bool): Effects {
    match Lookup(acks, PUBREL, packetId)
    case FoundAt(i) =>
      var w := acks[i];
      Effects(Without(acks, i), [PubcompFrame(packetId)], [],
              if ok then [Delivery(w.topic, w.msg, 2, w.retain)] else [], false)
    case _ => Nothing(acks)
  }

  /** PUBLISH: the delivered or stored copies are those of the received frame. */
  function Heard(acks: seq<Waiting>, buf: seq<byte>, p: Response, ok: bool, serial: nat): Effects
    requires p.Publish?
  {
    var readable := p.topic.In(buf) && p.message.In(buf);
    if p.qos == 3 then Nothing(acks)
    else if (p.qos == 0 || ok) && !readable then Fault(acks)
    else
      var topic := if readable then StrNCpy(p.topic.Of(buf)) else [];
      var msg := if readable then StrNCpy(p.message.Of(buf)) else [];
      var delivery := [Delivery(topic, msg, p.qos, p.retain)];
      if p.qos == 0 then Effects(acks, [], [], delivery, false)
      else if p.qos == 1 then Effects(acks, [PubackFrame(p.packetId)], [], if ok then delivery else [], false)
      else
        var stored := if ok then [Waiting(PUBREL, p.packetId, serial, topic, msg, p.retain)] else [];
        Effects(acks + stored, [PubrecFrame(p.packetId)], [], [], false)
  }

  /** The type and id by which the record is searched that PINGRESP, PUBACK, PUBCOMP, SUBACK or UNSUBACK ends. */
  function AnswerKey(resp: Response): Option<(nat, uint16)> {
    match resp
    case Pingresp => Some((PINGRESP, 0))
    case Puback(id) => Some((PUBACK, id))
    case Pubcomp(id) => Some((PUBCOMP, id))
    case Suback(id, _, _) => Some((SUBACK, id))
    case Unsuback(id) => Some((UNSUBACK, id))
    case _ => None
  }

  function Acknowledged(acks: seq<Waiting>, resp: Response, ok: bool): Effects {
    match resp
    case Pubrec(id) => Released(acks, id, ok)
    case Pubrel(id) => Completed(acks, id, ok)
    case _ =>
      match AnswerKey(resp)
      case Some(key) => Answered(acks, key.0, key.1, resp)
      case None => Nothing(acks)
  }

  function Dispatch(acks: seq<Waiting>, buf: seq<byte>, resp: Response, ok: bool, serial: nat): Effects {
    if resp.Publish? then Heard(acks, buf, resp, ok, serial) else Acknowledged(acks, resp, ok)
  }

  /** The whole handling of a frame of `sz` bytes; `ok` is the result of the one send it may make. */
  function Handle(acks: seq<Waiting>, buf: seq<byte>, sz: nat, ok: bool, serial: nat): Effects {
    match Parse(buf, sz)
    case Got(resp) => Dispatch(acks, buf, resp, ok, serial)
    case _ => Fault(acks)
  }

  /** The strings of a parsed PUBLISH lie behind the four bytes an acknowledgement takes. */
  lemma StringsBehindAck(buf: seq<byte>, sz: nat)
    requires sz > 0
    ensures var r := Parse(buf, sz);
            r.Got? && r.value.Publish? ==> r.value.topic.at >= 4 && r.value.message.at >= 4
  {
    if |buf| > 0 {
      var size := ReadSize(buf, 1, sz);
      if size.Size? {
        assert size.used >= 1;
      }
    }
  }

  /** So writing the acknowledgement over the received frame leaves them as they were. */
  lemma AckSparesStrings(before: seq<byte>, after: seq<byte>, n: nat, frame: seq<byte>, v: View)
    requires B.Built(before, after, n, frame) && n == 4 && v.at >= 4 && v.In(before)
    ensures v.In(after) && v.Of(after) == v.Of(before)
  {
    forall i | 0 <= i < v.size
      ensures v.Of(after)[i] == v.Of(before)[i]
    {
      assert v.Of(after)[i] == after[v.at + i] == after[4..][v.at + i - 4];
      assert v.Of(before)[i] == before[v.at + i] == before[4..][v.at + i - 4];
    }
  }

  class SessionThread {
    const ackQueue: Queue<Waiting>
    const receiveBuffer: array<byte>
    var sent: seq<seq<byte>>
    var called: seq<Callback>
    var delivered: seq<Delivery>

    constructor (bufferSize: nat)
      requires bufferSize >= 4
      ensures Valid() && fresh(ackQueue) && fresh(receiveBuffer) && receiveBuffer.Length == bufferSize
      ensures ackQueue.Contents() == [] && sent == [] && called == [] && delivered == []
    {
      ackQueue := new Queue<Waiting>();
      receiveBuffer := new byte[bufferSize];
      sent, called, delivered := [], [], [];
    }

    ghost predicate Valid()
      reads this, ackQueue, ackQueue.entries
    {
      ackQueue.Valid() && receiveBuffer.Length >= 4
    }

    /** The effects have happened on top of what was sent, called and delivered before, or there was a fault. */
    ghost predicate Happened(
        e: Effects, fault: bool, sent0: seq<seq<byte>>, called0: seq<Callback>, delivered0: seq<Delivery>)
      reads this, ackQueue
    {
      && fault == e.fault
      && (!fault ==> ackQueue.Contents() == e.acks && sent == sent0 + e.sent
                     && called == called0 + e.called && delivered == delivered0 + e.delivered)
    }

    method EnqueueWaiting(w: Waiting)
      requires Valid()
      modifies ackQueue, ackQueue.entries
      ensures Valid() && ackQueue.Contents() == old(ackQueue.Contents()) + [w]
      ensures forall e :: e in ackQueue.entries ==> e in old(ackQueue.entries) || fresh(e)
    {
      ackQueue.Enqueue(w);
    }

    method HandleAnswer(messageType: nat, packetId: uint16, resp: Response) returns (fault: bool)
      requires Valid()
      modifies this`called, ackQueue, ackQueue.entries
      ensures Valid()
      ensures Happened(Answered(old(ackQueue.Contents()), messageType, packetId, resp), fault,
                       old(sent), old(called), old(delivered))
    {
      LeavesAlone(sent, called, delivered);
      var found, waiting := DequeueByTypeAndId(ackQueue, messageType, packetId);
      if !found {
        return false;
      }
      if waiting == None {
        return true;
      }
      called := called + [CallbackFor(resp, waiting.value.context)];
      return false;
    }

    /** Builds an acknowledgement in the receive buffer and hands it to server_send. */
    method SendAck(messageType: nat, low: nat, packetId: uint16)
      requires Valid() && messageType < 16 && low < 16
      modifies this`sent, receiveBuffer
      ensures Valid() && sent == old(sent) + [IdFrame(messageType, low, packetId)]
      ensures B.Built(old(receiveBuffer[..]), receiveBuffer[..], 4, IdFrame(messageType, low, packetId))
    {
      var len := B.MakeIdMessage(receiveBuffer, messageType, low, packetId);
      sent := sent + [receiveBuffer[..len]];
    }

    method HandlePubrec(packetId: uint16, ok: bool)
      requires Valid()
      modifies this`sent, ackQueue, ackQueue.entries, receiveBuffer
      ensures Valid()
      ensures Happened(Released(old(ackQueue.Contents()), packetId, ok), false, old(sent), old(called), old(delivered))
    {
      LeavesAlone(sent, called, delivered);
      var found, waiting := DequeueByTypeAndId(ackQueue, PUBREC, packetId);
      if found {
        var w := waiting.value;
        SendAck(PUBREL, 2, packetId);
        assert forall i :: 0 <= i < |ackQueue.entries| ==> ackQueue.entries[i] in old(ackQueue.entries);
        assert ackQueue.Contents() + [] == ackQueue.Contents();
        if ok {
          EnqueueWaiting(w.(messageType := PUBCOMP, packetId := packetId));
        }
      }
    }

    method HandlePubrel(packetId: uint16, ok: bool)
      requires Valid()
      modifies this`sent, this`delivered, ackQueue, ackQueue.entries, receiveBuffer
      ensures Valid()
      ensures Happened(Completed(old(ackQueue.Contents()), packetId, ok), false, old(sent), old(called), old(delivered))
    {
      LeavesAlone(sent, called, delivered);
      var found, waiting := DequeueByTypeAndId(ackQueue, PUBREL, packetId);
      if found {
        SendAck(PUBCOMP, 0, packetId);
        if ok {
          var w := waiting.value;
          delivered := delivered + [Delivery(w.topic, w.msg, 2, w.retain)];
        }
      }
    }

    method CopyString(v: View) returns (s: Option<seq<byte>>)
      ensures s == if v.In(receiveBuffer[..]) then Some(StrNCpy(v.Of(receiveBuffer[..]))) else None
    {
      if v.at + v.size > receiveBuffer.Length {
        return None;
      }
      return Some(StrNCpy(receiveBuffer[v.at..v.at + v.size]));
    }

    /** The acknowledgement is written into the receive buffer before the strings are copied out of it. */
    method HandlePublish(p: Response, ok: bool, serial: nat) returns (fault: bool)
      requires Valid() && p.Publish? && p.topic.at >= 4 && p.message.at >= 4
      modifies this`sent, this`delivered, ackQueue, ackQueue.entries, receiveBuffer
      ensures Valid()
      ensures Happened(Heard(old(ackQueue.Contents()), old(receiveBuffer[..]), p, ok, serial), fault,
                       old(sent), old(called), old(delivered))
    {
      LeavesAlone(sent, called, delivered);
      assert ackQueue.Contents() + [] == ackQueue.Contents();
      if p.qos == 3 {
        return false;
      }
      if p.qos > 0 {
        ReplyInPlace(p);
        if !ok {
          return false;
        }
      }
      var topic := CopyString(p.topic);
      var msg := CopyString(p.message);
      if topic == None || msg == None {
        return true;
      }
      if p.qos == 2 {
        EnqueueWaiting(Waiting(PUBREL, p.packetId, serial, topic.value, msg.value, p.retain));
      } else {
        delivered := delivered + [Delivery(topic.value, msg.value, p.qos, p.retain)];
      }
      return false;
    }

    /** PUBACK or PUBREC over the first bytes of the PUBLISH: its strings read the same afterwards. */
    method ReplyInPlace(p: Response)
      requires Valid() && p.Publish? && 1 <= p.qos <= 2 && p.topic.at >= 4 && p.message.at >= 4
      modifies this`sent, receiveBuffer
      ensures Valid()
      ensures sent == old(sent) + [if p.qos == 1 then PubackFrame(p.packetId) else PubrecFrame(p.packetId)]
      ensures forall v: View :: v == p.topic || v == p.message ==>
                v.In(receiveBuffer[..]) == v.In(old(receiveBuffer[..]))
                && (v.In(receiveBuffer[..]) ==> v.Of(receiveBuffer[..]) == v.Of(old(receiveBuffer[..])))
    {
      ghost var before := receiveBuffer[..];
      var messageType := if p.qos == 1 then PUBACK else PUBREC;
      SendAck(messageType, 0, p.packetId);
      forall v: View | v.at >= 4 && v.In(before)
        ensures v.In(receiveBuffer[..]) && v.Of(receiveBuffer[..]) == v.Of(before)
      {
        AckSparesStrings(before, receiveBuffer[..], 4, IdFrame(messageType, 0, p.packetId), v);
      }
    }

    method HandleAcknowledgement(resp: Response, ok: bool) returns (fault: bool)
      requires Valid() && !resp.Publish?
      modifies this, ackQueue, ackQueue.entries, receiveBuffer
      ensures Valid()
      ensures Happened(Acknowledged(old(ackQueue.Contents()), resp, ok), fault, old(sent), old(called), old(delivered))
    {
      fault := false;
      if resp.Pubrec? {
        HandlePubrec(resp.packetId, ok);
      } else if resp.Pubrel? {
        HandlePubrel(resp.packetId, ok);
      } else if AnswerKey(resp).Some? {
        var key := AnswerKey(resp).value;
        fault := HandleAnswer(key.0, key.1, resp);
      } else {
        LeavesAlone(sent, called, delivered);
      }
    }

    method HandleResponse(resp: Response, ok: bool, serial: nat) returns (fault: bool)
      requires Valid() && (resp.Publish? ==> resp.topic.at >= 4 && resp.message.at >= 4)
      modifies this, ackQueue, ackQueue.entries, receiveBuffer
      ensures Valid()
      ensures Happened(Dispatch(old(ackQueue.Contents()), old(receiveBuffer[..]), resp, ok, serial), fault,
                       old(sent), old(called), old(delivered))
    {
      if resp.Publish? {
        fault := HandlePublish(resp, ok, serial);
      } else {
        fault := HandleAcknowledgement(resp, ok);
      }
    }

    /** The receiving half of the session thread's loop, for a frame that has arrived in the receive buffer. */
    method HandleReceived(sz: nat, ok: bool, serial: nat) returns (fault: bool)
      requires Valid() && sz > 0
      modifies this, ackQueue, ackQueue.entries, receiveBuffer
      ensures Valid()
      ensures Happened(Handle(old(ackQueue.Contents()), old(receiveBuffer[..]), sz, ok, serial), fault,
                       old(sent), old(called), old(delivered))
    {
      StringsBehindAck(receiveBuffer[..], sz);
      var r := DeserializeResponse(receiveBuffer, sz);
      match r
      case Got(resp) => fault := HandleResponse(resp, ok, serial);
      case _ => fault := true;
    }
  }

  lemma LeavesAlone(sent: seq<seq<byte>>, called: seq<Callback>, delivered: seq<Delivery>)
    ensures sent + [] == sent && called + [] == called && delivered + [] == delivered
  {
  }
}
