/**
 * What a received frame does to the session thread's world, told record by record and byte by byte: which record
 * leaves the ack queue, what is sent, which callback is made with what, what is delivered. One lemma per case of
 * the switch in session_thread_loop; the numbers are the message types of section 2.1 of MQTT V3.1.
 */
module Responses {
  import opened Bytes
  import opened AckQueue
  import opened Deserializer
  import opened Handling
  import Reading
  import W = WireFormat

  // ----- records

  ghost predicate Waits(w: Waiting, messageType: nat, packetId: uint16) {
    w.messageType == messageType && w.packetId == packetId
  }

  /** Record k is the first one of this type and id. */
  ghost predicate First(acks: seq<Waiting>, k: nat, messageType: nat, packetId: uint16) {
    k < |acks| && Waits(acks[k], messageType, packetId)
    && forall j :: 0 <= j < k ==> !Waits(acks[j], messageType, packetId)
  }

  ghost predicate NoneWaits(acks: seq<Waiting>, messageType: nat, packetId: uint16) {
    forall j :: 0 <= j < |acks| ==> !Waits(acks[j], messageType, packetId)
  }

  /** Record k is the first one of this type, whatever its id. */
  ghost predicate FirstOfType(acks: seq<Waiting>, k: nat, messageType: nat) {
    k < |acks| && acks[k].messageType == messageType
    && forall j :: 0 <= j < k ==> acks[j].messageType != messageType
  }

  ghost predicate NoneOfType(acks: seq<Waiting>, messageType: nat) {
    forall j :: 0 <= j < |acks| ==> acks[j].messageType != messageType
  }

  /** The queue that is left, with the records that were behind k moved up. */
  function Left(acks: seq<Waiting>, k: nat): seq<Waiting>
    requires k < |acks|
  {
    acks[..k] + acks[k + 1..]
  }


  // ----- acknowledgements that end a request

  /** PUBACK (4), PUBCOMP (7) and UNSUBACK (11): the first record of that type and id leaves and is called back. */
  lemma AnswerEffects(
      acks: seq<Waiting>, buf: seq<byte>, sz: nat, ok: bool, serial: nat, resp: Response, messageType: nat,
      id: uint16)
    requires Parse(buf, sz) == Got(resp)
    requires (messageType == 4 && resp == Puback(id)) || (messageType == 7 && resp == Pubcomp(id))
          || (messageType == 11 && resp == Unsuback(id))
    ensures forall k: nat :: First(acks, k, messageType, id) ==>
              Handle(acks, buf, sz, ok, serial)
              == Effects(Left(acks, k), [], [Plain(acks[k].context)], [], false)
    ensures NoneWaits(acks, messageType, id) ==>
              Handle(acks, buf, sz, ok, serial) == Effects(acks, [], [], [], false)
  {
    forall k: nat | First(acks, k, messageType, id)
      ensures Handle(acks, buf, sz, ok, serial)
           == Effects(Left(acks, k), [], [Plain(acks[k].context)], [], false)
    {
      FoundFirst(acks, messageType, id, k);
    }
    if NoneWaits(acks, messageType, id) {
      NotThere(acks, messageType, id);
    }
  }

  lemma FoundFirst(acks: seq<Waiting>, messageType: nat, id: uint16, k: nat)
    requires messageType in {4, 5, 6, 7, 11} && First(acks, k, messageType, id)
    ensures Lookup(acks, messageType, id) == FoundAt(k)
  {
    assert forall j :: 0 <= j < k ==> !Waits(acks[j], messageType, id);
    LookupAt(acks, messageType, id, k);
  }

  lemma NotThere(acks: seq<Waiting>, messageType: nat, id: uint16)
    requires messageType in {4, 5, 6, 7, 11} && NoneWaits(acks, messageType, id)
    ensures Lookup(acks, messageType, id) == NotFound
  {
    assert forall j :: 0 <= j < |acks| ==> !Waits(acks[j], messageType, id);
  }

  /** PINGRESP (13): the first ping record, whatever else waits. */
  lemma PingrespEffects(acks: seq<Waiting>, buf: seq<byte>, sz: nat, ok: bool, serial: nat)
    requires Parse(buf, sz) == Got(Pingresp)
    ensures forall k: nat :: FirstOfType(acks, k, 13) ==>
              Handle(acks, buf, sz, ok, serial)
              == Effects(Left(acks, k), [], [Plain(acks[k].context)], [], false)
    ensures NoneOfType(acks, 13) ==> Handle(acks, buf, sz, ok, serial) == Effects(acks, [], [], [], false)
  {
    forall k: nat | FirstOfType(acks, k, 13)
      ensures Handle(acks, buf, sz, ok, serial)
           == Effects(Left(acks, k), [], [Plain(acks[k].context)], [], false)
    {
      LookupAt(acks, 13, 0, k);
    }
  }

  /**
   * SUBACK (9): the first subscription record decides. With the id of the SUBACK it leaves and is called back with
   * the verdicts; with another id the program goes on with no record in its hands; without one nothing happens.
   */
  lemma SubackEffects(
      acks: seq<Waiting>, buf: seq<byte>, sz: nat, ok: bool, serial: nat, id: uint16, success: seq<bool>,
      granted: seq<Qos>)
    requires Parse(buf, sz) == Got(Suback(id, success, granted))
    ensures forall k: nat :: FirstOfType(acks, k, 9) && acks[k].packetId == id ==>
              Handle(acks, buf, sz, ok, serial)
              == Effects(Left(acks, k), [], [Verdicts(acks[k].context, id, success, granted)], [], false)
    ensures forall k: nat :: FirstOfType(acks, k, 9) && acks[k].packetId != id ==>
              Handle(acks, buf, sz, ok, serial).fault
    ensures NoneOfType(acks, 9) ==> Handle(acks, buf, sz, ok, serial) == Effects(acks, [], [], [], false)
  {
    forall k: nat | FirstOfType(acks, k, 9)
      ensures Lookup(acks, 9, id) == if acks[k].packetId == id then FoundAt(k) else FoundUnset
    {
      LookupAt(acks, 9, id, k);
    }
  }

  // ----- the two middle steps at QoS 2

  /**
   * PUBREC (5): PUBREL with its id is handed to server_send; if that works, the record goes to the end of the
   * queue and waits for PUBCOMP (7), otherwise it is gone.
   */
  lemma PubrecEffects(acks: seq<Waiting>, buf: seq<byte>, sz: nat, ok: bool, serial: nat, id: uint16)
    requires Parse(buf, sz) == Got(Pubrec(id))
    ensures forall k: nat :: First(acks, k, 5, id) ==>
              Handle(acks, buf, sz, ok, serial)
              == Effects(if ok then Left(acks, k) + [acks[k].(messageType := 7)] else Left(acks, k),
                         [[98, 2, 0, id % 256]], [], [], false)
    ensures NoneWaits(acks, 5, id) ==> Handle(acks, buf, sz, ok, serial) == Effects(acks, [], [], [], false)
  {
    W.AckBytes(id);
    forall k: nat | First(acks, k, 5, id)
      ensures Handle(acks, buf, sz, ok, serial)
           == Effects(if ok then Left(acks, k) + [acks[k].(messageType := 7)] else Left(acks, k),
                      [[98, 2, 0, id % 256]], [], [], false)
    {
      FoundFirst(acks, 5, id, k);
      assert Left(acks, k) + [] == Left(acks, k);
    }
    if NoneWaits(acks, 5, id) {
      NotThere(acks, 5, id);
    }
  }

  /**
   * PUBREL (6): the stored message leaves the queue and PUBCOMP with its id is handed to server_send; if that works,
   * the message is delivered at QoS 2, otherwise it is gone.
   */
  lemma PubrelEffects(acks: seq<Waiting>, buf: seq<byte>, sz: nat, ok: bool, serial: nat, id: uint16)
    requires Parse(buf, sz) == Got(Pubrel(id))
    ensures forall k: nat :: First(acks, k, 6, id) ==>
              Handle(acks, buf, sz, ok, serial)
              == Effects(Left(acks, k), [[112, 2, 0, id % 256]], [],
                         if ok then [Delivery(acks[k].topic, acks[k].msg, 2, acks[k].retain)] else [], false)
    ensures NoneWaits(acks, 6, id) ==> Handle(acks, buf, sz, ok, serial) == Effects(acks, [], [], [], false)
  {
    W.AckBytes(id);
    forall k: nat | First(acks, k, 6, id)
      ensures Handle(acks, buf, sz, ok, serial)
           == Effects(Left(acks, k), [[112, 2, 0, id % 256]], [],
                      if ok then [Delivery(acks[k].topic, acks[k].msg, 2, acks[k].retain)] else [], false)
    {
      FoundFirst(acks, 6, id, k);
    }
    if NoneWaits(acks, 6, id) {
      NotThere(acks, 6, id);
    }
  }

  // ----- messages

  /** A copy made with strncpy: every byte up to the first NUL, and NULs from there on. */
  lemma {:induction false} CopyBytes(src: seq<byte>, i: nat)
    requires i < |src|
    ensures StrNCpy(src)[i] == if 0 in src[..i + 1] then 0 else src[i]
  {
    if src[0] == 0 {
      assert src[..i + 1][0] == 0;
    } else if i > 0 {
      CopyBytes(src[1..], i - 1);
      assert src[..i + 1] == [src[0]] + src[1..][..i];
    }
  }

  /** The strings of the message lie in the buffer and come out as `topic` and `msg`. */
  ghost predicate Copied(buf: seq<byte>, p: Response, topic: seq<byte>, msg: seq<byte>)
    requires p.Publish?
  {
    && p.topic.at + p.topic.size <= |buf| && p.message.at + p.message.size <= |buf|
    && topic == StrNCpy(buf[p.topic.at..p.topic.at + p.topic.size])
    && msg == StrNCpy(buf[p.message.at..p.message.at + p.message.size])
  }

  /**
   * PUBLISH (3): delivered at once at QoS 0; acknowledged with PUBACK and then delivered at QoS 1; acknowledged with
   * PUBREC and stored for its PUBREL at QoS 2. If the acknowledgement cannot be sent, that is all that happens.
   */
  lemma PublishEffects(
      acks: seq<Waiting>, buf: seq<byte>, sz: nat, ok: bool, serial: nat, p: Response, topic: seq<byte>,
      msg: seq<byte>)
    requires Parse(buf, sz) == Got(p) && p.Publish? && Copied(buf, p, topic, msg)
    ensures Handle(acks, buf, sz, ok, serial)
         == match p.qos
            case 0 => Effects(acks, [], [], [Delivery(topic, msg, 0, p.retain)], false)
            case 1 =>
              Effects(acks, [[64, 2, 0, p.packetId % 256]], [], if ok then [Delivery(topic, msg, 1, p.retain)] else [],
                      false)
            case 2 =>
              Effects(if ok then acks + [Waiting(6, p.packetId, serial, topic, msg, p.retain)] else acks,
                      [[80, 2, 0, p.packetId % 256]], [], [], false)
            case _ => Effects(acks, [], [], [], false)
  {
    W.AckBytes(p.packetId);
    assert acks + [] == acks;
  }

  /** Strings that reach beyond the buffer are read only where they are delivered or stored. */
  lemma PublishOverrun(acks: seq<Waiting>, buf: seq<byte>, sz: nat, ok: bool, serial: nat, p: Response)
    requires Parse(buf, sz) == Got(p) && p.Publish?
    requires p.topic.at + p.topic.size > |buf| || p.message.at + p.message.size > |buf|
    ensures p.qos == 0 || (p.qos <= 2 && ok) ==> Handle(acks, buf, sz, ok, serial).fault
    ensures p.qos == 1 && !ok ==>
              Handle(acks, buf, sz, ok, serial) == Effects(acks, [[64, 2, 0, p.packetId % 256]], [], [], false)
    ensures p.qos == 2 && !ok ==>
              Handle(acks, buf, sz, ok, serial) == Effects(acks, [[80, 2, 0, p.packetId % 256]], [], [], false)
    ensures p.qos == 3 ==> Handle(acks, buf, sz, ok, serial) == Effects(acks, [], [], [], false)
  {
    W.AckBytes(p.packetId);
    assert acks + [] == acks;
  }

  // ----- everything else

  /** The types the switch does not name have no effect; without a response the program uses a null pointer. */
  lemma OtherEffects(acks: seq<Waiting>, buf: seq<byte>, sz: nat, ok: bool, serial: nat)
    ensures var r := Parse(buf, sz);
            && (r.Got? && (r.value.Connect? || r.value.Connack? || r.value.Subscribe? || r.value.Unsubscribe?
                           || r.value.Pingreq? || r.value.Disconnect?) ==>
                  Handle(acks, buf, sz, ok, serial) == Effects(acks, [], [], [], false))
            && (!r.Got? ==> Handle(acks, buf, sz, ok, serial).fault)
  {
  }

  /** From the bytes on: the answer to a client's first subscription, with one topic, reaches its callback. */
  lemma SubackFrameEffects(acks: seq<Waiting>, buf: seq<byte>, ok: bool, serial: nat, id: byte, grant: byte, k: nat)
    requires [144, 3, 0, id, grant] <= buf && FirstOfType(acks, k, 9) && acks[k].packetId == id
    ensures Handle(acks, buf, 5, ok, serial)
         == Effects(Left(acks, k), [], [Verdicts(acks[k].context, id, [grant < 4], [Reading.Level(grant)])], [], false)
  {
    assert buf[0] == 144 && buf[1] == 3 && buf[3] == id && buf[4] == grant;
    Reading.SizeRead(buf, 1, 5, 0);
    Reading.SubackRead(buf, 5, 2, 3);
    assert Reading.Verdicts(buf, 4, 1) == [grant < 4] && Reading.Levels(buf, 4, 1) == [Reading.Level(grant)];
    SubackEffects(acks, buf, 5, ok, serial, id, [grant < 4], [Reading.Level(grant)]);
  }
}
