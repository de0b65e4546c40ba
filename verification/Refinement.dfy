/** The frame handling on bytes is a run of the session thread in the transition system. */
module Refinement {
  import opened Bytes
  import opened SizeCodec
  import opened Frames
  import opened AckQueue
  import opened Tallies
  import opened Session
  import opened Lives
  import D = Deserializer
  import H = Handling
  import R = RoundTrips
  import C = Counts
  import MtClient

  /** The packet a parsed response stands for, its strings read from the buffer. */
  function PacketOf(resp: D.Response, buf: seq<byte>): Option<Packet> {
    match resp
    case Publish(qos, retain, topic, id, message) =>
      if topic.In(buf) && message.In(buf) then Some(Publish(qos, id, topic.Of(buf), message.Of(buf), retain)) else None
    case Puback(id) => Some(Puback(id))
    case Pubrec(id) => Some(Pubrec(id))
    case Pubrel(id) => Some(Pubrel(id))
    case Pubcomp(id) => Some(Pubcomp(id))
    case Pingreq => Some(Pingreq)
    case Pingresp => Some(Pingresp)
    case _ => None
  }

  ghost predicate ReadsAs(buf: seq<byte>, sz: nat, p: Packet) {
    var r := D.Parse(buf, sz);
    r.Got? && PacketOf(r.value, buf) == Some(p)
  }

  // ----- the codec carries packets as AsRead says

  /** Strings of a length the codec can carry and without NUL characters. */
  ghost predicate Encodable(p: Packet) {
    p.Publish? ==> 0 !in p.topic && 0 !in p.msg && |p.topic| < 256 && |p.msg| < 65536
  }

  function Encode(p: Packet): seq<byte>
    requires Encodable(p)
  {
    match p
    case Publish(qos, id, topic, msg, retain) => PublishFrame(PublishArgs(topic, id, qos, retain, Some(msg)))
    case Puback(id) => PubackFrame(id)
    case Pubrec(id) => PubrecFrame(id)
    case Pubrel(id) => PubrelFrame(id)
    case Pubcomp(id) => PubcompFrame(id)
    case Pingreq => BareFrame(PINGREQ)
    case Pingresp => BareFrame(PINGRESP)
  }

  /** Deserialising a built frame yields the packet as the transition system lets it arrive. */
  lemma EncodedReadsAs(p: Packet, buf: seq<byte>)
    requires Encodable(p) && Encode(p) <= buf
    ensures ReadsAs(buf, |Encode(p)|, AsRead(p))
  {
    match p
    case Publish(qos, id, topic, msg, retain) =>
      R.PublishParsed(PublishArgs(topic, id, qos, retain, Some(msg)), buf);
    case Puback(id) => R.AckRoundTrip(id, buf);
    case Pubrec(id) => R.AckRoundTrip(id, buf);
    case Pubrel(id) => R.AckRoundTrip(id, buf);
    case Pubcomp(id) => R.AckRoundTrip(id, buf);
    case Pingreq => R.BareRoundTrip(buf);
    case Pingresp => R.BareRoundTrip(buf);
  }

  // ----- handling a frame is a run

  function Rest(s: State, ok: bool): seq<Step> {
    match s.worker
    case Calling(_) => [WorkerCallback]
    case Releasing(_) => if ok then [WorkerRelease(true), WorkerRequeue] else [WorkerRelease(false)]
    case Completing(_) => [WorkerComplete(ok)]
    case Requeueing(_) => [WorkerRequeue]
    case _ => []
  }

  /** The steps the session thread takes for the packet in its hands, undisturbed by others. */
  function ThreadSteps(s: State, ok: bool): seq<Step>
    requires s.worker.Handling?
  {
    if IsAck(s.worker.packet) then [WorkerLookup] + Rest(LookUp(s), ok)
    else [WorkerInbound(ok)] + Rest(Inbound(s, ok), ok)
  }

  /** The packets it hands to server_send on the way. */
  function Replies(s: State): seq<Packet>
    requires s.worker.Handling?
  {
    var p := s.worker.packet;
    if !IsAck(p) then (if p.Publish? && p.qos <= 2 then Reply(p, true) else [])
    else
      var t := LookUp(s);
      if t.worker.Releasing? then [Pubrel(t.worker.record.packetId)]
      else if t.worker.Completing? then [Pubcomp(t.worker.record.packetId)]
      else []
  }

  ghost predicate SentAs(blocks: seq<seq<byte>>, packets: seq<Packet>) {
    |blocks| == |packets| &&
    forall i :: 0 <= i < |packets| ==> !packets[i].Publish? && blocks[i] == Encode(packets[i])
  }

  /** The callbacks made are the ones written into the lives. */
  ghost predicate CalledAs(called: seq<H.Callback>, s: State, t: State) {
    && |t.lives| == |s.lives| && |called| <= 1
    && (forall i :: 0 <= i < |called| ==>
          called[i].Plain? && called[i].context < |t.lives| && C.EndsCalledBack(t.lives[called[i].context]))
    && (forall c :: 0 <= c < |s.lives| && H.Plain(c) !in called && C.EndsCalledBack(t.lives[c]) ==>
          C.EndsCalledBack(s.lives[c]))
  }

  ghost predicate DeliveredAs(delivered: seq<H.Delivery>, s: State, t: State) {
    && |delivered| <= 1
    && (delivered != [] ==> exists c :: DeliveredAt(delivered[0], s, t, c))
    && (delivered == [] ==> forall c :: !JustDelivered(s, t, c))
  }

  ghost predicate JustDelivered(s: State, t: State, c: nat) {
    && c < |t.heard| && t.heard[c].events != [] && t.heard[c].events[|t.heard[c].events| - 1].Delivered?
    && (c < |s.heard| ==> s.heard[c] != t.heard[c])
  }

  ghost predicate DeliveredAt(d: H.Delivery, s: State, t: State, c: nat) {
    && JustDelivered(s, t, c)
    && t.heard[c].events[|t.heard[c].events| - 1] == Delivered(d.topic, d.msg, d.retain)
    && t.heard[c].packet.Publish? && t.heard[c].packet.qos == d.qos
  }

  ghost predicate Performs(s: State, t: State, e: H.Effects, ok: bool)
    requires s.worker.Handling?
  {
    && !e.fault && t.worker.Top? && t.ackQueue == e.acks
    && SentAs(e.sent, Replies(s)) && t.up == s.up + (if ok then Replies(s) else [])
    && CalledAs(e.called, s, t) && DeliveredAs(e.delivered, s, t)
  }

  lemma TwoSteps(s: State, a: Step, rest: seq<Step>)
    requires Enabled(s, a) && Legal(Do(s, a), rest)
    ensures Legal(s, [a] + rest) && Run(s, [a] + rest) == Run(Do(s, a), rest)
  {
    assert ([a] + rest)[1..] == rest;
  }

  lemma OneStep(s: State, a: Step)
    requires Enabled(s, a)
    ensures Legal(s, [a]) && Run(s, [a]) == Do(s, a)
  {
    assert [a][1..] == [];
  }

  /** An acknowledgement without a record: nothing happens. */
  lemma MissRefines(s: State, ok: bool, e: H.Effects)
    requires s.worker.Handling? && IsAck(s.worker.packet) && LookUp(s).worker.Top? && e == H.Nothing(s.ackQueue)
    requires !Lookup(s.ackQueue, AckKey(s.worker.packet).0, AckKey(s.worker.packet).1).FoundAt?
    ensures var steps := ThreadSteps(s, ok); Legal(s, steps) && Performs(s, Run(s, steps), e, ok)
  {
    TwoSteps(s, WorkerLookup, []);
    assert s.up + [] == s.up;
  }

  lemma CallRefines(s: State, ok: bool, k: nat, e: H.Effects)
    requires Told(s) && s.worker.Handling? && IsAck(s.worker.packet) && k < |s.ackQueue|
    requires Lookup(s.ackQueue, AckKey(s.worker.packet).0, AckKey(s.worker.packet).1) == FoundAt(k)
    requires s.worker.packet.Puback? || s.worker.packet.Pubcomp? || s.worker.packet.Pingresp?
    requires e == H.Effects(Without(s.ackQueue, k), [], [H.Plain(s.ackQueue[k].context)], [], false)
    ensures var steps := ThreadSteps(s, ok); Legal(s, steps) && Performs(s, Run(s, steps), e, ok)
  {
    var t := LookUp(s);
    assert RecordOk(s, s.ackQueue[k]);
    OneStep(t, WorkerCallback);
    TwoSteps(s, WorkerLookup, [WorkerCallback]);
    assert s.up + [] == s.up;
  }

  /** The state after a matched PUBREC: one way if PUBREL was sent, the other if not. */
  function AfterRelease(t: State, ok: bool): State
    requires t.worker.Releasing?
  {
    var w := t.worker.record;
    if ok then
      t.(worker := Top, up := t.up + [Pubrel(w.packetId)], lives := Live(t, w.context, PubrelSent(w.packetId)),
         ackQueue := t.ackQueue + [w.(messageType := PUBCOMP)])
    else t.(worker := Top, lives := Live(t, w.context, PubrelLost(w.packetId)))
  }

  lemma ReleaseRuns(t: State, ok: bool)
    requires t.worker.Releasing? && t.worker.record.context < |t.lives|
    ensures Legal(t, Rest(t, ok)) && Run(t, Rest(t, ok)) == AfterRelease(t, ok)
  {
    if ok {
      OneStep(Release(t, true), WorkerRequeue);
      TwoSteps(t, WorkerRelease(true), [WorkerRequeue]);
      assert [WorkerRelease(true)] + [WorkerRequeue] == [WorkerRelease(true), WorkerRequeue];
    } else {
      OneStep(t, WorkerRelease(false));
    }
  }

  lemma ReleasePerforms(s: State, t: State, ok: bool, k: nat, e: H.Effects)
    requires s.worker.Handling? && s.worker.packet.Pubrec? && k < |s.ackQueue|
    requires Lookup(s.ackQueue, PUBREC, s.worker.packet.packetId) == FoundAt(k) && t == LookUp(s)
    requires e == H.Released(s.ackQueue, s.worker.packet.packetId, ok)
    ensures t.worker.Releasing? && Performs(s, AfterRelease(t, ok), e, ok)
  {
    assert Without(s.ackQueue, k) + [] == Without(s.ackQueue, k) && s.up + [] == s.up;
  }

  lemma ReleaseRefines(s: State, ok: bool, k: nat, e: H.Effects)
    requires Told(s) && s.worker.Handling? && s.worker.packet.Pubrec? && k < |s.ackQueue|
    requires Lookup(s.ackQueue, PUBREC, s.worker.packet.packetId) == FoundAt(k)
    requires e == H.Released(s.ackQueue, s.worker.packet.packetId, ok)
    ensures var steps := ThreadSteps(s, ok); Legal(s, steps) && Performs(s, Run(s, steps), e, ok)
  {
    var t := LookUp(s);
    assert RecordOk(s, s.ackQueue[k]);
    ReleasePerforms(s, t, ok, k, e);
    ReleaseRuns(t, ok);
    TwoSteps(s, WorkerLookup, Rest(t, ok));
  }

  lemma CompletePerforms(s: State, t: State, ok: bool, k: nat, e: H.Effects)
    requires Told(s) && s.worker.Handling? && s.worker.packet.Pubrel? && k < |s.ackQueue|
    requires Lookup(s.ackQueue, PUBREL, s.worker.packet.packetId) == FoundAt(k) && t == LookUp(s)
    requires e == H.Completed(s.ackQueue, s.worker.packet.packetId, ok)
    ensures t.worker.Completing? && t.worker.record.context < |t.heard| && Performs(s, Complete(t, ok), e, ok)
  {
    var w := s.ackQueue[k];
    assert RecordOk(s, w);
    if ok {
      assert DeliveredAt(e.delivered[0], s, Complete(t, ok), w.context);
    }
    assert s.up + [] == s.up;
  }

  lemma CompleteRefines(s: State, ok: bool, k: nat, e: H.Effects)
    requires Told(s) && s.worker.Handling? && s.worker.packet.Pubrel? && k < |s.ackQueue|
    requires Lookup(s.ackQueue, PUBREL, s.worker.packet.packetId) == FoundAt(k)
    requires e == H.Completed(s.ackQueue, s.worker.packet.packetId, ok)
    ensures var steps := ThreadSteps(s, ok); Legal(s, steps) && Performs(s, Run(s, steps), e, ok)
  {
    var t := LookUp(s);
    CompletePerforms(s, t, ok, k, e);
    OneStep(t, WorkerComplete(ok));
    TwoSteps(s, WorkerLookup, [WorkerComplete(ok)]);
  }

  lemma InboundRefines(s: State, ok: bool, e: H.Effects)
    requires s.worker.Handling? && s.worker.packet.Publish? && s.worker.packet.qos <= 2
    requires var p := s.worker.packet;
             var d := H.Delivery(StrNCpy(p.topic), StrNCpy(p.msg), p.qos, p.retain);
             e == H.Effects(
               s.ackQueue + (if p.qos == 2 && ok then [StoredRecord(p, |s.heard|)] else []),
               if p.qos == 0 then [] else [if p.qos == 1 then PubackFrame(p.packetId) else PubrecFrame(p.packetId)],
               [],
               if p.qos == 0 || (p.qos == 1 && ok) then [d] else [],
               false)
    ensures var steps := ThreadSteps(s, ok); Legal(s, steps) && Performs(s, Run(s, steps), e, ok)
  {
    var p, t := s.worker.packet, Inbound(s, ok);
    if p.qos == 2 && ok { OneStep(t, WorkerRequeue); }
    TwoSteps(s, WorkerInbound(ok), Rest(t, ok));
    var last := Run(s, ThreadSteps(s, ok));
    assert last.heard == s.heard + [Heard(p, FirstHearing(p, ok))];
    if e.delivered != [] {
      assert DeliveredAt(e.delivered[0], s, last, |s.heard|);
    }
    assert s.up + [] == s.up && s.ackQueue + [] == s.ackQueue;
  }

  /** A PINGREQ, or a PUBLISH with QoS bits that stand for no QoS: nothing happens. */
  lemma IgnoredRefines(s: State, ok: bool, e: H.Effects)
    requires s.worker.Handling? && (s.worker.packet.Pingreq? || (s.worker.packet.Publish? && s.worker.packet.qos > 2))
    requires e == H.Nothing(s.ackQueue)
    ensures var steps := ThreadSteps(s, ok); Legal(s, steps) && Performs(s, Run(s, steps), e, ok)
  {
    TwoSteps(s, WorkerInbound(ok), []);
    assert s.up + [] == s.up;
  }

  /**
   * What the program does with a frame on its heap and buffers is what the transition system does with the
   * packet the frame stands for: queue, replies, callbacks and deliveries all agree.
   */
  lemma HandlingRefines(s: State, buf: seq<byte>, sz: nat, ok: bool)
    requires Told(s) && s.worker.Handling? && ReadsAs(buf, sz, s.worker.packet)
    ensures var steps := ThreadSteps(s, ok);
            Legal(s, steps) && Performs(s, Run(s, steps), H.Handle(s.ackQueue, buf, sz, ok, |s.heard|), ok)
  {
    var p, resp := s.worker.packet, D.Parse(buf, sz).value;
    var e := H.Dispatch(s.ackQueue, buf, resp, ok, |s.heard|);
    assert H.Handle(s.ackQueue, buf, sz, ok, |s.heard|) == e;
    DispatchRefines(s, buf, resp, ok);
  }

  lemma DispatchRefines(s: State, buf: seq<byte>, resp: D.Response, ok: bool)
    requires Told(s) && s.worker.Handling? && PacketOf(resp, buf) == Some(s.worker.packet)
    ensures var steps := ThreadSteps(s, ok);
            Legal(s, steps) && Performs(s, Run(s, steps), H.Dispatch(s.ackQueue, buf, resp, ok, |s.heard|), ok)
  {
    var p := s.worker.packet;
    var e := H.Dispatch(s.ackQueue, buf, resp, ok, |s.heard|);
    if p.Pingreq? || (p.Publish? && p.qos > 2) {
      IgnoredRefines(s, ok, e);
    } else if p.Publish? {
      assert s.ackQueue + [] == s.ackQueue;
      InboundRefines(s, ok, e);
    } else {
      var r := Lookup(s.ackQueue, AckKey(p).0, AckKey(p).1);
      if !r.FoundAt? {
        MissRefines(s, ok, e);
      } else if p.Pubrec? {
        ReleaseRefines(s, ok, r.index, e);
      } else if p.Pubrel? {
        CompleteRefines(s, ok, r.index, e);
      } else {
        CallRefines(s, ok, r.index, e);
      }
    }
  }

  // ----- smqtt_mt_publish is a run of the application thread

  function PublishSteps(qos: Qos, topic: seq<byte>, msg: seq<byte>, retain: bool): seq<Step> {
    [AppPublish(qos, topic, msg, retain)] + (if qos == 0 then [] else [AppEnqueueWaiting]) + [AppEnqueueSlot]
  }

  /**
   * The steps of smqtt_mt_publish leave what the call on the heap promises: the record, the counted id and,
   * at the end of the send queue, a packet whose frame reads back as that packet.
   */
  lemma PublishIsARun(s: State, qos: Qos, topic: CString, msg: CString, retain: bool, buf: seq<byte>)
    requires s.app.AppIdle? && !s.stopping && qos <= 2 && |topic| < 256 && |msg| < 65536
    requires PublishFrame(PublishArgs(topic, s.nextId, qos, retain, Some(msg))) <= buf
    ensures var steps, id := PublishSteps(qos, topic, msg, retain), s.nextId;
            Legal(s, steps) &&
            var t := Run(s, steps);
            && t.app.AppIdle? && |t.sendQueue| == |s.sendQueue| + 1 && s.sendQueue <= t.sendQueue
            && ReadsAs(buf, |PublishFrame(PublishArgs(topic, id, qos, retain, Some(msg)))|, t.sendQueue[|s.sendQueue|])
            && t.ackQueue == s.ackQueue + MtClient.Client.Record(qos, id, |s.lives|)
            && t.nextId == (if qos == 0 then id else NextId(id))
  {
    var p := Publish(qos, s.nextId, topic, msg, retain);
    var asked := Do(s, AppPublish(qos, topic, msg, retain));
    EncodedReadsAs(p, buf);
    if qos == 0 {
      OneStep(asked, AppEnqueueSlot);
      TwoSteps(s, AppPublish(qos, topic, msg, retain), [AppEnqueueSlot]);
      assert PublishSteps(qos, topic, msg, retain) == [AppPublish(qos, topic, msg, retain)] + [AppEnqueueSlot];
      assert s.ackQueue + [] == s.ackQueue;
    } else {
      var registered := Register(asked);
      OneStep(registered, AppEnqueueSlot);
      TwoSteps(asked, AppEnqueueWaiting, [AppEnqueueSlot]);
      TwoSteps(s, AppPublish(qos, topic, msg, retain), [AppEnqueueWaiting] + [AppEnqueueSlot]);
      assert PublishSteps(qos, topic, msg, retain)
          == [AppPublish(qos, topic, msg, retain)] + ([AppEnqueueWaiting] + [AppEnqueueSlot]);
    }
  }

  /** The same for smqtt_mt_ping: a waiting record for the PINGRESP, and the two bytes of a PINGREQ to be sent. */
  lemma PingIsARun(s: State, buf: seq<byte>)
    requires s.app.AppIdle? && !s.stopping && [192, 0] <= buf
    ensures var steps := [AppPing, AppEnqueueWaiting, AppEnqueueSlot];
            Legal(s, steps) &&
            var t := Run(s, steps);
            && t.app.AppIdle? && t.sendQueue == s.sendQueue + [Pingreq] && ReadsAs(buf, 2, Pingreq)
            && t.ackQueue == s.ackQueue + [Waiting(13, 0, |s.lives|, [], [], false)] && t.nextId == s.nextId
  {
    R.BareRoundTrip(buf);
    var asked := Do(s, AppPing);
    OneStep(Register(asked), AppEnqueueSlot);
    TwoSteps(asked, AppEnqueueWaiting, [AppEnqueueSlot]);
    TwoSteps(s, AppPing, [AppEnqueueWaiting] + [AppEnqueueSlot]);
    assert [AppPing, AppEnqueueWaiting, AppEnqueueSlot] == [AppPing] + ([AppEnqueueWaiting] + [AppEnqueueSlot]);
  }
}
