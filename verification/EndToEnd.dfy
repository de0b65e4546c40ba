/** smqtt_publish on one side, smqtt_get_next_message on the other, nothing but the wire between them. */
module EndToEnd {
  import opened Bytes
  import opened SizeCodec
  import opened Frames
  import opened Deserializer
  import opened RoundTrips
  import opened Blocking
  import W = WireFormat

  /** Each block that one side sends arrives as one frame at the other side. */
  function Arriving(blocks: seq<seq<byte>>): (a: seq<Arrival>)
    ensures |a| == |blocks| && forall i :: 0 <= i < |a| ==> a[i] == Frame(blocks[i])
  {
    seq(|blocks|, i requires 0 <= i < |blocks| => Frame(blocks[i]))
  }

  /** A published message and the two networks it passes through. */
  datatype Exchange = Exchange(
    sender: Net, receiver: Net, id: uint16, topic: CString, msg: Option<CString>, qos: nat, retain: bool) {
    /** The id of the message: one more than the last one used, where an acknowledgement is expected. */
    function Used(): uint16 {
      if qos == 0 then id else (id + 1) % 65536
    }

    function Args(): PublishArgs
      requires qos <= 2
    {
      PublishArgs(topic, Used(), qos, retain, msg)
    }
  }

  function AllWorks(): nat -> bool {
    (i: nat) => true
  }

  ghost predicate Ready(x: Exchange) {
    && Sound(x.sender) && Sound(x.receiver) && x.sender.outbox == x.receiver.outbox == []
    && x.qos <= 2 && |PublishFrame(x.Args())| <= BUFFER_SIZE
  }

  function SenderSide(x: Exchange): (Net, Status)
    requires Sound(x.sender) && x.qos <= 2
  {
    PublishOutcome(x.sender, AllWorks(), true, x.Used(), x.qos, PublishFrame(x.Args()))
  }

  function ReceiverSide(x: Exchange): (Net, Next)
    requires Sound(x.receiver)
  {
    NextOutcome(x.receiver, AllWorks())
  }

  /** Each side receives exactly what the other one sends. */
  ghost predicate Wired(x: Exchange)
    requires Sound(x.sender) && Sound(x.receiver) && x.qos <= 2
  {
    && x.receiver.inbox == Arriving(SenderSide(x).0.outbox)
    && x.sender.inbox == Arriving(ReceiverSide(x).0.outbox)
  }

  /** Both calls return OK, the message is the one published and so is the id, where there is one. */
  ghost predicate Transferred(x: Exchange)
    requires Sound(x.sender) && Sound(x.receiver) && x.qos <= 2
  {
    var next := ReceiverSide(x).1;
    && SenderSide(x).1 == OK && next.status == OK
    && next.message == Some(Text(x.msg))
    && (x.qos >= 1 ==> next.packetId == Some((x.id + 1) % 65536))
  }

  /** What a caller can check: the topic and the id fit one byte each, and the id is not 0. */
  predicate Carriable(x: Exchange) {
    |x.topic| < 256 && (x.qos >= 1 ==> 1 <= (x.id + 1) % 65536 < 256)
  }

  lemma NoZeroCopies(s: seq<byte>)
    requires 0 !in s
    ensures StrNCpy(s) == s
  {
    StrNCpyCopies(s);
  }

  /** The receive buffer after a frame has arrived starts with that frame. */
  lemma Arrives(n: Net, f: seq<byte>)
    requires Sound(n) && n.inbox != [] && n.inbox[0] == Frame(f) && 0 < |f| <= BUFFER_SIZE
    ensures var (m, sz) := Receive(n);
            m.inbox == n.inbox[1..] && sz == |f| && f <= m.buffer
  {
  }

  lemma AckArrives(n: Net, f: seq<byte>, id: uint16, resp: Response)
    requires Sound(n) && n.inbox != [] && n.inbox[0] == Frame(f) && id < 256
    requires (f == PubackFrame(id) && resp == Puback(id)) || (f == PubrecFrame(id) && resp == Pubrec(id))
          || (f == PubrelFrame(id) && resp == Pubrel(id)) || (f == PubcompFrame(id) && resp == Pubcomp(id))
    ensures Await(n).1 == Got(resp) && Await(n).0.inbox == n.inbox[1..]
    ensures Arrived(n) == Got(resp)
  {
    AwaitMeans(n);
    Arrives(n, f);
    AckRoundTrip(id, Receive(n).0.buffer);
  }

  /** The first thing on the wire is the PUBLISH frame, whatever comes back. */
  lemma FirstBlock(x: Exchange)
    requires Ready(x)
    ensures SenderSide(x).0.outbox != [] && SenderSide(x).0.outbox[0] == PublishFrame(x.Args())
  {
  }

  /** What the receiver makes of the frame: the fields as far as a byte carries them. */
  lemma FirstArrival(x: Exchange)
    requires Ready(x) && Wired(x)
    ensures var (m, sz) := Receive(x.receiver);
            && x.receiver.inbox != [] && x.receiver.inbox[0] == Frame(PublishFrame(x.Args()))
            && sz == |PublishFrame(x.Args())| && PublishFrame(x.Args()) <= m.buffer
            && m.inbox == x.receiver.inbox[1..] && m.outbox == [] && m.tries == x.receiver.tries
  {
    FirstBlock(x);
    Arrives(x.receiver, PublishFrame(x.Args()));
  }

  /** The receiver has the message, and its first answer is the acknowledgement the QoS asks for. */
  lemma ReceiverHears(x: Exchange)
    requires Ready(x) && Carriable(x)
    requires x.receiver.inbox != [] && x.receiver.inbox[0] == Frame(PublishFrame(x.Args()))
    ensures var id := if x.qos >= 1 then x.Used() else 0;
            var (last, status) := Acknowledge(Receive(x.receiver).0, AllWorks(), x.qos, id);
            ReceiverSide(x) == (last, Next(status, if x.qos >= 1 then Some(id) else None, Some(Text(x.msg))))
  {
    HeardFrom(x.receiver, x.Args());
  }

  /** The same of any receiver that such a frame reaches. */
  lemma HeardFrom(n: Net, a: PublishArgs)
    requires Sound(n) && n.inbox != [] && n.inbox[0] == Frame(PublishFrame(a))
    requires |PublishFrame(a)| <= BUFFER_SIZE && |a.topic| < 256 && (a.qos >= 1 ==> 1 <= a.packetId < 256)
    ensures var id := if a.qos >= 1 then a.packetId else 0;
            var (last, status) := Acknowledge(Receive(n).0, AllWorks(), a.qos, id);
            NextOutcome(n, AllWorks()) == (last, Next(status, if a.qos >= 1 then Some(id) else None, Some(Text(a.msg))))
  {
    Arrives(n, PublishFrame(a));
    var p := FieldsHeard(a, Receive(n).0.buffer);
    MessageTaken(n, AllWorks(), p);
  }

  lemma FieldsHeard(a: PublishArgs, buf: seq<byte>) returns (p: Response)
    requires PublishFrame(a) <= buf && |PublishFrame(a)| <= BUFFER_SIZE
    requires |a.topic| < 256 && (a.qos >= 1 ==> a.packetId < 256)
    ensures Parse(buf, |PublishFrame(a)|) == Got(p) && p.Publish? && p.qos == a.qos
    ensures p.packetId == (if a.qos >= 1 then a.packetId else 0)
    ensures p.message.In(buf) && StrNCpy(p.message.Of(buf)) == Text(a.msg)
  {
    PublishRoundTrip(a, buf);
    NoZeroCopies(Text(a.msg));
    p := Parse(buf, |PublishFrame(a)|).value;
  }

  lemma MessageTaken(n: Net, works: nat -> bool, p: Response)
    requires Sound(n) && p.Publish? && p.message.In(Receive(n).0.buffer)
    requires Receive(n).1 >= 0 && Parse(Receive(n).0.buffer, Receive(n).1) == Got(p)
    ensures var m := Receive(n).0;
            var (last, status) := Acknowledge(m, works, p.qos, p.packetId);
            NextOutcome(n, works)
            == (last, Next(status, if p.packetId == 0 then None else Some(p.packetId),
                           Some(StrNCpy(p.message.Of(m.buffer)))))
  {
  }

  // ----- the three handshakes

  /** What the sender's status and blocks say about what it sent and heard. */
  lemma SenderMeans(x: Exchange)
    requires Ready(x)
    ensures PublishMeans(x.sender, AllWorks(), x.Used(), x.qos, PublishFrame(x.Args()),
                         SenderSide(x).0, SenderSide(x).1)
  {
    PublishStatus(x.sender, AllWorks(), x.Used(), x.qos, PublishFrame(x.Args()));
  }

  lemma TransferQos0(x: Exchange)
    requires Ready(x) && Wired(x) && Carriable(x) && x.qos == 0
    ensures Transferred(x)
  {
    FirstArrival(x);
    ReceiverHears(x);
  }

  lemma TransferQos1(x: Exchange)
    requires Ready(x) && Wired(x) && Carriable(x) && x.qos == 1
    ensures Transferred(x)
  {
    var id := x.Used();
    FirstArrival(x);
    ReceiverHears(x);
    assert ReceiverSide(x).0.outbox == [PubackFrame(id)];
    AckArrives(x.sender, PubackFrame(id), id, Puback(id));
    SenderMeans(x);
  }

  /** The receiver's half of a QoS 2 exchange up to its wait for the PUBREL. */
  lemma PubrecFirst(x: Exchange)
    requires Ready(x) && Wired(x) && Carriable(x) && x.qos == 2
    ensures var id := x.Used();
            var m := Receive(x.receiver).0;
            var out := ReceiverSide(x).0.outbox;
            && Send(m, AllWorks(), PubrecFrame(id)).0.outbox == [PubrecFrame(id)]
            && out != [] && out[0] == PubrecFrame(id)
  {
    FirstArrival(x);
    ReceiverHears(x);
  }

  /** So the sender answers with the PUBREL. */
  lemma PubrelSecond(x: Exchange)
    requires Ready(x) && Wired(x) && Carriable(x) && x.qos == 2
    ensures var id := x.Used();
            && Arrived(x.sender) == Got(Pubrec(id)) && x.sender.inbox != []
            && SenderSide(x).0.outbox == [PublishFrame(x.Args()), PubrelFrame(id)]
  {
    var id := x.Used();
    PubrecFirst(x);
    AckArrives(x.sender, PubrecFrame(id), id, Pubrec(id));
    SenderMeans(x);
    W.AckBytes(id);
  }

  /** So the receiver completes the exchange. */
  lemma PubcompThird(x: Exchange)
    requires Ready(x) && Wired(x) && Carriable(x) && x.qos == 2
    ensures var id := x.Used();
            ReceiverSide(x).0.outbox == [PubrecFrame(id), PubcompFrame(id)] && ReceiverSide(x).1.status == OK
  {
    var id := x.Used();
    FirstArrival(x);
    ReceiverHears(x);
    PubrelSecond(x);
    var m := Send(Receive(x.receiver).0, AllWorks(), PubrecFrame(id)).0;
    assert m.inbox[0] == x.receiver.inbox[1] == Frame(PubrelFrame(id));
    AckArrives(m, PubrelFrame(id), id, Pubrel(id));
  }

  lemma TransferQos2(x: Exchange)
    requires Ready(x) && Wired(x) && Carriable(x) && x.qos == 2
    ensures Transferred(x)
  {
    var id := x.Used();
    FirstArrival(x);
    ReceiverHears(x);
    PubrelSecond(x);
    PubcompThird(x);
    assert Past(x.sender).inbox[0] == x.sender.inbox[1] == Frame(PubcompFrame(id));
    AckArrives(Past(x.sender), PubcompFrame(id), id, Pubcomp(id));
    SenderMeans(x);
  }

  // ----- and nothing else gets through

  lemma ShiftedMessage(a: PublishArgs, buf: seq<byte>, offset: nat)
    requires 0 < |buf| && buf[0] == Header(PUBLISH, 2 * a.qos + Bit(a.retain)) && Holds(buf, offset, PublishBody(a))
    requires 256 <= |a.topic| <= BUFFER_SIZE && |Text(a.msg)| <= BUFFER_SIZE
    ensures var r := ParsePublish(buf, offset, PublishLength(a));
            r.Got? ==> r.value.Publish? && r.value.message.size != |Text(a.msg)|
  {
    PublishFields(a, buf, offset);
    PublishHeader(a.qos, a.retain);
    var size := |a.topic| % 256;
    assert 0 < |a.topic| - size;
  }

  lemma SmallFrame(a: PublishArgs)
    requires |PublishFrame(a)| <= BUFFER_SIZE
    ensures |a.topic| <= BUFFER_SIZE && |Text(a.msg)| <= BUFFER_SIZE && PublishLength(a) < SIZE_LIMIT
  {
    assert |PublishFrame(a)| >= |PublishBody(a)| == 2 + |a.topic| + |IdField(a)| + |Text(a.msg)|;
  }

  /** A topic length that does not fit its byte shifts the message. */
  lemma LongTopic(a: PublishArgs, buf: seq<byte>)
    requires PublishFrame(a) <= buf && 256 <= |a.topic| && |PublishFrame(a)| <= BUFFER_SIZE
    ensures var r := Parse(buf, |PublishFrame(a)|);
            r.Got? && r.value.Publish? ==> r.value.message.size != |Text(a.msg)|
  {
    var offset := 1 + |SizeField(PublishLength(a))|;
    SmallFrame(a);
    PublishFrameParts(a, buf);
    ShiftedMessage(a, buf, offset);
  }

  lemma NothingElseTransfers(x: Exchange)
    requires Ready(x) && Wired(x) && Transferred(x)
    ensures Carriable(x)
  {
    FirstArrival(x);
    var buf := Receive(x.receiver).0.buffer;
    if |x.topic| >= 256 {
      LongTopic(x.Args(), buf);
    } else {
      PublishParsed(x.Args(), buf);
    }
  }

  /**
   * The end-to-end law: when the two calls exchange their blocks directly and every send works, both report
   * OK and the receiver gets exactly what was published, if and only if topic and id fit their bytes.
   */
  lemma PublishReachesReceiver(x: Exchange)
    requires Ready(x) && Wired(x)
    ensures Transferred(x) <==> Carriable(x)
  {
    if Carriable(x) {
      if x.qos == 0 { TransferQos0(x); } else if x.qos == 1 { TransferQos1(x); } else { TransferQos2(x); }
    } else if Transferred(x) {
      NothingElseTransfers(x);
    }
  }

  // ----- such an exchange exists

  function Scripted(x: Exchange): Exchange
    requires x.qos <= 2
  {
    var id := x.Used();
    var back := if x.qos == 0 then [] else if x.qos == 1 then [PubackFrame(id)]
                else [PubrecFrame(id), PubcompFrame(id)];
    var forth := [PublishFrame(x.Args())] + (if x.qos == 2 then [PubrelFrame(id)] else []);
    x.(sender := x.sender.(inbox := Arriving(back)), receiver := x.receiver.(inbox := Arriving(forth)))
  }

  lemma ScriptedReady(x: Exchange)
    requires Ready(x)
    ensures Ready(Scripted(x)) && Scripted(x).Args() == x.Args() && (Carriable(Scripted(x)) <==> Carriable(x))
  {
  }

  lemma ScriptedReceiver(x: Exchange)
    requires Ready(x) && Carriable(x)
    ensures var y := Scripted(x); y.sender.inbox == Arriving(ReceiverSide(y).0.outbox)
  {
    var y, id := Scripted(x), x.Used();
    ScriptedReady(x);
    Arrives(y.receiver, PublishFrame(x.Args()));
    var m := Receive(y.receiver).0;
    PublishRoundTrip(x.Args(), m.buffer);
    if x.qos == 2 {
      var n := Send(m, AllWorks(), PubrecFrame(id)).0;
      AckArrives(n, PubrelFrame(id), id, Pubrel(id));
    }
  }

  lemma ScriptedSender(x: Exchange)
    requires Ready(x) && Carriable(x)
    ensures var y := Scripted(x); y.receiver.inbox == Arriving(SenderSide(y).0.outbox)
  {
    var y, id := Scripted(x), x.Used();
    ScriptedReady(x);
    SenderMeans(y);
    if x.qos == 2 {
      AckArrives(y.sender, PubrecFrame(id), id, Pubrec(id));
      W.AckBytes(id);
      assert SenderSide(y).0.outbox == [PublishFrame(x.Args())] + [PubrelFrame(id)];
    } else {
      assert SenderSide(y).0.outbox == [PublishFrame(x.Args())];
    }
  }

  /** The premise of the law can be met: the scripted arrivals are the blocks the two sides send. */
  lemma ExchangeExists(x: Exchange)
    requires Ready(x) && Carriable(x)
    ensures Ready(Scripted(x)) && Wired(Scripted(x)) && Transferred(Scripted(x))
  {
    var y := Scripted(x);
    ScriptedReady(x);
    ScriptedReceiver(x);
    ScriptedSender(x);
    WiredTransfers(y);
  }

  lemma WiredTransfers(y: Exchange)
    requires Ready(y) && Carriable(y)
    requires y.receiver.inbox == Arriving(SenderSide(y).0.outbox)
    requires y.sender.inbox == Arriving(ReceiverSide(y).0.outbox)
    ensures Wired(y) && Transferred(y)
  {
    PublishReachesReceiver(y);
  }

  // ----- and one that is wired and transfers nothing

  /** At QoS 1 the receiver acknowledges the low byte of the id. */
  function Crossed(x: Exchange): Exchange
    requires x.qos == 1
  {
    var ack := PubackFrame(x.Used() % 256);
    x.(sender := x.sender.(inbox := Arriving([ack])),
       receiver := x.receiver.(inbox := Arriving([PublishFrame(x.Args())])))
  }

  /**
   * The 256th publish at QoS 1, and every other whose id does not fit a byte: the blocks are exchanged, the
   * receiver reports OK, and the sender does not take the acknowledgement for its own.
   */
  lemma WideIdFails(x: Exchange)
    requires Ready(x) && x.qos == 1 && |x.topic| < 256 && x.Used() >= 256
    ensures var y := Crossed(x);
            && Ready(y) && Wired(y) && !Carriable(y) && !Transferred(y)
            && ReceiverSide(y).1.status == OK && SenderSide(y).1 == Unexpected
  {
    var y, low := Crossed(x), x.Used() % 256;
    assert Ready(y) && y.Args() == x.Args();
    CrossedReceiver(x);
    AckArrives(y.sender, PubackFrame(low), low, Puback(low));
    SenderMeans(y);
  }

  lemma CrossedReceiver(x: Exchange)
    requires Ready(x) && x.qos == 1 && |x.topic| < 256 && x.Used() >= 256
    ensures var y := Crossed(x);
            ReceiverSide(y).0.outbox == [PubackFrame(x.Used() % 256)] && ReceiverSide(y).1.status == OK
  {
    var y := Crossed(x);
    Arrives(y.receiver, PublishFrame(x.Args()));
    SmallFrame(x.Args());
    PublishParsed(x.Args(), Receive(y.receiver).0.buffer);
  }

  /** Such an exchange exists: the id counter stands at 255. */
  lemma Id256NotTransferred(x: Exchange)
    requires Sound(x.sender) && Sound(x.receiver) && x.sender.outbox == x.receiver.outbox == []
    requires x.id == 255 && x.topic == [] && x.msg == None && x.qos == 1
    ensures Ready(x) && Wired(Crossed(x)) && !Carriable(Crossed(x)) && !Transferred(Crossed(x))
  {
    SmallField(PublishLength(x.Args()));
    assert |PublishFrame(x.Args())| == 6;
    WideIdFails(x);
  }
}
