/** libsmqttclient/smqttc.c: the blocking publisher and the blocking receiver. */
module Blocking {
  import opened Bytes
  import opened Frames
  import opened Deserializer
  import B = Builders
  import W = WireFormat

  const BUFFER_SIZE := 1024

  /** Unparsed is the bare -1; Undefined stands for reading outside the receive buffer. */
  datatype Status = OK | BadMessage | NoMessage | NotConnected | Unexpected | Invalid | Socket | Unparsed | Undefined

  /** One server_receive: nothing (0), an error (negative) or a whole frame. */
  datatype Arrival = Silence | Broken | Frame(bytes: seq<byte>)

  /** What a client sees of the network: arrivals to come, blocks sent, sends tried, the receive buffer. */
  datatype Net = Net(inbox: seq<Arrival>, outbox: seq<seq<byte>>, tries: nat, buffer: seq<byte>)

  predicate Fits(inbox: seq<Arrival>) {
    forall i :: 0 <= i < |inbox| && inbox[i].Frame? ==> 0 < |inbox[i].bytes| <= BUFFER_SIZE
  }

  ghost predicate Sound(n: Net) {
    Fits(n.inbox) && |n.buffer| == BUFFER_SIZE
  }

  function Send(n: Net, works: nat -> bool, block: seq<byte>): (r: (Net, bool))
    ensures r.0.inbox == n.inbox && r.0.buffer == n.buffer
  {
    (n.(outbox := if works(n.tries) then n.outbox + [block] else n.outbox, tries := n.tries + 1), works(n.tries))
  }

  function Receive(n: Net): (r: (Net, int))
    requires Sound(n)
    ensures Sound(r.0) && r.0.outbox == n.outbox && r.0.tries == n.tries
  {
    if n.inbox == [] then (n, 0)
    else
      var rest := n.(inbox := n.inbox[1..]);
      match n.inbox[0]
      case Silence => (rest, 0)
      case Broken => (rest, -1)
      case Frame(f) => (rest.(buffer := f + n.buffer[|f|..]), |f|)
  }

  /** server_receive, then deserialize_response whatever the former returned. */
  function Await(n: Net): (r: (Net, Decoded<Response>))
    requires Sound(n)
    ensures Sound(r.0) && r.0.outbox == n.outbox && r.0.tries == n.tries
  {
    var (m, sz) := Receive(n);
    (m, if sz < 0 then Overrun else Parse(m.buffer, sz))
  }

  // ----- smqtt_publish as a function of what the network does

  function Qos1Outcome(n: Net, id: uint16): (Net, Status)
    requires Sound(n)
  {
    var (m, r) := Await(n);
    match r
    case NullResponse => (m, BadMessage)
    case Overrun => (m, Undefined)
    case Got(resp) => (m, if resp == Puback(id) then OK else Unexpected)
  }

  function Qos2Outcome(n: Net, works: nat -> bool, id: uint16): (Net, Status)
    requires Sound(n)
  {
    var (m, r) := Await(n);
    match r
    case NullResponse => (m, Unparsed)
    case Overrun => (m, Undefined)
    case Got(resp) =>
      if resp != Pubrec(id) then (m, Unexpected)
      else
        var (sent, ok) := Send(m, works, PubrelFrame(id));
        if !ok then (sent, Socket)
        else
          var (last, final) := Await(sent);
          match final
          case NullResponse => (last, BadMessage)
          case Overrun => (last, Undefined)
          case Got(comp) => (last, if comp == Pubcomp(id) then OK else Unexpected)
  }

  /** The message has the given id, and `frame` is what make_publish_message writes for it. */
  function PublishOutcome(n: Net, works: nat -> bool, connected: bool, id: uint16, qos: nat, frame: seq<byte>)
    : (Net, Status)
    requires Sound(n)
  {
    if !connected then (n, NotConnected)
    else if qos > 2 then (n, Invalid)
    else
      var (sent, ok) := Send(n, works, frame);
      if !ok then (sent, Socket)
      else if qos == 0 then (sent, OK)
      else if qos == 1 then Qos1Outcome(sent, id)
      else Qos2Outcome(sent, works, id)
  }

  // ----- smqtt_get_next_message as a function of what the network does

  /** The out-parameters stay unset where the program does not write them. */
  datatype Next = Next(status: Status, packetId: Option<uint16>, message: Option<seq<byte>>)

  function Acknowledge(n: Net, works: nat -> bool, qos: Qos, id: uint16): (Net, Status)
    requires Sound(n)
  {
    if qos == 1 then
      var (m, ok) := Send(n, works, PubackFrame(id));
      (m, if ok then OK else Socket)
    else if qos == 2 then
      var (m, ok) := Send(n, works, PubrecFrame(id));
      if !ok then (m, Socket)
      else
        var (released, r) := Await(m);
        match r
        case NullResponse => (released, BadMessage)
        case Overrun => (released, Undefined)
        case Got(resp) =>
          if resp != Pubrel(id) then (released, Unexpected)
          else
            var (last, done) := Send(released, works, PubcompFrame(id));
            (last, if done then OK else Socket)
    else (n, OK)
  }

  function NextOutcome(n: Net, works: nat -> bool): (Net, Next)
    requires Sound(n)
  {
    var (m, sz) := Receive(n);
    if sz < 0 then (m, Next(NoMessage, None, None))
    else
      match Parse(m.buffer, sz)
      case NullResponse => (m, Next(BadMessage, None, None))
      case Overrun => (m, Next(Undefined, None, None))
      case Got(resp) => Taken(m, works, resp)
  }

  function Taken(m: Net, works: nat -> bool, resp: Response): (Net, Next)
    requires Sound(m)
  {
    if !resp.Publish? then (m, Next(Unexpected, None, None))
    else if !resp.message.In(m.buffer) then (m, Next(Undefined, None, None))
    else
      var id := if resp.packetId != 0 then Some(resp.packetId) else None;
      var (last, status) := Acknowledge(m, works, resp.qos, resp.packetId);
      (last, Next(status, id, Some(StrNCpy(resp.message.Of(m.buffer)))))
  }

  // ----- what a status means

  /** The receive buffer once the next arrival is in it. */
  function Filled(n: Net): seq<byte>
    requires Sound(n)
  {
    if n.inbox != [] && n.inbox[0].Frame? then n.inbox[0].bytes + n.buffer[|n.inbox[0].bytes|..] else n.buffer
  }

  predicate Fails(n: Net) {
    n.inbox != [] && n.inbox[0].Broken?
  }

  /** The response that arrives next; after a silence the program reads what is in the buffer. */
  function Arrived(n: Net): Decoded<Response>
    requires Sound(n)
  {
    if Fails(n) then Overrun
    else Parse(Filled(n), if n.inbox != [] && n.inbox[0].Frame? then |n.inbox[0].bytes| else 0)
  }

  /** The network after that arrival. */
  function Past(n: Net): (m: Net)
    requires Sound(n)
    ensures Sound(m)
  {
    n.(inbox := if n.inbox == [] then [] else n.inbox[1..], buffer := Filled(n))
  }

  lemma AwaitMeans(n: Net)
    requires Sound(n)
    ensures Await(n) == (Past(n), Arrived(n))
    ensures Receive(n).0 == Past(n) && (Receive(n).1 < 0 <==> Fails(n))
    ensures !Fails(n) ==> Parse(Receive(n).0.buffer, Receive(n).1) == Arrived(n)
  {
  }

  /**
   * smqtt_publish on a connected client at QoS 0 to 2, for a message with the given id and frame: `m` is the
   * network afterwards. OK means that every block was sent and every acknowledgement of this id arrived.
   */
  ghost predicate PublishMeans(
      n: Net, works: nat -> bool, id: uint16, qos: nat, frame: seq<byte>, m: Net, status: Status)
    requires Sound(n) && qos <= 2
  {
    var sent, r, t := works(n.tries), Arrived(n), n.tries;
    var halfway := qos == 2 && sent && r == Got(Pubrec(id));
    var released := halfway && works(t + 1);
    var final := Arrived(Past(n));
    && (status == OK <==>
          sent && (qos == 0 || (qos == 1 && r == Got(Puback(id))) || (released && final == Got(Pubcomp(id)))))
    && (status == Socket <==> !sent || (halfway && !released))
    && (status == BadMessage <==>
          sent && ((qos == 1 && r.NullResponse?) || (released && final.NullResponse?)))
    && (status == Unparsed <==> sent && qos == 2 && r.NullResponse?)
    && (status == Undefined <==> sent && ((qos > 0 && r.Overrun?) || (released && final.Overrun?)))
    && (status == Unexpected <==>
          sent && ((qos == 1 && r.Got? && r != Got(Puback(id))) || (qos == 2 && r.Got? && r != Got(Pubrec(id)))
                   || (released && final.Got? && final != Got(Pubcomp(id)))))
    && m.outbox == n.outbox
                   + (if sent then [frame] else [])
                   + (if released then [[98, 2, 0, id % 256]] else [])
    && m.tries == t + (if halfway then 2 else 1)
    && var heard := if !sent || qos == 0 then n else if released then Past(Past(n)) else Past(n);
       m.inbox == heard.inbox && m.buffer == heard.buffer
  }

  lemma PublishStatus(n: Net, works: nat -> bool, id: uint16, qos: nat, frame: seq<byte>)
    requires Sound(n) && qos <= 2
    ensures var (m, status) := PublishOutcome(n, works, true, id, qos, frame);
            PublishMeans(n, works, id, qos, frame, m, status)
  {
    var sent := Send(n, works, frame).0;
    SentFirst(n, works, frame);
    if works(n.tries) && qos == 1 {
      Qos1Status(sent, id);
    } else if works(n.tries) && qos == 2 {
      Qos2Status(sent, works, id);
    }
  }

  /** A send touches neither arrivals nor the receive buffer. */
  lemma SentFirst(n: Net, works: nat -> bool, block: seq<byte>)
    requires Sound(n)
    ensures var sent := Send(n, works, block).0;
            && Sound(sent) && Arrived(sent) == Arrived(n) && sent.tries == n.tries + 1
            && Past(sent).inbox == Past(n).inbox && Past(sent).buffer == Past(n).buffer
            && Past(sent).tries == n.tries + 1 && Past(sent).outbox == sent.outbox
            && sent.outbox == n.outbox + (if works(n.tries) then [block] else [])
            && Arrived(Past(sent)) == Arrived(Past(n))
            && Past(Past(sent)).inbox == Past(Past(n)).inbox && Past(Past(sent)).buffer == Past(Past(n)).buffer
  {
  }

  lemma Qos1Status(n: Net, id: uint16)
    requires Sound(n)
    ensures var (m, status) := Qos1Outcome(n, id);
            var r := Arrived(n);
            && (status == OK <==> r == Got(Puback(id))) && (status == BadMessage <==> r.NullResponse?)
            && (status == Undefined <==> r.Overrun?)
            && (status == Unexpected <==> r.Got? && r != Got(Puback(id)))
            && status in {OK, BadMessage, Undefined, Unexpected} && m == Past(n)
  {
    AwaitMeans(n);
  }

  lemma Qos2Status(n: Net, works: nat -> bool, id: uint16)
    requires Sound(n)
    ensures var (m, status) := Qos2Outcome(n, works, id);
            var r, final := Arrived(n), Arrived(Past(n));
            var halfway := r == Got(Pubrec(id));
            var released := halfway && works(n.tries);
            && (status == OK <==> released && final == Got(Pubcomp(id)))
            && (status == Socket <==> halfway && !released)
            && (status == BadMessage <==> released && final.NullResponse?)
            && (status == Unparsed <==> r.NullResponse?)
            && (status == Undefined <==> r.Overrun? || (released && final.Overrun?))
            && (status == Unexpected <==> (r.Got? && !halfway) || (released && final.Got? && final != Got(Pubcomp(id))))
            && m.outbox == n.outbox + (if released then [[98, 2, 0, id % 256]] else [])
            && m.tries == n.tries + (if halfway then 1 else 0)
            && var heard := if released then Past(Past(n)) else Past(n);
               m.inbox == heard.inbox && m.buffer == heard.buffer
  {
    AwaitMeans(n);
    W.AckBytes(id);
    var sent := Send(Past(n), works, PubrelFrame(id)).0;
    SentFirst(Past(n), works, PubrelFrame(id));
    AwaitMeans(sent);
  }

  /**
   * smqtt_get_next_message: the message is handed over if a PUBLISH arrived, and OK means that it was also
   * acknowledged as its QoS asks, at QoS 2 with the PUBREL of its id received in between.
   */
  ghost predicate NextMeans(n: Net, works: nat -> bool, m: Net, next: Next)
    requires Sound(n)
  {
    var a, r := Past(n), Arrived(n);
    if Fails(n) then m == a && next == Next(NoMessage, None, None)
    else if r.NullResponse? then m == a && next == Next(BadMessage, None, None)
    else if r.Overrun? then m == a && next == Next(Undefined, None, None)
    else if !r.value.Publish? then m == a && next == Next(Unexpected, None, None)
    else
      var p, end := r.value, r.value.message.at + r.value.message.size;
      if end > |a.buffer| then m == a && next == Next(Undefined, None, None)
      else
        && next.message == Some(StrNCpy(a.buffer[p.message.at..end]))
        && next.packetId == (if p.packetId == 0 then None else Some(p.packetId))
        && AckMeans(a, works, p.qos, p.packetId, m, next.status)
  }

  /** The acknowledgement of the message just received. */
  ghost predicate AckMeans(a: Net, works: nat -> bool, qos: Qos, id: uint16, m: Net, status: Status)
    requires Sound(a)
  {
    var sent, r, t := works(a.tries), Arrived(a), a.tries;
    var released := qos == 2 && sent && r == Got(Pubrel(id));
    var completed := released && works(t + 1);
    && (status == OK <==> (qos in {0, 3}) || (qos == 1 && sent) || completed)
    && (status == Socket <==> (qos in {1, 2} && !sent) || (released && !completed))
    && (status == BadMessage <==> qos == 2 && sent && r.NullResponse?)
    && (status == Undefined <==> qos == 2 && sent && r.Overrun?)
    && (status == Unexpected <==> qos == 2 && sent && r.Got? && r != Got(Pubrel(id)))
    && m.outbox == a.outbox
                   + (if qos == 1 && sent then [[64, 2, 0, id % 256]] else [])
                   + (if qos == 2 && sent then [[80, 2, 0, id % 256]] else [])
                   + (if completed then [[112, 2, 0, id % 256]] else [])
    && m.tries == t + (if released then 2 else if qos in {1, 2} then 1 else 0)
    && var heard := if qos == 2 && sent then Past(a) else a;
       m.inbox == heard.inbox && m.buffer == heard.buffer
  }

  lemma AckStatus(a: Net, works: nat -> bool, qos: Qos, id: uint16)
    requires Sound(a)
    ensures AckMeans(a, works, qos, id, Acknowledge(a, works, qos, id).0, Acknowledge(a, works, qos, id).1)
  {
    W.AckBytes(id);
    if qos == 2 {
      SentFirst(a, works, PubrecFrame(id));
      AckStatusQos2(a, works, id, Send(a, works, PubrecFrame(id)).0);
    } else {
      assert a.outbox + [] + [] + [] == a.outbox;
    }
  }

  lemma AckStatusQos2(a: Net, works: nat -> bool, id: uint16, sent: Net)
    requires Sound(a) && Sound(sent) && sent == Send(a, works, PubrecFrame(id)).0
    requires Arrived(sent) == Arrived(a) && Past(sent).inbox == Past(a).inbox && Past(sent).buffer == Past(a).buffer
    ensures AckMeans(a, works, 2, id, Acknowledge(a, works, 2, id).0, Acknowledge(a, works, 2, id).1)
  {
    W.AckBytes(id);
    AwaitMeans(sent);
  }

  lemma NextStatus(n: Net, works: nat -> bool)
    requires Sound(n)
    ensures NextMeans(n, works, NextOutcome(n, works).0, NextOutcome(n, works).1)
  {
    AwaitMeans(n);
    var r := Arrived(n);
    if r.Got? && r.value.Publish? {
      AckStatus(Past(n), works, r.value.qos, r.value.packetId);
    }
  }

  // ----- the implementation

  class Client {
    var connected: bool
    var publishPacketId: uint16
    const sendBuffer: array<byte>
    const receiveBuffer: array<byte>
    const works: nat -> bool
    var inbox: seq<Arrival>
    var outbox: seq<seq<byte>>
    var tries: nat

    ghost predicate Valid()
      reads this
    {
      sendBuffer != receiveBuffer && sendBuffer.Length == receiveBuffer.Length == BUFFER_SIZE && Fits(inbox)
    }

    ghost function View(): (n: Net)
      requires Valid()
      reads this, receiveBuffer
      ensures Sound(n)
    {
      Net(inbox, outbox, tries, receiveBuffer[..])
    }

    constructor (works: nat -> bool, inbox: seq<Arrival>)
      requires Fits(inbox)
      ensures Valid() && fresh(sendBuffer) && fresh(receiveBuffer)
      ensures sendBuffer.Length == 1024 && receiveBuffer.Length == 1024
      ensures connected && publishPacketId == 0 && this.works == works
      ensures this.inbox == inbox && outbox == [] && tries == 0
    {
      connected, publishPacketId := true, 0;
      sendBuffer := new byte[BUFFER_SIZE];
      receiveBuffer := new byte[BUFFER_SIZE];
      this.works, this.inbox, outbox, tries := works, inbox, [], 0;
    }

    method SendBlock(n: nat) returns (ok: bool)
      requires Valid() && n <= BUFFER_SIZE
      modifies this`outbox, this`tries
      ensures Valid() && (View(), ok) == Send(old(View()), works, old(sendBuffer[..n]))
    {
      ok := works(tries);
      if ok {
        outbox := outbox + [sendBuffer[..n]];
      }
      tries := tries + 1;
    }

    method ReceiveFrame() returns (sz: int)
      requires Valid()
      modifies this`inbox, receiveBuffer
      ensures Valid() && (View(), sz) == Receive(old(View()))
    {
      if inbox == [] {
        return 0;
      }
      var arrival := inbox[0];
      inbox := inbox[1..];
      match arrival
      case Silence => sz := 0;
      case Broken => sz := -1;
      case Frame(f) =>
        ghost var before := receiveBuffer[..];
        forall i | 0 <= i < |f| {
          receiveBuffer[i] := f[i];
        }
        assert receiveBuffer[..] == f + before[|f|..];
        sz := |f|;
    }

    method AwaitResponse() returns (r: Decoded<Response>)
      requires Valid()
      modifies this`inbox, receiveBuffer
      ensures Valid() && (View(), r) == Await(old(View()))
    {
      var sz := ReceiveFrame();
      if sz < 0 {
        return Overrun;
      }
      r := DeserializeResponse(receiveBuffer, sz);
    }

    /** The frame of a publish made now; its id is counted up first where an acknowledgement is expected. */
    ghost function NextFrame(topic: CString, msg: Option<CString>, qos: nat, retain: bool): seq<byte>
      requires qos <= 2
      reads this`publishPacketId
    {
      var id := if qos == 0 then publishPacketId else (publishPacketId + 1) % 65536;
      PublishFrame(PublishArgs(topic, id, qos, retain, msg))
    }

    /** smqtt_publish; the frame has to fit the send buffer, which the program does not check. */
    method Publish(topic: CString, msg: Option<CString>, qos: nat, retain: bool) returns (status: Status)
      requires Valid()
      requires connected && qos <= 2 ==> |NextFrame(topic, msg, qos, retain)| <= BUFFER_SIZE
      modifies this, sendBuffer, receiveBuffer
      ensures Valid() && connected == old(connected)
      ensures publishPacketId
           == if connected && qos in {1, 2} then (old(publishPacketId) + 1) % 65536 else old(publishPacketId)
      ensures !connected ==> status == NotConnected && View() == old(View())
      ensures connected && qos > 2 ==> status == Invalid && View() == old(View())
      ensures connected && qos <= 2 ==>
                var frame := PublishFrame(PublishArgs(topic, publishPacketId, qos, retain, msg));
                && PublishMeans(old(View()), works, publishPacketId, qos, frame, View(), status)
                && (View(), status) == PublishOutcome(old(View()), works, true, publishPacketId, qos, frame)
    {
      if !connected {
        return NotConnected;
      }
      if qos > 2 {
        return Invalid;
      }
      if qos > 0 {
        publishPacketId := NextId(publishPacketId);
      }
      status := PublishConnected(PublishArgs(topic, publishPacketId, qos, retain, msg));
    }

    /** The two branches of smqtt_publish that send a message. */
    method PublishConnected(a: PublishArgs) returns (status: Status)
      requires Valid() && a.qos <= 2 && a.packetId == publishPacketId && |PublishFrame(a)| <= BUFFER_SIZE
      modifies this`inbox, this`outbox, this`tries, sendBuffer, receiveBuffer
      ensures Valid() && PublishMeans(old(View()), works, a.packetId, a.qos, PublishFrame(a), View(), status)
      ensures (View(), status) == PublishOutcome(old(View()), works, true, a.packetId, a.qos, PublishFrame(a))
    {
      PublishStatus(View(), works, a.packetId, a.qos, PublishFrame(a));
      var len := B.MakePublish(sendBuffer, a);
      var ok := SendBlock(len);
      if !ok {
        return Socket;
      }
      if a.qos == 0 {
        status := OK;
      } else if a.qos == 1 {
        status := FinishQos1();
      } else {
        status := FinishQos2();
      }
    }

    method FinishQos1() returns (status: Status)
      requires Valid()
      modifies this`inbox, receiveBuffer
      ensures Valid() && (View(), status) == Qos1Outcome(old(View()), publishPacketId)
    {
      var r := AwaitResponse();
      match r
      case NullResponse => status := BadMessage;
      case Overrun => status := Undefined;
      case Got(resp) =>
        if resp.Puback? && resp.packetId == publishPacketId {
          status := OK;
        } else {
          status := Unexpected;
        }
    }

    method FinishQos2() returns (status: Status)
      requires Valid()
      modifies this`inbox, this`outbox, this`tries, sendBuffer, receiveBuffer
      ensures Valid() && (View(), status) == Qos2Outcome(old(View()), works, publishPacketId)
    {
      var r := AwaitResponse();
      match r
      case NullResponse => status := Unparsed;
      case Overrun => status := Undefined;
      case Got(resp) =>
        if !(resp.Pubrec? && resp.packetId == publishPacketId) {
          return Unexpected;
        }
        var len := B.MakePubrel(sendBuffer, publishPacketId);
        var ok := SendBlock(len);
        if !ok {
          return Socket;
        }
        var final := AwaitResponse();
        match final
        case NullResponse => status := BadMessage;
        case Overrun => status := Undefined;
        case Got(comp) =>
          if comp.Pubcomp? && comp.packetId == publishPacketId {
            status := OK;
          } else {
            status := Unexpected;
          }
    }

    /** smqtt_get_next_message */
    method GetNextMessage() returns (next: Next)
      requires Valid()
      modifies this`inbox, this`outbox, this`tries, sendBuffer, receiveBuffer
      ensures Valid() && NextMeans(old(View()), works, View(), next)
      ensures (View(), next) == NextOutcome(old(View()), works)
    {
      NextStatus(View(), works);
      var sz := ReceiveFrame();
      if sz < 0 {
        return Next(NoMessage, None, None);
      }
      var r := DeserializeResponse(receiveBuffer, sz);
      match r
      case NullResponse => next := Next(BadMessage, None, None);
      case Overrun => next := Next(Undefined, None, None);
      case Got(resp) =>
        next := TakeMessage(resp);
    }

    /** The branch of smqtt_get_next_message for a response that has been deserialised. */
    method TakeMessage(resp: Response) returns (next: Next)
      requires Valid()
      modifies this`inbox, this`outbox, this`tries, sendBuffer, receiveBuffer
      ensures Valid() && (View(), next) == Taken(old(View()), works, resp)
    {
      if !resp.Publish? {
        return Next(Unexpected, None, None);
      }
      var view := resp.message;
      if view.at + view.size > BUFFER_SIZE {
        return Next(Undefined, None, None);
      }
      var id := if resp.packetId != 0 then Some(resp.packetId) else None;
      var message := StrNCpy(receiveBuffer[view.at..view.at + view.size]);
      var status := AcknowledgeMessage(resp.qos, resp.packetId);
      next := Next(status, id, Some(message));
    }

    method AcknowledgeMessage(qos: Qos, id: uint16) returns (status: Status)
      requires Valid()
      modifies this`inbox, this`outbox, this`tries, sendBuffer, receiveBuffer
      ensures Valid() && (View(), status) == Acknowledge(old(View()), works, qos, id)
    {
      if qos == 1 {
        var len := B.MakePuback(sendBuffer, id);
        var ok := SendBlock(len);
        return if ok then OK else Socket;
      }
      if qos == 2 {
        var len := B.MakePubrec(sendBuffer, id);
        var ok := SendBlock(len);
        if !ok {
          return Socket;
        }
        var r := AwaitResponse();
        match r
        case NullResponse => return BadMessage;
        case Overrun => return Undefined;
        case Got(resp) =>
          if !(resp.Pubrel? && resp.packetId == id) {
            return Unexpected;
          }
          len := B.MakePubcomp(sendBuffer, resp.packetId);
          ok := SendBlock(len);
          return if ok then OK else Socket;
      }
      return OK;
    }
  }
}
