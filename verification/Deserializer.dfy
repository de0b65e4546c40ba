/** libsmqttcore/messages.c: deserialize_response, whose strings are pointers into the buffer it reads. */
module Deserializer {
  import opened Bytes
  import opened SizeCodec
  import opened Frames

  /** A pointer into the buffer and a length, as response_t stores strings. */
  datatype View = View(at: nat, size: nat) {
    predicate In(buf: seq<byte>) {
      at + size <= |buf|
    }

    function Of(buf: seq<byte>): (s: seq<byte>)
      requires In(buf)
    {
      buf[at..at + size]
    }
  }

  datatype Response =
    | Connect(
        name: View, version: byte, clean: bool, willQos: Qos, willRetain: bool, keepAlive: uint16,
        clientId: View, will: Option<(View, View)>, user: Option<View>, pw: Option<View>)
    | Connack(code: byte)
    | Publish(qos: Qos, retain: bool, topic: View, packetId: uint16, message: View)
    | Puback(packetId: uint16)
    | Pubrec(packetId: uint16)
    | Pubrel(packetId: uint16)
    | Pubcomp(packetId: uint16)
    | Subscribe(packetId: uint16, topics: seq<View>, qoss: seq<byte>)
    | Suback(packetId: uint16, success: seq<bool>, granted: seq<Qos>)
    | Unsubscribe(packetId: uint16, topics: seq<View>)
    | Unsuback(packetId: uint16)
    | Pingreq
    | Pingresp
    | Disconnect

  /**
   * NullResponse is the NULL that deserialize_response returns. Overrun marks an address outside the
   * buffer, which the program reads without noticing: what it does then is undefined.
   */
  datatype Decoded<+T> = Got(value: T) | NullResponse | Overrun {
    predicate IsFailure() {
      !Got?
    }

    function PropagateFailure<U>(): Decoded<U>
      requires IsFailure()
    {
      if NullResponse? then NullResponse else Overrun
    }

    function Extract(): T
      requires Got?
    {
      value
    }
  }

  // ----- the specification

  function ByteAt(buf: seq<byte>, at: nat): Decoded<byte> {
    if at < |buf| then Got(buf[at]) else Overrun
  }

  function ShortAt(buf: seq<byte>, at: nat): Decoded<uint16> {
    if at + 2 <= |buf| then Got(ReadShort(buf, at)) else Overrun
  }

  function CountedAt(buf: seq<byte>, at: nat): (r: Decoded<View>)
    ensures r.Got? ==> r.value.at == at + 2 && r.value.size < 256
  {
    var size :- ShortAt(buf, at);
    Got(View(at + 2, size))
  }

  /** The fields of CONNECT before the optional strings, and where those begin. */
  datatype ConnectHead = ConnectHead(
    name: View, version: byte, flags: byte, keepAlive: uint16, clientId: View, next: nat)

  function ParseConnectHead(buf: seq<byte>, offset: nat): Decoded<ConnectHead> {
    var name :- CountedAt(buf, offset);
    var at := name.at + name.size;
    var version :- ByteAt(buf, at);
    var flags :- ByteAt(buf, at + 1);
    var keepAlive :- ShortAt(buf, at + 2);
    var clientId :- CountedAt(buf, at + 4);
    Got(ConnectHead(name, version, flags, keepAlive, clientId, clientId.at + clientId.size))
  }

  function ParseConnect(buf: seq<byte>, offset: nat): Decoded<Response> {
    var head :- ParseConnectHead(buf, offset);
    var flags := head.flags;
    var will :- ParseWill(buf, head.next, flags / 4 % 2 == 1);
    var user :- ParseOptional(buf, will.1, flags / 128 % 2 == 1);
    var pw :- ParseOptional(buf, user.1, flags / 64 % 2 == 1);
    Got(Connect(head.name, head.version, flags / 2 % 2 == 1, flags / 8 % 4, flags / 32 % 2 == 1, head.keepAlive,
                head.clientId, will.0, user.0, pw.0))
  }

  function ParseWill(buf: seq<byte>, at: nat, present: bool): Decoded<(Option<(View, View)>, nat)> {
    if !present then Got((None, at)) else
    var topic :- CountedAt(buf, at);
    var message :- CountedAt(buf, topic.at + topic.size);
    Got((Some((topic, message)), message.at + message.size))
  }

  function ParseOptional(buf: seq<byte>, at: nat, present: bool): Decoded<(Option<View>, nat)> {
    if !present then Got((None, at)) else
    var s :- CountedAt(buf, at);
    Got((Some(s), s.at + s.size))
  }

  // message_size is a uint16_t computed from size_t values
  function ParsePublish(buf: seq<byte>, offset: nat, total: nat): Decoded<Response>
    requires 0 < |buf|
  {
    var qos: Qos := buf[0] / 2 % 4;
    var topic :- CountedAt(buf, offset);
    var at := topic.at + topic.size;
    var packetId: uint16 :- if qos >= 1 then ShortAt(buf, at) else Got(0);
    var end := if qos >= 1 then at + 2 else at;
    Got(Publish(qos, buf[0] % 2 == 1, topic, packetId, View(end, (total - (end - offset)) % 65536)))
  }

  datatype Topics = Topics(views: seq<View>, qoss: seq<byte>)

  // a size_t difference narrowed to a uint32_t
  function SegmentSize(total: nat, offset: nat): nat {
    (total - offset) % 0x1_0000_0000
  }

  datatype Entry = Entry(view: View, qos: seq<byte>, next: nat)

  function TopicAt(buf: seq<byte>, curr: nat, withQos: bool): Decoded<Entry> {
    var view :- CountedAt(buf, curr);
    var next := view.at + view.size;
    if withQos then
      var qos :- ByteAt(buf, next);
      Got(Entry(view, [qos], next + 1))
    else Got(Entry(view, [], next))
  }

  function FillTopics(buf: seq<byte>, curr: nat, max: nat, withQos: bool, room: nat): (r: Decoded<Topics>)
    ensures r.Got? ==> |r.value.views| <= room && forall i :: 0 <= i < |r.value.views| ==> r.value.views[i].size < 256
    decreases room, curr
  {
    if curr + 2 > max || room == 0 then Got(Topics([], [])) else
    var entry :- TopicAt(buf, curr, withQos);
    var rest :- FillTopics(buf, entry.next, max, withQos, room - 1);
    Got(Topics([entry.view] + rest.views, entry.qos + rest.qoss))
  }

  datatype Grants = Grants(success: seq<bool>, qoss: seq<Qos>)

  function FillSubresults(buf: seq<byte>, curr: nat, max: nat, room: nat): Decoded<Grants>
    decreases room, curr
  {
    if curr + 1 > max || room == 0 then Got(Grants([], [])) else
    var b :- ByteAt(buf, curr);
    var rest :- FillSubresults(buf, curr + 1, max, room - 1);
    Got(Grants([b < 4] + rest.success, [b % 4] + rest.qoss))
  }

  function ParseSubscribe(buf: seq<byte>, offset: nat, total: nat, withQos: bool): Decoded<Response> {
    var packetId :- ShortAt(buf, offset);
    var topics :- FillTopics(buf, offset + 2, offset + 2 + SegmentSize(total, offset), withQos, MAX_TOPICS);
    Got(if withQos then Subscribe(packetId, topics.views, topics.qoss) else Unsubscribe(packetId, topics.views))
  }

  function ParseSuback(buf: seq<byte>, offset: nat, total: nat): Decoded<Response> {
    var packetId :- ShortAt(buf, offset);
    var grants :- FillSubresults(buf, offset + 2, offset + 2 + SegmentSize(total, offset), MAX_TOPICS);
    Got(Suback(packetId, grants.success, grants.qoss))
  }

  function ParseAck(buf: seq<byte>, messageType: nat, offset: nat): Decoded<Response> {
    var packetId :- ShortAt(buf, offset);
    Got(if messageType == PUBACK then Puback(packetId)
        else if messageType == PUBREC then Pubrec(packetId)
        else if messageType == PUBREL then Pubrel(packetId)
        else if messageType == PUBCOMP then Pubcomp(packetId)
        else Unsuback(packetId))
  }

  function ParseConnack(buf: seq<byte>, offset: nat): Decoded<Response> {
    var code :- ByteAt(buf, offset + 1);
    Got(Connack(code))
  }

  function ParseBody(buf: seq<byte>, offset: nat, total: nat): Decoded<Response>
    requires 0 < |buf|
  {
    var messageType := buf[0] / 16;
    if messageType == CONNECT then ParseConnect(buf, offset)
    else if messageType == CONNACK then ParseConnack(buf, offset)
    else if messageType == PUBLISH then ParsePublish(buf, offset, total)
    else if messageType in {PUBACK, PUBREC, PUBREL, PUBCOMP, UNSUBACK} then ParseAck(buf, messageType, offset)
    else if messageType == SUBSCRIBE then ParseSubscribe(buf, offset, total, true)
    else if messageType == SUBACK then ParseSuback(buf, offset, total)
    else if messageType == UNSUBSCRIBE then ParseSubscribe(buf, offset, total, false)
    else if messageType == PINGREQ then Got(Pingreq)
    else if messageType == PINGRESP then Got(Pingresp)
    else if messageType == DISCONNECT then Got(Disconnect)
    else NullResponse
  }

  /** What deserialize_response makes of a buffer that holds `length` received bytes. */
  function Parse(buf: seq<byte>, length: nat): Decoded<Response> {
    if |buf| == 0 then Overrun else
    match ReadSize(buf, 1, length)
    case SizeOverrun => Overrun
    case BadSize => NullResponse
    case Size(total, used) => ParseBody(buf, 1 + used, total)
  }

  // ----- the implementation

  function BufferByte(buffer: array<byte>, at: nat): (r: Decoded<byte>)
    reads buffer
    ensures r == ByteAt(buffer[..], at)
  {
    if at < buffer.Length then Got(buffer[at]) else Overrun
  }

  function BufferShort(buffer: array<byte>, at: nat): (r: Decoded<uint16>)
    reads buffer
    ensures r == ShortAt(buffer[..], at)
  {
    if at + 2 <= buffer.Length then Got((buffer[at] as int) * 65536 % 65536 + buffer[at + 1]) else Overrun
  }

  function AddTopics(front: Topics, back: Decoded<Topics>): Decoded<Topics> {
    var t :- back;
    Got(Topics(front.views + t.views, front.qoss + t.qoss))
  }

  lemma AddNoTopics(t: Decoded<Topics>)
    ensures AddTopics(Topics([], []), t) == t
    ensures t.Got? ==> AddTopics(t.value, Got(Topics([], []))) == t
  {
    if t.Got? {
      assert [] + t.value.views == t.value.views == t.value.views + [];
      assert [] + t.value.qoss == t.value.qoss == t.value.qoss + [];
    }
  }

  lemma AddTopic(buf: seq<byte>, front: Topics, curr: nat, max: nat, withQos: bool, room: nat)
    requires curr + 2 <= max && room > 0
    ensures var entry := TopicAt(buf, curr, withQos);
            AddTopics(front, FillTopics(buf, curr, max, withQos, room))
            == if entry.Got?
               then AddTopics(Topics(front.views + [entry.value.view], front.qoss + entry.value.qos),
                              FillTopics(buf, entry.value.next, max, withQos, room - 1))
               else entry.PropagateFailure()
  {
    var entry := TopicAt(buf, curr, withQos);
    if entry.Got? {
      var Entry(view, qos, next) := entry.value;
      var rest := FillTopics(buf, next, max, withQos, room - 1);
      if rest.Got? {
        assert front.views + ([view] + rest.value.views) == (front.views + [view]) + rest.value.views;
        assert front.qoss + (qos + rest.value.qoss) == (front.qoss + qos) + rest.value.qoss;
      }
    }
  }

  method ReadTopic(buffer: array<byte>, curr: nat, withQos: bool) returns (r: Decoded<Entry>)
    ensures r == TopicAt(buffer[..], curr, withQos)
  {
    var length :- BufferShort(buffer, curr);
    var qos, next := [], curr + 2 + length;
    if withQos {
      var q :- BufferByte(buffer, next);
      qos, next := [q], next + 1;
    }
    r := Got(Entry(View(curr + 2, length), qos, next));
  }

  method FillTopicArrays(buffer: array<byte>, start: nat, bytecount: nat, withQos: bool) returns (r: Decoded<Topics>)
    ensures r == FillTopics(buffer[..], start, start + bytecount, withQos, MAX_TOPICS)
  {
    ghost var buf := buffer[..];
    var max, curr: nat := start + bytecount, start;
    var position := 0;
    var topics := Topics([], []);
    ghost var whole := FillTopics(buf, start, max, withQos, MAX_TOPICS);
    AddNoTopics(whole);
    while curr + 2 <= max && position < MAX_TOPICS
      invariant 0 <= position <= MAX_TOPICS && buffer[..] == buf
      invariant AddTopics(topics, FillTopics(buf, curr, max, withQos, MAX_TOPICS - position)) == whole
    {
      AddTopic(buf, topics, curr, max, withQos, MAX_TOPICS - position);
      var entry :- ReadTopic(buffer, curr, withQos);
      topics := Topics(topics.views + [entry.view], topics.qoss + entry.qos);
      position := position + 1;
      curr := entry.next;
    }
    r := Got(topics);
    AddNoTopics(r);
  }

  function AddGrants(front: Grants, back: Decoded<Grants>): Decoded<Grants> {
    var g :- back;
    Got(Grants(front.success + g.success, front.qoss + g.qoss))
  }

  lemma AddNoGrants(g: Decoded<Grants>)
    ensures AddGrants(Grants([], []), g) == g
    ensures g.Got? ==> AddGrants(g.value, Got(Grants([], []))) == g
  {
    if g.Got? {
      assert [] + g.value.success == g.value.success == g.value.success + [];
      assert [] + g.value.qoss == g.value.qoss == g.value.qoss + [];
    }
  }

  lemma AddGrant(buf: seq<byte>, front: Grants, curr: nat, max: nat, room: nat)
    requires curr + 1 <= max && room > 0 && curr < |buf|
    ensures AddGrants(front, FillSubresults(buf, curr, max, room))
         == AddGrants(Grants(front.success + [buf[curr] < 4], front.qoss + [buf[curr] % 4]),
                      FillSubresults(buf, curr + 1, max, room - 1))
  {
    var rest := FillSubresults(buf, curr + 1, max, room - 1);
    if rest.Got? {
      var ok, qos := [buf[curr] < 4], [buf[curr] % 4];
      assert front.success + (ok + rest.value.success) == (front.success + ok) + rest.value.success;
      assert front.qoss + (qos + rest.value.qoss) == (front.qoss + qos) + rest.value.qoss;
    }
  }

  method FillSubresultArrays(buffer: array<byte>, start: nat, bytecount: nat) returns (r: Decoded<Grants>)
    ensures r == FillSubresults(buffer[..], start, start + bytecount, MAX_TOPICS)
  {
    ghost var buf := buffer[..];
    var max, curr: nat := start + bytecount, start;
    var position := 0;
    var success: seq<bool>, qoss: seq<Qos> := [], [];
    ghost var whole := FillSubresults(buf, start, max, MAX_TOPICS);
    AddNoGrants(whole);
    while curr + 1 <= max && position < MAX_TOPICS
      invariant 0 <= position <= MAX_TOPICS && buffer[..] == buf
      invariant AddGrants(Grants(success, qoss), FillSubresults(buf, curr, max, MAX_TOPICS - position)) == whole
    {
      var b :- BufferByte(buffer, curr);
      AddGrant(buf, Grants(success, qoss), curr, max, MAX_TOPICS - position);
      success := success + [b < 4];
      qoss := qoss + [b % 4];
      position := position + 1;
      curr := curr + 1;
    }
    r := Got(Grants(success, qoss));
    AddNoGrants(r);
  }

  method DeserializeConnectHead(buffer: array<byte>, start: nat) returns (r: Decoded<ConnectHead>)
    ensures r == ParseConnectHead(buffer[..], start)
  {
    var offset: nat := start;
    var nameSize :- BufferShort(buffer, offset);
    offset := offset + 2;
    var name := View(offset, nameSize);
    offset := offset + nameSize;
    var version :- BufferByte(buffer, offset);
    offset := offset + 1;
    var flags :- BufferByte(buffer, offset);
    offset := offset + 1;
    var keepAlive :- BufferShort(buffer, offset);
    offset := offset + 2;
    var clientIdSize :- BufferShort(buffer, offset);
    offset := offset + 2;
    var clientId := View(offset, clientIdSize);
    offset := offset + clientIdSize;
    r := Got(ConnectHead(name, version, flags, keepAlive, clientId, offset));
  }

  method DeserializeConnect(buffer: array<byte>, start: nat) returns (r: Decoded<Response>)
    ensures r == ParseConnect(buffer[..], start)
  {
    var head :- DeserializeConnectHead(buffer, start);
    var flags, offset := head.flags, head.next;
    var will :- DeserializeWill(buffer, offset, flags / 4 % 2 == 1);
    offset := will.1;
    var user :- DeserializeOptional(buffer, offset, flags / 128 % 2 == 1);
    offset := user.1;
    var pw :- DeserializeOptional(buffer, offset, flags / 64 % 2 == 1);
    r := Got(Connect(head.name, head.version, flags / 2 % 2 == 1, flags / 8 % 4, flags / 32 % 2 == 1, head.keepAlive,
                     head.clientId, will.0, user.0, pw.0));
  }

  method DeserializeWill(buffer: array<byte>, start: nat, hasWill: bool)
    returns (r: Decoded<(Option<(View, View)>, nat)>)
    ensures r == ParseWill(buffer[..], start, hasWill)
  {
    var offset: nat, will := start, None;
    if hasWill {
      var topicSize :- BufferShort(buffer, offset);
      var topic := View(offset + 2, topicSize);
      offset := offset + 2 + topicSize;
      var messageSize :- BufferShort(buffer, offset);
      will := Some((topic, View(offset + 2, messageSize)));
      offset := offset + 2 + messageSize;
    }
    r := Got((will, offset));
  }

  method DeserializeOptional(buffer: array<byte>, start: nat, present: bool) returns (r: Decoded<(Option<View>, nat)>)
    ensures r == ParseOptional(buffer[..], start, present)
  {
    var offset: nat, s := start, None;
    if present {
      var size :- BufferShort(buffer, offset);
      s := Some(View(offset + 2, size));
      offset := offset + 2 + size;
    }
    r := Got((s, offset));
  }

  method DeserializePublish(buffer: array<byte>, start: nat, total: nat) returns (r: Decoded<Response>)
    requires 0 < buffer.Length
    ensures r == ParsePublish(buffer[..], start, total)
  {
    var offset: nat := start;
    var qos := buffer[0] / 2 % 4;
    var retain := buffer[0] % 2 == 1;
    var topicSize :- BufferShort(buffer, offset);
    offset := offset + 2;
    var topic := View(offset, topicSize);
    offset := offset + topicSize;
    var packetId: uint16 := 0;
    if qos >= 1 {
      packetId :- BufferShort(buffer, offset);
      offset := offset + 2;
    }
    var messageSize := (total - (offset - start)) % 65536;
    r := Got(Publish(qos, retain, topic, packetId, View(offset, messageSize)));
  }

  method DeserializeAck(buffer: array<byte>, messageType: nat, offset: nat) returns (r: Decoded<Response>)
    ensures r == ParseAck(buffer[..], messageType, offset)
  {
    var packetId :- BufferShort(buffer, offset);
    if messageType == PUBACK {
      r := Got(Puback(packetId));
    } else if messageType == PUBREC {
      r := Got(Pubrec(packetId));
    } else if messageType == PUBREL {
      r := Got(Pubrel(packetId));
    } else if messageType == PUBCOMP {
      r := Got(Pubcomp(packetId));
    } else {
      r := Got(Unsuback(packetId));
    }
  }

  method DeserializeTopics(buffer: array<byte>, start: nat, total: nat, withQos: bool) returns (r: Decoded<Response>)
    ensures r == ParseSubscribe(buffer[..], start, total, withQos)
  {
    var offset := start;
    var packetId :- BufferShort(buffer, offset);
    var topicSegmentSize := SegmentSize(total, offset);
    offset := offset + 2;
    var topics :- FillTopicArrays(buffer, offset, topicSegmentSize, withQos);
    r := Got(if withQos then Subscribe(packetId, topics.views, topics.qoss) else Unsubscribe(packetId, topics.views));
  }

  method DeserializeSuback(buffer: array<byte>, start: nat, total: nat) returns (r: Decoded<Response>)
    ensures r == ParseSuback(buffer[..], start, total)
  {
    var offset := start;
    var packetId :- BufferShort(buffer, offset);
    var subresultSegmentSize := SegmentSize(total, offset);
    offset := offset + 2;
    var grants :- FillSubresultArrays(buffer, offset, subresultSegmentSize);
    r := Got(Suback(packetId, grants.success, grants.qoss));
  }

  method DeserializeBody(buffer: array<byte>, messageType: nat, offset: nat, total: nat) returns (r: Decoded<Response>)
    requires 0 < buffer.Length && messageType == buffer[0] / 16
    ensures r == ParseBody(buffer[..], offset, total)
  {
    if messageType == CONNECT {
      r := DeserializeConnect(buffer, offset);
    } else if messageType == CONNACK {
      var code :- BufferByte(buffer, offset + 1);
      r := Got(Connack(code));
    } else if messageType == PUBLISH {
      r := DeserializePublish(buffer, offset, total);
    } else if messageType == SUBSCRIBE {
      r := DeserializeTopics(buffer, offset, total, true);
    } else if messageType == SUBACK {
      r := DeserializeSuback(buffer, offset, total);
    } else if messageType == UNSUBSCRIBE {
      r := DeserializeTopics(buffer, offset, total, false);
    } else if messageType == PINGREQ {
      r := Got(Pingreq);
    } else if messageType == PINGRESP {
      r := Got(Pingresp);
    } else if messageType == DISCONNECT {
      r := Got(Disconnect);
    } else if PUBACK <= messageType <= PUBCOMP || messageType == UNSUBACK {
      r := DeserializeAck(buffer, messageType, offset);
    } else {
      r := NullResponse;
    }
  }

  method DeserializeResponse(buffer: array<byte>, length: nat) returns (r: Decoded<Response>)
    ensures r == Parse(buffer[..], length)
  {
    if buffer.Length == 0 {
      return Overrun;
    }
    var size := DecodeSize(buffer, 1, length);
    match size
    case SizeOverrun =>
      r := Overrun;
    case BadSize =>
      r := NullResponse;
    case Size(total, used) =>
      r := DeserializeBody(buffer, buffer[0] / 16, 1 + used, total);
  }
}
