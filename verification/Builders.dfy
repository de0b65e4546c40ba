/** libsmqttcore/messages.c: the cursor and the builders that write frames through it. */
module Builders {
  import opened Bytes
  import opened SizeCodec
  import opened Frames

  /** cursor_t: a fixed origin and an advancing write position. */
  class Cursor {
    const base: array<byte>
    var current: nat
    ghost const origin: seq<byte>
    ghost var opening: seq<byte>
    ghost var body: seq<byte>

    /** Everything written so far stands at the origin and nothing else has been touched. */
    ghost predicate Valid()
      reads this, base
    {
      current == |opening| + |body| && Stored(origin, base[..], 0, opening + body)
    }

    ghost predicate Room(n: nat)
      reads this
    {
      current + n <= base.Length
    }

    constructor (origin: array<byte>)
      ensures Valid() && base == origin && this.origin == origin[..] && opening == body == []
    {
      base := origin;
      current := 0;
      this.origin := origin[..];
      opening, body := [], [];
    }

    method Byte(b: byte)
      requires Valid() && Room(1)
      modifies this, base
      ensures Valid() && opening == old(opening) && body == old(body) + [b]
    {
      ghost var before := base[..];
      base[current] := b;
      StoredPointwise(before, base[..], current, [b]);
      StoredAppend(origin, before, base[..], opening, body, [b]);
      current := current + 1;
      body := body + [b];
    }

    method Short(s: nat)
      requires Valid() && Room(2)
      modifies this, base
      ensures Valid() && opening == old(opening) && body == old(body) + Frames.Short(s)
    {
      Byte(Msb(s));
      Byte(Lsb(s));
    }

    method String(s: CString)
      requires Valid() && Room(|s|)
      modifies this, base
      ensures Valid() && opening == old(opening) && body == old(body) + s
    {
      ghost var before := base[..];
      var i := 0;
      while i < |s|
        invariant 0 <= i <= |s| && current == old(current) && opening == old(opening) && body == old(body)
        invariant forall j :: 0 <= j < i ==> base[current + j] == s[j]
        invariant forall j :: 0 <= j < current || current + i <= j < base.Length ==> base[j] == before[j]
      {
        base[current + i] := s[i];
        i := i + 1;
      }
      StoredPointwise(before, base[..], current, s);
      StoredAppend(origin, before, base[..], opening, body, s);
      current := current + |s|;
      body := body + s;
    }

    /** SER_short of the length, then SER_string. */
    method Counted(s: CString)
      requires Valid() && Room(2 + |s|)
      modifies this, base
      ensures Valid() && opening == old(opening) && body == old(body) + Frames.Counted(s)
    {
      Short(|s|);
      String(s);
      assert body == old(body) + Frames.Counted(s);
    }

    method OptionalCounted(s: Option<CString>)
      requires Valid() && Room(|MaybeCounted(s)|)
      modifies this, base
      ensures Valid() && opening == old(opening) && body == old(body) + MaybeCounted(s)
    {
      if s.Some? {
        Counted(s.value);
      } else {
        assert body == body + MaybeCounted(s);
      }
    }

    method OptionalWill(w: Option<Will>)
      requires Valid() && Room(|WillField(w)|)
      modifies this, base
      ensures Valid() && opening == old(opening) && body == old(body) + WillField(w)
    {
      if w.Some? {
        Counted(w.value.topic);
        Counted(w.value.message);
        assert body == old(body) + WillField(w);
      } else {
        assert body == body + WillField(w);
      }
    }

    /** The fixed header: type and flags, then the size field. */
    method FixedHeader(first: byte, len: nat)
      requires Valid() && opening == body == []
      requires Room(1 + |SizeField(len)|)
      modifies this, base
      ensures Valid() && opening == [first] + SizeField(len) && body == []
    {
      Byte(first);
      Length(len);
      assert opening + body == [first] + SizeField(len);
      opening, body := [first] + SizeField(len), [];
      assert opening + body == opening;
    }

    method Length(len: nat)
      requires Valid() && Room(|SizeField(len)|)
      modifies this, base
      ensures Valid() && opening == old(opening) && body == old(body) + SizeField(len)
    {
      ghost var before := base[..];
      var ok, used := EncodeSize(len, base, current);
      StoredAppend(origin, before, base[..], opening, body, SizeField(len));
      current := current + used;
      body := body + SizeField(len);
    }
  }

  lemma StoredAppend(a: seq<byte>, b: seq<byte>, c: seq<byte>, x: seq<byte>, y: seq<byte>, z: seq<byte>)
    requires Stored(a, b, 0, x + y) && Stored(b, c, |x| + |y|, z)
    ensures Stored(a, c, 0, x + (y + z))
  {
    var w := x + y;
    assert x + (y + z) == w + z;
    assert c[..|w| + |z|] == c[..|w|] + c[|w|..|w| + |z|];
    assert a[|w| + |z|..] == a[|w|..][|z|..];
    assert b[|w| + |z|..] == b[|w|..][|z|..];
  }

  /** What every builder promises: the frame at the front, its length returned, the rest untouched. */
  ghost predicate Built(before: seq<byte>, after: seq<byte>, n: nat, frame: seq<byte>) {
    n == |frame| && Stored(before, after, 0, frame)
  }

  method MakeConnect(buffer: array<byte>, a: ConnectArgs) returns (n: nat)
    requires |ConnectFrame(a)| <= buffer.Length
    modifies buffer
    ensures Built(old(buffer[..]), buffer[..], n, ConnectFrame(a))
  {
    var cursor := new Cursor(buffer);
    var len := 8 + |PROTOCOL_NAME| + |a.clientId|;
    if a.will.Some? {
      len := len + 2 + |a.will.value.topic| + 2 + |a.will.value.message|;
    }
    if a.user.Some? {
      len := len + 2 + |a.user.value|;
    }
    if a.pw.Some? {
      len := len + 2 + |a.pw.value|;
    }
    cursor.FixedHeader(Header(CONNECT, 0), len);
    WriteConnectBody(cursor, a);
    n := cursor.current;
  }

  method WriteConnectBody(cursor: Cursor, a: ConnectArgs)
    requires cursor.Valid() && cursor.body == [] && cursor.Room(|ConnectBody(a)|)
    modifies cursor, cursor.base
    ensures cursor.Valid() && cursor.opening == old(cursor.opening) && cursor.body == ConnectBody(a)
  {
    WriteConnectHeader(cursor, a);
    cursor.Counted(a.clientId);
    cursor.OptionalWill(a.will);
    cursor.OptionalCounted(a.user);
    cursor.OptionalCounted(a.pw);
  }

  method WriteConnectHeader(cursor: Cursor, a: ConnectArgs)
    requires cursor.Valid() && cursor.body == [] && cursor.Room(|ConnectHeader(a)|)
    modifies cursor, cursor.base
    ensures cursor.Valid() && cursor.opening == old(cursor.opening) && cursor.body == ConnectHeader(a)
  {
    cursor.Counted(PROTOCOL_NAME);
    cursor.Byte(PROTOCOL_LEVEL);
    cursor.Byte(ConnectFlags(a));
    cursor.Short(a.keepAlive);
  }

  method MakePublish(buffer: array<byte>, a: PublishArgs) returns (n: nat)
    requires |PublishFrame(a)| <= buffer.Length
    modifies buffer
    ensures Built(old(buffer[..]), buffer[..], n, PublishFrame(a))
  {
    var cursor := new Cursor(buffer);
    var packetIdLen := 0;
    if a.qos >= 1 {
      packetIdLen := 2;
    }
    var messageLen := 0;
    if a.msg.Some? {
      messageLen := |a.msg.value| % 65536;
    }
    cursor.FixedHeader(Header(PUBLISH, 2 * a.qos + Bit(a.retain)), 2 + |a.topic| + packetIdLen + messageLen);
    WritePublishBody(cursor, a);
    assert cursor.opening + cursor.body == PublishFrame(a);
    n := cursor.current;
  }

  method WritePublishBody(cursor: Cursor, a: PublishArgs)
    requires cursor.Valid() && cursor.body == [] && cursor.Room(|PublishBody(a)|)
    modifies cursor, cursor.base
    ensures cursor.Valid() && cursor.opening == old(cursor.opening) && cursor.body == PublishBody(a)
  {
    cursor.Counted(a.topic);
    if a.qos >= 1 {
      cursor.Short(a.packetId);
    }
    assert cursor.body == Counted(a.topic) + IdField(a);
    if a.msg.Some? {
      cursor.String(a.msg.value);
    }
    assert cursor.body == PublishBody(a);
  }

  method MakeIdMessage(buffer: array<byte>, messageType: nat, low: nat, packetId: uint16) returns (n: nat)
    requires messageType < 16 && low < 16
    requires 4 <= buffer.Length
    modifies buffer
    ensures Built(old(buffer[..]), buffer[..], n, IdFrame(messageType, low, packetId))
  {
    var cursor := new Cursor(buffer);
    cursor.FixedHeader(Header(messageType, low), 2);
    cursor.Short(packetId);
    n := cursor.current;
  }

  method MakePuback(buffer: array<byte>, packetId: uint16) returns (n: nat)
    requires 4 <= buffer.Length
    modifies buffer
    ensures Built(old(buffer[..]), buffer[..], n, PubackFrame(packetId))
  {
    n := MakeIdMessage(buffer, PUBACK, 0, packetId);
  }

  method MakePubrec(buffer: array<byte>, packetId: uint16) returns (n: nat)
    requires 4 <= buffer.Length
    modifies buffer
    ensures Built(old(buffer[..]), buffer[..], n, PubrecFrame(packetId))
  {
    n := MakeIdMessage(buffer, PUBREC, 0, packetId);
  }

  method MakePubrel(buffer: array<byte>, packetId: uint16) returns (n: nat)
    requires 4 <= buffer.Length
    modifies buffer
    ensures Built(old(buffer[..]), buffer[..], n, PubrelFrame(packetId))
  {
    n := MakeIdMessage(buffer, PUBREL, 2, packetId);
  }

  method MakePubcomp(buffer: array<byte>, packetId: uint16) returns (n: nat)
    requires 4 <= buffer.Length
    modifies buffer
    ensures Built(old(buffer[..]), buffer[..], n, PubcompFrame(packetId))
  {
    n := MakeIdMessage(buffer, PUBCOMP, 0, packetId);
  }

  method MakeUnsuback(buffer: array<byte>, packetId: uint16) returns (n: nat)
    requires 4 <= buffer.Length
    modifies buffer
    ensures Built(old(buffer[..]), buffer[..], n, UnsubackFrame(packetId))
  {
    n := MakeIdMessage(buffer, UNSUBACK, 0, packetId);
  }

  method MakeConnack(buffer: array<byte>, code: byte) returns (n: nat)
    requires 4 <= buffer.Length
    modifies buffer
    ensures Built(old(buffer[..]), buffer[..], n, ConnackFrame(code))
  {
    var cursor := new Cursor(buffer);
    cursor.FixedHeader(Header(CONNACK, 0), 2);
    cursor.Byte(0);
    cursor.Byte(code);
    n := cursor.current;
  }

  method MakePingreq(buffer: array<byte>) returns (n: nat)
    requires 2 <= buffer.Length
    modifies buffer
    ensures Built(old(buffer[..]), buffer[..], n, BareFrame(PINGREQ))
  {
    var cursor := new Cursor(buffer);
    cursor.FixedHeader(Header(PINGREQ, 0), 0);
    n := cursor.current;
  }

  method MakePingresp(buffer: array<byte>) returns (n: nat)
    requires 2 <= buffer.Length
    modifies buffer
    ensures Built(old(buffer[..]), buffer[..], n, BareFrame(PINGRESP))
  {
    var cursor := new Cursor(buffer);
    cursor.FixedHeader(Header(PINGRESP, 0), 0);
    n := cursor.current;
  }

  method MakeDisconnect(buffer: array<byte>) returns (n: nat)
    requires 2 <= buffer.Length
    modifies buffer
    ensures Built(old(buffer[..]), buffer[..], n, BareFrame(DISCONNECT))
  {
    var cursor := new Cursor(buffer);
    cursor.Byte(Header(DISCONNECT, 0));
    cursor.Byte(0);
    n := cursor.current;
  }

  method Utf8StringSize(topics: seq<CString>, includeQos: bool) returns (total: uint16)
    ensures total == TopicSpace(topics, includeQos, |topics|) % 65536
  {
    total := 0;
    for i := 0 to |topics|
      invariant total == TopicSpace(topics, includeQos, i) % 65536
    {
      total := (total + 2 + |topics[i]|) % 65536;
      if includeQos {
        total := (total + 1) % 65536;
      }
    }
  }

  method MakeSubscribe(buffer: array<byte>, packetId: uint16, topics: seq<CString>, qoss: seq<Qos>) returns (n: nat)
    requires |qoss| == |topics| < 65536
    requires |SubscribeFrame(packetId, topics, qoss)| <= buffer.Length
    modifies buffer
    ensures Built(old(buffer[..]), buffer[..], n, SubscribeFrame(packetId, topics, qoss))
  {
    var cursor := new Cursor(buffer);
    var size := Utf8StringSize(topics, true);
    cursor.FixedHeader(Header(SUBSCRIBE, 2), 2 + size as nat);
    cursor.Short(packetId);
    WriteTopics(cursor, topics, qoss, true);
    assert cursor.opening + cursor.body == SubscribeFrame(packetId, topics, qoss);
    n := cursor.current;
  }

  method MakeUnsubscribe(buffer: array<byte>, packetId: uint16, topics: seq<CString>) returns (n: nat)
    requires |topics| < 65536
    requires |UnsubscribeFrame(packetId, topics)| <= buffer.Length
    modifies buffer
    ensures Built(old(buffer[..]), buffer[..], n, UnsubscribeFrame(packetId, topics))
  {
    var cursor := new Cursor(buffer);
    var size := Utf8StringSize(topics, false);
    cursor.FixedHeader(Header(UNSUBSCRIBE, 2), 2 + size as nat);
    cursor.Short(packetId);
    WriteTopics(cursor, topics, [], false);
    assert cursor.opening + cursor.body == UnsubscribeFrame(packetId, topics);
    n := cursor.current;
  }

  /** The payload loops of make_subscribe_message (withQos) and make_unsubscribe_message. */
  method WriteTopics(cursor: Cursor, topics: seq<CString>, qoss: seq<Qos>, withQos: bool)
    requires withQos ==> |qoss| == |topics|
    requires cursor.Valid() && cursor.Room(|TopicEntries(topics, qoss, withQos, |topics|)|)
    modifies cursor, cursor.base
    ensures cursor.Valid() && cursor.opening == old(cursor.opening)
    ensures cursor.body == old(cursor.body) + TopicEntries(topics, qoss, withQos, |topics|)
  {
    ghost var opening, prefix := cursor.opening, cursor.body;
    for i := 0 to |topics|
      invariant cursor.Valid() && cursor.opening == opening
      invariant cursor.body == prefix + TopicEntries(topics, qoss, withQos, i)
    {
      EntriesGrow(topics, qoss, withQos, i + 1, |topics|);
      ghost var done := TopicEntries(topics, qoss, withQos, i);
      WriteTopic(cursor, topics[i], if withQos then qoss[i] else 0, withQos);
      assert cursor.body == prefix + (done + TopicEntry(topics[i], if withQos then qoss[i] else 0, withQos));
    }
  }

  method WriteTopic(cursor: Cursor, topic: CString, qos: Qos, withQos: bool)
    requires cursor.Valid() && cursor.Room(|TopicEntry(topic, qos, withQos)|)
    modifies cursor, cursor.base
    ensures cursor.Valid() && cursor.opening == old(cursor.opening)
    ensures cursor.body == old(cursor.body) + TopicEntry(topic, qos, withQos)
  {
    cursor.Counted(topic);
    if withQos {
      cursor.Byte(qos);
    }
    assert cursor.body == old(cursor.body) + TopicEntry(topic, qos, withQos);
  }

  method MakeSuback(buffer: array<byte>, packetId: uint16, success: seq<bool>, qoss: seq<Qos>) returns (n: nat)
    requires |success| == |qoss| < 65536
    requires |SubackFrame(packetId, success, qoss)| <= buffer.Length
    modifies buffer
    ensures Built(old(buffer[..]), buffer[..], n, SubackFrame(packetId, success, qoss))
  {
    var cursor := new Cursor(buffer);
    cursor.FixedHeader(Header(SUBACK, 0), 2 + |success|);
    cursor.Short(packetId);
    ghost var opening := cursor.opening;
    for i := 0 to |success|
      invariant cursor.Valid() && cursor.base == buffer && cursor.origin == old(buffer[..]) && fresh(cursor)
      invariant cursor.opening == opening && cursor.body == Frames.Short(packetId) + Grants(success, qoss, i)
    {
      cursor.Byte(if success[i] then qoss[i] else 128);
    }
    n := cursor.current;
  }

  /** A prefix of the topic list takes a prefix of the payload. */
  lemma {:induction false} EntriesGrow(topics: seq<CString>, qoss: seq<Qos>, withQos: bool, k: nat, n: nat)
    requires k <= n <= |topics| && (withQos ==> |qoss| == |topics|)
    ensures TopicEntries(topics, qoss, withQos, k) <= TopicEntries(topics, qoss, withQos, n)
    ensures |TopicEntries(topics, qoss, withQos, k)| == TopicSpace(topics, withQos, k)
    decreases n
  {
    if k < n {
      EntriesGrow(topics, qoss, withQos, k, n - 1);
    } else if n > 0 {
      EntriesGrow(topics, qoss, withQos, n - 1, n - 1);
    }
  }
}
