/** What deserialize_response recovers from the frames the builders write. */
module RoundTrips {
  import opened Bytes
  import opened SizeCodec
  import opened Frames
  import opened Deserializer

  /** `s` stands in the buffer from address `at` on. */
  ghost predicate Holds(buf: seq<byte>, at: nat, s: seq<byte>) {
    at + |s| <= |buf| && buf[at..at + |s|] == s
  }

  lemma HoldsSplit(buf: seq<byte>, at: nat, x: seq<byte>, y: seq<byte>)
    requires Holds(buf, at, x + y)
    ensures Holds(buf, at, x) && Holds(buf, at + |x|, y)
  {
    var s := x + y;
    assert buf[at..at + |x|] == s[..|x|];
    assert buf[at + |x|..at + |x| + |y|] == s[|x|..];
  }

  lemma HoldsSlice(buf: seq<byte>, at: nat, s: seq<byte>, i: nat, j: nat)
    requires Holds(buf, at, s) && i <= j <= |s|
    ensures Holds(buf, at + i, s[i..j])
  {
    forall k | 0 <= k < j - i
      ensures buf[at + i..at + j][k] == s[i..j][k]
    {
      assert s[i + k] == buf[at..at + |s|][i + k];
    }
  }

  /** SER_short followed by short_from_buffer keeps the low byte and nothing else. */
  lemma ShortRoundTrip(v: uint16, buf: seq<byte>, at: nat)
    requires Holds(buf, at, Short(v))
    ensures ReadShort(buf, at) == v % 256
    ensures ReadShort(buf, at) == v <==> v < 256
  {
    assert buf[at] == buf[at..at + 2][0] && buf[at + 1] == buf[at..at + 2][1];
  }

  lemma ShortLosesHighByte()
    ensures ReadShort(Short(256), 0) == 0 && ReadShort(Short(511), 0) == 255
  {
  }

  lemma CountedRoundTrip(s: CString, buf: seq<byte>, at: nat)
    requires Holds(buf, at, Counted(s))
    ensures CountedAt(buf, at) == Got(View(at + 2, |s| % 256))
    ensures Holds(buf, at + 2, s)
    ensures |s| < 256 ==> View(at + 2, |s| % 256).In(buf) && View(at + 2, |s| % 256).Of(buf) == s
  {
    HoldsSplit(buf, at, Short(|s|), s);
    assert buf[at + 1] == buf[at..at + 2][1] == |s| % 256;
  }

  /** Where the parts of a frame are found: the size field is read back, the body follows it. */
  lemma FrameParts(first: byte, len: nat, body: seq<byte>, buf: seq<byte>, n: nat)
    requires [first] + SizeField(len) + body <= buf
    requires n == 1 + |SizeField(len)| + |body|
    ensures buf[0] == first && Holds(buf, 1 + |SizeField(len)|, body)
    ensures ReadSize(buf, 1, n) == if len < SIZE_LIMIT then Size(len, |SizeField(len)|) else BadSize
  {
    var frame := [first] + SizeField(len) + body;
    assert Holds(buf, 0, frame);
    HoldsSplit(buf, 0, [first] + SizeField(len), body);
    HoldsSplit(buf, 0, [first], SizeField(len));
    assert buf[0] == buf[0..1][0];
    SizeRoundTrip(len, buf, 1, n);
  }

  /** A frame whose size fits its field is parsed by its type. */
  lemma FrameParsed(first: byte, len: nat, body: seq<byte>, buf: seq<byte>, n: nat)
    requires [first] + SizeField(len) + body <= buf && len < SIZE_LIMIT
    requires n == 1 + |SizeField(len)| + |body|
    ensures buf[0] == first && Holds(buf, 1 + |SizeField(len)|, body)
    ensures Parse(buf, n) == ParseBody(buf, 1 + |SizeField(len)|, len)
  {
    FrameParts(first, len, body, buf, n);
  }

  /** The whole frame is the fixed header and as many bytes as the size field announces. */
  ghost predicate ExactlyFramed(frame: seq<byte>) {
    var size := ReadSize(frame, 1, |frame|);
    size.Size? && |frame| == 1 + size.used + size.value
  }

  lemma FramedWhenLengthAgrees(first: byte, len: nat, body: seq<byte>)
    ensures ExactlyFramed([first] + SizeField(len) + body) <==> len == |body| && len < SIZE_LIMIT
  {
    var frame := [first] + SizeField(len) + body;
    FrameParts(first, len, body, frame, |frame|);
  }

  // ----- acknowledgements and bare frames

  lemma SmallField(len: nat)
    requires len < 128
    ensures SizeField(len) == [len]
  {
  }

  /** PUBACK, PUBREC, PUBREL, PUBCOMP and UNSUBACK come back with the low byte of their packet id. */
  lemma AckRoundTrip(id: uint16, buf: seq<byte>)
    ensures PubackFrame(id) <= buf ==> Parse(buf, 4) == Got(Puback(id % 256))
    ensures PubrecFrame(id) <= buf ==> Parse(buf, 4) == Got(Pubrec(id % 256))
    ensures PubrelFrame(id) <= buf ==> Parse(buf, 4) == Got(Pubrel(id % 256))
    ensures PubcompFrame(id) <= buf ==> Parse(buf, 4) == Got(Pubcomp(id % 256))
    ensures UnsubackFrame(id) <= buf ==> Parse(buf, 4) == Got(Unsuback(id % 256))
  {
    if PubackFrame(id) <= buf { IdFrameParts(PUBACK, 0, id, buf); }
    if PubrecFrame(id) <= buf { IdFrameParts(PUBREC, 0, id, buf); }
    if PubrelFrame(id) <= buf { IdFrameParts(PUBREL, 2, id, buf); }
    if PubcompFrame(id) <= buf { IdFrameParts(PUBCOMP, 0, id, buf); }
    if UnsubackFrame(id) <= buf { IdFrameParts(UNSUBACK, 0, id, buf); }
  }

  lemma IdFrameParts(messageType: nat, low: nat, id: uint16, buf: seq<byte>)
    requires messageType < 16 && low < 16
    requires IdFrame(messageType, low, id) <= buf
    ensures buf[0] / 16 == messageType && ReadSize(buf, 1, 4) == Size(2, 1)
    ensures ShortAt(buf, 2) == Got(id % 256)
    ensures ExactlyFramed(IdFrame(messageType, low, id))
  {
    SmallField(2);
    assert IdFrame(messageType, low, id) == [Header(messageType, low)] + SizeField(2) + Short(id);
    FrameParts(Header(messageType, low), 2, Short(id), buf, 4);
    FramedWhenLengthAgrees(Header(messageType, low), 2, Short(id));
    ShortRoundTrip(id, buf, 2);
  }

  lemma BareRoundTrip(buf: seq<byte>)
    ensures BareFrame(PINGREQ) <= buf ==> Parse(buf, 2) == Got(Pingreq)
    ensures BareFrame(PINGRESP) <= buf ==> Parse(buf, 2) == Got(Pingresp)
    ensures BareFrame(DISCONNECT) <= buf ==> Parse(buf, 2) == Got(Disconnect)
    ensures forall t: nat :: t < 16 ==> ExactlyFramed(BareFrame(t))
  {
    forall t: nat | t < 16
      ensures ExactlyFramed(BareFrame(t))
      ensures BareFrame(t) <= buf ==> ReadSize(buf, 1, 2) == Size(0, 1) && buf[0] / 16 == t
    {
      SmallField(0);
      assert BareFrame(t) == [Header(t, 0)] + SizeField(0) + [];
      FramedWhenLengthAgrees(Header(t, 0), 0, []);
      if BareFrame(t) <= buf {
        FrameParts(Header(t, 0), 0, [], buf, 2);
      }
    }
  }

  lemma ConnackRoundTrip(code: byte, buf: seq<byte>)
    requires ConnackFrame(code) <= buf
    ensures Parse(buf, 4) == Got(Connack(code)) && ExactlyFramed(ConnackFrame(code))
  {
    SmallField(2);
    var body: seq<byte> := [0, code];
    assert ConnackFrame(code) == [Header(CONNACK, 0)] + SizeField(2) + body;
    FrameParts(Header(CONNACK, 0), 2, body, buf, 4);
    FramedWhenLengthAgrees(Header(CONNACK, 0), 2, body);
    assert buf[3] == buf[2..4][1];
  }

  // ----- PUBLISH

  /** The response shows the published fields, its strings read from the buffer it points into. */
  ghost predicate PublishCarried(r: Decoded<Response>, buf: seq<byte>, a: PublishArgs) {
    && r.Got? && r.value.Publish?
    && r.value.qos == a.qos && r.value.retain == a.retain
    && r.value.packetId == (if a.qos >= 1 then a.packetId else 0)
    && r.value.topic.In(buf) && r.value.topic.Of(buf) == a.topic
    && r.value.message.In(buf) && r.value.message.Of(buf) == Text(a.msg)
  }

  lemma PublishHeader(qos: Qos, retain: bool)
    ensures var first := Header(PUBLISH, 2 * qos + Bit(retain));
            first / 16 == PUBLISH && first / 2 % 4 == qos && (first % 2 == 1 <==> retain)
  {
  }

  /** Where the parts of a PUBLISH body are found. */
  lemma PublishFields(a: PublishArgs, buf: seq<byte>, offset: nat)
    requires Holds(buf, offset, PublishBody(a))
    ensures CountedAt(buf, offset) == Got(View(offset + 2, |a.topic| % 256)) && Holds(buf, offset + 2, a.topic)
    ensures a.qos >= 1 ==> ShortAt(buf, offset + 2 + |a.topic|) == Got(a.packetId % 256)
    ensures Holds(buf, offset + 2 + |a.topic| + |IdField(a)|, Text(a.msg))
  {
    HoldsSplit(buf, offset, Counted(a.topic) + IdField(a), Text(a.msg));
    HoldsSplit(buf, offset, Counted(a.topic), IdField(a));
    CountedRoundTrip(a.topic, buf, offset);
    IdRead(a, buf, offset + 2 + |a.topic|);
  }

  lemma IdRead(a: PublishArgs, buf: seq<byte>, at: nat)
    requires Holds(buf, at, IdField(a))
    ensures a.qos >= 1 ==> ShortAt(buf, at) == Got(a.packetId % 256)
  {
    if a.qos >= 1 { ShortRoundTrip(a.packetId, buf, at); }
  }

  lemma PublishBodyParsed(a: PublishArgs, buf: seq<byte>, offset: nat)
    requires |a.topic| < 256 && |Text(a.msg)| < 65536
    requires 0 < |buf| && buf[0] == Header(PUBLISH, 2 * a.qos + Bit(a.retain))
    requires Holds(buf, offset, PublishBody(a))
    ensures PublishCarried(ParsePublish(buf, offset, PublishLength(a)), buf, a.(packetId := a.packetId % 256))
  {
    PublishFields(a, buf, offset);
    PublishHeader(a.qos, a.retain);
    var end := offset + 2 + |a.topic| + |IdField(a)|;
    assert ParsePublish(buf, offset, PublishLength(a))
        == Got(Publish(a.qos, a.retain, View(offset + 2, |a.topic|), if a.qos >= 1 then a.packetId % 256 else 0,
                       View(end, |Text(a.msg)|)));
  }

  /** A PUBLISH frame is recognised as such and its body handed on, whatever its strings. */
  lemma PublishFrameParts(a: PublishArgs, buf: seq<byte>)
    requires PublishFrame(a) <= buf && PublishLength(a) < SIZE_LIMIT
    ensures var offset := 1 + |SizeField(PublishLength(a))|;
            && buf[0] == Header(PUBLISH, 2 * a.qos + Bit(a.retain)) && Holds(buf, offset, PublishBody(a))
            && Parse(buf, |PublishFrame(a)|) == ParsePublish(buf, offset, PublishLength(a))
  {
    var first := Header(PUBLISH, 2 * a.qos + Bit(a.retain));
    FrameParsed(first, PublishLength(a), PublishBody(a), buf, |PublishFrame(a)|);
    PublishHeader(a.qos, a.retain);
  }

  /** Strings within bounds: the frame is parsed into views of its parts, the id cut to its low byte. */
  lemma PublishParsed(a: PublishArgs, buf: seq<byte>)
    requires |a.topic| < 256 && |Text(a.msg)| < 65536
    requires PublishFrame(a) <= buf
    ensures PublishCarried(Parse(buf, |PublishFrame(a)|), buf, a.(packetId := a.packetId % 256))
  {
    PublishIsShort(a);
    PublishFrameParts(a, buf);
    PublishBodyParsed(a, buf, 1 + |SizeField(PublishLength(a))|);
  }

  lemma PublishIsShort(a: PublishArgs)
    requires |a.topic| < 256 && |Text(a.msg)| < 65536
    ensures PublishLength(a) < SIZE_LIMIT
  {
    assert PublishLength(a) <= 4 + |a.topic| + 65536;
  }

  /** The published fields come back exactly when every length and id fits the byte it is read from. */
  lemma PublishRoundTrip(a: PublishArgs, buf: seq<byte>)
    requires PublishFrame(a) <= buf
    ensures PublishCarried(Parse(buf, |PublishFrame(a)|), buf, a)
            <==> |a.topic| < 256 && |Text(a.msg)| < 65536 && (a.qos >= 1 ==> a.packetId < 256)
  {
    var r := Parse(buf, |PublishFrame(a)|);
    if PublishCarried(r, buf, a) {
      ParsedBounds(buf, |PublishFrame(a)|);
      CarriedIsBounded(r, buf, a);
    } else if |a.topic| < 256 && |Text(a.msg)| < 65536 {
      PublishParsed(a, buf);
      LowIdCarried(r, buf, a);
    }
  }

  lemma CarriedIsBounded(r: Decoded<Response>, buf: seq<byte>, a: PublishArgs)
    requires PublishCarried(r, buf, a)
    requires r.value.topic.size < 256 && r.value.packetId < 256 && r.value.message.size < 65536
    ensures |a.topic| < 256 && |Text(a.msg)| < 65536 && (a.qos >= 1 ==> a.packetId < 256)
  {
  }

  lemma LowIdCarried(r: Decoded<Response>, buf: seq<byte>, a: PublishArgs)
    requires PublishCarried(r, buf, a.(packetId := a.packetId % 256))
    ensures (a.qos >= 1 ==> a.packetId < 256) ==> PublishCarried(r, buf, a)
  {
  }

  /** No field of a parsed PUBLISH ever exceeds what its length byte or counter can express. */
  lemma ParsedBounds(buf: seq<byte>, n: nat)
    requires var r := Parse(buf, n); r.Got? && r.value.Publish?
    ensures var p := Parse(buf, n).value;
            p.topic.size < 256 && p.packetId < 256 && p.message.size < 65536
  {
  }

  lemma PublishFramed(a: PublishArgs)
    ensures ExactlyFramed(PublishFrame(a)) <==> |Text(a.msg)| < 65536 && PublishLength(a) < SIZE_LIMIT
  {
    PublishBodyLength(a);
    FramedWhenLengthAgrees(Header(PUBLISH, 2 * a.qos + Bit(a.retain)), PublishLength(a), PublishBody(a));
  }

  lemma PublishBodyLength(a: PublishArgs)
    ensures |PublishBody(a)| == PublishLength(a) <==> |Text(a.msg)| < 65536
  {
    assert |PublishBody(a)| == 2 + |a.topic| + (if a.qos >= 1 then 2 else 0) + |Text(a.msg)|;
  }

  // ----- CONNECT

  ghost predicate ViewsAre(v: Option<View>, buf: seq<byte>, s: Option<CString>) {
    (v.Some? <==> s.Some?) && (v.Some? ==> v.value.In(buf) && v.value.Of(buf) == s.value)
  }

  ghost predicate WillIs(v: Option<(View, View)>, buf: seq<byte>, w: Option<Will>) {
    (v.Some? <==> w.Some?) &&
    (v.Some? ==>
       && v.value.0.In(buf) && v.value.0.Of(buf) == w.value.topic
       && v.value.1.In(buf) && v.value.1.Of(buf) == w.value.message)
  }

  ghost predicate ConnectCarried(r: Decoded<Response>, buf: seq<byte>, a: ConnectArgs) {
    && r.Got? && r.value.Connect?
    && r.value.name.In(buf) && r.value.name.Of(buf) == PROTOCOL_NAME && r.value.version == PROTOCOL_LEVEL
    && r.value.clean == a.clean && r.value.willQos == a.willQos && r.value.willRetain == a.willRetain
    && r.value.keepAlive == a.keepAlive
    && r.value.clientId.In(buf) && r.value.clientId.Of(buf) == a.clientId
    && WillIs(r.value.will, buf, a.will)
    && ViewsAre(r.value.user, buf, a.user) && ViewsAre(r.value.pw, buf, a.pw)
  }

  predicate ConnectFits(a: ConnectArgs) {
    && |a.clientId| < 256
    && (a.will.Some? ==> |a.will.value.topic| < 256 && |a.will.value.message| < 256)
    && LengthOf(a.user) < 256 && LengthOf(a.pw) < 256
  }

  /** The byte is unpacked into the flags of the CONNECT. */
  ghost predicate FlagsRead(f: byte, a: ConnectArgs) {
    && (f / 128 % 2 == 1 <==> a.user.Some?) && (f / 64 % 2 == 1 <==> a.pw.Some?)
    && (f / 32 % 2 == 1 <==> a.willRetain) && f / 8 % 4 == a.willQos
    && (f / 4 % 2 == 1 <==> a.will.Some?) && (f / 2 % 2 == 1 <==> a.clean)
  }

  lemma FlagsRoundTrip(a: ConnectArgs)
    ensures FlagsRead(ConnectFlags(a), a)
  {
    FlagsUnpacked(ConnectFlags(a), Bit(a.user.Some?), Bit(a.pw.Some?), Bit(a.willRetain), a.willQos,
                  Bit(a.will.Some?), Bit(a.clean));
  }

  lemma FlagsUnpacked(f: nat, u: nat, p: nat, r: nat, q: nat, w: nat, c: nat)
    requires u < 2 && p < 2 && r < 2 && q < 4 && w < 2 && c < 2
    requires f == 128 * u + 64 * p + 32 * r + 8 * q + 4 * w + 2 * c
    ensures f / 128 % 2 == u && f / 64 % 2 == p && f / 32 % 2 == r && f / 8 % 4 == q && f / 4 % 2 == w
            && f / 2 % 2 == c
  {
    assert f / 2 == 64 * u + 32 * p + 16 * r + 4 * q + 2 * w + c;
    assert f / 4 == 32 * u + 16 * p + 8 * r + 2 * q + w;
    assert f / 8 == 16 * u + 8 * p + 4 * r + q;
    assert f / 32 == 4 * u + 2 * p + r;
    assert f / 64 == 2 * u + p;
    assert f / 128 == u;
  }

  /** Reading an optional string at `at` gives `s` and ends at `next`. */
  ghost predicate OptionalRead(s: Option<CString>, buf: seq<byte>, at: nat, next: nat) {
    var r := ParseOptional(buf, at, s.Some?);
    r.Got? && ViewsAre(r.value.0, buf, s) && r.value.1 == next
  }

  ghost predicate WillRead(w: Option<Will>, buf: seq<byte>, at: nat, next: nat) {
    var r := ParseWill(buf, at, w.Some?);
    r.Got? && WillIs(r.value.0, buf, w) && r.value.1 == next
  }

  lemma OptionalRoundTrip(s: Option<CString>, buf: seq<byte>, at: nat)
    requires Holds(buf, at, MaybeCounted(s)) && LengthOf(s) < 256
    ensures OptionalRead(s, buf, at, at + |MaybeCounted(s)|)
  {
    if s.Some? {
      CountedRoundTrip(s.value, buf, at);
    }
  }

  lemma WillRoundTrip(w: Option<Will>, buf: seq<byte>, at: nat)
    requires Holds(buf, at, WillField(w))
    requires w.Some? ==> |w.value.topic| < 256 && |w.value.message| < 256
    ensures WillRead(w, buf, at, at + |WillField(w)|)
  {
    if w.Some? {
      HoldsSplit(buf, at, Counted(w.value.topic), Counted(w.value.message));
      CountedRoundTrip(w.value.topic, buf, at);
      CountedRoundTrip(w.value.message, buf, at + 2 + |w.value.topic|);
    }
  }

  lemma ConnectLengthAgrees(a: ConnectArgs)
    ensures ConnectLength(a) == |ConnectBody(a)|
  {
  }

  lemma ConnectHeaderParsed(a: ConnectArgs, buf: seq<byte>, offset: nat)
    requires Holds(buf, offset, ConnectHeader(a))
    ensures CountedAt(buf, offset) == Got(View(offset + 2, 6))
    ensures View(offset + 2, 6).In(buf) && View(offset + 2, 6).Of(buf) == PROTOCOL_NAME
    ensures ByteAt(buf, offset + 8) == Got(PROTOCOL_LEVEL)
    ensures ByteAt(buf, offset + 9) == Got(ConnectFlags(a))
    ensures ShortAt(buf, offset + 10) == Got(a.keepAlive)
  {
    var h := ConnectHeader(a);
    HoldsSplit(buf, offset, Counted(PROTOCOL_NAME) + [PROTOCOL_LEVEL] + [ConnectFlags(a)], Short(a.keepAlive));
    HoldsSplit(buf, offset, Counted(PROTOCOL_NAME) + [PROTOCOL_LEVEL], [ConnectFlags(a)]);
    HoldsSplit(buf, offset, Counted(PROTOCOL_NAME), [PROTOCOL_LEVEL]);
    CountedRoundTrip(PROTOCOL_NAME, buf, offset);
    assert buf[offset + 8] == buf[offset + 8..offset + 9][0];
    assert buf[offset + 9] == buf[offset + 9..offset + 10][0];
    ShortRoundTrip(a.keepAlive, buf, offset + 10);
  }

  /** All strings and flags of a CONNECT come back exactly when every string length fits one byte. */
  lemma ConnectRoundTrip(a: ConnectArgs, buf: seq<byte>)
    requires ConnectFrame(a) <= buf
    ensures ConnectCarried(Parse(buf, |ConnectFrame(a)|), buf, a) <==> ConnectFits(a)
  {
    if ConnectFits(a) {
      ConnectParsed(a, buf);
    } else {
      ConnectSizes(buf, |ConnectFrame(a)|);
    }
  }

  lemma ConnectSizes(buf: seq<byte>, n: nat)
    ensures var r := Parse(buf, n);
            r.Got? && r.value.Connect? ==>
              && r.value.clientId.size < 256
              && (r.value.will.Some? ==> r.value.will.value.0.size < 256 && r.value.will.value.1.size < 256)
              && (r.value.user.Some? ==> r.value.user.value.size < 256)
              && (r.value.pw.Some? ==> r.value.pw.value.size < 256)
  {
    var r := Parse(buf, n);
    if r.Got? && r.value.Connect? {
      var size := ReadSize(buf, 1, n);
      assert r == ParseConnect(buf, 1 + size.used);
    }
  }

  /** The parts of a CONNECT body stand one after the other in the buffer. */
  ghost predicate ConnectHeld(a: ConnectArgs, buf: seq<byte>, offset: nat, at: nat, named: nat, secret: nat) {
    && Holds(buf, offset, ConnectHeader(a)) && Holds(buf, offset + 12, Counted(a.clientId))
    && at == offset + 14 + |a.clientId| && Holds(buf, at, WillField(a.will))
    && named == at + |WillField(a.will)| && Holds(buf, named, MaybeCounted(a.user))
    && secret == named + |MaybeCounted(a.user)| && Holds(buf, secret, MaybeCounted(a.pw))
  }

  lemma ConnectParts(a: ConnectArgs, buf: seq<byte>, offset: nat) returns (at: nat, named: nat, secret: nat)
    requires Holds(buf, offset, ConnectBody(a))
    ensures ConnectHeld(a, buf, offset, at, named, secret)
  {
    var h, id, will, user, pw :=
      ConnectHeader(a), Counted(a.clientId), WillField(a.will), MaybeCounted(a.user), MaybeCounted(a.pw);
    HoldsSplit(buf, offset, h + id + will + user, pw);
    HoldsSplit(buf, offset, h + id + will, user);
    HoldsSplit(buf, offset, h + id, will);
    HoldsSplit(buf, offset, h, id);
    at := offset + 14 + |a.clientId|;
    named := at + |will|;
    secret := named + |user|;
  }

  /** The fields of the variable header and the client id, as read. */
  ghost predicate HeadRead(a: ConnectArgs, buf: seq<byte>, offset: nat, at: nat) {
    var name, id := View(offset + 2, 6), View(offset + 14, |a.clientId|);
    && ParseConnectHead(buf, offset) == Got(ConnectHead(name, PROTOCOL_LEVEL, ConnectFlags(a), a.keepAlive, id, at))
    && name.In(buf) && name.Of(buf) == PROTOCOL_NAME && id.In(buf) && id.Of(buf) == a.clientId
  }

  lemma HeadParsed(a: ConnectArgs, buf: seq<byte>, offset: nat, at: nat)
    requires Holds(buf, offset, ConnectHeader(a)) && Holds(buf, offset + 12, Counted(a.clientId))
    requires |a.clientId| < 256 && at == offset + 14 + |a.clientId|
    ensures HeadRead(a, buf, offset, at)
  {
    ConnectHeaderParsed(a, buf, offset);
    CountedRoundTrip(a.clientId, buf, offset + 12);
  }

  /** ParseConnect put together from the results of its steps. */
  lemma ConnectAssembled(
      a: ConnectArgs, buf: seq<byte>, offset: nat, at: nat, named: nat, secret: nat, end: nat)
    requires HeadRead(a, buf, offset, at) && FlagsRead(ConnectFlags(a), a) && WillRead(a.will, buf, at, named)
    requires OptionalRead(a.user, buf, named, secret) && OptionalRead(a.pw, buf, secret, end)
    ensures ConnectCarried(ParseConnect(buf, offset), buf, a)
  {
  }

  lemma ConnectBodyParsed(a: ConnectArgs, buf: seq<byte>, offset: nat, at: nat, named: nat, secret: nat)
    requires ConnectHeld(a, buf, offset, at, named, secret) && ConnectFits(a)
    ensures ConnectCarried(ParseConnect(buf, offset), buf, a)
  {
    HeadParsed(a, buf, offset, at);
    WillRoundTrip(a.will, buf, at);
    OptionalRoundTrip(a.user, buf, named);
    OptionalRoundTrip(a.pw, buf, secret);
    FlagsRoundTrip(a);
    ConnectAssembled(a, buf, offset, at, named, secret, secret + |MaybeCounted(a.pw)|);
  }

  lemma ConnectFrameParts(a: ConnectArgs, buf: seq<byte>)
    requires ConnectFrame(a) <= buf && ConnectFits(a)
    ensures var offset := 1 + |SizeField(ConnectLength(a))|;
            Parse(buf, |ConnectFrame(a)|) == ParseConnect(buf, offset) && Holds(buf, offset, ConnectBody(a))
  {
    ConnectIsShort(a);
    FrameParsed(Header(CONNECT, 0), ConnectLength(a), ConnectBody(a), buf, |ConnectFrame(a)|);
    ConnectByType(buf, 1 + |SizeField(ConnectLength(a))|, ConnectLength(a));
  }

  lemma ConnectIsShort(a: ConnectArgs)
    requires ConnectFits(a)
    ensures ConnectLength(a) < SIZE_LIMIT
  {
    assert ConnectLength(a) < 2000;
  }

  lemma ConnectByType(buf: seq<byte>, offset: nat, len: nat)
    requires 0 < |buf| && buf[0] == Header(CONNECT, 0)
    ensures ParseBody(buf, offset, len) == ParseConnect(buf, offset)
  {
  }

  lemma ConnectParsed(a: ConnectArgs, buf: seq<byte>)
    requires ConnectFrame(a) <= buf && ConnectFits(a)
    ensures ConnectCarried(Parse(buf, |ConnectFrame(a)|), buf, a)
  {
    ConnectFrameParts(a, buf);
    var offset := 1 + |SizeField(ConnectLength(a))|;
    var at, named, secret := ConnectParts(a, buf, offset);
    ConnectBodyParsed(a, buf, offset, at, named, secret);
  }

  lemma ConnectFramed(a: ConnectArgs)
    ensures ExactlyFramed(ConnectFrame(a)) <==> ConnectLength(a) < SIZE_LIMIT
  {
    ConnectLengthAgrees(a);
    FramedWhenLengthAgrees(Header(CONNECT, 0), ConnectLength(a), ConnectBody(a));
  }
}
