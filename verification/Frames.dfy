/** The frames the make_*_message builders produce, as plain byte strings. */
module Frames {
  import opened Bytes
  import opened SizeCodec

  const CONNECT := 1
  const CONNACK := 2
  const PUBLISH := 3
  const PUBACK := 4
  const PUBREC := 5
  const PUBREL := 6
  const PUBCOMP := 7
  const SUBSCRIBE := 8
  const SUBACK := 9
  const UNSUBSCRIBE := 10
  const UNSUBACK := 11
  const PINGREQ := 12
  const PINGRESP := 13
  const DISCONNECT := 14

  const MAX_TOPICS := 32

  const PROTOCOL_NAME: CString := [77, 81, 73, 115, 100, 112]
  const PROTOCOL_LEVEL: byte := 3

  // The MSB macro narrows its argument to eight bits before it masks and shifts.
  function Msb(v: nat): byte {
    (v % 256) / 256
  }

  function Lsb(v: nat): byte {
    v % 256
  }

  function Short(v: nat): (s: seq<byte>)
    ensures |s| == 2
  {
    [Msb(v), Lsb(v)]
  }

  // short_from_buffer shifts the first byte by sixteen places and keeps sixteen bits.
  function ReadShort(buf: seq<byte>, at: nat): (v: uint16)
    requires at + 2 <= |buf|
    ensures v < 256
  {
    (buf[at] as int) * 65536 % 65536 + buf[at + 1]
  }

  function Bit(b: bool): nat {
    if b then 1 else 0
  }

  function LengthOf(s: Option<CString>): nat {
    if s.Some? then |s.value| else 0
  }

  function Header(messageType: nat, low: nat): byte
    requires messageType < 16 && low < 16
  {
    16 * messageType + low
  }

  // ----- CONNECT

  datatype Will = Will(topic: CString, message: CString)

  datatype ConnectArgs = ConnectArgs(
    clientId: CString,
    user: Option<CString>,
    pw: Option<CString>,
    keepAlive: byte,
    clean: bool,
    will: Option<Will>,
    willQos: Qos,
    willRetain: bool)

  function ConnectFlags(a: ConnectArgs): byte {
    128 * Bit(a.user.Some?) + 64 * Bit(a.pw.Some?) + 32 * Bit(a.willRetain)
    + 8 * a.willQos + 4 * Bit(a.will.Some?) + 2 * Bit(a.clean)
  }

  function Counted(s: CString): seq<byte> {
    Short(|s|) + s
  }

  function MaybeCounted(s: Option<CString>): seq<byte> {
    if s.Some? then Counted(s.value) else []
  }

  function WillField(w: Option<Will>): seq<byte> {
    if w.Some? then Counted(w.value.topic) + Counted(w.value.message) else []
  }

  /** The length make_connect_message adds up before it writes anything. */
  function ConnectLength(a: ConnectArgs): nat {
    8 + |PROTOCOL_NAME| + |a.clientId|
    + (if a.will.Some? then 2 + |a.will.value.topic| + 2 + |a.will.value.message| else 0)
    + (if a.user.Some? then 2 + |a.user.value| else 0)
    + (if a.pw.Some? then 2 + |a.pw.value| else 0)
  }

  /** The variable header of twelve bytes. */
  function ConnectHeader(a: ConnectArgs): (h: seq<byte>)
    ensures |h| == 12
  {
    Counted(PROTOCOL_NAME) + [PROTOCOL_LEVEL] + [ConnectFlags(a)] + Short(a.keepAlive)
  }

  function ConnectBody(a: ConnectArgs): seq<byte> {
    ConnectHeader(a) + Counted(a.clientId) + WillField(a.will) + MaybeCounted(a.user) + MaybeCounted(a.pw)
  }

  function ConnectFrame(a: ConnectArgs): seq<byte> {
    [Header(CONNECT, 0)] + SizeField(ConnectLength(a)) + ConnectBody(a)
  }

  // ----- PUBLISH

  datatype PublishArgs = PublishArgs(topic: CString, packetId: uint16, qos: Qos, retain: bool, msg: Option<CString>)

  function Text(msg: Option<CString>): CString {
    if msg.Some? then msg.value else []
  }

  // message_len is a uint16_t
  function PublishLength(a: PublishArgs): nat {
    2 + |a.topic| + (if a.qos >= 1 then 2 else 0) + |Text(a.msg)| % 65536
  }

  function IdField(a: PublishArgs): seq<byte> {
    if a.qos >= 1 then Short(a.packetId) else []
  }

  function PublishBody(a: PublishArgs): seq<byte> {
    Counted(a.topic) + IdField(a) + Text(a.msg)
  }

  function PublishFrame(a: PublishArgs): seq<byte> {
    [Header(PUBLISH, 2 * a.qos + Bit(a.retain))] + SizeField(PublishLength(a)) + PublishBody(a)
  }

  // ----- SUBSCRIBE and UNSUBSCRIBE

  function TopicEntry(topic: CString, qos: Qos, withQos: bool): seq<byte> {
    Counted(topic) + (if withQos then [qos] else [])
  }

  /** The first n entries of the payload. */
  function TopicEntries(topics: seq<CString>, qoss: seq<Qos>, withQos: bool, n: nat): seq<byte>
    requires n <= |topics| && (withQos ==> |qoss| == |topics|)
  {
    if n == 0 then []
    else TopicEntries(topics, qoss, withQos, n - 1)
         + TopicEntry(topics[n - 1], if withQos then qoss[n - 1] else 0, withQos)
  }

  /** The space the first n topics take, without the wrap-around of get_utf8_string_size. */
  function TopicSpace(topics: seq<CString>, withQos: bool, n: nat): nat
    requires n <= |topics|
  {
    if n == 0 then 0
    else TopicSpace(topics, withQos, n - 1) + 2 + |topics[n - 1]| + Bit(withQos)
  }

  function TopicsLength(topics: seq<CString>, withQos: bool): nat {
    2 + TopicSpace(topics, withQos, |topics|) % 65536
  }

  function TopicsFrame(
      messageType: nat, packetId: uint16, topics: seq<CString>, qoss: seq<Qos>, withQos: bool): seq<byte>
    requires messageType < 16
    requires withQos ==> |qoss| == |topics|
  {
    [Header(messageType, 2)] + SizeField(TopicsLength(topics, withQos))
    + (Short(packetId) + TopicEntries(topics, qoss, withQos, |topics|))
  }

  function SubscribeFrame(packetId: uint16, topics: seq<CString>, qoss: seq<Qos>): seq<byte>
    requires |qoss| == |topics|
  {
    TopicsFrame(SUBSCRIBE, packetId, topics, qoss, true)
  }

  function UnsubscribeFrame(packetId: uint16, topics: seq<CString>): seq<byte> {
    TopicsFrame(UNSUBSCRIBE, packetId, topics, [], false)
  }

  // ----- SUBACK

  function Grant(success: bool, qos: Qos): byte {
    if success then qos else 128
  }

  function Grants(success: seq<bool>, qoss: seq<Qos>, n: nat): (g: seq<byte>)
    requires n <= |success| == |qoss|
    ensures |g| == n
    ensures forall i :: 0 <= i < n ==> g[i] == Grant(success[i], qoss[i])
  {
    if n == 0 then [] else Grants(success, qoss, n - 1) + [Grant(success[n - 1], qoss[n - 1])]
  }

  function SubackFrame(packetId: uint16, success: seq<bool>, qoss: seq<Qos>): seq<byte>
    requires |success| == |qoss|
  {
    [Header(SUBACK, 0)] + SizeField(2 + |success|) + (Short(packetId) + Grants(success, qoss, |success|))
  }

  // ----- frames of fixed length

  /** PUBACK, PUBREC, PUBREL, PUBCOMP and UNSUBACK: nothing but a packet id. */
  function IdFrame(messageType: nat, low: nat, packetId: uint16): (f: seq<byte>)
    requires messageType < 16 && low < 16
    ensures |f| == 4
  {
    [Header(messageType, low), 2] + Short(packetId)
  }

  function PubackFrame(packetId: uint16): seq<byte> { IdFrame(PUBACK, 0, packetId) }
  function PubrecFrame(packetId: uint16): seq<byte> { IdFrame(PUBREC, 0, packetId) }
  function PubrelFrame(packetId: uint16): seq<byte> { IdFrame(PUBREL, 2, packetId) }
  function PubcompFrame(packetId: uint16): seq<byte> { IdFrame(PUBCOMP, 0, packetId) }
  function UnsubackFrame(packetId: uint16): seq<byte> { IdFrame(UNSUBACK, 0, packetId) }
  function ConnackFrame(code: byte): seq<byte> { [Header(CONNACK, 0), 2, 0, code] }

  /** PINGREQ, PINGRESP and DISCONNECT: the fixed header alone. */
  function BareFrame(messageType: nat): seq<byte>
    requires messageType < 16
  {
    [Header(messageType, 0), 0]
  }
}
