/**
 * The frames byte by byte (section 2 and 3 of MQTT V3.1, as the builders of libsmqttcore/messages.c write them):
 * numbers only, so that both sides of a round trip are held to the same bytes.
 */
module WireFormat {
  import opened Bytes
  import opened SizeCodec
  import opened Frames
  import TopicTrips
  import Builders

  /** A 16-bit value as it reaches the wire: the high byte is always zero. */
  function Narrow(v: nat): seq<byte> {
    [0, v % 256]
  }

  function Prefixed(s: CString): seq<byte> {
    Narrow(|s|) + s
  }

  /** The size field for every size, also for those that it cannot express. */
  lemma SizeFieldBytes(size: nat)
    ensures size < 128 ==> SizeField(size) == [size]
    ensures 128 <= size < 16384 ==> SizeField(size) == [128 + size % 128, size / 128]
    ensures 16384 <= size < 2097152 ==>
              SizeField(size) == [128 + size % 128, 128 + size / 128 % 128, size / 16384]
    ensures 2097152 <= size < 268435456 ==>
              SizeField(size) == [128 + size % 128, 128 + size / 128 % 128, 128 + size / 16384 % 128, size / 2097152]
    ensures 268435456 <= size ==>
              SizeField(size)
              == [128 + size % 128, 128 + size / 128 % 128, 128 + size / 16384 % 128, 128 + size / 2097152 % 128]
  {
    var b, c, d := size / 128, size / 128 / 128, size / 128 / 128 / 128;
    assert c == size / 16384 && d == size / 2097152;
    assert SizeDigits(d, 1) == [if d / 128 > 0 then d % 128 + 128 else d % 128];
    assert SizeDigits(c, 2) == if d > 0 then [c % 128 + 128] + SizeDigits(d, 1) else [c % 128];
    assert SizeDigits(b, 3) == if c > 0 then [b % 128 + 128] + SizeDigits(c, 2) else [b % 128];
    assert SizeField(size) == if b > 0 then [size % 128 + 128] + SizeDigits(b, 3) else [size % 128];
  }

  lemma ShortBytes(v: nat)
    ensures Short(v) == Narrow(v)
  {
  }

  function Flag(b: bool, weight: nat): nat {
    if b then weight else 0
  }

  function OptionalBytes(s: Option<CString>): seq<byte> {
    if s.Some? then Prefixed(s.value) else []
  }

  function WillBytes(w: Option<Will>): seq<byte> {
    if w.Some? then Prefixed(w.value.topic) + Prefixed(w.value.message) else []
  }

  function ConnectStrings(a: ConnectArgs): seq<byte> {
    Prefixed(a.clientId) + WillBytes(a.will) + OptionalBytes(a.user) + OptionalBytes(a.pw)
  }

  /** CONNECT: "MQIsdp" and level 3 behind the size, then flags, keep-alive and the strings in their order. */
  lemma ConnectBytes(a: ConnectArgs)
    ensures var flags := Flag(a.user.Some?, 128) + Flag(a.pw.Some?, 64) + Flag(a.willRetain, 32) + 8 * a.willQos
                         + Flag(a.will.Some?, 4) + Flag(a.clean, 2);
            ConnectFrame(a)
            == [16] + SizeField(12 + |ConnectStrings(a)|)
               + ([0, 6, 77, 81, 73, 115, 100, 112, 3, flags, 0, a.keepAlive] + ConnectStrings(a))
  {
    ConnectHeaderBytes(a);
    ConnectStringsBytes(a);
  }

  lemma ConnectHeaderBytes(a: ConnectArgs)
    ensures var flags := Flag(a.user.Some?, 128) + Flag(a.pw.Some?, 64) + Flag(a.willRetain, 32) + 8 * a.willQos
                         + Flag(a.will.Some?, 4) + Flag(a.clean, 2);
            ConnectHeader(a) == [0, 6, 77, 81, 73, 115, 100, 112, 3, flags, 0, a.keepAlive]
  {
  }

  lemma ConnectStringsBytes(a: ConnectArgs)
    ensures ConnectBody(a) == ConnectHeader(a) + ConnectStrings(a)
    ensures ConnectLength(a) == 12 + |ConnectStrings(a)|
  {
    var h, id, will, user, pw :=
      ConnectHeader(a), Counted(a.clientId), WillField(a.will), MaybeCounted(a.user), MaybeCounted(a.pw);
    assert id == Prefixed(a.clientId) && will == WillBytes(a.will);
    assert user == OptionalBytes(a.user) && pw == OptionalBytes(a.pw);
    Regroup(h, id, will, user, pw);
  }

  lemma Regroup(h: seq<byte>, id: seq<byte>, will: seq<byte>, user: seq<byte>, pw: seq<byte>)
    ensures h + id + will + user + pw == h + (id + will + user + pw)
  {
  }

  lemma PublishBytes(a: PublishArgs)
    ensures PublishFrame(a)
         == [48 + 2 * a.qos + Flag(a.retain, 1)]
            + SizeField(2 + |a.topic| + Flag(a.qos != 0, 2) + |Text(a.msg)| % 65536)
            + (Prefixed(a.topic) + (if a.qos == 0 then [] else Narrow(a.packetId))
               + (if a.msg.Some? then a.msg.value else []))
  {
  }

  lemma AckBytes(id: uint16)
    ensures PubackFrame(id) == [64, 2, 0, id % 256]
    ensures PubrecFrame(id) == [80, 2, 0, id % 256]
    ensures PubrelFrame(id) == [98, 2, 0, id % 256]
    ensures PubcompFrame(id) == [112, 2, 0, id % 256]
    ensures UnsubackFrame(id) == [176, 2, 0, id % 256]
  {
  }

  lemma FixedBytes(code: byte)
    ensures ConnackFrame(code) == [32, 2, 0, code]
    ensures BareFrame(PINGREQ) == [192, 0] && BareFrame(PINGRESP) == [208, 0] && BareFrame(DISCONNECT) == [224, 0]
  {
  }

  /** Entry k of a topic list: length and characters, then the QoS where there is one; it ends where k + 1 begins. */
  lemma EntryBytes(topics: seq<CString>, qoss: seq<Qos>, withQos: bool, k: nat)
    requires (withQos ==> |qoss| == |topics|) && k < |topics|
    ensures var all := TopicEntries(topics, qoss, withQos, |topics|);
            var at, next := TopicSpace(topics, withQos, k), TopicSpace(topics, withQos, k + 1);
            && next == at + 2 + |topics[k]| + Flag(withQos, 1) <= |all| == TopicSpace(topics, withQos, |topics|)
            && all[at..next] == Prefixed(topics[k]) + (if withQos then [qoss[k]] else [])
    ensures TopicSpace(topics, withQos, 0) == 0
  {
    TopicTrips.EntryPlace(topics, qoss, withQos, k);
    Builders.EntriesGrow(topics, qoss, withQos, |topics|, |topics|);
    assert TopicEntry(topics[k], if withQos then qoss[k] else 0, withQos)
        == Prefixed(topics[k]) + (if withQos then [qoss[k]] else []);
  }

  /** SUBSCRIBE and UNSUBSCRIBE: both ask for QoS 1 in their own header. */
  lemma SubscribeBytes(id: uint16, topics: seq<CString>, qoss: seq<Qos>, entries: seq<byte>)
    requires |qoss| == |topics| && entries == TopicEntries(topics, qoss, true, |topics|)
    ensures SubscribeFrame(id, topics, qoss)
         == [130] + SizeField(2 + TopicSpace(topics, true, |topics|) % 65536) + (Narrow(id) + entries)
  {
    ShortBytes(id);
  }

  lemma UnsubscribeBytes(id: uint16, topics: seq<CString>, entries: seq<byte>)
    requires entries == TopicEntries(topics, [], false, |topics|)
    ensures UnsubscribeFrame(id, topics)
         == [162] + SizeField(2 + TopicSpace(topics, false, |topics|) % 65536) + (Narrow(id) + entries)
  {
    ShortBytes(id);
  }

  lemma SubackBytes(id: uint16, success: seq<bool>, qoss: seq<Qos>)
    requires |success| == |qoss|
    ensures var verdicts: seq<byte> :=
              seq(|success|, k requires 0 <= k < |success| => if success[k] then qoss[k] else 128 as byte);
            SubackFrame(id, success, qoss) == [144] + SizeField(2 + |success|) + (Narrow(id) + verdicts)
  {
    var verdicts: seq<byte> :=
      seq(|success|, k requires 0 <= k < |success| => if success[k] then qoss[k] else 128 as byte);
    assert Grants(success, qoss, |success|) == verdicts;
  }
}
