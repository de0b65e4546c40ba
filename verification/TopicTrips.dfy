/** Topic lists through the wire: SUBSCRIBE, UNSUBSCRIBE and SUBACK. */
module TopicTrips {
  import opened Bytes
  import opened SizeCodec
  import opened Frames
  import opened Deserializer
  import opened RoundTrips
  import Builders

  /** deserialize_response keeps at most MAX_TOPICS entries. */
  function Kept(n: nat): nat {
    Min(n, MAX_TOPICS)
  }

  /** The payload size as computed by deserialize_response, which subtracts the header instead of the id. */
  function Segment(total: nat): nat {
    SegmentSize(total, 1 + |SizeField(total)|)
  }

  /** The index at which the reading loop stops, from index k on. */
  function End(topics: seq<CString>, withQos: bool, segment: nat, k: nat): (e: nat)
    requires k <= Kept(|topics|)
    ensures k <= e <= Kept(|topics|)
    decreases Kept(|topics|) - k
  {
    if k == Kept(|topics|) || TopicSpace(topics, withQos, k) + 2 > segment then k
    else End(topics, withQos, segment, k + 1)
  }

  lemma {:induction false} EndReached(topics: seq<CString>, withQos: bool, segment: nat, k: nat)
    requires k <= Kept(|topics|)
    ensures var m := Kept(|topics|);
            End(topics, withQos, segment, k) == m <==> k == m || TopicSpace(topics, withQos, m - 1) + 2 <= segment
    decreases Kept(|topics|) - k
  {
    var m := Kept(|topics|);
    if k < m {
      SpaceGrows(topics, withQos, k, m - 1);
      if TopicSpace(topics, withQos, k) + 2 <= segment {
        EndReached(topics, withQos, segment, k + 1);
      }
    }
  }

  lemma {:induction false} SpaceGrows(topics: seq<CString>, withQos: bool, j: nat, k: nat)
    requires j <= k <= |topics|
    ensures TopicSpace(topics, withQos, j) + 2 * (k - j) <= TopicSpace(topics, withQos, k)
    decreases k
  {
    if j < k { SpaceGrows(topics, withQos, j, k - 1); }
  }

  /** One entry of the payload is read as a view of its topic and its QoS byte. */
  lemma EntryParsed(topic: CString, qos: Qos, withQos: bool, buf: seq<byte>, at: nat)
    requires |topic| < 256 && Holds(buf, at, TopicEntry(topic, qos, withQos))
    ensures var view := View(at + 2, |topic|);
            && TopicAt(buf, at, withQos)
               == Got(Entry(view, if withQos then [qos] else [], at + 2 + |topic| + Bit(withQos)))
            && view.In(buf) && view.Of(buf) == topic
  {
    HoldsSplit(buf, at, Counted(topic), if withQos then [qos] else []);
    CountedRoundTrip(topic, buf, at);
    if withQos {
      var end := at + 2 + |topic|;
      assert buf[end] == buf[end..end + 1][0];
    }
  }

  lemma EntryPlace(topics: seq<CString>, qoss: seq<Qos>, withQos: bool, k: nat)
    requires (withQos ==> |qoss| == |topics|) && k < |topics|
    ensures var all := TopicEntries(topics, qoss, withQos, |topics|);
            var i, j := TopicSpace(topics, withQos, k), TopicSpace(topics, withQos, k + 1);
            j <= |all| && all[i..j] == TopicEntry(topics[k], if withQos then qoss[k] else 0, withQos)
  {
    var all, upto := TopicEntries(topics, qoss, withQos, |topics|), TopicEntries(topics, qoss, withQos, k + 1);
    Builders.EntriesGrow(topics, qoss, withQos, k + 1, |topics|);
    Builders.EntriesGrow(topics, qoss, withQos, k, |topics|);
    assert all[..|upto|] == upto;
  }

  /** Entry k is read as a view of its topic and its QoS byte, and reading goes on at entry k + 1. */
  ghost predicate Readable(topics: seq<CString>, qoss: seq<Qos>, withQos: bool, buf: seq<byte>, base: nat, k: nat)
    requires (withQos ==> |qoss| == |topics|) && k < |topics|
  {
    var at := base + TopicSpace(topics, withQos, k);
    var view := View(at + 2, |topics[k]|);
    && TopicAt(buf, at, withQos)
       == Got(Entry(view, if withQos then [qoss[k]] else [], base + TopicSpace(topics, withQos, k + 1)))
    && view.In(buf) && view.Of(buf) == topics[k]
  }

  ghost predicate KeptReadable(topics: seq<CString>, qoss: seq<Qos>, withQos: bool, buf: seq<byte>, base: nat)
    requires withQos ==> |qoss| == |topics|
  {
    forall i :: 0 <= i < Kept(|topics|) ==> Readable(topics, qoss, withQos, buf, base, i)
  }

  lemma EntryHeld(topics: seq<CString>, qoss: seq<Qos>, withQos: bool, buf: seq<byte>, base: nat, k: nat)
    requires (withQos ==> |qoss| == |topics|) && k < |topics|
    requires Holds(buf, base, TopicEntries(topics, qoss, withQos, |topics|))
    ensures Holds(buf, base + TopicSpace(topics, withQos, k),
                  TopicEntry(topics[k], if withQos then qoss[k] else 0, withQos))
  {
    EntryPlace(topics, qoss, withQos, k);
    var all := TopicEntries(topics, qoss, withQos, |topics|);
    HoldsSlice(buf, base, all, TopicSpace(topics, withQos, k), TopicSpace(topics, withQos, k + 1));
  }

  lemma EntryRead(topics: seq<CString>, qoss: seq<Qos>, withQos: bool, buf: seq<byte>, base: nat, k: nat)
    requires (withQos ==> |qoss| == |topics|) && k < |topics| && |topics[k]| < 256
    requires Holds(buf, base, TopicEntries(topics, qoss, withQos, |topics|))
    ensures Readable(topics, qoss, withQos, buf, base, k)
  {
    EntryHeld(topics, qoss, withQos, buf, base, k);
    EntryParsed(topics[k], if withQos then qoss[k] else 0, withQos, buf, base + TopicSpace(topics, withQos, k));
  }

  ghost predicate ViewsCarried(views: seq<View>, buf: seq<byte>, topics: seq<CString>, k: nat, e: nat)
    requires k <= e <= |topics|
  {
    |views| == e - k && forall i :: 0 <= i < e - k ==> views[i].In(buf) && views[i].Of(buf) == topics[k + i]
  }

  /** The loop has delivered the topics from index k up to e, with their QoS bytes where there are any. */
  ghost predicate Filled(
      r: Decoded<Topics>, buf: seq<byte>, topics: seq<CString>, qoss: seq<Qos>, withQos: bool, k: nat, e: nat)
    requires k <= e <= |topics| && (withQos ==> |qoss| == |topics|)
  {
    r.Got? && ViewsCarried(r.value.views, buf, topics, k, e) && (withQos ==> r.value.qoss == qoss[k..e])
  }

  lemma {:induction false} FillEntries(
      topics: seq<CString>, qoss: seq<Qos>, withQos: bool, buf: seq<byte>, base: nat, max: nat, segment: nat,
      k: nat)
    requires (withQos ==> |qoss| == |topics|) && k <= Kept(|topics|)
    requires KeptReadable(topics, qoss, withQos, buf, base)
    requires max == base + segment && segment <= TopicSpace(topics, withQos, |topics|)
    ensures Filled(FillTopics(buf, base + TopicSpace(topics, withQos, k), max, withQos, MAX_TOPICS - k),
                   buf, topics, qoss, withQos, k, End(topics, withQos, segment, k))
    decreases Kept(|topics|) - k
  {
    var at := base + TopicSpace(topics, withQos, k);
    if k < Kept(|topics|) && TopicSpace(topics, withQos, k) + 2 <= segment {
      FillEntries(topics, qoss, withQos, buf, base, max, segment, k + 1);
      PrependEntry(topics, qoss, withQos, buf, base, max, k, End(topics, withQos, segment, k + 1));
    } else {
      assert FillTopics(buf, at, max, withQos, MAX_TOPICS - k) == Got(Topics([], []));
    }
  }

  lemma PrependEntry(
      topics: seq<CString>, qoss: seq<Qos>, withQos: bool, buf: seq<byte>, base: nat, max: nat, k: nat, e: nat)
    requires (withQos ==> |qoss| == |topics|) && k < e <= |topics| && k < MAX_TOPICS
    requires base + TopicSpace(topics, withQos, k) + 2 <= max && Readable(topics, qoss, withQos, buf, base, k)
    requires Filled(FillTopics(buf, base + TopicSpace(topics, withQos, k + 1), max, withQos, MAX_TOPICS - (k + 1)),
                    buf, topics, qoss, withQos, k + 1, e)
    ensures Filled(FillTopics(buf, base + TopicSpace(topics, withQos, k), max, withQos, MAX_TOPICS - k),
                   buf, topics, qoss, withQos, k, e)
  {
    var at := base + TopicSpace(topics, withQos, k);
    var rest := FillTopics(buf, base + TopicSpace(topics, withQos, k + 1), max, withQos, MAX_TOPICS - (k + 1)).value;
    var views := [View(at + 2, |topics[k]|)] + rest.views;
    forall i | 0 <= i < e - k
      ensures views[i].In(buf) && views[i].Of(buf) == topics[k + i]
    {
      if i > 0 { assert views[i] == rest.views[i - 1]; }
    }
    if withQos { assert [qoss[k]] + qoss[k + 1..e] == qoss[k..e]; }
  }

  /** What a caller can check beforehand: id and lengths fit a byte, and the loop reaches the last kept topic. */
  predicate TopicsFit(packetId: uint16, topics: seq<CString>, withQos: bool) {
    packetId < 256 && ListFits(topics, withQos, Segment(TopicsLength(topics, withQos)))
  }

  /** The topics that are kept have lengths that fit a byte. */
  predicate KeptShort(topics: seq<CString>) {
    forall i :: 0 <= i < Kept(|topics|) ==> |topics[i]| < 256
  }

  predicate ListFits(topics: seq<CString>, withQos: bool, segment: nat) {
    var m := Kept(|topics|);
    && KeptShort(topics)
    && (m > 0 ==> TopicSpace(topics, withQos, m - 1) + 2 <= segment)
  }

  ghost predicate SubscribeCarried(
      r: Decoded<Response>, buf: seq<byte>, packetId: uint16, topics: seq<CString>, qoss: seq<Qos>)
    requires |qoss| == |topics|
  {
    && r.Got? && r.value.Subscribe? && r.value.packetId == packetId
    && ViewsCarried(r.value.topics, buf, topics, 0, Kept(|topics|))
    && r.value.qoss == qoss[..Kept(|topics|)]
  }

  ghost predicate UnsubscribeCarried(r: Decoded<Response>, buf: seq<byte>, packetId: uint16, topics: seq<CString>) {
    && r.Got? && r.value.Unsubscribe? && r.value.packetId == packetId
    && ViewsCarried(r.value.topics, buf, topics, 0, Kept(|topics|))
  }

  lemma SegmentBound(total: nat)
    requires 2 <= total < SIZE_LIMIT
    ensures Segment(total) == total - 1 - |SizeField(total)| <= total - 2
  {
    FieldLength(total);
  }

  lemma TopicsFrameParts(
      messageType: nat, packetId: uint16, topics: seq<CString>, qoss: seq<Qos>, withQos: bool, buf: seq<byte>)
    requires messageType < 16 && (withQos ==> |qoss| == |topics|)
    requires TopicsFrame(messageType, packetId, topics, qoss, withQos) <= buf
    ensures var total := TopicsLength(topics, withQos);
            var offset := 1 + |SizeField(total)|;
            && buf[0] / 16 == messageType
            && Parse(buf, |TopicsFrame(messageType, packetId, topics, qoss, withQos)|) == ParseBody(buf, offset, total)
            && ShortAt(buf, offset) == Got(packetId % 256)
            && Holds(buf, offset + 2, TopicEntries(topics, qoss, withQos, |topics|))
            && Segment(total) <= TopicSpace(topics, withQos, |topics|)
  {
    var total, entries := TopicsLength(topics, withQos), TopicEntries(topics, qoss, withQos, |topics|);
    var offset := 1 + |SizeField(total)|;
    FrameParsed(Header(messageType, 2), total, Short(packetId) + entries, buf,
                |TopicsFrame(messageType, packetId, topics, qoss, withQos)|);
    HoldsSplit(buf, offset, Short(packetId), entries);
    ShortRoundTrip(packetId, buf, offset);
    SegmentBound(total);
  }

  /** A view covers less than 256 bytes, so it shows no longer topic. */
  lemma FilledIsShort(topics: seq<CString>, qoss: seq<Qos>, withQos: bool, buf: seq<byte>, r: Decoded<Topics>)
    requires (withQos ==> |qoss| == |topics|)
    requires r.Got? ==> forall i :: 0 <= i < |r.value.views| ==> r.value.views[i].size < 256
    requires Filled(r, buf, topics, qoss, withQos, 0, Kept(|topics|))
    ensures KeptShort(topics)
  {
    forall i | 0 <= i < Kept(|topics|) ensures |topics[i]| < 256 {
      assert r.value.views[i].Of(buf) == topics[0 + i];
    }
  }

  /** Entries of short topics can be read where they stand. */
  lemma EntriesReadable(
      topics: seq<CString>, qoss: seq<Qos>, withQos: bool, entries: seq<byte>, buf: seq<byte>, base: nat)
    requires (withQos ==> |qoss| == |topics|)
    requires entries == TopicEntries(topics, qoss, withQos, |topics|) && Holds(buf, base, entries)
    ensures KeptShort(topics) ==> KeptReadable(topics, qoss, withQos, buf, base)
  {
    if KeptShort(topics) {
      forall i | 0 <= i < Kept(|topics|) ensures Readable(topics, qoss, withQos, buf, base, i) {
        EntryRead(topics, qoss, withQos, buf, base, i);
      }
    }
  }

  /** The entries the reading loop delivers are the kept topics exactly when nothing was cut short. */
  lemma TopicsRead(
      topics: seq<CString>, qoss: seq<Qos>, withQos: bool, buf: seq<byte>, base: nat, max: nat, r: Decoded<Topics>)
    requires (withQos ==> |qoss| == |topics|) && r == FillTopics(buf, base, max, withQos, MAX_TOPICS)
    requires KeptShort(topics) ==> KeptReadable(topics, qoss, withQos, buf, base)
    requires base <= max <= base + TopicSpace(topics, withQos, |topics|)
    ensures Filled(r, buf, topics, qoss, withQos, 0, Kept(|topics|)) <==> ListFits(topics, withQos, max - base)
  {
    if KeptShort(topics) {
      ShortTopicsRead(topics, qoss, withQos, buf, base, max, r);
    } else if Filled(r, buf, topics, qoss, withQos, 0, Kept(|topics|)) {
      FilledIsShort(topics, qoss, withQos, buf, r);
    }
  }

  lemma ShortTopicsRead(
      topics: seq<CString>, qoss: seq<Qos>, withQos: bool, buf: seq<byte>, base: nat, max: nat, r: Decoded<Topics>)
    requires (withQos ==> |qoss| == |topics|) && r == FillTopics(buf, base, max, withQos, MAX_TOPICS)
    requires KeptShort(topics) && KeptReadable(topics, qoss, withQos, buf, base)
    requires base <= max <= base + TopicSpace(topics, withQos, |topics|)
    ensures Filled(r, buf, topics, qoss, withQos, 0, Kept(|topics|)) <==> ListFits(topics, withQos, max - base)
  {
    FillEntries(topics, qoss, withQos, buf, base, max, max - base, 0);
    EndReached(topics, withQos, max - base, 0);
  }

  lemma SubscribeBody(
      packetId: uint16, topics: seq<CString>, qoss: seq<Qos>, buf: seq<byte>, offset: nat, total: nat,
      base: nat, max: nat, r: Decoded<Topics>)
    requires |qoss| == |topics| && ShortAt(buf, offset) == Got(packetId % 256)
    requires base == offset + 2 && max == base + SegmentSize(total, offset)
    requires r == FillTopics(buf, base, max, true, MAX_TOPICS)
    ensures SubscribeCarried(ParseSubscribe(buf, offset, total, true), buf, packetId, topics, qoss)
            <==> packetId < 256 && Filled(r, buf, topics, qoss, true, 0, Kept(|topics|))
  {
    assert qoss[0..Kept(|topics|)] == qoss[..Kept(|topics|)];
  }

  lemma UnsubscribeBody(
      packetId: uint16, topics: seq<CString>, buf: seq<byte>, offset: nat, total: nat, base: nat, max: nat,
      r: Decoded<Topics>)
    requires ShortAt(buf, offset) == Got(packetId % 256)
    requires base == offset + 2 && max == base + SegmentSize(total, offset)
    requires r == FillTopics(buf, base, max, false, MAX_TOPICS)
    ensures UnsubscribeCarried(ParseSubscribe(buf, offset, total, false), buf, packetId, topics)
            <==> packetId < 256 && Filled(r, buf, topics, [], false, 0, Kept(|topics|))
  {
  }

  lemma SubscribeParsed(packetId: uint16, topics: seq<CString>, qoss: seq<Qos>, buf: seq<byte>)
    requires |qoss| == |topics|
    requires SubscribeFrame(packetId, topics, qoss) <= buf
    ensures var total := TopicsLength(topics, true);
            Parse(buf, |SubscribeFrame(packetId, topics, qoss)|)
            == ParseSubscribe(buf, 1 + |SizeField(total)|, total, true)
  {
    TopicsFrameParts(SUBSCRIBE, packetId, topics, qoss, true, buf);
  }

  lemma UnsubscribeParsed(packetId: uint16, topics: seq<CString>, buf: seq<byte>)
    requires UnsubscribeFrame(packetId, topics) <= buf
    ensures var total := TopicsLength(topics, false);
            Parse(buf, |UnsubscribeFrame(packetId, topics)|)
            == ParseSubscribe(buf, 1 + |SizeField(total)|, total, false)
  {
    TopicsFrameParts(UNSUBSCRIBE, packetId, topics, [], false, buf);
  }

  lemma TopicsBodyHeld(
      messageType: nat, packetId: uint16, topics: seq<CString>, qoss: seq<Qos>, withQos: bool, entries: seq<byte>,
      buf: seq<byte>, offset: nat, total: nat)
    requires messageType < 16 && (withQos ==> |qoss| == |topics|)
    requires entries == TopicEntries(topics, qoss, withQos, |topics|)
    requires TopicsFrame(messageType, packetId, topics, qoss, withQos) <= buf
    requires total == TopicsLength(topics, withQos) && offset == 1 + |SizeField(total)|
    ensures ShortAt(buf, offset) == Got(packetId % 256)
    ensures Holds(buf, offset + 2, entries)
    ensures Segment(total) <= TopicSpace(topics, withQos, |topics|)
  {
    TopicsFrameParts(messageType, packetId, topics, qoss, withQos, buf);
  }

  lemma TopicsVerdict(
      messageType: nat, packetId: uint16, topics: seq<CString>, qoss: seq<Qos>, withQos: bool, buf: seq<byte>,
      offset: nat, base: nat, max: nat, r: Decoded<Topics>)
    requires messageType < 16 && (withQos ==> |qoss| == |topics|)
    requires TopicsFrame(messageType, packetId, topics, qoss, withQos) <= buf
    requires offset == 1 + |SizeField(TopicsLength(topics, withQos))|
    requires base == offset + 2 && max == base + Segment(TopicsLength(topics, withQos))
    requires r == FillTopics(buf, base, max, withQos, MAX_TOPICS)
    ensures ShortAt(buf, offset) == Got(packetId % 256)
    ensures Filled(r, buf, topics, qoss, withQos, 0, Kept(|topics|)) <==> ListFits(topics, withQos, max - base)
  {
    var entries := TopicEntries(topics, qoss, withQos, |topics|);
    TopicsBodyHeld(messageType, packetId, topics, qoss, withQos, entries, buf, offset, TopicsLength(topics, withQos));
    EntriesReadable(topics, qoss, withQos, entries, buf, base);
    TopicsRead(topics, qoss, withQos, buf, base, max, r);
  }

  lemma SubscribeVerdict(
      packetId: uint16, topics: seq<CString>, qoss: seq<Qos>, buf: seq<byte>, offset: nat, total: nat)
    requires |qoss| == |topics| && SubscribeFrame(packetId, topics, qoss) <= buf
    requires total == TopicsLength(topics, true) && offset == 1 + |SizeField(total)|
    ensures SubscribeCarried(ParseSubscribe(buf, offset, total, true), buf, packetId, topics, qoss)
            <==> TopicsFit(packetId, topics, true)
  {
    var base, max := offset + 2, offset + 2 + Segment(total);
    var r := FillTopics(buf, base, max, true, MAX_TOPICS);
    TopicsVerdict(SUBSCRIBE, packetId, topics, qoss, true, buf, offset, base, max, r);
    SubscribeBody(packetId, topics, qoss, buf, offset, total, base, max, r);
  }

  lemma UnsubscribeVerdict(packetId: uint16, topics: seq<CString>, buf: seq<byte>, offset: nat, total: nat)
    requires UnsubscribeFrame(packetId, topics) <= buf
    requires total == TopicsLength(topics, false) && offset == 1 + |SizeField(total)|
    ensures UnsubscribeCarried(ParseSubscribe(buf, offset, total, false), buf, packetId, topics)
            <==> TopicsFit(packetId, topics, false)
  {
    var base, max := offset + 2, offset + 2 + Segment(total);
    var r := FillTopics(buf, base, max, false, MAX_TOPICS);
    TopicsVerdict(UNSUBSCRIBE, packetId, topics, [], false, buf, offset, base, max, r);
    UnsubscribeBody(packetId, topics, buf, offset, total, base, max, r);
  }

  /** SUBSCRIBE brings its id, the kept topics and their QoS values back exactly when TopicsFit. */
  lemma SubscribeRoundTrip(packetId: uint16, topics: seq<CString>, qoss: seq<Qos>, buf: seq<byte>)
    requires |qoss| == |topics| < 65536
    requires SubscribeFrame(packetId, topics, qoss) <= buf
    ensures SubscribeCarried(Parse(buf, |SubscribeFrame(packetId, topics, qoss)|), buf, packetId, topics, qoss)
            <==> TopicsFit(packetId, topics, true)
  {
    var total := TopicsLength(topics, true);
    SubscribeParsed(packetId, topics, qoss, buf);
    SubscribeVerdict(packetId, topics, qoss, buf, 1 + |SizeField(total)|, total);
  }

  /** UNSUBSCRIBE brings its id and the kept topics back exactly when TopicsFit. */
  lemma UnsubscribeRoundTrip(packetId: uint16, topics: seq<CString>, buf: seq<byte>)
    requires |topics| < 65536
    requires UnsubscribeFrame(packetId, topics) <= buf
    ensures UnsubscribeCarried(Parse(buf, |UnsubscribeFrame(packetId, topics)|), buf, packetId, topics)
            <==> TopicsFit(packetId, topics, false)
  {
    var total := TopicsLength(topics, false);
    UnsubscribeParsed(packetId, topics, buf);
    UnsubscribeVerdict(packetId, topics, buf, 1 + |SizeField(total)|, total);
  }

  lemma {:induction false} SpaceBound(topics: seq<CString>, withQos: bool, n: nat)
    requires n <= |topics| && forall i :: 0 <= i < n ==> |topics[i]| < 256
    ensures TopicSpace(topics, withQos, n) <= 258 * n
  {
    if n > 0 { SpaceBound(topics, withQos, n - 1); }
  }

  /** SUBSCRIBE tolerates the short segment: below the size wrap-around only ids and lengths matter. */
  lemma SubscribeFits(packetId: uint16, topics: seq<CString>)
    requires TopicSpace(topics, true, |topics|) < 65536
    ensures TopicsFit(packetId, topics, true)
            <==> packetId < 256 && forall i :: 0 <= i < Kept(|topics|) ==> |topics[i]| < 256
  {
    var n, m := |topics|, Kept(|topics|);
    var total := TopicsLength(topics, true);
    SegmentBound(total);
    FieldLength(total);
    if 0 < n <= MAX_TOPICS {
      if forall i :: 0 <= i < m ==> |topics[i]| < 256 {
        SpaceBound(topics, true, n);
      }
    } else if n > MAX_TOPICS {
      SpaceGrows(topics, true, m, n);
    }
  }

  /** UNSUBSCRIBE does not: it loses an empty last topic as soon as the length takes two bytes. */
  lemma UnsubscribeFits(packetId: uint16, topics: seq<CString>)
    requires TopicSpace(topics, false, |topics|) < 65536
    ensures TopicsFit(packetId, topics, false)
            <==> && packetId < 256
                 && (forall i :: 0 <= i < Kept(|topics|) ==> |topics[i]| < 256)
                 && !(0 < |topics| <= MAX_TOPICS && TopicsLength(topics, false) >= 128 && topics[|topics| - 1] == [])
  {
    var n, m := |topics|, Kept(|topics|);
    var total := TopicsLength(topics, false);
    SegmentBound(total);
    FieldLength(total);
    if 0 < n <= MAX_TOPICS {
      if forall i :: 0 <= i < m ==> |topics[i]| < 256 {
        SpaceBound(topics, false, n);
      }
    } else if n > MAX_TOPICS {
      SpaceGrows(topics, false, m, n);
    }
  }

  /** A list of two topics, the second one empty, that comes back without it. */
  lemma UnsubscribeLosesLastTopic(topics: seq<CString>)
    requires |topics| == 2 && |topics[0]| == 122 && topics[1] == []
    ensures !UnsubscribeCarried(Parse(UnsubscribeFrame(1, topics), |UnsubscribeFrame(1, topics)|),
                                UnsubscribeFrame(1, topics), 1, topics)
  {
    assert TopicSpace(topics, false, 1) == 124;
    assert TopicSpace(topics, false, 2) == 126;
    UnsubscribeFits(1, topics);
    UnsubscribeRoundTrip(1, topics, UnsubscribeFrame(1, topics));
  }

  lemma TopicsFramed(messageType: nat, packetId: uint16, topics: seq<CString>, qoss: seq<Qos>, withQos: bool)
    requires messageType < 16 && (withQos ==> |qoss| == |topics|)
    ensures ExactlyFramed(TopicsFrame(messageType, packetId, topics, qoss, withQos))
            <==> TopicSpace(topics, withQos, |topics|) < 65536
  {
    var total, body := TopicsLength(topics, withQos), Short(packetId) + TopicEntries(topics, qoss, withQos, |topics|);
    TopicsLengthAgrees(packetId, topics, qoss, withQos);
    FramedWhenLengthAgrees(Header(messageType, 2), total, body);
    assert TopicsFrame(messageType, packetId, topics, qoss, withQos)
        == [Header(messageType, 2)] + SizeField(total) + body;
  }

  /** The size computed in 16 bits is the length written exactly when it has not wrapped around. */
  lemma TopicsLengthAgrees(packetId: uint16, topics: seq<CString>, qoss: seq<Qos>, withQos: bool)
    requires withQos ==> |qoss| == |topics|
    ensures TopicsLength(topics, withQos) == |Short(packetId) + TopicEntries(topics, qoss, withQos, |topics|)|
            <==> TopicSpace(topics, withQos, |topics|) < 65536
  {
    Builders.EntriesGrow(topics, qoss, withQos, |topics|, |topics|);
  }

  // ----- SUBACK

  /** The verdicts and levels kept from a SUBACK, from topic k on; the level of a refused topic is read as 0. */
  ghost predicate GrantsFrom(verdicts: seq<bool>, levels: seq<Qos>, success: seq<bool>, qoss: seq<Qos>, k: nat)
    requires |success| == |qoss| && k <= Kept(|success|)
  {
    && |verdicts| == |levels| == Kept(|success|) - k
    && forall i :: 0 <= i < Kept(|success|) - k ==>
         verdicts[i] == success[k + i] && levels[i] == if success[k + i] then qoss[k + i] else 0
  }

  lemma {:induction false} FillGrants(
      success: seq<bool>, qoss: seq<Qos>, buf: seq<byte>, base: nat, segment: nat, k: nat)
    requires |success| == |qoss| && k <= Kept(|success|) <= segment <= |success|
    requires Holds(buf, base, Frames.Grants(success, qoss, |success|))
    ensures var r := FillSubresults(buf, base + k, base + segment, MAX_TOPICS - k);
            r.Got? && GrantsFrom(r.value.success, r.value.qoss, success, qoss, k)
    decreases Kept(|success|) - k
  {
    if k < Kept(|success|) {
      assert buf[base + k] == Frames.Grants(success, qoss, |success|)[k] == Grant(success[k], qoss[k]);
      FillGrants(success, qoss, buf, base, segment, k + 1);
      var rest := FillSubresults(buf, base + k + 1, base + segment, MAX_TOPICS - k - 1).value;
      PrependGrant(rest.success, rest.qoss, success, qoss, k);
    }
  }

  lemma PrependGrant(verdicts: seq<bool>, levels: seq<Qos>, success: seq<bool>, qoss: seq<Qos>, k: nat)
    requires |success| == |qoss| && k < Kept(|success|) && GrantsFrom(verdicts, levels, success, qoss, k + 1)
    ensures var b := Grant(success[k], qoss[k]);
            GrantsFrom([b < 4] + verdicts, [b % 4] + levels, success, qoss, k)
  {
  }

  lemma SubackParsed(packetId: uint16, success: seq<bool>, qoss: seq<Qos>, buf: seq<byte>)
    requires |success| == |qoss| < 65536
    requires SubackFrame(packetId, success, qoss) <= buf
    ensures var total := 2 + |success|;
            Parse(buf, |SubackFrame(packetId, success, qoss)|) == ParseSuback(buf, 1 + |SizeField(total)|, total)
  {
    FrameParsed(Header(SUBACK, 0), 2 + |success|, Short(packetId) + Frames.Grants(success, qoss, |success|), buf,
                |SubackFrame(packetId, success, qoss)|);
  }

  lemma SubackHeld(packetId: uint16, success: seq<bool>, qoss: seq<Qos>, buf: seq<byte>, offset: nat)
    requires |success| == |qoss| < 65536
    requires SubackFrame(packetId, success, qoss) <= buf && offset == 1 + |SizeField(2 + |success|)|
    ensures ShortAt(buf, offset) == Got(packetId % 256)
    ensures Holds(buf, offset + 2, Frames.Grants(success, qoss, |success|))
  {
    var grants := Frames.Grants(success, qoss, |success|);
    FrameParts(Header(SUBACK, 0), 2 + |success|, Short(packetId) + grants, buf, |SubackFrame(packetId, success, qoss)|);
    HoldsSplit(buf, offset, Short(packetId), grants);
    ShortRoundTrip(packetId, buf, offset);
  }

  lemma SubackFramed(packetId: uint16, success: seq<bool>, qoss: seq<Qos>)
    requires |success| == |qoss| < 65536
    ensures ExactlyFramed(SubackFrame(packetId, success, qoss))
  {
    FramedWhenLengthAgrees(Header(SUBACK, 0), 2 + |success|, Short(packetId) + Frames.Grants(success, qoss, |success|));
  }

  lemma SubackBody(success: seq<bool>, qoss: seq<Qos>, buf: seq<byte>, offset: nat, total: nat)
    requires |success| == |qoss| < 65536 && total == 2 + |success| && offset == 1 + |SizeField(total)|
    requires Holds(buf, offset + 2, Frames.Grants(success, qoss, |success|))
    ensures var r := FillSubresults(buf, offset + 2, offset + 2 + SegmentSize(total, offset), MAX_TOPICS);
            r.Got? && GrantsFrom(r.value.success, r.value.qoss, success, qoss, 0)
  {
    SegmentBound(total);
    FieldLength(total);
    FillGrants(success, qoss, buf, offset + 2, Segment(total), 0);
  }

  lemma SubackAssembled(buf: seq<byte>, offset: nat, total: nat, packetId: uint16, g: Deserializer.Grants)
    requires ShortAt(buf, offset) == Got(packetId)
    requires FillSubresults(buf, offset + 2, offset + 2 + SegmentSize(total, offset), MAX_TOPICS) == Got(g)
    ensures ParseSuback(buf, offset, total) == Got(Suback(packetId, g.success, g.qoss))
  {
  }

  /** SUBACK delivers the verdict on each kept topic, and the granted QoS wherever there is one. */
  lemma SubackRoundTrip(packetId: uint16, success: seq<bool>, qoss: seq<Qos>, buf: seq<byte>)
    requires |success| == |qoss| < 65536
    requires SubackFrame(packetId, success, qoss) <= buf
    ensures var r := Parse(buf, |SubackFrame(packetId, success, qoss)|);
            && r.Got? && r.value.Suback? && r.value.packetId == packetId % 256
            && GrantsFrom(r.value.success, r.value.granted, success, qoss, 0)
  {
    var total := 2 + |success|;
    var offset := 1 + |SizeField(total)|;
    SubackParsed(packetId, success, qoss, buf);
    SubackHeld(packetId, success, qoss, buf, offset);
    SubackBody(success, qoss, buf, offset, total);
    var g := FillSubresults(buf, offset + 2, offset + 2 + SegmentSize(total, offset), MAX_TOPICS).value;
    SubackAssembled(buf, offset, total, packetId % 256, g);
  }
}
