/**
 * What deserialize_response reads out of any buffer whatsoever, whoever wrote it: which bytes become which field,
 * in numbers and addresses, and when it reads outside the buffer.
 */
module Reading {
  import opened Bytes
  import opened SizeCodec
  import opened Frames
  import opened Deserializer
  import R = RoundTrips

  // ----- the size field

  /** The first k bytes from `at` on announce another one each. */
  ghost predicate Continues(buf: seq<byte>, at: nat, end: nat, k: nat) {
    at + k <= |buf| && at + k <= end + 1 && forall j :: at <= j < at + k ==> buf[j] >= 128
  }

  /** The weight of the digit at address `at + i`, where it is among the first k. */
  function Digit(buf: seq<byte>, at: nat, i: nat, k: nat, weight: nat): nat
    requires at + k <= |buf|
  {
    if i < k then buf[at + i] % 128 * weight else 0
  }

  function Digits(buf: seq<byte>, at: nat, k: nat): nat
    requires at + k <= |buf|
  {
    Digit(buf, at, 0, k, 1) + Digit(buf, at, 1, k, 128) + Digit(buf, at, 2, k, 16384) + Digit(buf, at, 3, k, 2097152)
  }

  /** decode_size stops at the last digit, behind the end or outside the buffer, and gives up after four digits. */
  lemma SizeRead(buf: seq<byte>, at: nat, end: nat, k: nat)
    requires k <= 4 && Continues(buf, at, end, k)
    ensures k == 4 ==> ReadSize(buf, at, end) == BadSize
    ensures k < 4 && at + k > end ==> ReadSize(buf, at, end) == Size(Digits(buf, at, k), k)
    ensures k < 4 && at + k <= end && at + k >= |buf| ==> ReadSize(buf, at, end) == SizeOverrun
    ensures k < 4 && at + k <= end && at + k < |buf| && buf[at + k] < 128 ==>
              ReadSize(buf, at, end) == Size(Digits(buf, at, k + 1), k + 1)
  {
    ScanRead(buf, at, end, 4, k);
    DigitsSum(buf, at, k);
    if k < 4 && at + k < |buf| { DigitsSum(buf, at, k + 1); }
  }

  ghost function Sum(buf: seq<byte>, at: nat, k: nat): nat
    requires at + k <= |buf|
    decreases k
  {
    if k == 0 then 0 else buf[at] % 128 + 128 * Sum(buf, at + 1, k - 1)
  }

  lemma DigitsSum(buf: seq<byte>, at: nat, k: nat)
    requires k <= 4 && at + k <= |buf|
    ensures Sum(buf, at, k) == Digits(buf, at, k)
  {
    if k > 0 { assert Sum(buf, at, k) == buf[at] % 128 + 128 * Sum(buf, at + 1, k - 1); }
    if k > 1 { assert Sum(buf, at + 1, k - 1) == buf[at + 1] % 128 + 128 * Sum(buf, at + 2, k - 2); }
    if k > 2 { assert Sum(buf, at + 2, k - 2) == buf[at + 2] % 128 + 128 * Sum(buf, at + 3, k - 3); }
    if k > 3 { assert Sum(buf, at + 3, k - 3) == buf[at + 3] % 128; }
  }

  lemma {:induction false} ScanRead(buf: seq<byte>, at: nat, end: nat, room: nat, k: nat)
    requires k <= room && Continues(buf, at, end, k)
    ensures k == room || at + k > end ==> ScanSize(buf, at, end, room) == Scan(Sum(buf, at, k), k, k > 0)
    ensures k < room && at + k <= end && at + k >= |buf| ==> ScanSize(buf, at, end, room) == ScanOverrun
    ensures k < room && at + k <= end && at + k < |buf| && buf[at + k] < 128 ==>
              ScanSize(buf, at, end, room) == Scan(Sum(buf, at, k + 1), k + 1, false)
    decreases k
  {
    if k > 0 { ScanRead(buf, at + 1, end, room - 1, k - 1); }
  }

  /** One of these ends always comes. */
  lemma SizeStops(buf: seq<byte>, at: nat, end: nat) returns (k: nat)
    requires at <= |buf| && at <= end + 1
    ensures k <= 4 && Continues(buf, at, end, k)
    ensures k == 4 || at + k > end || at + k >= |buf| || buf[at + k] < 128
  {
    k := 0;
    while k < 4 && at + k <= end && at + k < |buf| && buf[at + k] >= 128
      invariant k <= 4 && Continues(buf, at, end, k)
    {
      k := k + 1;
    }
  }

  // ----- frames by their type

  /** The size field is read as `total`, and what follows it begins at address `o`. */
  ghost predicate Sized(buf: seq<byte>, n: nat, o: nat, total: nat) {
    0 < |buf| && o >= 1 && ReadSize(buf, 1, n) == Size(total, o - 1)
  }

  /** No size field, or a type that is none: no response; outside the buffer: undefined. */
  lemma Refused(buf: seq<byte>, n: nat)
    ensures |buf| == 0 ==> Parse(buf, n) == Overrun
    ensures |buf| > 0 && ReadSize(buf, 1, n) == SizeOverrun ==> Parse(buf, n) == Overrun
    ensures |buf| > 0 && ReadSize(buf, 1, n) == BadSize ==> Parse(buf, n) == NullResponse
    ensures |buf| > 0 && ReadSize(buf, 1, n).Size? && (buf[0] < 16 || buf[0] >= 240) ==> Parse(buf, n) == NullResponse
  {
  }

  /**
   * PUBLISH with any DUP bit d, QoS bits q and retain bit r, whatever the high bytes in it are: topic length and
   * id are single bytes, the id is there for every QoS but 0, and the message is what remains of 65536.
   */
  lemma PublishRead(buf: seq<byte>, n: nat, o: nat, total: nat, d: nat, q: nat, r: nat)
    requires Sized(buf, n, o, total) && d < 2 && q < 4 && r < 2 && buf[0] == 48 + 8 * d + 2 * q + r
    ensures o + 2 > |buf| ==> Parse(buf, n) == Overrun
    ensures o + 2 <= |buf| && q == 0 ==>
              var t := buf[o + 1];
              Parse(buf, n) == Got(Publish(0, r == 1, View(o + 2, t), 0, View(o + 2 + t, (total - 2 - t) % 65536)))
    ensures o + 2 <= |buf| && q > 0 ==>
              var t := buf[o + 1];
              Parse(buf, n)
              == if o + t + 4 > |buf| then Overrun
                 else Got(Publish(q, r == 1, View(o + 2, t), buf[o + t + 3], View(o + t + 4, (total - 4 - t) % 65536)))
  {
    ByType(buf, n, o, total);
    PublishBits(buf[0], d, q, r);
    if o + 2 <= |buf| {
      if q == 0 { PlainPublish(buf, o, total); } else { PublishWithId(buf, o, total); }
    }
  }

  lemma PlainPublish(buf: seq<byte>, o: nat, total: nat)
    requires 0 < |buf| && o + 2 <= |buf| && buf[0] / 2 % 4 == 0
    ensures var t := buf[o + 1];
            ParsePublish(buf, o, total)
            == Got(Publish(0, buf[0] % 2 == 1, View(o + 2, t), 0, View(o + 2 + t, (total - 2 - t) % 65536)))
  {
    var t := buf[o + 1];
    assert CountedAt(buf, o) == Got(View(o + 2, t));
    assert total - (o + 2 + t - o) == total - 2 - t;
  }

  lemma PublishWithId(buf: seq<byte>, o: nat, total: nat)
    requires 0 < |buf| && o + 2 <= |buf| && buf[0] / 2 % 4 > 0
    ensures var t := buf[o + 1];
            ParsePublish(buf, o, total)
            == if o + t + 4 > |buf| then Overrun
               else Got(Publish(buf[0] / 2 % 4, buf[0] % 2 == 1, View(o + 2, t), buf[o + t + 3],
                                View(o + t + 4, (total - 4 - t) % 65536)))
  {
    var t := buf[o + 1];
    assert CountedAt(buf, o) == Got(View(o + 2, t));
    assert total - (o + 4 + t - o) == total - 4 - t;
  }

  lemma PublishBits(b: byte, d: nat, q: nat, r: nat)
    requires d < 2 && q < 4 && r < 2 && b == 48 + 8 * d + 2 * q + r
    ensures b / 16 == 3 && b / 2 % 4 == q && b % 2 == r
  {
    assert b / 2 == 24 + 4 * d + q;
  }

  /** The acknowledgements, whatever the low half of the first byte and the high byte of the id are. */
  lemma AckRead(buf: seq<byte>, n: nat, o: nat, total: nat)
    requires Sized(buf, n, o, total)
    ensures buf[0] / 16 in {4, 5, 6, 7, 11} && o + 2 > |buf| ==> Parse(buf, n) == Overrun
    ensures buf[0] / 16 == 4 && o + 2 <= |buf| ==> Parse(buf, n) == Got(Puback(buf[o + 1]))
    ensures buf[0] / 16 == 5 && o + 2 <= |buf| ==> Parse(buf, n) == Got(Pubrec(buf[o + 1]))
    ensures buf[0] / 16 == 6 && o + 2 <= |buf| ==> Parse(buf, n) == Got(Pubrel(buf[o + 1]))
    ensures buf[0] / 16 == 7 && o + 2 <= |buf| ==> Parse(buf, n) == Got(Pubcomp(buf[o + 1]))
    ensures buf[0] / 16 == 11 && o + 2 <= |buf| ==> Parse(buf, n) == Got(Unsuback(buf[o + 1]))
  {
  }

  lemma FixedRead(buf: seq<byte>, n: nat, o: nat, total: nat)
    requires Sized(buf, n, o, total)
    ensures buf[0] / 16 == 2 ==> Parse(buf, n) == if o + 1 < |buf| then Got(Connack(buf[o + 1])) else Overrun
    ensures buf[0] / 16 == 12 ==> Parse(buf, n) == Got(Pingreq)
    ensures buf[0] / 16 == 13 ==> Parse(buf, n) == Got(Pingresp)
    ensures buf[0] / 16 == 14 ==> Parse(buf, n) == Got(Disconnect)
  {
  }

  // ----- CONNECT

  /** A length-prefixed string stands at `at`; its length is one byte. */
  ghost predicate StringAt(buf: seq<byte>, at: nat, v: View) {
    at + 2 <= |buf| && v == View(at + 2, buf[at + 1])
  }

  ghost predicate OptionAt(buf: seq<byte>, at: nat, v: Option<View>) {
    v.Some? ==> StringAt(buf, at, v.value)
  }

  ghost predicate WillAt(buf: seq<byte>, at: nat, w: Option<(View, View)>) {
    w.Some? ==> StringAt(buf, at, w.value.0) && StringAt(buf, w.value.0.at + w.value.0.size, w.value.1)
  }

  /** The first address behind an optional field that would stand at `at`. */
  function Behind(v: Option<View>, at: nat): nat {
    if v.Some? then v.value.at + v.value.size else at
  }

  function BehindWill(w: Option<(View, View)>, at: nat): nat {
    if w.Some? then w.value.1.at + w.value.1.size else at
  }

  /** The flags of the CONNECT in the order of their bits; the lowest bit is free. */
  ghost predicate FlagBits(f: byte, c: Response, low: bool)
    requires c.Connect?
  {
    f == (if c.user.Some? then 128 else 0) + (if c.pw.Some? then 64 else 0) + (if c.willRetain then 32 else 0)
         + 8 * c.willQos + (if c.will.Some? then 4 else 0) + (if c.clean then 2 else 0) + (if low then 1 else 0)
  }

  /** The four bytes between the protocol name and the client id. */
  ghost predicate HeadAt(buf: seq<byte>, at: nat, c: Response, low: bool)
    requires c.Connect?
  {
    at + 4 <= |buf| && buf[at] == c.version && FlagBits(buf[at + 1], c, low) && buf[at + 3] == c.keepAlive
  }

  /** The fields of a CONNECT lie one behind the other from address o on, the optional ones as the flags say. */
  ghost predicate ConnectAt(buf: seq<byte>, o: nat, c: Response, low: bool) {
    c.Connect? &&
    var head := c.name.at + c.name.size;
    var strings := c.clientId.at + c.clientId.size;
    && StringAt(buf, o, c.name) && HeadAt(buf, head, c, low) && StringAt(buf, head + 4, c.clientId)
    && WillAt(buf, strings, c.will)
    && OptionAt(buf, BehindWill(c.will, strings), c.user)
    && OptionAt(buf, Behind(c.user, BehindWill(c.will, strings)), c.pw)
  }

  /** What a CONNECT is read as is what lies in the buffer; if its fields do not, the program reads outside. */
  lemma ConnectRead(buf: seq<byte>, n: nat, o: nat, total: nat, c: Response)
    requires Sized(buf, n, o, total) && buf[0] / 16 == 1
    ensures Parse(buf, n) == Got(c) <==> exists low :: ConnectAt(buf, o, c, low)
    ensures !Parse(buf, n).NullResponse?
  {
    assert Parse(buf, n) == ParseConnect(buf, o);
    if low: bool :| ConnectAt(buf, o, c, low) {
      AsItLies(buf, o, c, low);
    }
    LiesAsRead(buf, o);
  }

  lemma FlagsApart(f: byte, c: Response, low: bool)
    requires c.Connect? && FlagBits(f, c, low)
    ensures (f / 128 % 2 == 1 <==> c.user.Some?) && (f / 64 % 2 == 1 <==> c.pw.Some?)
    ensures (f / 32 % 2 == 1 <==> c.willRetain) && f / 8 % 4 == c.willQos
    ensures (f / 4 % 2 == 1 <==> c.will.Some?) && (f / 2 % 2 == 1 <==> c.clean)
  {
    Bits(f, Bit(c.user.Some?), Bit(c.pw.Some?), Bit(c.willRetain), c.willQos, Bit(c.will.Some?), Bit(c.clean),
         Bit(low));
  }

  lemma Bits(f: nat, u: nat, p: nat, r: nat, q: nat, w: nat, c: nat, low: nat)
    requires u < 2 && p < 2 && r < 2 && q < 4 && w < 2 && c < 2 && low < 2
    requires f == 128 * u + 64 * p + 32 * r + 8 * q + 4 * w + 2 * c + low
    ensures f / 128 % 2 == u && f / 64 % 2 == p && f / 32 % 2 == r && f / 8 % 4 == q && f / 4 % 2 == w
            && f / 2 % 2 == c
  {
    assert f / 2 == 64 * u + 32 * p + 16 * r + 4 * q + 2 * w + c;
    assert f / 4 == 32 * u + 16 * p + 8 * r + 2 * q + w;
    assert f / 8 == 16 * u + 8 * p + 4 * r + q;
    assert f / 32 == 4 * u + 2 * p + r;
    assert f / 64 == 2 * u + p;
    assert f / 128 == u;
  }

  lemma WillLies(buf: seq<byte>, at: nat, w: Option<(View, View)>)
    ensures ParseWill(buf, at, w.Some?) == Got((w, BehindWill(w, at))) <==> WillAt(buf, at, w)
  {
  }

  lemma OptionLies(buf: seq<byte>, at: nat, v: Option<View>)
    ensures ParseOptional(buf, at, v.Some?) == Got((v, Behind(v, at))) <==> OptionAt(buf, at, v)
  {
  }

  lemma HeadLies(buf: seq<byte>, o: nat, c: Response, low: bool)
    requires c.Connect?
    requires StringAt(buf, o, c.name) && HeadAt(buf, c.name.at + c.name.size, c, low)
    requires StringAt(buf, c.name.at + c.name.size + 4, c.clientId)
    ensures ParseConnectHead(buf, o)
         == Got(ConnectHead(c.name, c.version, buf[c.name.at + c.name.size + 1], c.keepAlive, c.clientId,
                            c.clientId.at + c.clientId.size))
  {
  }

  lemma AsItLies(buf: seq<byte>, o: nat, c: Response, low: bool)
    requires ConnectAt(buf, o, c, low)
    ensures ParseConnect(buf, o) == Got(c)
  {
    var head := c.name.at + c.name.size;
    var strings := c.clientId.at + c.clientId.size;
    HeadLies(buf, o, c, low);
    FlagsApart(buf[head + 1], c, low);
    WillLies(buf, strings, c.will);
    OptionLies(buf, BehindWill(c.will, strings), c.user);
    OptionLies(buf, Behind(c.user, BehindWill(c.will, strings)), c.pw);
  }

  /** What is read of the optional fields lies where it was read, and reading goes on behind it. */
  lemma WillRead(buf: seq<byte>, at: nat, present: bool)
    ensures var r := ParseWill(buf, at, present);
            && !r.NullResponse?
            && (r.Got? ==> (r.value.0.Some? <==> present) && r.value.1 == BehindWill(r.value.0, at)
                           && WillAt(buf, at, r.value.0))
  {
  }

  lemma OptionRead(buf: seq<byte>, at: nat, present: bool)
    ensures var r := ParseOptional(buf, at, present);
            && !r.NullResponse?
            && (r.Got? ==> (r.value.0.Some? <==> present) && r.value.1 == Behind(r.value.0, at)
                           && OptionAt(buf, at, r.value.0))
  {
  }

  lemma HeadRead(buf: seq<byte>, o: nat)
    ensures var r := ParseConnectHead(buf, o);
            && !r.NullResponse?
            && (r.Got? ==>
                  var h := r.value;
                  var at := h.name.at + h.name.size;
                  && StringAt(buf, o, h.name) && at + 4 <= |buf| && StringAt(buf, at + 4, h.clientId)
                  && buf[at] == h.version && buf[at + 1] == h.flags && buf[at + 3] == h.keepAlive
                  && h.next == h.clientId.at + h.clientId.size)
  {
  }

  lemma LiesAsRead(buf: seq<byte>, o: nat)
    ensures var r := ParseConnect(buf, o);
            !r.NullResponse? && (r.Got? ==> exists low :: ConnectAt(buf, o, r.value, low))
  {
    HeadRead(buf, o);
    var head := ParseConnectHead(buf, o);
    if head.Got? {
      var f := head.value.flags;
      WillRead(buf, head.value.next, f / 4 % 2 == 1);
      var will := ParseWill(buf, head.value.next, f / 4 % 2 == 1);
      if will.Got? {
        OptionRead(buf, will.value.1, f / 128 % 2 == 1);
        var user := ParseOptional(buf, will.value.1, f / 128 % 2 == 1);
        if user.Got? {
          OptionRead(buf, user.value.1, f / 64 % 2 == 1);
          var pw := ParseOptional(buf, user.value.1, f / 64 % 2 == 1);
          if pw.Got? {
            LastRead(buf, o, head.value, will.value, user.value, pw.value);
          }
        }
      }
    }
  }

  lemma LastRead(
      buf: seq<byte>, o: nat, head: ConnectHead, will: (Option<(View, View)>, nat), user: (Option<View>, nat),
      pw: (Option<View>, nat))
    requires ParseConnectHead(buf, o) == Got(head)
    requires ParseWill(buf, head.next, head.flags / 4 % 2 == 1) == Got(will)
    requires ParseOptional(buf, will.1, head.flags / 128 % 2 == 1) == Got(user)
    requires ParseOptional(buf, user.1, head.flags / 64 % 2 == 1) == Got(pw)
    ensures var c := Assembled(head, will.0, user.0, pw.0);
            ParseConnect(buf, o) == Got(c) && ConnectAt(buf, o, c, head.flags % 2 == 1)
  {
    var c := Assembled(head, will.0, user.0, pw.0);
    HeadRead(buf, o);
    WillRead(buf, head.next, head.flags / 4 % 2 == 1);
    OptionRead(buf, will.1, head.flags / 128 % 2 == 1);
    OptionRead(buf, user.1, head.flags / 64 % 2 == 1);
    FlagsKept(head.flags, c);
  }

  function Assembled(
      head: ConnectHead, will: Option<(View, View)>, user: Option<View>, pw: Option<View>): Response {
    var f := head.flags;
    Connect(head.name, head.version, f / 2 % 2 == 1, f / 8 % 4, f / 32 % 2 == 1, head.keepAlive, head.clientId,
            will, user, pw)
  }

  lemma FlagsKept(f: byte, c: Response)
    requires c.Connect? && (f / 128 % 2 == 1 <==> c.user.Some?) && (f / 64 % 2 == 1 <==> c.pw.Some?)
    requires (f / 32 % 2 == 1 <==> c.willRetain) && f / 8 % 4 == c.willQos
    requires (f / 4 % 2 == 1 <==> c.will.Some?) && (f / 2 % 2 == 1 <==> c.clean)
    ensures FlagBits(f, c, f % 2 == 1)
  {
    FlagsTogether(f);
  }

  lemma FlagsTogether(f: byte)
    ensures f == 128 * (f / 128 % 2) + 64 * (f / 64 % 2) + 32 * (f / 32 % 2) + 8 * (f / 8 % 4) + 4 * (f / 4 % 2)
                 + 2 * (f / 2 % 2) + f % 2
  {
    var h1 := f / 2;
    var h2 := h1 / 2;
    var h3 := h2 / 2;
    var h5 := h3 / 4;
    var h6 := h5 / 2;
    Bits(f, h6 / 2, h6 % 2, h5 % 2, h3 % 4, h2 % 2, h1 % 2, f % 2);
  }

  // ----- the payload loops

  lemma ByType(buf: seq<byte>, n: nat, o: nat, total: nat)
    requires Sized(buf, n, o, total)
    ensures buf[0] / 16 == 3 ==> Parse(buf, n) == ParsePublish(buf, o, total)
    ensures buf[0] / 16 == 8 ==> Parse(buf, n) == ParseSubscribe(buf, o, total, true)
    ensures buf[0] / 16 == 9 ==> Parse(buf, n) == ParseSuback(buf, o, total)
    ensures buf[0] / 16 == 10 ==> Parse(buf, n) == ParseSubscribe(buf, o, total, false)
  {
  }

  /** A verdict byte below 4 is a success with that QoS; any other is a refusal. At most 32 bytes are read. */
  lemma SubackRead(buf: seq<byte>, n: nat, o: nat, total: nat)
    requires Sized(buf, n, o, total) && buf[0] / 16 == 9
    ensures var count := Min(32, (total - o) % 4294967296);
            && (o + 2 + count > |buf| ==> Parse(buf, n) == Overrun)
            && (o + 2 + count <= |buf| ==>
                  Parse(buf, n) == Got(Suback(buf[o + 1], Verdicts(buf, o + 2, count), Levels(buf, o + 2, count))))
  {
    ByType(buf, n, o, total);
    if o + 2 <= |buf| {
      VerdictLoop(buf, o + 2, o + 2 + (total - o) % 4294967296, 32);
      SubackAssembled(buf, o, total, FillSubresults(buf, o + 2, o + 2 + (total - o) % 4294967296, 32));
    }
  }

  lemma SubackAssembled(buf: seq<byte>, o: nat, total: nat, r: Decoded<Grants>)
    requires r == FillSubresults(buf, o + 2, o + 2 + (total - o) % 4294967296, 32) && !r.NullResponse?
    requires o + 2 <= |buf|
    ensures ParseSuback(buf, o, total)
         == if r == Overrun then Overrun else Got(Suback(buf[o + 1], r.value.success, r.value.qoss))
  {
  }

  function Verdicts(buf: seq<byte>, at: nat, count: nat): seq<bool>
    requires at + count <= |buf|
  {
    seq(count, k requires 0 <= k < count => buf[at + k] < 4)
  }

  function Level(b: byte): Qos {
    b % 4
  }

  function Levels(buf: seq<byte>, at: nat, count: nat): seq<Qos>
    requires at + count <= |buf|
  {
    seq<Qos>(count, k requires 0 <= k < count => Level(buf[at + k]))
  }

  lemma {:induction false} VerdictLoop(buf: seq<byte>, curr: nat, max: nat, room: nat)
    requires curr <= max && curr <= |buf|
    ensures var count := Min(room, max - curr);
            FillSubresults(buf, curr, max, room)
            == if curr + count > |buf| then Overrun
               else Got(Grants(Verdicts(buf, curr, count), Levels(buf, curr, count)))
    decreases room
  {
    var count := Min(room, max - curr);
    if count > 0 && curr < |buf| {
      VerdictLoop(buf, curr + 1, max, room - 1);
      if curr + count <= |buf| {
        assert Verdicts(buf, curr, count) == [buf[curr] < 4] + Verdicts(buf, curr + 1, count - 1);
        assert Levels(buf, curr, count) == [Level(buf[curr])] + Levels(buf, curr + 1, count - 1);
      }
    }
  }

  /** The address behind the last entry of a list of topics that begins at `first`. */
  function Next(views: seq<View>, first: nat, withQos: bool): nat {
    if views == [] then first
    else
      var last := views[|views| - 1];
      last.at + last.size + (if withQos then 1 else 0)
  }

  /** A view of the entry at address `at`: as long as its length byte says, and in the buffer up to its QoS byte. */
  ghost predicate ViewAt(buf: seq<byte>, at: nat, v: View, withQos: bool) {
    v.at == at + 2 <= |buf| && v.size == buf[at + 1] && (withQos ==> v.at + v.size < |buf|)
  }

  /** Each view stands where the one before it ends, and its QoS byte follows it. */
  ghost predicate Chained(buf: seq<byte>, first: nat, views: seq<View>, qoss: seq<byte>, withQos: bool) {
    && |qoss| == (if withQos then |views| else 0)
    && (forall i :: 0 <= i < |views| ==> ViewAt(buf, Next(views[..i], first, withQos), views[i], withQos))
    && (forall i :: 0 <= i < |qoss| ==> qoss[i] == buf[views[i].at + views[i].size])
  }

  /** All of them begin before the end of the segment. */
  ghost predicate Within(views: seq<View>, max: nat) {
    forall i :: 0 <= i < |views| ==> views[i].at <= max
  }

  /** The list is complete: as long as it may be, or no further length fits the segment. */
  ghost predicate Complete(views: seq<View>, first: nat, max: nat, withQos: bool, room: nat) {
    |views| <= room && (|views| == room || Next(views, first, withQos) + 2 > max)
  }

  /** The entry behind the list would begin in the segment and is not in the buffer. */
  ghost predicate Broken(buf: seq<byte>, views: seq<View>, first: nat, max: nat, withQos: bool, room: nat) {
    var at := Next(views, first, withQos);
    && |views| < room && at + 2 <= max
    && (at + 2 > |buf| || (withQos && at + 2 + buf[at + 1] >= |buf|))
  }

  lemma {:induction false} TopicLoop(buf: seq<byte>, curr: nat, max: nat, withQos: bool, room: nat)
    returns (views: seq<View>, qoss: seq<byte>)
    ensures Chained(buf, curr, views, qoss, withQos) && Within(views, max)
    ensures LoopEnds(buf, curr, max, withQos, room, views, qoss)
    decreases room
  {
    views, qoss := [], [];
    if curr + 2 <= max && room > 0 && TopicAt(buf, curr, withQos).Got? {
      var entry := TopicAt(buf, curr, withQos).value;
      var rest, levels := TopicLoop(buf, entry.next, max, withQos, room - 1);
      ChainOn(buf, curr, entry, rest, levels, withQos);
      EndOn(buf, curr, max, withQos, room, entry, rest, levels);
      WithinOn(entry.view, rest, max);
      views, qoss := [entry.view] + rest, entry.qos + levels;
    }
  }

  lemma WithinOn(view: View, rest: seq<View>, max: nat)
    requires view.at <= max && Within(rest, max)
    ensures Within([view] + rest, max)
  {
  }

  ghost predicate LoopEnds(
      buf: seq<byte>, curr: nat, max: nat, withQos: bool, room: nat, views: seq<View>, qoss: seq<byte>) {
    var r := FillTopics(buf, curr, max, withQos, room);
    || (r == Got(Topics(views, qoss)) && Complete(views, curr, max, withQos, room))
    || (r == Overrun && Broken(buf, views, curr, max, withQos, room))
  }

  lemma NextOn(view: View, rest: seq<View>, first: nat, withQos: bool)
    ensures Next([view] + rest, first, withQos)
         == Next(rest, view.at + view.size + (if withQos then 1 else 0), withQos)
  {
  }

  lemma EndOn(
      buf: seq<byte>, curr: nat, max: nat, withQos: bool, room: nat, entry: Entry, rest: seq<View>, levels: seq<byte>)
    requires curr + 2 <= max && room > 0 && TopicAt(buf, curr, withQos) == Got(entry)
    requires LoopEnds(buf, entry.next, max, withQos, room - 1, rest, levels)
    ensures LoopEnds(buf, curr, max, withQos, room, [entry.view] + rest, entry.qos + levels)
  {
    NextOn(entry.view, rest, curr, withQos);
  }

  lemma ChainOn(buf: seq<byte>, curr: nat, entry: Entry, rest: seq<View>, levels: seq<byte>, withQos: bool)
    requires TopicAt(buf, curr, withQos) == Got(entry) && Chained(buf, entry.next, rest, levels, withQos)
    ensures Chained(buf, curr, [entry.view] + rest, entry.qos + levels, withQos)
    ensures entry.view.at == curr + 2
  {
    var views, qoss := [entry.view] + rest, entry.qos + levels;
    forall i | 0 <= i < |views|
      ensures ViewAt(buf, Next(views[..i], curr, withQos), views[i], withQos)
    {
      if i > 0 {
        assert views[..i] == [entry.view] + rest[..i - 1];
        NextOn(entry.view, rest[..i - 1], curr, withQos);
      }
    }
    forall i | 0 <= i < |qoss|
      ensures qoss[i] == buf[views[i].at + views[i].size]
    {
      if i > 0 { assert qoss[i] == levels[i - 1] && views[i] == rest[i - 1]; }
    }
  }

  /** SUBSCRIBE and UNSUBSCRIBE: the chain of topics, 32 at most, in the segment the code computes. */
  lemma TopicsRead(buf: seq<byte>, n: nat, o: nat, total: nat) returns (views: seq<View>, qoss: seq<byte>)
    requires Sized(buf, n, o, total) && buf[0] / 16 in {8, 10}
    ensures o + 2 > |buf| ==> Parse(buf, n) == Overrun
    ensures o + 2 <= |buf| ==>
              var withQos, max := buf[0] / 16 == 8, o + 2 + (total - o) % 4294967296;
              && Chained(buf, o + 2, views, qoss, withQos) && Within(views, max)
              && ListRead(buf, o, max, withQos, views, qoss, Parse(buf, n))
  {
    var withQos, max := buf[0] / 16 == 8, o + 2 + (total - o) % 4294967296;
    ByType(buf, n, o, total);
    views, qoss := TopicLoop(buf, o + 2, max, withQos, 32);
    TopicsAssembled(buf, o, total, max, withQos, views, qoss);
  }

  /** Either the list is complete and delivered, or the program reads outside the buffer behind its end. */
  ghost predicate ListRead(
      buf: seq<byte>, o: nat, max: nat, withQos: bool, views: seq<View>, qoss: seq<byte>, p: Decoded<Response>)
    requires o + 2 <= |buf|
  {
    if Complete(views, o + 2, max, withQos, 32) then
      p == Got(if withQos then Subscribe(buf[o + 1], views, qoss) else Unsubscribe(buf[o + 1], views))
    else p == Overrun && Broken(buf, views, o + 2, max, withQos, 32)
  }

  lemma TopicsAssembled(
      buf: seq<byte>, o: nat, total: nat, max: nat, withQos: bool, views: seq<View>, qoss: seq<byte>)
    requires LoopEnds(buf, o + 2, max, withQos, 32, views, qoss) && max == o + 2 + (total - o) % 4294967296
    ensures o + 2 > |buf| ==> ParseSubscribe(buf, o, total, withQos) == Overrun
    ensures o + 2 <= |buf| ==> ListRead(buf, o, max, withQos, views, qoss, ParseSubscribe(buf, o, total, withQos))
  {
  }

  // ----- frames that other programs write

  function ForeignBody(q: nat, h: byte, topic: seq<byte>, i: byte, id: byte, msg: seq<byte>): seq<byte>
    requires |topic| < 256
  {
    [h, |topic|] + topic + (if q == 0 then [] else [i, id]) + msg
  }

  /** A PUBLISH as any sender may write it: DUP bit d, and h and i for the high bytes of topic length and id. */
  function ForeignPublish(d: nat, q: nat, r: nat, h: byte, topic: seq<byte>, i: byte, id: byte, msg: seq<byte>)
    : seq<byte>
    requires d < 2 && q < 4 && r < 2 && |topic| < 256
  {
    var body := ForeignBody(q, h, topic, i, id, msg);
    [48 + 8 * d + 2 * q + r] + SizeField(|body|) + body
  }

  /** The response shows the fields of a PUBLISH. */
  ghost predicate Shows(
      p: Decoded<Response>, buf: seq<byte>, q: nat, r: nat, topic: seq<byte>, id: byte, msg: seq<byte>) {
    && p.Got? && p.value.Publish? && p.value.qos == q && (p.value.retain <==> r == 1)
    && p.value.packetId == (if q == 0 then 0 else id)
    && p.value.topic.In(buf) && p.value.topic.Of(buf) == topic
    && p.value.message.In(buf) && p.value.message.Of(buf) == msg
  }

  /** It comes back with all its fields, a redelivered one like a first one. */
  lemma PublishFromAnyone(
      d: nat, q: nat, r: nat, h: byte, topic: seq<byte>, i: byte, id: byte, msg: seq<byte>, buf: seq<byte>)
    requires d < 2 && q < 4 && r < 2 && |topic| < 256 && |msg| < 65536
    requires ForeignPublish(d, q, r, h, topic, i, id, msg) <= buf
    ensures Shows(Parse(buf, |ForeignPublish(d, q, r, h, topic, i, id, msg)|), buf, q, r, topic, id, msg)
  {
    var o := ForeignFrame(d, q, r, h, topic, i, id, msg, buf);
    ForeignInside(d, q, r, h, topic, i, id, msg, buf, o, |ForeignPublish(d, q, r, h, topic, i, id, msg)|);
  }

  lemma ForeignFrame(
      d: nat, q: nat, r: nat, h: byte, topic: seq<byte>, i: byte, id: byte, msg: seq<byte>, buf: seq<byte>)
    returns (o: nat)
    requires d < 2 && q < 4 && r < 2 && |topic| < 256 && |msg| < 65536
    requires ForeignPublish(d, q, r, h, topic, i, id, msg) <= buf
    ensures var n, body := |ForeignPublish(d, q, r, h, topic, i, id, msg)|, ForeignBody(q, h, topic, i, id, msg);
            && n == o + |body| && Sized(buf, n, o, |body|) && R.Holds(buf, o, body)
            && buf[0] == 48 + 8 * d + 2 * q + r
  {
    var body := ForeignBody(q, h, topic, i, id, msg);
    o := 1 + |SizeField(|body|)|;
    R.FrameParts(48 + 8 * d + 2 * q + r, |body|, body, buf, o + |body|);
  }

  lemma ForeignInside(
      d: nat, q: nat, r: nat, h: byte, topic: seq<byte>, i: byte, id: byte, msg: seq<byte>, buf: seq<byte>,
      o: nat, end: nat)
    requires d < 2 && q < 4 && r < 2 && |topic| < 256 && |msg| < 65536
    requires R.Holds(buf, o, ForeignBody(q, h, topic, i, id, msg)) && end == o + |ForeignBody(q, h, topic, i, id, msg)|
    requires Sized(buf, end, o, end - o) && buf[0] == 48 + 8 * d + 2 * q + r
    ensures Shows(Parse(buf, end), buf, q, r, topic, id, msg)
  {
    ForeignParts(q, h, topic, i, id, msg, buf, o);
    ForeignRead(d, q, r, |topic|, id, |msg|, buf, o, end - o);
    ShownWhole(buf, o, end, q, r, topic, id, msg, Parse(buf, end));
  }

  lemma ShownWhole(
      buf: seq<byte>, o: nat, end: nat, q: nat, r: nat, topic: seq<byte>, id: byte, msg: seq<byte>,
      p: Decoded<Response>)
    requires q < 4 && o + 2 + |topic| <= |buf| && |msg| <= end <= |buf|
    requires buf[o + 2..o + 2 + |topic|] == topic && buf[end - |msg|..end] == msg
    requires p == Got(Publish(q, r == 1, View(o + 2, |topic|), if q == 0 then 0 else id, View(end - |msg|, |msg|)))
    ensures Shows(p, buf, q, r, topic, id, msg)
  {
  }

  lemma Small(x: int)
    requires 0 <= x < 65536
    ensures x % 65536 == x
  {
  }

  lemma ForeignRead(
      d: nat, q: nat, r: nat, size: nat, id: byte, length: nat, buf: seq<byte>, o: nat, total: nat)
    requires d < 2 && q < 4 && r < 2 && size < 256 && length < 65536
    requires total == size + length + (if q == 0 then 2 else 4) && o + total <= |buf|
    requires Sized(buf, o + total, o, total) && buf[0] == 48 + 8 * d + 2 * q + r && buf[o + 1] == size
    requires q > 0 ==> buf[o + size + 3] == id
    ensures Parse(buf, o + total)
         == Got(Publish(q, r == 1, View(o + 2, size), if q == 0 then 0 else id, View(o + total - length, length)))
  {
    PublishRead(buf, o + total, o, total, d, q, r);
    Small(length);
    if q == 0 {
      assert total - 2 - size == length && o + 2 + size == o + total - length;
    } else {
      assert total - 4 - size == length && o + size + 4 == o + total - length;
    }
  }

  lemma ForeignParts(q: nat, h: byte, topic: seq<byte>, i: byte, id: byte, msg: seq<byte>, buf: seq<byte>, o: nat)
    requires |topic| < 256 && R.Holds(buf, o, ForeignBody(q, h, topic, i, id, msg))
    ensures var body := ForeignBody(q, h, topic, i, id, msg);
            var end := o + |body|;
            && |body| == |topic| + |msg| + (if q == 0 then 2 else 4) && end <= |buf|
            && buf[o + 1] == |topic| && buf[o + 2..o + 2 + |topic|] == topic
            && (q > 0 ==> buf[o + |topic| + 3] == id) && buf[end - |msg|..end] == msg
  {
    var front, tag: seq<byte> := [h, |topic|] + topic, if q == 0 then [] else [i, id];
    R.HoldsSplit(buf, o, front + tag, msg);
    R.HoldsSplit(buf, o, front, tag);
    R.HoldsSplit(buf, o, [h, |topic|], topic);
    assert buf[o + 1] == buf[o..o + 2][1];
    if q > 0 {
      var at := o + 2 + |topic|;
      assert buf[at + 1] == buf[at..at + 2][1];
    }
  }

  /** An acknowledgement as any sender may write it: id 256 * h + id is read as it is meant exactly if h is 0. */
  lemma AckFromAnyone(first: byte, h: byte, id: byte, buf: seq<byte>)
    requires [first, 2, h, id] <= buf && first / 16 in {4, 5, 6, 7, 11}
    ensures var r := Parse(buf, 4);
            && r == Got(match first / 16
                        case 4 => Puback(id)
                        case 5 => Pubrec(id)
                        case 6 => Pubrel(id)
                        case 7 => Pubcomp(id)
                        case _ => Unsuback(id))
            && (r.value.packetId == 256 * h + id <==> h == 0)
  {
    assert buf[0] == first && buf[1] == 2 && buf[3] == id;
    SizeRead(buf, 1, 4, 0);
    AckRead(buf, 4, 2, 2);
  }
}
