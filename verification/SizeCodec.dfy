/** The variable-length size field of the fixed header (section 2.1 of MQTT V3.1). */
module SizeCodec {
  import opened Bytes

  /** Four seven-bit digits: the sizes the field can hold are those below this bound. */
  const SIZE_LIMIT := 268435456

  /** 128 to the k-th power. */
  function Pow128(k: nat): (p: nat)
    ensures p > 0
  {
    if k == 0 then 1 else 128 * Pow128(k - 1)
  }

  /** The bytes left behind by encode_size when it may write at most `room` of them. */
  function SizeDigits(size: nat, room: nat): (digits: seq<byte>)
    ensures |digits| <= room
    ensures room > 0 ==> |digits| > 0
  {
    if room == 0 then []
    else if size / 128 > 0 then [size % 128 + 128] + SizeDigits(size / 128, room - 1)
    else [size % 128]
  }

  /** The size field as written by SER_len: a failed encode_size is ignored by its callers. */
  function SizeField(size: nat): (digits: seq<byte>)
    ensures 1 <= |digits| <= 4
  {
    SizeDigits(size, 4)
  }

  /** The number a digit sequence stands for, least significant digit first. */
  function Value(digits: seq<byte>): nat {
    if digits == [] then 0 else digits[0] % 128 + 128 * Value(digits[1..])
  }

  /** A finished field: every digit but the last announces another one. */
  predicate Terminated(digits: seq<byte>) {
    digits != [] &&
    digits[|digits| - 1] < 128 &&
    forall i :: 0 <= i < |digits| - 1 ==> digits[i] >= 128
  }

  // ----- encode_size

  method EncodeSize(size: nat, buffer: array<byte>, at: nat) returns (ok: bool, used: nat)
    requires at + |SizeField(size)| <= buffer.Length
    modifies buffer
    ensures used == |SizeField(size)|
    ensures Stored(old(buffer[..]), buffer[..], at, SizeField(size))
    ensures ok <==> size < SIZE_LIMIT
  {
    used := 0;
    var remaining: nat := size;
    ghost var field := SizeField(size);
    Limit();
    while used < 4
      invariant 0 <= used <= 4 && used <= |field|
      invariant field[used..] == SizeDigits(remaining, 4 - used)
      invariant forall i :: 0 <= i < used ==> buffer[at + i] == field[i]
      invariant forall j :: 0 <= j < at || at + used <= j < buffer.Length ==> buffer[j] == old(buffer[j])
      invariant remaining < Pow128(4 - used) <==> size < SIZE_LIMIT
      decreases 4 - used
    {
      var digit := remaining % 128;
      assert field[used] == SizeDigits(remaining, 4 - used)[0];
      assert field[used + 1..] == SizeDigits(remaining, 4 - used)[1..];
      DropDigit(remaining, 4 - used);
      remaining := remaining / 128;
      if remaining > 0 {
        digit := digit + 128;
      }
      buffer[at + used] := digit;
      used := used + 1;
      if remaining == 0 { break; }
    }
    ok := remaining == 0;
    assert |field| == used;
    StoredPointwise(old(buffer[..]), buffer[..], at, field);
  }

  lemma DropDigit(size: nat, room: nat)
    requires room > 0
    ensures size < Pow128(room) <==> size / 128 < Pow128(room - 1)
    ensures size / 128 > 0 ==> SizeDigits(size, room)[1..] == SizeDigits(size / 128, room - 1)
    ensures size / 128 == 0 ==> |SizeDigits(size, room)| == 1
  {
  }

  /** encode_size runs out of room exactly for the values that need more than `room` digits. */
  lemma {:induction false} DigitsRoom(size: nat, room: nat)
    requires room > 0
    ensures Terminated(SizeDigits(size, room)) <==> size < Pow128(room)
    ensures size >= Pow128(room) ==>
              |SizeDigits(size, room)| == room && forall i :: 0 <= i < room ==> SizeDigits(size, room)[i] >= 128
    ensures size < Pow128(room) ==> Value(SizeDigits(size, room)) == size
  {
    assert Pow128(1) == 128 * Pow128(0);
    if size / 128 > 0 && room > 1 {
      DigitsRoom(size / 128, room - 1);
      var rest := SizeDigits(size / 128, room - 1);
      assert SizeDigits(size, room)[1..] == rest;
      assert size < Pow128(room) <==> size / 128 < Pow128(room - 1);
    } else {
      assert SizeDigits(size, room)[1..] == [];
      assert Pow128(room) >= 128 by { PowGrows(1, room); }
    }
  }

  lemma {:induction false} PowGrows(j: nat, k: nat)
    requires j <= k
    ensures Pow128(j) <= Pow128(k)
    decreases k
  {
    if j < k { PowGrows(j, k - 1); }
  }

  /** encode_size uses the fewest digits that can stand for the size. */
  lemma {:induction false} FewestDigits(size: nat, room: nat, other: seq<byte>)
    requires size < Pow128(room)
    requires Terminated(other) && Value(other) == size
    ensures |SizeDigits(size, room)| <= |other|
  {
    if |other| > 1 && size / 128 > 0 {
      assert other[1..][|other| - 2] == other[|other| - 1];
      assert size / 128 == Value(other[1..]);
      assert room > 0 by { assert Pow128(0) == 1; }
      FewestDigits(size / 128, room - 1, other[1..]);
    } else if |other| == 1 {
      assert other[1..] == [] && Value(other[1..]) == 0;
    }
  }

  // ----- decode_size

  /** The outcome of the decoding loop; `more` is the continuation bit of the last digit read. */
  datatype Scan = Scan(value: nat, used: nat, more: bool) | ScanOverrun

  datatype SizeRead = Size(value: nat, used: nat) | BadSize | SizeOverrun

  /** decode_size over a buffer: `end` is the last address it may read, as its callers pass it. */
  function ReadSize(buf: seq<byte>, at: nat, end: nat): (r: SizeRead)
    ensures r.Size? ==> r.used <= 4
  {
    match ScanSize(buf, at, end, 4)
    case ScanOverrun => SizeOverrun
    case Scan(value, used, more) => if used == 4 && more then BadSize else Size(value, used)
  }

  function ScanSize(buf: seq<byte>, at: nat, end: nat, room: nat): (r: Scan)
    ensures r.Scan? ==> r.used <= room
    ensures r.Scan? && at <= end && room > 0 ==> r.used > 0
    decreases room
  {
    if room == 0 || at > end then Scan(0, 0, false)
    else if at >= |buf| then ScanOverrun
    else if buf[at] < 128 then Scan(buf[at], 1, false)
    else
      match ScanSize(buf, at + 1, end, room - 1)
      case ScanOverrun => ScanOverrun
      case Scan(value, used, more) => Scan(buf[at] % 128 + 128 * value, used + 1, used == 0 || more)
  }

  method DecodeSize(buffer: array<byte>, start: nat, end: nat) returns (r: SizeRead)
    ensures r == ReadSize(buffer[..], start, end)
  {
    var at, used := start, 0;
    var multiplier, value := 1, 0;
    var digit: byte := 0;
    ghost var whole := ScanSize(buffer[..], start, end, 4);
    while at <= end && used < 4
      invariant at == start + used && 0 <= used <= 4
      invariant value >= 0 && multiplier > 0
      invariant used > 0 ==> digit >= 128
      invariant Joined(value, multiplier, used, ScanSize(buffer[..], at, end, 4 - used)) == whole
    {
      if at >= buffer.Length {
        return SizeOverrun;
      }
      digit := buffer[at];
      JoinDigit(buffer[..], at, end, value, multiplier, used);
      value := value + digit % 128 * multiplier;
      multiplier := multiplier * 128;
      at := at + 1;
      used := used + 1;
      if digit < 128 { break; }
    }
    if used == 4 && digit >= 128 {
      return BadSize;
    }
    return Size(value, used);
  }

  /** The digits read so far, followed by what the scan of the rest delivers. */
  ghost function Joined(value: nat, multiplier: nat, used: nat, rest: Scan): Scan {
    match rest
    case ScanOverrun => ScanOverrun
    case Scan(v, u, more) => Scan(value + Times(multiplier, v), used + u, if u == 0 then used > 0 else more)
  }

  ghost function Times(a: nat, b: nat): nat {
    a * b
  }

  lemma JoinDigit(buf: seq<byte>, at: nat, end: nat, value: nat, multiplier: nat, used: nat)
    requires at < |buf| && at <= end && used < 4
    ensures var low := buf[at] % 128;
            Joined(value, multiplier, used, ScanSize(buf, at, end, 4 - used)) ==
            if buf[at] < 128 then Scan(value + low * multiplier, used + 1, false)
            else Joined(value + low * multiplier, multiplier * 128, used + 1, ScanSize(buf, at + 1, end, 3 - used))
  {
    var low := buf[at] % 128;
    var rest := ScanSize(buf, at + 1, end, 3 - used);
    if buf[at] >= 128 && rest.Scan? {
      calc {
        value + multiplier * (low + 128 * rest.value);
        value + (low * multiplier + (multiplier * 128) * rest.value);
      }
    }
  }

  // ----- the two together

  /** A size field is read back from any buffer that holds it, whatever stands around it. */
  lemma SizeRoundTrip(size: nat, buf: seq<byte>, at: nat, end: nat)
    requires at + |SizeField(size)| <= |buf| && buf[at..at + |SizeField(size)|] == SizeField(size)
    requires at + |SizeField(size)| <= end + 1
    ensures ReadSize(buf, at, end) == if size < SIZE_LIMIT then Size(size, |SizeField(size)|) else BadSize
  {
    ScanDigits(size, 4, buf, at, end);
    Limit();
    DigitsRoom(size, 4);
  }

  lemma Limit()
    ensures Pow128(4) == SIZE_LIMIT && Pow128(1) == 128 && Pow128(2) == 16384 && Pow128(3) == 2097152
  {
    assert Pow128(1) == 128;
    assert Pow128(2) == 16384;
    assert Pow128(3) == 2097152;
  }

  lemma {:induction false} ScanDigits(size: nat, room: nat, buf: seq<byte>, at: nat, end: nat)
    requires room > 0
    requires var digits := SizeDigits(size, room);
             at + |digits| <= |buf| && at + |digits| <= end + 1 && buf[at..at + |digits|] == digits
    ensures var scan := ScanSize(buf, at, end, room);
            && scan.Scan?
            && scan.used == |SizeDigits(size, room)|
            && (scan.more <==> size >= Pow128(room))
            && (size < Pow128(room) ==> scan.value == size)
  {
    var digits := SizeDigits(size, room);
    assert buf[at] == digits[0];
    assert Pow128(1) == 128 * Pow128(0);
    PowGrows(1, room);
    if size / 128 > 0 && room > 1 {
      var rest := SizeDigits(size / 128, room - 1);
      assert digits[1..] == rest;
      assert buf[at + 1..at + 1 + |rest|] == digits[1..];
      ScanDigits(size / 128, room - 1, buf, at + 1, end);
      assert size < Pow128(room) <==> size / 128 < Pow128(room - 1);
    }
  }

  /** How many bytes a size field takes. */
  lemma FieldLength(size: nat)
    ensures |SizeField(size)| == if size < 128 then 1 else if size < 16384 then 2 else if size < 2097152 then 3 else 4
  {
    assert |SizeDigits(size, 4)| == if size < 128 then 1 else 1 + |SizeDigits(size / 128, 3)|;
    assert |SizeDigits(size / 128, 3)| == if size / 128 < 128 then 1 else 1 + |SizeDigits(size / 128 / 128, 2)|;
    assert |SizeDigits(size / 128 / 128, 2)| == if size / 128 / 128 < 128 then 1 else 2;
  }
}
