/** Machine-level values shared by the codec, the session engine and the blocking client. */
module Bytes {

  type byte = x: int | 0 <= x < 256

  type uint16 = x: int | 0 <= x < 65536

  /** A quality-of-service value as it fits in the two header bits. */
  type Qos = x: int | 0 <= x <= 3

  /** The characters of a NUL-terminated string, terminator excluded. */
  type CString = s: seq<byte> | 0 !in s

  datatype Option<+T> = None | Some(value: T)

  function Min(a: nat, b: nat): nat {
    if a <= b then a else b
  }

  /** `after` is `before` with `bytes` stored from address `at` on and nothing else touched. */
  ghost predicate Stored(before: seq<byte>, after: seq<byte>, at: nat, bytes: seq<byte>) {
    && at + |bytes| <= |before| == |after|
    && after[..at] == before[..at]
    && after[at..at + |bytes|] == bytes
    && after[at + |bytes|..] == before[at + |bytes|..]
  }

  lemma StoredPointwise(before: seq<byte>, after: seq<byte>, at: nat, bytes: seq<byte>)
    requires at + |bytes| <= |before| == |after|
    requires forall i :: 0 <= i < |bytes| ==> after[at + i] == bytes[i]
    requires forall j :: 0 <= j < at || at + |bytes| <= j < |before| ==> after[j] == before[j]
    ensures Stored(before, after, at, bytes)
  {
  }

  /** The uint16_t increment of the packet id counters. */
  function NextId(id: uint16): uint16 {
    (id + 1) % 65536
  }

  /** What `strncpy(dst, src, |src|)` leaves in dst: a copy up to the first NUL, then zero padding. */
  function StrNCpy(src: seq<byte>): (dst: seq<byte>)
    ensures |dst| == |src|
  {
    if src == [] then []
    else if src[0] == 0 then seq(|src|, _ => 0)
    else [src[0]] + StrNCpy(src[1..])
  }

  lemma {:induction false} StrNCpyCopies(src: seq<byte>)
    ensures StrNCpy(src) == src <==> forall i, j :: 0 <= i < j < |src| && src[i] == 0 ==> src[j] == 0
  {
    if src == [] {
    } else if src[0] == 0 {
      if StrNCpy(src) == src {
        assert forall j :: 0 <= j < |src| ==> src[j] == StrNCpy(src)[j];
      }
    } else {
      var rest := src[1..];
      StrNCpyCopies(rest);
      assert src == [src[0]] + rest;
      if forall i, j :: 0 <= i < j < |rest| && rest[i] == 0 ==> rest[j] == 0 {
        forall i, j | 0 <= i < j < |src| && src[i] == 0 ensures src[j] == 0 {
          assert rest[i - 1] == 0 && rest[j - 1] == src[j];
        }
      } else {
        var i, j :| 0 <= i < j < |rest| && rest[i] == 0 && rest[j] != 0;
        assert src[i + 1] == 0 && src[j + 1] != 0;
        assert StrNCpy(src)[1..] == StrNCpy(rest);
      }
    }
  }
}
