/** Counting the elements of a queue that have a property. */
module Tallies {
  function One(b: bool): nat {
    if b then 1 else 0
  }

  function Tally<T>(q: seq<T>, f: T -> bool): nat {
    if q == [] then 0 else One(f(q[0])) + Tally(q[1..], f)
  }

  lemma {:induction false} TallyConcat<T>(q: seq<T>, r: seq<T>, f: T -> bool)
    ensures Tally(q + r, f) == Tally(q, f) + Tally(r, f)
  {
    if q == [] {
      assert q + r == r;
    } else {
      TallyConcat(q[1..], r, f);
      assert (q + r)[1..] == q[1..] + r;
    }
  }

  lemma TallyOne<T>(x: T, f: T -> bool)
    ensures Tally([x], f) == One(f(x))
  {
    assert [x][1..] == [];
  }

  lemma TallyAppend<T>(q: seq<T>, x: T, f: T -> bool)
    ensures Tally(q + [x], f) == Tally(q, f) + One(f(x))
  {
    TallyConcat(q, [x], f);
    TallyOne(x, f);
  }

  lemma TallyWithout<T>(q: seq<T>, i: nat, f: T -> bool)
    requires i < |q|
    ensures Tally(q, f) == Tally(q[..i] + q[i + 1..], f) + One(f(q[i]))
  {
    assert q == q[..i] + q[i..] && q[i..][1..] == q[i + 1..];
    TallyConcat(q[..i], q[i..], f);
    TallyConcat(q[..i], q[i + 1..], f);
  }

  lemma TallyUpdate<T>(q: seq<T>, i: nat, x: T, f: T -> bool)
    requires i < |q|
    ensures Tally(q[i := x], f) + One(f(q[i])) == Tally(q, f) + One(f(x))
  {
    TallyWithout(q, i, f);
    TallyWithout(q[i := x], i, f);
    assert q[i := x][..i] + q[i := x][i + 1..] == q[..i] + q[i + 1..];
  }

  /** An element with the property counts, so a count of zero means there is none. */
  lemma TallyMember<T>(q: seq<T>, i: nat, f: T -> bool)
    requires i < |q| && f(q[i])
    ensures Tally(q, f) >= 1
  {
    TallyWithout(q, i, f);
  }

  lemma {:induction false} TallyWitness<T>(q: seq<T>, f: T -> bool) returns (i: nat)
    requires Tally(q, f) > 0
    ensures i < |q| && f(q[i])
  {
    if f(q[0]) {
      i := 0;
    } else {
      i := TallyWitness(q[1..], f);
      i := i + 1;
    }
  }

  function Sum<T>(q: seq<T>, f: T -> nat): nat {
    if q == [] then 0 else f(q[0]) + Sum(q[1..], f)
  }

  lemma {:induction false} SumConcat<T>(q: seq<T>, r: seq<T>, f: T -> nat)
    ensures Sum(q + r, f) == Sum(q, f) + Sum(r, f)
  {
    if q == [] {
      assert q + r == r;
    } else {
      SumConcat(q[1..], r, f);
      assert (q + r)[1..] == q[1..] + r;
    }
  }

  lemma SumAppend<T>(q: seq<T>, x: T, f: T -> nat)
    ensures Sum(q + [x], f) == Sum(q, f) + f(x)
  {
    SumConcat(q, [x], f);
    assert [x][1..] == [];
  }

  lemma SumUpdate<T>(q: seq<T>, i: nat, x: T, f: T -> nat)
    requires i < |q|
    ensures Sum(q[i := x], f) + f(q[i]) == Sum(q, f) + f(x)
  {
    var a, b := q[..i], q[i + 1..];
    assert q == a + q[i..] && q[i..][1..] == b;
    assert q[i := x] == a + ([x] + b) && ([x] + b)[1..] == b;
    SumConcat(a, q[i..], f);
    SumConcat(a, [x] + b, f);
  }

  lemma {:induction false} SumMember<T>(q: seq<T>, i: nat, f: T -> nat)
    requires i < |q|
    ensures Sum(q, f) >= f(q[i])
  {
    if i > 0 { SumMember(q[1..], i - 1, f); }
  }

  lemma {:induction false} SumZero<T>(q: seq<T>, f: T -> nat)
    requires forall i :: 0 <= i < |q| ==> f(q[i]) == 0
    ensures Sum(q, f) == 0
  {
    if q != [] { SumZero(q[1..], f); }
  }
}
