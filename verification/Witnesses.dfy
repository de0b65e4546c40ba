/** Runs of the whole client that reach the states the other files speak of. */
module Witnesses {
  import opened Bytes
  import opened Frames
  import opened Coupling
  import opened Completion
  import opened Outcomes
  import P = SlotPool
  import D = Drain
  import R = RoundTrips

  predicate AllSized(slots: seq<P.Slot>, count: nat, size: nat) {
    |slots| == count && forall i :: 0 <= i < count ==> |slots[i].buffer| == size
  }

  lemma {:induction false} SizesKept(p: P.Pool, steps: seq<P.Step>, count: nat, size: nat)
    requires AllSized(p.slots, count, size) && P.Legal(p, steps)
    ensures AllSized(P.Run(p, steps).slots, count, size)
    decreases |steps|
  {
    if steps != [] {
      SizesKept(P.Do(p, steps[0]), steps[1..], count, size);
    }
  }

  lemma SizesAlong(e: Engine, steps: seq<Step>, count: nat, size: nat)
    requires AllSized(e.pool.slots, count, size) && Legal(e, steps)
    ensures AllSized(Run(e, steps).pool.slots, count, size)
  {
    PoolRuns(e, steps);
    SizesKept(e.pool, PoolSteps(e, steps), count, size);
  }

  /** A publish of nothing to nowhere takes six bytes at QoS 1 and 2 and four at QoS 0. */
  function Small(qos: Qos): Request {
    PublishRequest(qos, [], [], false)
  }

  lemma SmallFits(slots: seq<P.Slot>, count: nat, size: nat, qos: Qos)
    requires AllSized(slots, count, size) && qos <= 2 && size >= (if qos == 0 then 4 else 6)
    ensures Fits(slots, Small(qos))
  {
    var a := PublishArgs([], 0, qos, false, Some([]));
    R.SmallField(PublishLength(a));
    assert |PublishFrame(a)| == if qos == 0 then 4 else 6;
  }

  /** A client at rest has all its slots free. */
  lemma QuietHasFree(e: Engine)
    requires Sound(e) && Quiescent(e) && |e.pool.slots| > 0
    ensures e.pool.free != []
  {
    assert |P.Pending(e.pool)| == |Unsent(e.session)| == 0;
    P.OwnedCount(e.pool, 0);
  }

  /** At rest after n acknowledged publishes, with nothing lost or given up. */
  ghost predicate RestedAfter(e: Engine, n: nat, count: nat, size: nat) {
    && Sound(e) && Known(e.session) && D.Running(e.session) && Quiescent(e)
    && e.session.issued == n && e.session.lost == multiset{} && NothingGivenUp(e.session)
    && AllSized(e.pool.slots, count, size)
  }

  /** Going to have used n ids, nothing lost and nothing in the way. */
  ghost predicate Underway(e: Engine, n: nat, count: nat, size: nat) {
    && Sound(e) && Known(e.session) && D.Running(e.session) && !Stuck(e)
    && Used(e) == n && e.session.lost == multiset{} && NothingGivenUp(e.session)
    && AllSized(e.pool.slots, count, size)
  }

  lemma AskSmall(e: Engine, n: nat, count: nat, size: nat)
    requires RestedAfter(e, n, count, size) && count > 0 && size >= 6
    ensures Enabled(e, Ask(Small(1))) && Underway(Do(e, Ask(Small(1))), n + 1, count, size)
  {
    SmallFits(e.pool.slots, count, size, 1);
    QuietHasFree(e);
    AskSucceeds(e, Small(1));
    AskedUnderway(e, Do(e, Ask(Small(1))), n, count, size);
  }

  lemma AskedUnderway(e: Engine, t: Engine, n: nat, count: nat, size: nat)
    requires RestedAfter(e, n, count, size) && Sound(t) && t.call == Wanting(Small(1)) && t.session == e.session
    requires t.pool.slots == e.pool.slots && t.pool.app.AppFilling?
    ensures Underway(t, n + 1, count, size)
  {
  }

  /** With a free slot the call gets it at once. */
  lemma AskSucceeds(e: Engine, r: Request)
    requires Sound(e) && e.call.NoCall? && !e.session.stopping && e.pool.free != []
    requires Askable(r) && Fits(e.pool.slots, r)
    ensures Enabled(e, Ask(r)) && Sound(Do(e, Ask(r)))
    ensures Do(e, Ask(r)) == e.(pool := e.pool.(free := e.pool.free[1..], app := P.AppFilling(e.pool.free[0])),
                                call := Wanting(r))
  {
    assert Enabled(e, Ask(r));
    CallSteps(e);
    SoundStep(e, Ask(r));
  }

  lemma ComesToRest(e: Engine, n: nat, count: nat, size: nat) returns (steps: seq<Step>)
    requires Underway(e, n, count, size)
    ensures Legal(e, steps) && RestedAfter(Run(e, steps), n, count, size)
  {
    steps := CanDrain(e);
    UsedAlong(e, steps);
    KnownAlong(e, steps);
    SizesAlong(e, steps, count, size);
    SoundRun(e, steps);
    RunningAlong(e, steps);
    NothingGivenUpAlong(e, steps);
  }

  lemma OneMore(e: Engine, n: nat, count: nat, size: nat) returns (steps: seq<Step>)
    requires RestedAfter(e, n, count, size) && count > 0 && size >= 6
    ensures Legal(e, steps) && RestedAfter(Run(e, steps), n + 1, count, size)
  {
    AskSmall(e, n, count, size);
    var rest := ComesToRest(Do(e, Ask(Small(1))), n + 1, count, size);
    steps := [Ask(Small(1))] + rest;
    Prepend(e, Ask(Small(1)), rest);
  }

  lemma {:induction false} RunningAlong(e: Engine, steps: seq<Step>)
    requires Legal(e, steps) && AllKind(steps) && !e.session.stopping
    ensures !Run(e, steps).session.stopping
    decreases |steps|
  {
    if steps != [] {
      KindTail(steps);
      StoppingKept(e, steps[0]);
      RunningAlong(Do(e, steps[0]), steps[1..]);
    }
  }

  lemma StoppingKept(e: Engine, step: Step)
    requires Enabled(e, step) && !step.Disconnect?
    ensures Do(e, step).session.stopping == e.session.stopping
  {
    match step
    case Register => CallSteps(e);
    case Alone(s) =>
      AloneStep(e, s);
      AloneLeaves(e.session, s);
    case _ =>
  }

  lemma FirstStep(e: Engine, steps: seq<Step>)
    requires Legal(e, steps) && steps != []
    ensures Enabled(e, steps[0]) && Legal(Do(e, steps[0]), steps[1..])
    ensures Run(e, steps) == Run(Do(e, steps[0]), steps[1..])
  {
  }

  lemma FirstOfBoth(first: Step, a: seq<Step>, b: seq<Step>)
    requires a != [] && first == a[0]
    ensures a + b == [first] + (a[1..] + b)
  {
  }

  lemma {:induction false} Concat(e: Engine, a: seq<Step>, b: seq<Step>)
    requires Legal(e, a) && Legal(Run(e, a), b)
    ensures Legal(e, a + b) && Run(e, a + b) == Run(Run(e, a), b)
    decreases |a|
  {
    if a == [] {
      assert a + b == b;
    } else {
      var first, rest := a[0], a[1..];
      FirstStep(e, a);
      Concat(Do(e, first), rest, b);
      Prepend(e, first, rest + b);
      FirstOfBoth(first, a, b);
    }
  }

  lemma InitRested(count: nat, size: nat)
    ensures RestedAfter(Init(count, size), 0, count, size)
  {
    InitSound(count, size);
    InitKnown();
  }

  /** A client at rest can make more acknowledged publishes and come to rest again. */
  lemma {:induction false} RestAgain(e: Engine, m: nat, n: nat, count: nat, size: nat) returns (steps: seq<Step>)
    requires RestedAfter(e, m, count, size) && m <= n && count > 0 && size >= 6
    ensures Legal(e, steps) && RestedAfter(Run(e, steps), n, count, size)
    decreases n - m
  {
    if n == m {
      steps := [];
    } else {
      var first := OneMore(e, m, count, size);
      steps := RestAgain(Run(e, first), m + 1, n, count, size);
      Concat(e, first, steps);
      steps := first + steps;
    }
  }

  lemma RestReached(count: nat, size: nat, n: nat) returns (steps: seq<Step>, e: Engine)
    requires count > 0 && size >= 6
    ensures Legal(Init(count, size), steps) && e == Run(Init(count, size), steps) && RestedAfter(e, n, count, size)
  {
    InitRested(count, size);
    steps := RestAgain(Init(count, size), 0, n, count, size);
    e := Run(Init(count, size), steps);
  }

  /** With slots of any number a run of 255 acknowledged publishes, all finished, makes 256 the next id. */
  lemma Id256Reached(count: nat, size: nat) returns (steps: seq<Step>)
    requires count > 0 && size >= 6
    ensures Legal(Init(count, size), steps)
    ensures var e := Run(Init(count, size), steps);
            Quiescent(e) && D.Running(e.session) && e.session.nextId == 256 && Completed(e.session)
  {
    var e;
    steps, e := RestReached(count, size, 255);
    RestedIsComplete(e, 255, count, size);
  }

  lemma RestedIsComplete(e: Engine, n: nat, count: nat, size: nat)
    requires RestedAfter(e, n, count, size) && n <= 255
    ensures Quiescent(e) && D.Running(e.session) && Completed(e.session) && e.session.nextId == 1 + n
  {
    RestCompletes(e.session);
  }

  // ----- and a run that gets stuck

  /** One publish at QoS 0, up to and including its submission. */
  const SMALL_CALL: seq<Step> := [Ask(Small(0)), Fill, SetLength, Submit]

  /** The application between two calls, with n free slots and nothing lost. */
  ghost predicate Between(e: Engine, n: nat, count: nat, size: nat) {
    && Sound(e) && D.Running(e.session) && e.session.lost == multiset{}
    && e.call.NoCall? && |e.pool.free| == n && AllSized(e.pool.slots, count, size)
  }

  lemma FillSmall(e: Engine)
    requires Sound(e) && !Stuck(e) && e.call == Wanting(Small(0))
    ensures Enabled(e, Fill) && Sound(Do(e, Fill))
    ensures var t := Do(e, Fill);
            && t.call.Holding? && t.session == e.session.(app := t.session.app) && t.session.app.AppSubmitting?
            && t.pool.free == e.pool.free && t.pool.app.AppFilling?
  {
    CanFill(e);
    FillStep(e);
    SoundStep(e, Fill);
  }

  lemma SubmitHeld(e: Engine)
    requires Sound(e) && e.call.Holding? && e.session.app.AppSubmitting? && e.pool.app.AppFilling?
    ensures Enabled(e, SetLength) && Enabled(Do(e, SetLength), Submit)
    ensures var t := Do(Do(e, SetLength), Submit);
            && t.call.NoCall? && t.pool.free == e.pool.free
            && t.session == e.session.(app := t.session.app, sendQueue := t.session.sendQueue)
  {
    SetLengthDoes(e);
    SubmitDoes(Do(e, SetLength));
  }

  lemma SetLengthDoes(e: Engine)
    requires Sound(e) && e.call.Holding? && e.session.app.AppSubmitting? && e.pool.app.AppFilling?
    ensures Enabled(e, SetLength) && Sound(Do(e, SetLength))
    ensures var t := Do(e, SetLength);
            t.session == e.session && t.call == e.call && t.pool.free == e.pool.free && t.pool.app.AppReady?
  {
    assert Enabled(e, SetLength);
    CallSteps(e);
    SoundStep(e, SetLength);
  }

  lemma SubmitDoes(e: Engine)
    requires Sound(e) && e.call.Holding? && e.pool.app.AppReady?
    ensures Enabled(e, Submit)
    ensures var t := Do(e, Submit);
            && t.call.NoCall? && t.pool.free == e.pool.free
            && t.session == e.session.(app := t.session.app, sendQueue := t.session.sendQueue)
  {
    assert Enabled(e, Submit);
    CallSteps(e);
  }

  lemma FourSteps(e: Engine, a: Step, b: Step, c: Step, d: Step)
    requires Enabled(e, a) && Enabled(Do(e, a), b) && Enabled(Do(Do(e, a), b), c)
    requires Enabled(Do(Do(Do(e, a), b), c), d)
    ensures Legal(e, [a, b, c, d]) && Run(e, [a, b, c, d]) == Do(Do(Do(Do(e, a), b), c), d)
  {
    Prepend(Do(Do(Do(e, a), b), c), d, []);
    Prepend(Do(Do(e, a), b), c, [d]);
    Prepend(Do(e, a), b, [c] + [d]);
    Prepend(e, a, [b] + ([c] + [d]));
    assert [a, b, c, d] == [a] + ([b] + ([c] + [d])) && [d] + [] == [d];
  }

  lemma OneCall(e: Engine, n: nat, count: nat, size: nat)
    requires Between(e, n, count, size) && n > 0 && size >= 4
    ensures Legal(e, SMALL_CALL) && Between(Run(e, SMALL_CALL), n - 1, count, size)
  {
    SmallFits(e.pool.slots, count, size, 0);
    AskSucceeds(e, Small(0));
    FillSmall(Do(e, Ask(Small(0))));
    SubmitHeld(Do(Do(e, Ask(Small(0))), Fill));
    FourSteps(e, Ask(Small(0)), Fill, SetLength, Submit);
    SoundRun(e, SMALL_CALL);
    SizesAlong(e, SMALL_CALL, count, size);
  }

  lemma {:induction false} Flood(e: Engine, n: nat, count: nat, size: nat) returns (steps: seq<Step>)
    requires Between(e, n, count, size) && size >= 4
    ensures Legal(e, steps) && Between(Run(e, steps), 0, count, size)
    decreases n
  {
    if n == 0 {
      steps := [];
    } else {
      OneCall(e, n, count, size);
      steps := Flood(Run(e, SMALL_CALL), n - 1, count, size);
      Concat(e, SMALL_CALL, steps);
      steps := SMALL_CALL + steps;
    }
  }

  lemma GetsStuck(e: Engine, count: nat, size: nat)
    requires Between(e, 0, count, size) && size >= 4
    ensures var steps := [Ask(Small(0))];
            && Legal(e, steps)
            && var t := Run(e, steps);
               Sound(t) && Stuck(t) && D.Running(t.session) && t.session.lost == multiset{}
  {
    var ask := Ask(Small(0));
    SmallFits(e.pool.slots, count, size, 0);
    assert Enabled(e, ask);
    CallSteps(e);
    Prepend(e, ask, []);
    assert [ask] == [ask] + [];
    SoundStep(e, ask);
  }

  lemma InitBetween(count: nat, size: nat)
    ensures Between(Init(count, size), count, count, size)
  {
    InitSound(count, size);
  }

  /**
   * With slots of any number, publishing once more than there are slots before the session thread runs leaves
   * the whole client in a state that cannot be drained, although no send has failed.
   */
  lemma StuckReached(count: nat, size: nat) returns (steps: seq<Step>, e: Engine)
    requires size >= 4
    ensures Legal(Init(count, size), steps) && e == Run(Init(count, size), steps)
    ensures Stuck(e) && D.Running(e.session) && e.session.lost == multiset{} && !Drainable(e)
  {
    InitBetween(count, size);
    var flood := Flood(Init(count, size), count, count, size);
    var flooded := Run(Init(count, size), flood);
    GetsStuck(flooded, count, size);
    Concat(Init(count, size), flood, [Ask(Small(0))]);
    steps, e := flood + [Ask(Small(0))], Run(flooded, [Ask(Small(0))]);
    DrainableExactly(e);
  }
}
