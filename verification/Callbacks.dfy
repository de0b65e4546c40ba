/**
 * When a publish can be called back: exactly if its id fits one byte, however many ids have been used before.
 * After the 16-bit counter has wrapped around, records of other publishes with the same id may stand before it
 * in the ack queue; each further publish whose id has the same low byte takes one of them away.
 */
module Callbacks {
  import opened Bytes
  import opened Frames
  import opened AckQueue
  import opened Tallies
  import opened Coupling
  import opened Completion
  import opened Outcomes
  import opened Witnesses
  import S = Session
  import L = Lives
  import B = Balance
  import M = Matching
  import C = Counts
  import D = Drain
  import R = Refinement

  ghost predicate CalledBack(s: S.State, c: nat) {
    c < |s.lives| && S.CalledBack in s.lives[c]
  }

  ghost predicate CanBeCalledBack(e: Engine, c: nat) {
    exists steps :: Legal(e, steps) && CalledBack(Run(e, steps).session, c)
  }

  /** The type of record a publish with an acknowledgement registers, and the low byte of its id. */
  datatype Tag = Tag(messageType: nat, id: uint16) {
    predicate Valid() {
      messageType in {PUBACK, PUBREC} && id < 256
    }

    /** The key under which the acknowledgement comes back. */
    function Key(): S.Key {
      (messageType, id as nat)
    }
  }

  /** A waiting record that such an acknowledgement answers. */
  function Exact(k: Tag): Waiting -> bool {
    (w: Waiting) => w.messageType == k.messageType && w.packetId == k.id
  }

  /** A waiting record whose request brings such an acknowledgement without being answered by it. */
  function Wide(k: Tag): Waiting -> bool {
    (w: Waiting) => w.messageType == k.messageType && w.packetId != k.id && S.Wire(w.packetId) == k.id
  }

  // ----- what a step of the session does to these records

  /** From s to t: no more exact records, no fewer wide ones, and none of the acknowledgements wasted meanwhile. */
  ghost predicate Shrinks(s: S.State, t: S.State, k: Tag, wide: nat) {
    && Tally(t.ackQueue, Exact(k)) <= Tally(s.ackQueue, Exact(k))
    && Tally(t.ackQueue, Wide(k)) >= Tally(s.ackQueue, Wide(k)) + wide
    && (Tally(t.ackQueue, Exact(k)) > 0 ==> t.unmatched[k.Key()] == s.unmatched[k.Key()])
  }

  lemma {:induction false} NoneCounted(q: seq<Waiting>, f: Waiting -> bool)
    requires forall i :: 0 <= i < |q| ==> !f(q[i])
    ensures Tally(q, f) == 0
  {
    if q != [] { NoneCounted(q[1..], f); }
  }

  lemma LookupShrinks(s: S.State, k: Tag)
    requires S.Enabled(s, S.WorkerLookup) && M.Numbered(s) && k.Valid()
    ensures Shrinks(s, S.LookUp(s), k, 0)
  {
    var key, t := S.AckKey(s.worker.packet), S.LookUp(s);
    var r := Lookup(s.ackQueue, key.0, key.1);
    assert key.1 < 256;
    if r.FoundAt? {
      assert t.ackQueue == Without(s.ackQueue, r.index) && t.unmatched == s.unmatched;
      TallyWithout(s.ackQueue, r.index, Exact(k));
      TallyWithout(s.ackQueue, r.index, Wide(k));
    } else {
      assert t.ackQueue == s.ackQueue && t.unmatched == s.unmatched + multiset{(key.0, key.1 as nat)};
      if (key.0, key.1 as nat) == k.Key() { MissMeansNone(s.ackQueue, k); }
    }
  }

  lemma MissMeansNone(q: seq<Waiting>, k: Tag)
    requires k.Valid() && !Lookup(q, k.messageType, k.id).FoundAt?
    ensures Tally(q, Exact(k)) == 0
  {
    forall i | 0 <= i < |q| ensures !Exact(k)(q[i]) {
      assert !Stops(q[i], k.messageType, k.id);
    }
    NoneCounted(q, Exact(k));
  }

  lemma RegisterShrinks(s: S.State, k: Tag)
    requires s.app.AppRegistering? && !Exact(k)(s.app.record)
    ensures Shrinks(s, S.Register(s), k, One(Wide(k)(s.app.record)))
  {
    TallyAppend(s.ackQueue, s.app.record, Exact(k));
    TallyAppend(s.ackQueue, s.app.record, Wide(k));
    assert S.Register(s).ackQueue == s.ackQueue + [s.app.record] && S.Register(s).unmatched == s.unmatched;
  }

  lemma RequeueShrinks(s: S.State, k: Tag)
    requires L.WorkerOk(s) && s.worker.Requeueing? && k.Valid()
    ensures Shrinks(s, S.Do(s, S.WorkerRequeue), k, 0)
  {
    TallyAppend(s.ackQueue, s.worker.record, Exact(k));
    TallyAppend(s.ackQueue, s.worker.record, Wide(k));
  }

  lemma OtherShrinks(s: S.State, step: S.Step, k: Tag)
    requires S.Enabled(s, step) && !step.AppEnqueueWaiting? && !step.WorkerLookup? && !step.WorkerRequeue?
    ensures Shrinks(s, S.Do(s, step), k, 0)
  {
  }

  lemma StepShrinks(s: S.State, step: S.Step, k: Tag)
    requires S.Enabled(s, step) && M.Numbered(s) && L.WorkerOk(s) && k.Valid()
    requires step.AppEnqueueWaiting? ==> !Exact(k)(s.app.record)
    ensures Shrinks(s, S.Do(s, step), k, One(step.AppEnqueueWaiting? && Wide(k)(s.app.record)))
  {
    if step.AppEnqueueWaiting? {
      RegisterShrinks(s, k);
    } else if step.WorkerLookup? {
      LookupShrinks(s, k);
    } else if step.WorkerRequeue? {
      RequeueShrinks(s, k);
    } else {
      OtherShrinks(s, step, k);
    }
  }

  // ----- what a call and its handshake do to them

  /** The type of record the request will register. */
  function TypeOf(r: Request): nat {
    match r
    case PublishRequest(qos, _, _, _) => if qos == 1 then PUBACK else if qos == 2 then PUBREC else 0
    case PingRequest => PINGRESP
  }

  /** The call under way registers a record of which f holds. */
  predicate Brings(e: Engine, f: Waiting -> bool) {
    || (e.session.app.AppRegistering? && f(e.session.app.record))
    || (e.call.Wanting? && TypeOf(e.call.request) != 0
        && f(ToRegister(e.session, e.call.request)))
  }

  function ToRegister(s: S.State, r: Request): Waiting {
    S.Request(TypeOf(r), if r.PingRequest? then 0 else s.nextId, |s.lives|)
  }

  lemma FillBrings(e: Engine, f: Waiting -> bool)
    requires CallAgrees(e) && Enabled(e, Fill)
    ensures Brings(Do(e, Fill), f) <==> Brings(e, f)
  {
    FillStep(e);
  }

  lemma RegisterBrings(e: Engine, f: Waiting -> bool)
    requires CallAgrees(e) && Enabled(e, Register)
    ensures e.session.app.AppRegistering? && (Brings(e, f) <==> f(e.session.app.record)) && !Brings(Do(e, Register), f)
  {
    CallSteps(e);
  }

  lemma OtherBrings(e: Engine, step: Step, f: Waiting -> bool)
    requires CallAgrees(e) && Enabled(e, step) && Kind(step) && !step.Fill? && !step.Register?
    ensures Brings(Do(e, step), f) <==> Brings(e, f)
  {
    match step
    case Retry => CallSteps(e);
    case SetLength => CallSteps(e);
    case Submit => CallSteps(e);
    case Take => WorkerSteps(e);
    case Send(_) => WorkerSteps(e);
    case Recycle => WorkerSteps(e);
    case Alone(s) =>
      AloneStep(e, s);
      AloneLeaves(e.session, s);
  }

  /** From e to t: the same in the small, the record of the call under way counted as if it were registered. */
  ghost predicate Closer(e: Engine, t: Engine, k: Tag) {
    var s, u := e.session, t.session;
    && Tally(u.ackQueue, Exact(k)) <= Tally(s.ackQueue, Exact(k))
    && Tally(u.ackQueue, Wide(k)) + One(Brings(t, Wide(k))) >= Tally(s.ackQueue, Wide(k)) + One(Brings(e, Wide(k)))
    && (Tally(u.ackQueue, Exact(k)) > 0 ==> u.unmatched[k.Key()] == s.unmatched[k.Key()])
  }

  lemma KnownStep(e: Engine, step: Step)
    requires Known(e.session) && Enabled(e, step)
    ensures Known(Do(e, step).session)
  {
    Prepend(e, step, []);
    assert [step] + [] == [step];
    KnownAlong(e, [step]);
  }

  lemma SessionShrinks(e: Engine, step: Step, k: Tag)
    requires Sound(e) && Known(e.session) && Enabled(e, step) && k.Valid()
    requires step.Register? ==> e.session.app.AppRegistering? && !Exact(k)(e.session.app.record)
    ensures Shrinks(e.session, Do(e, step).session, k,
                    if step.Register? then One(Wide(k)(e.session.app.record)) else 0)
  {
    var s := SessionPart(e, step);
    if s.Some? {
      AlonesDoNotRegister(e, step);
      StepShrinks(e.session, s.value, k);
    }
  }

  lemma AlonesDoNotRegister(e: Engine, step: Step)
    requires Enabled(e, step)
    ensures var s := SessionPart(e, step); s == Some(S.AppEnqueueWaiting) <==> step.Register?
  {
  }

  lemma RoundStep(e: Engine, step: Step, k: Tag)
    requires Sound(e) && Known(e.session) && Enabled(e, step) && Kind(step) && k.Valid() && !Brings(e, Exact(k))
    ensures Closer(e, Do(e, step), k) && !Brings(Do(e, step), Exact(k))
  {
    if step.Fill? {
      FillBrings(e, Exact(k));
      FillBrings(e, Wide(k));
    } else if step.Register? {
      RegisterBrings(e, Exact(k));
      RegisterBrings(e, Wide(k));
    } else {
      OtherBrings(e, step, Exact(k));
      OtherBrings(e, step, Wide(k));
    }
    SessionShrinks(e, step, k);
  }

  lemma {:induction false} RoundAlong(e: Engine, steps: seq<Step>, k: Tag)
    requires Sound(e) && Known(e.session) && Legal(e, steps) && AllKind(steps) && k.Valid() && !Brings(e, Exact(k))
    ensures Closer(e, Run(e, steps), k)
    decreases |steps|
  {
    if steps != [] {
      KindTail(steps);
      RoundStep(e, steps[0], k);
      SoundStep(e, steps[0]);
      KnownStep(e, steps[0]);
      RoundAlong(Do(e, steps[0]), steps[1..], k);
      CloserJoins(e, Do(e, steps[0]), Run(e, steps), k);
    }
  }

  lemma CloserJoins(e: Engine, t: Engine, u: Engine, k: Tag)
    requires Closer(e, t, k) && Closer(t, u, k)
    ensures Closer(e, u, k)
  {
  }

  // ----- rounds of publishes

  /** At rest, with slots for the publishes to come. */
  ghost predicate Rest(e: Engine, count: nat, size: nat) {
    && Sound(e) && Known(e.session) && D.Running(e.session) && Quiescent(e)
    && AllSized(e.pool.slots, count, size) && count > 0 && size >= 6
  }

  /** Request c was registered under this tag and has not been given up. */
  ghost predicate Watched(s: S.State, c: nat, k: Tag) {
    && c < |s.lives| && s.lives[c] != [] && s.lives[c][0] == S.Registered(k.messageType, k.id)
    && forall i :: 0 <= i < |s.lives[c]| ==> !s.lives[c][i].PubrelLost?
  }

  lemma WatchedStep(e: Engine, step: Step, c: nat, k: Tag)
    requires Enabled(e, step) && Kind(step) && Watched(e.session, c, k)
    ensures Watched(Do(e, step).session, c, k)
  {
    var s := SessionPart(e, step);
    if s.Some? {
      C.LifeKept(e.session, s.value, c);
      assert s.value != S.WorkerRelease(false);
    }
  }

  lemma {:induction false} WatchedAlong(e: Engine, steps: seq<Step>, c: nat, k: Tag)
    requires Legal(e, steps) && AllKind(steps) && Watched(e.session, c, k)
    ensures Watched(Run(e, steps).session, c, k)
    decreases |steps|
  {
    if steps != [] {
      KindTail(steps);
      WatchedStep(e, steps[0], c, k);
      WatchedAlong(Do(e, steps[0]), steps[1..], c, k);
    }
  }

  /** Nothing is in the way of draining, and what is under way will not register another exact record. */
  ghost predicate Free(e: Engine, count: nat, size: nat, k: Tag) {
    && Sound(e) && Known(e.session) && D.Running(e.session) && !Stuck(e)
    && AllSized(e.pool.slots, count, size) && count > 0 && size >= 6 && !Brings(e, Exact(k))
  }

  lemma Settle(e: Engine, count: nat, size: nat, c: nat, k: Tag) returns (steps: seq<Step>)
    requires Free(e, count, size, k) && k.Valid() && Watched(e.session, c, k)
    ensures Legal(e, steps)
    ensures var u := Run(e, steps);
            && Rest(u, count, size) && Watched(u.session, c, k) && Closer(e, u, k)
            && u.session.lost == e.session.lost && u.session.issued == Used(e)
  {
    steps := CanDrain(e);
    RoundAlong(e, steps, k);
    WatchedAlong(e, steps, c, k);
    UsedAlong(e, steps);
    KnownAlong(e, steps);
    SizesAlong(e, steps, count, size);
    SoundRun(e, steps);
    RunningAlong(e, steps);
  }

  lemma {:induction false} SplitKey(q: seq<Waiting>, k: Tag)
    requires k.Valid()
    ensures Tally(q, S.WaitsFor(k.Key())) == Tally(q, Exact(k)) + Tally(q, Wide(k))
  {
    if q != [] { SplitKey(q[1..], k); }
  }

  /** At rest every record under the key is accounted for by an acknowledgement lost or wasted. */
  lemma RestLaw(s: S.State, k: Tag)
    requires Known(s) && D.Quiescent(s) && k.Valid()
    ensures Tally(s.ackQueue, Exact(k)) + Tally(s.ackQueue, Wide(k)) == s.lost[k.Key()] + s.unmatched[k.Key()]
  {
    SplitKey(s.ackQueue, k);
    assert B.Settled(s, k.Key());
  }

  function OwnQos(k: Tag): Qos {
    if k.messageType == PUBACK then 1 else 2
  }

  function OtherQos(k: Tag): Qos {
    3 - OwnQos(k)
  }

  lemma AskFree(e: Engine, qos: Qos, count: nat, size: nat, k: Tag)
    requires Rest(e, count, size) && k.Valid() && 1 <= qos <= 2
    requires qos == OwnQos(k) ==> e.session.nextId != k.id
    ensures Enabled(e, Ask(Small(qos)))
    ensures var t := Do(e, Ask(Small(qos)));
            && Free(t, count, size, k) && t.session == e.session && Used(t) == e.session.issued + 1
            && (Brings(t, Wide(k)) <==> qos == OwnQos(k) && S.Wire(e.session.nextId) == k.id)
  {
    SmallFits(e.pool.slots, count, size, qos);
    QuietHasFree(e);
    AskSucceeds(e, Small(qos));
    AskedFree(e, Do(e, Ask(Small(qos))), qos, count, size, k);
  }

  lemma AskedFree(e: Engine, t: Engine, qos: Qos, count: nat, size: nat, k: Tag)
    requires Rest(e, count, size) && k.Valid() && 1 <= qos <= 2 && (qos == OwnQos(k) ==> e.session.nextId != k.id)
    requires Sound(t) && t.call == Wanting(Small(qos)) && t.session == e.session
    requires t.pool.slots == e.pool.slots && t.pool.app.AppFilling?
    ensures Free(t, count, size, k) && Used(t) == e.session.issued + 1
    ensures Brings(t, Wide(k)) <==> qos == OwnQos(k) && S.Wire(e.session.nextId) == k.id
  {
    WantingBrings(t, qos, k);
  }

  lemma WantingBrings(t: Engine, qos: Qos, k: Tag)
    requires t.call == Wanting(Small(qos)) && t.session.app.AppIdle? && k.Valid() && 1 <= qos <= 2
    requires qos == OwnQos(k) ==> t.session.nextId != k.id
    ensures !Brings(t, Exact(k)) && Used(t) == t.session.issued + 1
    ensures Brings(t, Wide(k)) <==> qos == OwnQos(k) && S.Wire(t.session.nextId) == k.id
  {
  }

  function Before(s: S.State, k: Tag): nat {
    Tally(s.ackQueue, Exact(k))
  }

  /** What one more publish that has come to rest did to the records. */
  ghost predicate RoundDone(e: Engine, u: Engine, qos: Qos, k: Tag) {
    && u.session.nextId == NextId(e.session.nextId)
    && Before(u.session, k) <= Before(e.session, k)
    && (qos == OwnQos(k) && S.Wire(e.session.nextId) == k.id ==>
          Before(u.session, k) == 0 || Before(u.session, k) < Before(e.session, k))
  }

  lemma RoundLaw(e: Engine, t: Engine, u: Engine, qos: Qos, k: Tag)
    requires Known(e.session) && Known(u.session) && Quiescent(e) && Quiescent(u) && k.Valid()
    requires t.session == e.session && Closer(t, u, k) && u.session.lost == t.session.lost
    requires u.session.issued == e.session.issued + 1
    requires Brings(t, Wide(k)) <==> qos == OwnQos(k) && S.Wire(e.session.nextId) == k.id
    ensures RoundDone(e, u, qos, k)
  {
    RestLaw(e.session, k);
    RestLaw(u.session, k);
    RoundCounts(e, t, u, k);
    CountsOn(e.session, u.session);
  }

  lemma CountsOn(s: S.State, t: S.State)
    requires M.Numbered(s) && M.Numbered(t) && t.issued == s.issued + 1
    ensures t.nextId == NextId(s.nextId)
  {
  }

  /** The record added is a wide one, so where no acknowledgement was wasted an exact one has gone. */
  lemma RoundCounts(e: Engine, t: Engine, u: Engine, k: Tag)
    requires t.session == e.session && Closer(t, u, k) && u.session.lost == t.session.lost
    requires u.call.NoCall? && u.session.app.AppIdle?
    requires Before(e.session, k) + Tally(e.session.ackQueue, Wide(k))
          == e.session.lost[k.Key()] + e.session.unmatched[k.Key()]
    requires Before(u.session, k) + Tally(u.session.ackQueue, Wide(k))
          == u.session.lost[k.Key()] + u.session.unmatched[k.Key()]
    ensures Before(u.session, k) <= Before(e.session, k)
    ensures Brings(t, Wide(k)) ==> Before(u.session, k) == 0 || Before(u.session, k) < Before(e.session, k)
  {
    assert !Brings(u, Wide(k));
  }

  lemma Round(e: Engine, qos: Qos, count: nat, size: nat, c: nat, k: Tag) returns (steps: seq<Step>)
    requires Rest(e, count, size) && Watched(e.session, c, k) && k.Valid() && 1 <= qos <= 2
    requires qos == OwnQos(k) ==> e.session.nextId != k.id
    ensures Legal(e, steps)
    ensures var u := Run(e, steps);
            Rest(u, count, size) && Watched(u.session, c, k) && RoundDone(e, u, qos, k)
  {
    var ask := Ask(Small(qos));
    AskFree(e, qos, count, size, k);
    var t := Do(e, ask);
    var rest := Settle(t, count, size, c, k);
    RoundLaw(e, t, Run(t, rest), qos, k);
    Prepend(e, ask, rest);
    steps := [ask] + rest;
  }

  /** The next id has the low byte in question and does not fit a byte. */
  predicate IsWide(id: uint16, k: Tag) {
    id >= 256 && S.Wire(id) == k.id
  }

  /** How many ids come before the next wide one. */
  function Distance(id: uint16, k: Tag): nat
    requires k.Valid()
  {
    if id < 256 then 256 + k.id - id
    else if id % 256 <= k.id then k.id - id % 256
    else if id < 65280 then 256 + k.id - id % 256
    else 65536 - id + 256 + k.id
  }

  lemma DistanceShrinks(id: uint16, k: Tag)
    requires k.Valid()
    ensures Distance(id, k) == 0 <==> IsWide(id, k)
    ensures !IsWide(id, k) ==> Distance(NextId(id), k) + 1 == Distance(id, k)
  {
  }

  /** Publishes at the other QoS bring the counter to a wide id. */
  lemma {:induction false} Advance(e: Engine, count: nat, size: nat, c: nat, k: Tag) returns (steps: seq<Step>)
    requires Rest(e, count, size) && Watched(e.session, c, k) && k.Valid()
    ensures Legal(e, steps)
    ensures var u := Run(e, steps);
            && Rest(u, count, size) && Watched(u.session, c, k) && IsWide(u.session.nextId, k)
            && Before(u.session, k) <= Before(e.session, k)
    decreases Distance(e.session.nextId, k)
  {
    DistanceShrinks(e.session.nextId, k);
    if IsWide(e.session.nextId, k) {
      steps := [];
    } else {
      var first := Round(e, OtherQos(k), count, size, c, k);
      steps := Advance(Run(e, first), count, size, c, k);
      Concat(e, first, steps);
      steps := first + steps;
    }
  }

  /** Then a publish at the same QoS takes one of the records away, until none is left. */
  lemma {:induction false} Exhaust(e: Engine, count: nat, size: nat, c: nat, k: Tag) returns (steps: seq<Step>)
    requires Rest(e, count, size) && Watched(e.session, c, k) && k.Valid()
    ensures Legal(e, steps)
    ensures var u := Run(e, steps);
            Rest(u, count, size) && Watched(u.session, c, k) && Before(u.session, k) == 0
    decreases Before(e.session, k)
  {
    if Before(e.session, k) == 0 {
      steps := [];
    } else {
      var wait := Advance(e, count, size, c, k);
      var t := Run(e, wait);
      var round := Round(t, OwnQos(k), count, size, c, k);
      var u := Run(t, round);
      steps := Exhaust(u, count, size, c, k);
      Concat(t, round, steps);
      Concat(e, wait, round + steps);
      steps := wait + (round + steps);
    }
  }

  // ----- the request has been called back

  /** At rest a record is left only where an acknowledgement was lost with a slot, or wasted. */
  lemma RecordLeft(s: S.State, w: Waiting)
    requires Known(s) && D.Quiescent(s) && w in s.ackQueue
    ensures S.KeyOf(w) in s.lost || S.KeyOf(w) in s.unmatched
    ensures w.messageType != PUBCOMP
  {
    var k := S.KeyOf(w);
    var i :| 0 <= i < |s.ackQueue| && s.ackQueue[i] == w;
    TallyMember(s.ackQueue, i, S.WaitsFor(k));
    assert B.Settled(s, k);
  }

  lemma GoneIsCalledBack(s: S.State, c: nat, k: Tag)
    requires Known(s) && D.Quiescent(s) && Watched(s, c, k) && k.Valid() && Before(s, k) == 0
    ensures CalledBack(s, c)
  {
    assert L.LifeOk(s, c);
    if !L.Finished(s.lives[c]) {
      var i := TallyWitness(s.ackQueue, L.RequestOf(c));
      var w := s.ackQueue[i];
      assert L.RecordOk(s, w);
      RecordLeft(s, w);
      TallyMember(s.ackQueue, i, Exact(k));
      assert false;
    }
    assert s.lives[c][|s.lives[c]| - 1] in s.lives[c];
  }

  // ----- the theorem

  /** The application is about to register a publish that asks for an acknowledgement. */
  predicate Registering(s: S.State) {
    s.app.AppRegistering? && s.app.record.messageType != PINGRESP
  }

  /** A publish with an acknowledgement takes six bytes at least. */
  function Roomy(): Reading {
    (block: seq<byte>, packet: S.Packet) => packet.Publish? && packet.qos >= 1 ==> |block| >= 6
  }

  lemma FramesAreRoomy()
    ensures Faithful(Roomy())
  {
    forall p | R.Encodable(p) ensures Roomy()(R.Encode(p), S.AsRead(p)) {
      if p.Publish? && p.qos >= 1 {
        var a := PublishArgs(p.topic, p.packetId, p.qos, p.retain, Some(p.msg));
        assert |PublishBody(a)| >= 4;
      }
    }
  }

  lemma InitSized(count: nat, size: nat)
    ensures AllSized(Init(count, size).pool.slots, count, size)
  {
  }

  /** Where a publish is about to be registered there are slots, and they are large enough for another one. */
  lemma SlotsAreRoomy(count: nat, size: nat, begin: seq<Step>)
    requires Legal(Init(count, size), begin) && Registering(Run(Init(count, size), begin).session)
    ensures AllSized(Run(Init(count, size), begin).pool.slots, count, size) && count > 0 && size >= 6
  {
    FramesAreRoomy();
    InitSized(count, size);
    SizesAlong(Init(count, size), begin, count, size);
    InitCoupled(count, size, Roomy());
    CoupledRun(Init(count, size), begin, Roomy());
    Reached(count, size, begin);
    RoomySlot(Run(Init(count, size), begin));
  }

  lemma RoomySlot(e: Engine)
    requires Coupled(e, Roomy()) && Known(e.session) && Registering(e.session)
    ensures e.pool.app.slot < |e.pool.slots| && |e.pool.slots[e.pool.app.slot].buffer| >= 6
  {
    AsksForAnswer(e.session);
    HeldIsRoomy(e);
  }

  lemma AsksForAnswer(s: S.State)
    requires Known(s) && Registering(s)
    ensures s.app.packet.Publish? && s.app.packet.qos >= 1
  {
    assert B.Settled(s, (PUBACK, 0));
  }

  lemma HeldIsRoomy(e: Engine)
    requires CallAgrees(e) && HeldReads(e, Roomy()) && e.session.app.AppRegistering?
    requires e.session.app.packet.Publish? && e.session.app.packet.qos >= 1
    ensures e.pool.app.slot < |e.pool.slots| && |e.pool.slots[e.pool.app.slot].buffer| >= 6
  {
    assert Roomy()(e.pool.slots[e.pool.app.slot].buffer[..e.call.len], e.session.app.packet);
  }

  lemma KnownRegister(s: S.State)
    requires Known(s) && s.app.AppRegistering?
    ensures Known(S.Register(s))
    ensures S.Register(s).lives == s.lives + [[S.Registered(s.app.record.messageType, s.app.record.packetId)]]
  {
    R.OneStep(s, S.AppEnqueueWaiting);
    KnownRun(s, [S.AppEnqueueWaiting]);
  }

  lemma RegisterDoes(e: Engine)
    requires Sound(e) && Known(e.session) && e.session.app.AppRegistering?
    ensures Enabled(e, Register) && Do(e, Register) == e.(session := S.Register(e.session))
    ensures Sound(Do(e, Register)) && Known(S.Register(e.session)) && e.call.Holding? && !Stuck(e)
  {
    assert Enabled(e, Register);
    CallSteps(e);
    SoundStep(e, Register);
    KnownRegister(e.session);
  }

  lemma RegisteredFree(e: Engine, t: Engine, count: nat, size: nat, k: Tag)
    requires Sound(t) && Known(t.session) && D.Running(e.session) && Registering(e.session)
    requires t == e.(session := S.Register(e.session)) && e.call.Holding? && !Stuck(e)
    requires AllSized(e.pool.slots, count, size) && count > 0 && size >= 6
    ensures Free(t, count, size, k)
  {
  }

  lemma RegisteredWatched(s: S.State)
    requires Known(s) && Registering(s) && s.nextId < 256
    ensures var k := Tag(s.app.record.messageType, s.nextId);
            k.Valid() && Watched(S.Register(s), |s.lives|, k)
  {
    KnownRegister(s);
  }

  lemma SmallIdCalledBack(e: Engine, count: nat, size: nat)
    requires Sound(e) && Known(e.session) && D.Running(e.session) && Registering(e.session) && e.session.nextId < 256
    requires AllSized(e.pool.slots, count, size) && count > 0 && size >= 6
    ensures Enabled(e, Register) && CanBeCalledBack(Do(e, Register), |e.session.lives|)
  {
    var c, k := |e.session.lives|, Tag(e.session.app.record.messageType, e.session.nextId);
    RegisterDoes(e);
    RegisteredWatched(e.session);
    RegisteredFree(e, Do(e, Register), count, size, k);
    FreeCalledBack(Do(e, Register), count, size, c, k);
  }

  lemma FreeCalledBack(e: Engine, count: nat, size: nat, c: nat, k: Tag)
    requires Free(e, count, size, k) && k.Valid() && Watched(e.session, c, k)
    ensures CanBeCalledBack(e, c)
  {
    var first := Settle(e, count, size, c, k);
    var rest := Exhaust(Run(e, first), count, size, c, k);
    Concat(e, first, rest);
    GoneIsCalledBack(Run(Run(e, first), rest).session, c, k);
    assert CalledBack(Run(e, first + rest).session, c);
  }

  /** What is registered under a larger id stays registered, and nothing else happens to it. */
  lemma LargeIdNeverCalledBack(e: Engine, steps: seq<Step>)
    requires Sound(e) && Known(e.session) && Registering(e.session) && e.session.nextId >= 256
    requires Enabled(e, Register) && Legal(Do(e, Register), steps)
    ensures !CalledBack(Run(Do(e, Register), steps).session, |e.session.lives|)
  {
    RegisterDoes(e);
    var t, w := Do(e, Register), e.session.app.record;
    SessionRuns(t, steps);
    KnownAlong(t, steps);
    M.RegisterQueues(e.session);
    M.NeverAnswered(t.session, w, SessionSteps(t, steps));
    M.WaitingLife(Run(t, steps).session, w);
  }

  lemma CalledBackFrom(e: Engine, count: nat, size: nat)
    requires Sound(e) && Known(e.session) && D.Running(e.session) && Registering(e.session) && Enabled(e, Register)
    requires AllSized(e.pool.slots, count, size) && count > 0 && size >= 6
    ensures CanBeCalledBack(Do(e, Register), |e.session.lives|) <==> e.session.nextId < 256
  {
    if e.session.nextId < 256 {
      SmallIdCalledBack(e, count, size);
    } else {
      forall steps | Legal(Do(e, Register), steps)
        ensures !CalledBack(Run(Do(e, Register), steps).session, |e.session.lives|)
      {
        LargeIdNeverCalledBack(e, steps);
      }
    }
  }

  /**
   * In every run, no disconnect being under way: a publish that is about to be registered can still be called
   * back, in some continuation, exactly if its id fits one byte.
   */
  lemma CalledBackExactly(count: nat, size: nat, begin: seq<Step>)
    requires Legal(Init(count, size), begin) && D.Running(Run(Init(count, size), begin).session)
    requires Registering(Run(Init(count, size), begin).session)
    ensures var e := Run(Init(count, size), begin);
            && Enabled(e, Register)
            && (CanBeCalledBack(Do(e, Register), |e.session.lives|) <==> e.session.nextId < 256)
  {
    Reached(count, size, begin);
    SlotsAreRoomy(count, size, begin);
    RegisterDoes(Run(Init(count, size), begin));
    CalledBackFrom(Run(Init(count, size), begin), count, size);
  }
}
