/** When an acknowledgement finds its record: the eight bits that survive the wire decide. */
module Matching {
  import opened Bytes
  import opened Frames
  import opened AckQueue
  import opened Tallies
  import opened Session
  import opened Balance
  import L = Lives

  /** The ids handed out so far fit one byte. */
  predicate FewIssued(s: State) {
    s.issued <= 255
  }

  ghost predicate SmallIds(s: State) {
    && (forall i :: 0 <= i < |s.ackQueue| ==> s.ackQueue[i].packetId < 256)
    && (s.worker.Releasing? || s.worker.Requeueing? ==> s.worker.record.packetId < 256)
    && s.unmatched == multiset{}
  }

  ghost predicate Numbered(s: State) {
    && s.nextId == (1 + s.issued) % 65536
    && (s.app.AppRegistering? ==>
          && s.app.record.context == |s.lives|
          && s.app.record.messageType in {PUBACK, PUBREC, PINGRESP}
          && (s.app.record.messageType != PINGRESP ==> s.app.record.packetId == s.nextId)
          && (s.app.record.messageType == PINGRESP ==> s.app.record.packetId == 0))
    && (s.worker.Handling? ==> AsRead(s.worker.packet) == s.worker.packet)
  }

  lemma NumberedStep(s: State, step: Step)
    requires Numbered(s) && Enabled(s, step)
    ensures Numbered(Do(s, step))
  {
    match step
    case AppEnqueueWaiting => RegisterNumbers(s);
    case WorkerReceive(arrived) => if arrived { ReadingKeepsKeys(s.down[0]); }
    case WorkerLookup =>
    case WorkerInbound(_) =>
    case _ =>
  }

  lemma RegisterNumbers(s: State)
    requires Numbered(s) && s.app.AppRegistering?
    ensures Numbered(Register(s))
  {
  }

  /** An acknowledgement in the worker's hands is waited for by a record of the ack queue. */
  lemma SomeRecordWaits(s: State) returns (i: nat)
    requires s.worker.Handling? && IsAck(s.worker.packet) && AsRead(s.worker.packet) == s.worker.packet
    requires Balanced(s, (AckKey(s.worker.packet).0, AckKey(s.worker.packet).1))
    ensures i < |s.ackQueue| && KeyOf(s.ackQueue[i]) == (AckKey(s.worker.packet).0, AckKey(s.worker.packet).1)
  {
    var key := (AckKey(s.worker.packet).0, AckKey(s.worker.packet).1);
    assert Brings(key)(s.worker.packet);
    i := TallyWitness(s.ackQueue, WaitsFor(key));
  }

  lemma KeyAnswers(w: Waiting, p: Packet)
    requires IsAck(p) && AsRead(p) == p && KeyOf(w) == (AckKey(p).0, AckKey(p).1) && w.packetId < 256
    ensures Answers(w, AckKey(p).0, AckKey(p).1)
  {
  }

  /** With small ids under its type the lookup succeeds, in both directions of the protocol. */
  lemma LookupSucceeds(s: State)
    requires s.worker.Handling? && IsAck(s.worker.packet) && AsRead(s.worker.packet) == s.worker.packet
    requires Balanced(s, (AckKey(s.worker.packet).0, AckKey(s.worker.packet).1))
    requires forall i :: 0 <= i < |s.ackQueue| && s.ackQueue[i].messageType == AckKey(s.worker.packet).0 ==>
               s.ackQueue[i].packetId < 256
    ensures Lookup(s.ackQueue, AckKey(s.worker.packet).0, AckKey(s.worker.packet).1).FoundAt?
  {
    var p := s.worker.packet;
    var i := SomeRecordWaits(s);
    KeyAnswers(s.ackQueue[i], p);
    var r := Lookup(s.ackQueue, AckKey(p).0, AckKey(p).1);
    assert Stops(s.ackQueue[i], AckKey(p).0, AckKey(p).1);
    assert AckKey(p).0 != SUBACK;
  }

  /** Records of these types carry an id that has come over the wire, or none. */
  predicate FromWire(messageType: nat) {
    messageType in {PUBREL, PUBCOMP, PINGRESP}
  }

  /** Whatever ids have been used, acknowledgements of these types never go unmatched. */
  ghost predicate WireIds(s: State) {
    && (forall i :: 0 <= i < |s.ackQueue| && FromWire(s.ackQueue[i].messageType) ==> s.ackQueue[i].packetId < 256)
    && (s.worker.Releasing? || s.worker.Requeueing? ==> s.worker.record.packetId < 256)
    && (forall k :: k in s.unmatched ==> !FromWire(k.0))
  }

  lemma WireLookup(s: State)
    requires Numbered(s) && WireIds(s) && Enabled(s, WorkerLookup)
    requires Settled(s, (AckKey(s.worker.packet).0, AckKey(s.worker.packet).1))
    ensures WireIds(LookUp(s))
  {
    var key, t := AckKey(s.worker.packet), LookUp(s);
    var r := Lookup(s.ackQueue, key.0, key.1);
    if FromWire(key.0) { LookupSucceeds(s); }
    if r.FoundAt? {
      assert t.ackQueue == Without(s.ackQueue, r.index) && t.unmatched == s.unmatched;
      WireWithout(s.ackQueue, r.index);
      assert t.worker.Releasing? ==> t.worker.record.packetId == key.1 < 256;
    } else {
      assert t.ackQueue == s.ackQueue && t.unmatched == s.unmatched + multiset{(key.0, key.1)};
    }
  }

  lemma WireWithout(q: seq<Waiting>, k: nat)
    requires k < |q| && forall i :: 0 <= i < |q| && FromWire(q[i].messageType) ==> q[i].packetId < 256
    ensures forall i :: 0 <= i < |q| - 1 && FromWire(Without(q, k)[i].messageType) ==> Without(q, k)[i].packetId < 256
  {
  }

  lemma WireRegister(s: State)
    requires Numbered(s) && WireIds(s) && s.app.AppRegistering?
    ensures WireIds(Register(s))
  {
    var t := Register(s);
    assert t.ackQueue == s.ackQueue + [s.app.record] && t.unmatched == s.unmatched && t.worker == s.worker;
  }

  lemma WireStep(s: State, step: Step)
    requires Numbered(s) && WireIds(s) && (forall k :: Settled(s, k)) && Enabled(s, step)
    ensures WireIds(Do(s, step))
  {
    match step
    case AppEnqueueWaiting => WireRegister(s);
    case WorkerLookup =>
      assert Settled(s, (AckKey(s.worker.packet).0, AckKey(s.worker.packet).1));
      WireLookup(s);
    case WorkerInbound(_) => assert s.worker.packet.Publish? ==> s.worker.packet.packetId < 256;
    case WorkerRequeue =>
    case _ =>
  }

  ghost predicate Matchable(s: State) {
    && Numbered(s)
    && (forall k :: Settled(s, k))
    && WireIds(s)
    && (FewIssued(s) ==> SmallIds(s))
  }

  lemma SmallWithout(q: seq<Waiting>, k: nat)
    requires k < |q| && forall i :: 0 <= i < |q| ==> q[i].packetId < 256
    ensures forall i :: 0 <= i < |q| - 1 ==> Without(q, k)[i].packetId < 256
  {
  }

  lemma SmallLookup(s: State)
    requires SmallIds(s) && Enabled(s, WorkerLookup)
    requires Lookup(s.ackQueue, AckKey(s.worker.packet).0, AckKey(s.worker.packet).1).FoundAt?
    ensures SmallIds(Do(s, WorkerLookup))
  {
    var t := Do(s, WorkerLookup);
    var r := Lookup(s.ackQueue, AckKey(s.worker.packet).0, AckKey(s.worker.packet).1);
    SmallWithout(s.ackQueue, r.index);
    assert t.ackQueue == Without(s.ackQueue, r.index) && t.unmatched == s.unmatched;
    assert t.worker.Releasing? ==> t.worker.record == s.ackQueue[r.index];
  }

  lemma SmallStep(s: State, step: Step)
    requires Matchable(s) && SmallIds(s) && Enabled(s, step) && FewIssued(Do(s, step))
    ensures SmallIds(Do(s, step))
  {
    match step
    case AppEnqueueWaiting => SmallRegister(s);
    case WorkerLookup =>
      assert Settled(s, (AckKey(s.worker.packet).0, AckKey(s.worker.packet).1));
      LookupSucceeds(s);
      SmallLookup(s);
    case WorkerInbound(_) => assert s.worker.packet.Publish? ==> s.worker.packet.packetId < 256;
    case WorkerRequeue =>
    case _ =>
  }

  lemma SmallRegister(s: State)
    requires Numbered(s) && SmallIds(s) && s.app.AppRegistering? && FewIssued(Register(s))
    ensures SmallIds(Register(s))
  {
    var t := Register(s);
    assert t.ackQueue == s.ackQueue + [s.app.record] && t.unmatched == s.unmatched && t.worker == s.worker;
    assert s.app.record.packetId < 256;
  }

  lemma IssuedGrows(s: State, step: Step)
    requires Enabled(s, step)
    ensures s.issued <= Do(s, step).issued
  {
  }

  lemma MatchableStep(s: State, step: Step)
    requires Matchable(s) && Enabled(s, step)
    ensures Matchable(Do(s, step))
  {
    var t := Do(s, step);
    NumberedStep(s, step);
    IssuedGrows(s, step);
    WireStep(s, step);
    if FewIssued(t) { SmallStep(s, step); }
    forall k ensures Settled(t, k) {
      SettledStep(s, step, k);
    }
  }

  lemma {:induction false} MatchableRun(s: State, steps: seq<Step>)
    requires Matchable(s) && Legal(s, steps)
    ensures Matchable(Run(s, steps))
    decreases |steps|
  {
    if steps != [] {
      MatchableStep(s, steps[0]);
      MatchableRun(Do(s, steps[0]), steps[1..]);
    }
  }

  lemma InitMatchable()
    ensures Matchable(Init())
  {
    forall k ensures Settled(Init(), k) {
    }
  }

  /**
   * In every run, whatever the threads, the broker and the network did: PUBREL, PUBCOMP and PINGRESP find their
   * record and none of them ever went unmatched; up to the 255th acknowledged publish so do PUBACK and PUBREC.
   */
  lemma EveryAckFindsItsRecord(steps: seq<Step>)
    requires Legal(Init(), steps)
    ensures var s := Run(Init(), steps);
            && (forall k :: k in s.unmatched ==> !FromWire(k.0) && !FewIssued(s))
            && (s.worker.Handling? && IsAck(s.worker.packet)
                && (FromWire(AckKey(s.worker.packet).0) || FewIssued(s)) ==>
                  Lookup(s.ackQueue, AckKey(s.worker.packet).0, AckKey(s.worker.packet).1).FoundAt?)
  {
    InitMatchable();
    MatchableRun(Init(), steps);
    var s := Run(Init(), steps);
    if s.worker.Handling? && IsAck(s.worker.packet) && (FromWire(AckKey(s.worker.packet).0) || FewIssued(s)) {
      assert Settled(s, (AckKey(s.worker.packet).0, AckKey(s.worker.packet).1));
      LookupSucceeds(s);
    }
  }

  // ----- the 256th publish and those after it

  /** A request whose id does not fit one byte. */
  predicate Unreachable(w: Waiting) {
    w.messageType in {PUBACK, PUBREC} && w.packetId >= 256
  }

  lemma UnreachableStep(s: State, step: Step, w: Waiting)
    requires Enabled(s, step) && Unreachable(w) && w in s.ackQueue
    requires s.worker.Handling? ==> AsRead(s.worker.packet) == s.worker.packet
    ensures w in Do(s, step).ackQueue
    ensures var t := Do(s, step); t.worker.Handling? ==> AsRead(t.worker.packet) == t.worker.packet
  {
    match step
    case WorkerLookup => UnreachableLookup(s, w);
    case WorkerReceive(arrived) => if arrived { ReadingKeepsKeys(s.down[0]); }
    case _ =>
  }

  lemma UnreachableLookup(s: State, w: Waiting)
    requires Enabled(s, WorkerLookup) && Unreachable(w) && w in s.ackQueue
    requires AsRead(s.worker.packet) == s.worker.packet
    ensures w in LookUp(s).ackQueue && !LookUp(s).worker.Handling?
  {
    var key := AckKey(s.worker.packet);
    assert key.1 < 256;
    var r := Lookup(s.ackQueue, key.0, key.1);
    if r.FoundAt? {
      var i :| 0 <= i < |s.ackQueue| && s.ackQueue[i] == w;
      assert i != r.index;
      assert w in s.ackQueue[..r.index] + s.ackQueue[r.index + 1..];
    }
  }

  /** Its record stays in the ack queue in every continuation. */
  lemma {:induction false} NeverAnswered(s: State, w: Waiting, steps: seq<Step>)
    requires Unreachable(w) && w in s.ackQueue && Legal(s, steps)
    requires s.worker.Handling? ==> AsRead(s.worker.packet) == s.worker.packet
    ensures w in Run(s, steps).ackQueue
    decreases |steps|
  {
    if steps != [] {
      UnreachableStep(s, steps[0], w);
      NeverAnswered(Do(s, steps[0]), w, steps[1..]);
    }
  }

  /** A record in the ack queue tells what has happened to its request. */
  lemma WaitingLife(s: State, w: Waiting)
    requires L.Told(s) && w in s.ackQueue && Unreachable(w)
    ensures w.context < |s.lives| && s.lives[w.context] == [Registered(w.messageType, w.packetId)]
  {
    var i :| 0 <= i < |s.ackQueue| && s.ackQueue[i] == w;
    assert L.RecordOk(s, s.ackQueue[i]);
  }

  /**
   * A publish that takes an id from 256 to 65535 is registered in vain: in every continuation its record waits
   * and nothing has happened to it since, so it is never called back.
   */
  lemma PublishPast255(begin: seq<Step>, steps: seq<Step>)
    requires Legal(Init(), begin) && Run(Init(), begin).app.AppRegistering?
    requires var s := Run(Init(), begin);
             s.app.record.messageType != PINGRESP && s.nextId >= 256 && Legal(Register(s), steps)
    ensures var s := Run(Init(), begin);
            var t, c := Run(Register(s), steps), |s.lives|;
            && s.app.record in t.ackQueue
            && c < |t.lives| && t.lives[c] == [Registered(s.app.record.messageType, s.nextId)]
  {
    var s := Run(Init(), begin);
    InitMatchable();
    MatchableRun(Init(), begin);
    L.InitTold();
    L.ToldRun(Init(), begin);
    L.RegisterStep(s);
    L.ToldRun(Register(s), steps);
    RegisterQueues(s);
    NeverAnswered(Register(s), s.app.record, steps);
    WaitingLife(Run(Register(s), steps), s.app.record);
  }

  lemma RegisterQueues(s: State)
    requires s.app.AppRegistering?
    ensures s.app.record in Register(s).ackQueue && Register(s).worker == s.worker
  {
    assert Register(s).ackQueue == s.ackQueue + [s.app.record];
    assert (s.ackQueue + [s.app.record])[|s.ackQueue|] == s.app.record;
  }

  /** Once 256 ids have been used, some record waits for good. */
  ghost predicate Burdened(s: State) {
    s.issued >= 256 ==> exists w :: w in s.ackQueue && Unreachable(w)
  }

  lemma BurdenedStep(s: State, step: Step)
    requires Numbered(s) && Burdened(s) && Enabled(s, step)
    ensures Burdened(Do(s, step))
  {
    if s.issued >= 256 {
      var w :| w in s.ackQueue && Unreachable(w);
      UnreachableStep(s, step, w);
    } else if step.AppEnqueueWaiting? {
      RegisterQueues(s);
      assert s.issued == 255 && s.app.record.messageType != PINGRESP ==> Unreachable(s.app.record);
    }
  }

  lemma {:induction false} BurdenedRun(s: State, steps: seq<Step>)
    requires Numbered(s) && Burdened(s) && Legal(s, steps)
    ensures Burdened(Run(s, steps))
    decreases |steps|
  {
    if steps != [] {
      NumberedStep(s, steps[0]);
      BurdenedStep(s, steps[0]);
      BurdenedRun(Do(s, steps[0]), steps[1..]);
    }
  }
}
