/** One id, one record, one acknowledgement on its way. */
module Identity {
  import opened Bytes
  import opened Frames
  import opened AckQueue
  import opened Tallies
  import opened Session
  import opened Balance
  import opened Matching

  predicate IsPublishRecord(w: Waiting) {
    w.messageType == PUBACK || w.messageType == PUBREC || w.messageType == PUBCOMP
  }

  /** A record of an outgoing publish with this id. */
  function HasId(id: nat): Waiting -> bool {
    (w: Waiting) => IsPublishRecord(w) && w.packetId == id
  }

  function InHand(s: State, id: nat): nat {
    One((s.worker.Releasing? || s.worker.Requeueing?) && HasId(id)(s.worker.record))
  }

  /** Until the counter wraps, an id that has been handed out is held at most once, any other id not at all. */
  ghost predicate HeldOnce(s: State, id: nat) {
    s.issued <= 65535 ==> Tally(s.ackQueue, HasId(id)) + InHand(s, id) <= One(1 <= id <= s.issued)
  }

  ghost predicate Identified(s: State) {
    && Numbered(s)
    && (s.worker.Releasing? ==> s.worker.record.messageType == PUBREC)
    && forall id :: HeldOnce(s, id)
  }

  lemma RegisterKeeps(s: State, id: nat)
    requires Numbered(s) && HeldOnce(s, id) && s.app.AppRegistering?
    ensures HeldOnce(Register(s), id)
  {
    var w, t := s.app.record, Register(s);
    TallyAppend(s.ackQueue, w, HasId(id));
    assert t.ackQueue == s.ackQueue + [w] && t.worker == s.worker;
    assert t.issued == if w.messageType == PINGRESP then s.issued else s.issued + 1;
  }

  lemma LookupKeeps(s: State, id: nat)
    requires HeldOnce(s, id) && Enabled(s, WorkerLookup)
    ensures HeldOnce(LookUp(s), id)
    ensures LookUp(s).worker.Releasing? ==> LookUp(s).worker.record.messageType == PUBREC
  {
    var key, t := AckKey(s.worker.packet), LookUp(s);
    var r := Lookup(s.ackQueue, key.0, key.1);
    assert t.issued == s.issued;
    if r.FoundAt? {
      TallyWithout(s.ackQueue, r.index, HasId(id));
      assert t.ackQueue == Without(s.ackQueue, r.index);
    }
  }

  lemma OtherKeeps(s: State, step: Step, id: nat)
    requires HeldOnce(s, id) && Enabled(s, step) && !step.AppEnqueueWaiting? && !step.WorkerLookup?
    requires s.worker.Releasing? ==> s.worker.record.messageType == PUBREC
    ensures HeldOnce(Do(s, step), id)
    ensures Do(s, step).worker.Releasing? ==> Do(s, step).worker.record.messageType == PUBREC
  {
    if step.WorkerRequeue? {
      TallyAppend(s.ackQueue, s.worker.record, HasId(id));
    }
  }

  lemma IdentifiedStep(s: State, step: Step)
    requires Identified(s) && Enabled(s, step)
    ensures Identified(Do(s, step))
  {
    NumberedStep(s, step);
    forall id ensures HeldOnce(Do(s, step), id) {
      assert HeldOnce(s, id);
      if step.AppEnqueueWaiting? {
        RegisterKeeps(s, id);
      } else if step.WorkerLookup? {
        LookupKeeps(s, id);
      } else {
        OtherKeeps(s, step, id);
      }
    }
    if step.WorkerLookup? {
      LookupKeeps(s, 0);
    } else if !step.AppEnqueueWaiting? {
      OtherKeeps(s, step, 0);
    }
  }

  lemma {:induction false} IdentifiedRun(s: State, steps: seq<Step>)
    requires Identified(s) && Legal(s, steps)
    ensures Identified(Run(s, steps))
    decreases |steps|
  {
    if steps != [] {
      IdentifiedStep(s, steps[0]);
      IdentifiedRun(Do(s, steps[0]), steps[1..]);
    }
  }

  /** Until the 16-bit counter wraps, no two records of outgoing publishes carry the same id. */
  lemma IdsAreUnique(steps: seq<Step>, id: nat)
    requires Legal(Init(), steps) && Run(Init(), steps).issued <= 65535
    ensures var s := Run(Init(), steps); Tally(s.ackQueue, HasId(id)) + InHand(s, id) <= 1
  {
    IdentifiedRun(Init(), steps);
    assert HeldOnce(Run(Init(), steps), id);
  }

  /** Acknowledgements with this id that outgoing publishes wait for, of all three types. */
  function PublishAcksExpected(s: State, id: uint16): nat {
    Expected(s, (PUBACK, id)) + Expected(s, (PUBREC, id)) + Expected(s, (PUBCOMP, id))
  }

  function PublishAcksTravelling(s: State, id: uint16): nat {
    Travelling(s, (PUBACK, id)) + Travelling(s, (PUBREC, id)) + Travelling(s, (PUBCOMP, id))
  }

  lemma {:induction false} KeysAreIds(q: seq<Waiting>, id: uint16)
    requires id < 256 && forall i :: 0 <= i < |q| ==> q[i].packetId < 256
    ensures Tally(q, WaitsFor((PUBACK, id))) + Tally(q, WaitsFor((PUBREC, id))) + Tally(q, WaitsFor((PUBCOMP, id)))
         == Tally(q, HasId(id))
  {
    if q != [] {
      KeysAreIds(q[1..], id);
    }
  }

  lemma WaitedFor(s: State, k: Key)
    requires Matchable(s)
    ensures Expected(s, k) >= Travelling(s, k)
  {
    assert Settled(s, k);
  }

  lemma OneExpected(s: State, id: uint16)
    requires Identified(s) && SmallIds(s) && s.issued <= 255 && id < 256
    ensures PublishAcksExpected(s, id) <= 1
  {
    assert HeldOnce(s, id);
    KeysAreIds(s.ackQueue, id);
  }

  /**
   * While ids fit their byte: for every id at most one acknowledgement of an outgoing publish is on its way
   * anywhere, and if one is, the only record with that id waits for exactly its type.
   */
  lemma OneAckPerId(steps: seq<Step>, id: uint16, messageType: nat)
    requires Legal(Init(), steps) && FewIssued(Run(Init(), steps)) && id < 256
    ensures var s := Run(Init(), steps);
            && PublishAcksTravelling(s, id) <= PublishAcksExpected(s, id) <= 1
            && Travelling(s, (messageType, id)) <= Expected(s, (messageType, id))
  {
    var s := Run(Init(), steps);
    InitMatchable();
    MatchableRun(Init(), steps);
    IdentifiedRun(Init(), steps);
    OneExpected(s, id);
    WaitedFor(s, (PUBACK, id));
    WaitedFor(s, (PUBREC, id));
    WaitedFor(s, (PUBCOMP, id));
    WaitedFor(s, (messageType, id));
  }

  /**
   * While ids fit their byte: for every waiting record of an outgoing publish exactly one acknowledgement of its
   * type and id is on its way, unless the send that asked for it failed, and none of another type.
   */
  lemma OneAckForEachRecord(steps: seq<Step>, i: nat, messageType: nat)
    requires Legal(Init(), steps) && FewIssued(Run(Init(), steps)) && i < |Run(Init(), steps).ackQueue|
    requires IsPublishRecord(Run(Init(), steps).ackQueue[i]) && messageType in {PUBACK, PUBREC, PUBCOMP}
    ensures var s := Run(Init(), steps);
            var w := s.ackQueue[i];
            var k := (messageType, w.packetId as nat);
            Travelling(s, k) + s.lost[k] == One(messageType == w.messageType)
  {
    var s := Run(Init(), steps);
    var w := s.ackQueue[i];
    InitMatchable();
    MatchableRun(Init(), steps);
    IdentifiedRun(Init(), steps);
    OneExpected(s, w.packetId);
    ExpectedOnce(s, i, messageType);
    NoneUnmatched(s, (messageType, w.packetId as nat));
  }

  /** A waiting record is the only one with its id, so only its type is expected under that id. */
  lemma ExpectedOnce(s: State, i: nat, messageType: nat)
    requires i < |s.ackQueue| && IsPublishRecord(s.ackQueue[i]) && s.ackQueue[i].packetId < 256
    requires PublishAcksExpected(s, s.ackQueue[i].packetId) <= 1 && messageType in {PUBACK, PUBREC, PUBCOMP}
    ensures var w := s.ackQueue[i];
            Expected(s, (messageType, w.packetId as nat)) == One(messageType == w.messageType)
  {
    TallyMember(s.ackQueue, i, WaitsFor(KeyOf(s.ackQueue[i])));
  }

  lemma NoneUnmatched(s: State, k: Key)
    requires Matchable(s) && FewIssued(s)
    ensures Expected(s, k) == Travelling(s, k) + s.lost[k]
  {
    assert Settled(s, k);
  }
}
