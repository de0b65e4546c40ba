/** What becomes of the requests: exactly when all of them can be finished, and exactly when one can. */
module Outcomes {
  import opened Bytes
  import opened Frames
  import opened AckQueue
  import opened Tallies
  import opened Coupling
  import opened Completion
  import S = Session
  import L = Lives
  import B = Balance
  import M = Matching
  import I = Identity
  import C = Counts
  import D = Drain

  // ----- what holds in every run of the client because it holds in every run of the session

  /** What the application sends. */
  predicate AsksFor(p: S.Packet) {
    p.Publish? || p.Pingreq?
  }

  /** What goes through the slots are requests, so only their acknowledgements are lost with a slot. */
  ghost predicate OnlyRequests(s: S.State) {
    && (forall i :: 0 <= i < |s.sendQueue| ==> AsksFor(s.sendQueue[i]))
    && (s.worker.Sending? ==> AsksFor(s.worker.packet))
    && (!s.app.AppIdle? ==> AsksFor(s.app.packet))
    && (forall k :: k in s.lost ==> k.0 in {PUBACK, PUBREC, PINGRESP})
  }

  lemma AppOnlyRequests(s: S.State, step: S.Step)
    requires OnlyRequests(s) && S.Enabled(s, step)
    requires step.AppPublish? || step.AppPing? || step.AppEnqueueWaiting? || step.AppEnqueueSlot? || step.AppDisconnect?
    ensures OnlyRequests(S.Do(s, step))
  {
  }

  lemma SlotOnlyRequests(s: S.State, step: S.Step)
    requires OnlyRequests(s) && S.Enabled(s, step) && (step.WorkerTake? || step.WorkerSend?)
    ensures OnlyRequests(S.Do(s, step))
  {
  }

  lemma OtherOnlyRequests(s: S.State, step: S.Step)
    requires OnlyRequests(s) && S.Enabled(s, step) && (ByWorker(step) || ByBroker(step)) && !step.WorkerTake?
    ensures OnlyRequests(S.Do(s, step))
  {
    AloneLeaves(s, step);
    AloneLoses(s, step);
  }

  lemma AloneLoses(s: S.State, step: S.Step)
    requires S.Enabled(s, step) && (ByWorker(step) || ByBroker(step))
    ensures S.Do(s, step).lost == s.lost
    ensures S.Do(s, step).worker.Sending? && !step.WorkerTake? ==> S.Do(s, step).worker == s.worker
  {
    match step
    case WorkerLookup =>
    case WorkerInbound(_) =>
    case WorkerRelease(_) =>
    case WorkerComplete(_) =>
    case _ =>
  }

  lemma OnlyRequestsStep(s: S.State, step: S.Step)
    requires OnlyRequests(s) && S.Enabled(s, step)
    ensures OnlyRequests(S.Do(s, step))
  {
    if step.WorkerTake? || step.WorkerSend? {
      SlotOnlyRequests(s, step);
    } else if ByWorker(step) || ByBroker(step) {
      OtherOnlyRequests(s, step);
    } else {
      AppOnlyRequests(s, step);
    }
  }

  lemma {:induction false} OnlyRequestsRun(s: S.State, steps: seq<S.Step>)
    requires OnlyRequests(s) && S.Legal(s, steps)
    ensures OnlyRequests(S.Run(s, steps))
    decreases |steps|
  {
    if steps != [] {
      OnlyRequestsStep(s, steps[0]);
      OnlyRequestsRun(S.Do(s, steps[0]), steps[1..]);
    }
  }

  ghost predicate Known(s: S.State) {
    L.Told(s) && M.Matchable(s) && M.Burdened(s) && I.Identified(s) && OnlyRequests(s)
  }

  lemma KnownRun(s: S.State, steps: seq<S.Step>)
    requires Known(s) && S.Legal(s, steps)
    ensures Known(S.Run(s, steps))
  {
    L.ToldRun(s, steps);
    M.MatchableRun(s, steps);
    M.BurdenedRun(s, steps);
    I.IdentifiedRun(s, steps);
    OnlyRequestsRun(s, steps);
  }

  lemma KnownAlong(e: Engine, steps: seq<Step>)
    requires Known(e.session) && Legal(e, steps)
    ensures Known(Run(e, steps).session)
  {
    SessionRuns(e, steps);
    KnownRun(e.session, SessionSteps(e, steps));
  }

  lemma Reached(count: nat, size: nat, begin: seq<Step>)
    requires Legal(Init(count, size), begin)
    ensures Sound(Run(Init(count, size), begin)) && Known(Run(Init(count, size), begin).session)
  {
    ReachedSound(count, size, begin);
    InitKnown();
    KnownAlong(Init(count, size), begin);
  }

  lemma InitKnown()
    ensures Known(S.Init())
  {
    L.InitTold();
    M.InitMatchable();
  }

  // ----- ids used on the way to quiescence

  /** The call under way is going to use an id. */
  predicate Coming(e: Engine) {
    || (e.session.app.AppRegistering? && e.session.app.record.messageType != PINGRESP)
    || (e.call.Wanting? && e.call.request.PublishRequest? && e.call.request.qos > 0)
  }

  /** The ids used once the call under way has ended. */
  function Used(e: Engine): nat {
    e.session.issued + One(Coming(e))
  }

  lemma UsedStep(e: Engine, step: Step)
    requires CallAgrees(e) && Enabled(e, step) && Kind(step)
    ensures Used(Do(e, step)) == Used(e)
  {
    match step
    case Retry => CallSteps(e);
    case Fill => FillStep(e);
    case Register => CallSteps(e);
    case SetLength => CallSteps(e);
    case Submit => CallSteps(e);
    case Take => WorkerSteps(e);
    case Send(_) => WorkerSteps(e);
    case Recycle => WorkerSteps(e);
    case Alone(s) =>
      AloneStep(e, s);
      AloneLeaves(e.session, s);
  }

  lemma {:induction false} UsedAlong(e: Engine, steps: seq<Step>)
    requires Sound(e) && Legal(e, steps) && AllKind(steps)
    ensures Used(Run(e, steps)) == Used(e)
    decreases |steps|
  {
    if steps != [] {
      KindTail(steps);
      UsedStep(e, steps[0]);
      SoundStep(e, steps[0]);
      UsedAlong(Do(e, steps[0]), steps[1..]);
    }
  }

  // ----- what is lost stays lost

  lemma LostStep(s: S.State, step: S.Step, k: S.Key)
    requires S.Enabled(s, step)
    ensures s.lost[k] <= S.Do(s, step).lost[k]
  {
    match step
    case WorkerLookup =>
    case WorkerInbound(_) =>
    case WorkerRelease(_) =>
    case WorkerComplete(_) =>
    case _ =>
  }

  lemma {:induction false} LostRun(s: S.State, steps: seq<S.Step>, k: S.Key)
    requires S.Legal(s, steps)
    ensures s.lost[k] <= S.Run(s, steps).lost[k]
    decreases |steps|
  {
    if steps != [] {
      LostStep(s, steps[0], k);
      LostRun(S.Do(s, steps[0]), steps[1..], k);
    }
  }

  // ----- what is given up stays given up

  /** No request has been given up with its PUBREL and no message with its PUBCOMP. */
  ghost predicate NothingGivenUp(s: S.State) {
    && (forall c :: 0 <= c < |s.lives| ==> !C.EndsLost(s.lives[c]))
    && (forall c :: 0 <= c < |s.heard| ==> !C.LostAtLast()(s.heard[c]))
  }

  predicate GivesUp(step: S.Step) {
    step == S.WorkerRelease(false) || step == S.WorkerComplete(false)
  }

  lemma NewLife(s: S.State, step: S.Step, c: nat)
    requires S.Enabled(s, step) && |s.lives| <= c < |S.Do(s, step).lives|
    ensures !C.EndsLost(S.Do(s, step).lives[c])
  {
    match step
    case WorkerLookup =>
    case _ =>
  }

  lemma NewHearing(s: S.State, step: S.Step, c: nat)
    requires S.Enabled(s, step) && |s.heard| <= c < |S.Do(s, step).heard|
    ensures !C.LostAtLast()(S.Do(s, step).heard[c])
  {
    match step
    case WorkerInbound(_) =>
    case WorkerLookup =>
    case _ =>
  }

  lemma GivesNothingUp(s: S.State, step: S.Step)
    requires S.Enabled(s, step) && NothingGivenUp(s) && !GivesUp(step)
    ensures NothingGivenUp(S.Do(s, step))
  {
    var t := S.Do(s, step);
    forall c | 0 <= c < |t.lives| ensures !C.EndsLost(t.lives[c]) {
      if c < |s.lives| { C.LifeKept(s, step, c); } else { NewLife(s, step, c); }
    }
    forall c | 0 <= c < |t.heard| ensures !C.LostAtLast()(t.heard[c]) {
      if c < |s.heard| { C.HearingKept(s, step, c); } else { NewHearing(s, step, c); }
    }
  }

  lemma KindGivesNothingUp(e: Engine, step: Step)
    requires Enabled(e, step) && Kind(step) && NothingGivenUp(e.session)
    ensures NothingGivenUp(Do(e, step).session)
  {
    var s := SessionPart(e, step);
    if s.Some? { GivesNothingUp(e.session, s.value); }
  }

  lemma {:induction false} NothingGivenUpAlong(e: Engine, steps: seq<Step>)
    requires Legal(e, steps) && AllKind(steps) && NothingGivenUp(e.session)
    ensures NothingGivenUp(Run(e, steps).session)
    decreases |steps|
  {
    if steps != [] {
      KindTail(steps);
      KindGivesNothingUp(e, steps[0]);
      NothingGivenUpAlong(Do(e, steps[0]), steps[1..]);
    }
  }

  lemma LostLifeStays(life: seq<S.Event>, later: seq<S.Event>)
    requires L.LegalLife(later) && life <= later && C.EndsLost(life)
    ensures C.EndsLost(later)
  {
    assert later[|life| - 1] == life[|life| - 1];
  }

  lemma LostHearingStays(h: S.Heard, later: S.Heard)
    requires L.LegalHearing(later) && h.packet == later.packet && h.events <= later.events && C.LostAtLast()(h)
    ensures C.LostAtLast()(later)
  {
    assert later.events[|h.events| - 1] == h.events[|h.events| - 1];
  }

  // ----- when everything can be finished

  /**
   * No record waits, every request has been called back, and every QoS 2 message whose PUBREC went out has been
   * delivered.
   */
  ghost predicate Completed(s: S.State) {
    && s.ackQueue == []
    && (forall c :: 0 <= c < |s.lives| ==> C.EndsCalledBack(s.lives[c]))
    && (forall c :: 0 <= c < |s.heard| && C.Acked()(s.heard[c]) ==> C.DeliveredAtLast()(s.heard[c]))
  }

  ghost predicate Completable(e: Engine) {
    exists steps :: Legal(e, steps) && AllKind(steps) && Quiescent(Run(e, steps)) && Completed(Run(e, steps).session)
  }

  /** Nothing has failed for good, and as many ids as fit a byte are enough for the calls made. */
  ghost predicate Intact(e: Engine) {
    e.session.lost == multiset{} && NothingGivenUp(e.session) && Used(e) <= 255
  }

  /** An acknowledgement lost with a failed send leaves a record behind. */
  lemma LossRemains(s: S.State, k: S.Key)
    requires Known(s) && D.Quiescent(s) && s.lost[k] > 0
    ensures s.ackQueue != []
  {
    assert B.Settled(s, k);
  }

  lemma CompletedGaveNothingUp(e: Engine, steps: seq<Step>)
    requires Known(e.session) && Legal(e, steps) && Completed(Run(e, steps).session)
    ensures NothingGivenUp(e.session)
  {
    var s, t, along := e.session, Run(e, steps).session, SessionSteps(e, steps);
    KnownAlong(e, steps);
    SessionRuns(e, steps);
    forall c | 0 <= c < |s.lives| ensures !C.EndsLost(s.lives[c]) {
      C.LivesGrow(s, along, c);
      assert L.LifeOk(t, c);
      if C.EndsLost(s.lives[c]) { LostLifeStays(s.lives[c], t.lives[c]); }
    }
    forall c | 0 <= c < |s.heard| ensures !C.LostAtLast()(s.heard[c]) {
      C.HearingsGrow(s, along, c);
      assert L.HeardOk(t, c);
      if C.LostAtLast()(s.heard[c]) { LostHearingStays(s.heard[c], t.heard[c]); }
    }
  }

  lemma CompletedNeeds(e: Engine, steps: seq<Step>)
    requires Sound(e) && Known(e.session) && Legal(e, steps) && AllKind(steps)
    requires Quiescent(Run(e, steps)) && Completed(Run(e, steps).session)
    ensures Intact(e)
  {
    var t := Run(e, steps);
    KnownAlong(e, steps);
    UsedAlong(e, steps);
    SessionRuns(e, steps);
    CompletedGaveNothingUp(e, steps);
    if e.session.lost != multiset{} {
      var k :| k in e.session.lost;
      LostRun(e.session, SessionSteps(e, steps), k);
      LossRemains(t.session, k);
    }
  }

  /** At rest, with nothing lost or given up and small ids, everything has been completed. */
  lemma RestCompletes(s: S.State)
    requires Known(s) && D.Quiescent(s) && s.lost == multiset{} && NothingGivenUp(s) && s.issued <= 255
    ensures Completed(s)
  {
    D.QuietMeansFinished(s);
    forall c | 0 <= c < |s.heard| && C.Acked()(s.heard[c]) ensures C.DeliveredAtLast()(s.heard[c]) {
      assert L.HeardOk(s, c);
    }
  }

  lemma CompletableExactly(e: Engine)
    requires Sound(e) && Known(e.session) && D.Running(e.session)
    ensures Completable(e) <==> !Stuck(e) && Intact(e)
  {
    if Completable(e) {
      var steps :| Legal(e, steps) && AllKind(steps) && Quiescent(Run(e, steps)) && Completed(Run(e, steps).session);
      CompletedNeeds(e, steps);
      if Stuck(e) { StuckNeverQuiet(e, steps); }
    } else if !Stuck(e) && Intact(e) {
      var steps := CanDrain(e);
      UsedAlong(e, steps);
      KnownAlong(e, steps);
      NothingGivenUpAlong(e, steps);
      RestCompletes(Run(e, steps).session);
    }
  }

  /**
   * From a state of any run in which no disconnect is under way: some continuation without new calls calls every
   * request back and delivers every QoS 2 message acknowledged, exactly if the application is not spinning
   * without a free slot, no slot with a request has failed to be sent, no PUBREL or PUBCOMP has failed, and no
   * more than 255 ids have been used.
   */
  lemma HandshakesCompleteExactly(count: nat, size: nat, begin: seq<Step>)
    requires Legal(Init(count, size), begin) && D.Running(Run(Init(count, size), begin).session)
    ensures var e := Run(Init(count, size), begin);
            Completable(e) <==> !Stuck(e) && Intact(e)
  {
    Reached(count, size, begin);
    CompletableExactly(Run(Init(count, size), begin));
  }
}
