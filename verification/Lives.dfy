/** The life of every request and of every received message, over whole runs. */
module Lives {
  import opened Bytes
  import opened Frames
  import opened AckQueue
  import opened Tallies
  import opened Session

  // ----- requests

  /** What has happened to a request whose record of this type and id sits in the ack queue. */
  function Path(messageType: nat, id: uint16): seq<Event> {
    if messageType == PUBCOMP then [Registered(PUBREC, id), Matched(PUBREC, id), PubrelSent(id)]
    else [Registered(messageType, id)]
  }

  /**
   * A complete life, under one id throughout: PUBREC before PUBREL before PUBCOMP before the callback, or one
   * acknowledgement and the callback.
   */
  function FullLife(messageType: nat, id: uint16): seq<Event> {
    if messageType == PUBREC then
      [Registered(PUBREC, id), Matched(PUBREC, id), PubrelSent(id), Matched(PUBCOMP, id), CalledBack]
    else [Registered(messageType, id), Matched(messageType, id), CalledBack]
  }

  function LostLife(id: uint16): seq<Event> {
    [Registered(PUBREC, id), Matched(PUBREC, id), PubrelLost(id)]
  }

  /** A beginning of a complete life of the type and id registered, or a life whose PUBREL was lost. */
  predicate LegalLife(life: seq<Event>) {
    life != [] && life[0].Registered? &&
    var t, id := life[0].messageType, life[0].packetId;
    t in {PUBACK, PUBREC, PINGRESP} && (life <= FullLife(t, id) || (t == PUBREC && life == LostLife(id)))
  }

  predicate Finished(life: seq<Event>) {
    life != [] && (life[|life| - 1].CalledBack? || life[|life| - 1].PubrelLost?)
  }

  /** A ping has no id; its record carries 0. */
  predicate IsRequest(w: Waiting) {
    w.messageType in {PUBACK, PUBREC, PUBCOMP, PINGRESP} && (w.messageType == PINGRESP ==> w.packetId == 0)
  }

  function RequestOf(c: nat): Waiting -> bool {
    (w: Waiting) => w.messageType != PUBREL && w.context == c
  }

  /** Records that belong to request c: in the ack queue or in the session thread's hands. */
  function Records(s: State, c: nat): nat {
    Tally(s.ackQueue, RequestOf(c))
    + One((s.worker.Calling? || s.worker.Releasing? || s.worker.Requeueing?) && RequestOf(c)(s.worker.record))
  }

  ghost predicate LifeOk(s: State, c: nat) {
    if c < |s.lives| then LegalLife(s.lives[c]) && Records(s, c) == One(!Finished(s.lives[c]))
    else Records(s, c) == 0
  }

  // ----- received messages

  function StoredAs(c: nat): Waiting -> bool {
    (w: Waiting) => w.messageType == PUBREL && w.context == c
  }

  function Holders(s: State, c: nat): nat {
    Tally(s.ackQueue, StoredAs(c))
    + One((s.worker.Requeueing? || s.worker.Completing?) && StoredAs(c)(s.worker.record))
  }

  /** The only things that can happen to a received PUBLISH, with the content it was published with. */
  predicate LegalHearing(h: Heard) {
    h.packet.Publish? && h.packet.qos <= 2 &&
    var d := Delivery(h.packet);
    if h.packet.qos == 0 then h.events == [d]
    else if h.packet.qos == 1 then h.events == [AckSent, d] || h.events == [AckLost]
    else
      h.events == [AckLost] ||
      (h.events != [] && h.events <= [AckSent, ReleasedBy(h.packet.packetId), d]) ||
      h.events == [AckSent, ReleasedBy(h.packet.packetId), CompLost]
  }

  /** A QoS 2 message that has been acknowledged and is neither delivered nor given up. */
  predicate Held(h: Heard) {
    h.packet.Publish? && h.packet.qos == 2 &&
    (h.events == [AckSent] || h.events == [AckSent, ReleasedBy(h.packet.packetId)])
  }

  ghost predicate HeardOk(s: State, c: nat) {
    if c < |s.heard| then LegalHearing(s.heard[c]) && Holders(s, c) == One(Held(s.heard[c]))
    else Holders(s, c) == 0
  }

  // ----- records agree with the lives they belong to

  ghost predicate StoredOk(s: State, w: Waiting, events: seq<Hearing>) {
    && w.messageType == PUBREL && w.context < |s.heard|
    && var h := s.heard[w.context];
       h.packet.Publish? && h.packet.qos == 2 && h.events == events && w == StoredRecord(h.packet, w.context)
  }

  ghost predicate RecordOk(s: State, w: Waiting) {
    if w.messageType == PUBREL then StoredOk(s, w, [AckSent])
    else IsRequest(w) && w.context < |s.lives| && s.lives[w.context] == Path(w.messageType, w.packetId)
  }

  ghost predicate QueueOk(s: State) {
    forall i :: 0 <= i < |s.ackQueue| ==> RecordOk(s, s.ackQueue[i])
  }

  ghost predicate WorkerOk(s: State) {
    match s.worker
    case Calling(w) =>
      && w.messageType in {PUBACK, PINGRESP, PUBCOMP} && w.context < |s.lives|
      && s.lives[w.context] == Path(w.messageType, w.packetId) + [Matched(w.messageType, w.packetId)]
    case Releasing(w) =>
      && w.messageType == PUBREC && w.context < |s.lives|
      && s.lives[w.context] == [Registered(PUBREC, w.packetId), Matched(PUBREC, w.packetId)]
    case Completing(w) => StoredOk(s, w, [AckSent, ReleasedBy(w.packetId)])
    case Requeueing(w) => w.messageType in {PUBCOMP, PUBREL} && RecordOk(s, w)
    case _ => true
  }

  ghost predicate AppOk(s: State) {
    s.app.AppRegistering? ==>
      && s.app.record.context == |s.lives| && IsRequest(s.app.record) && s.app.record.messageType != PUBCOMP
  }

  ghost predicate Told(s: State) {
    && AppOk(s) && QueueOk(s) && WorkerOk(s)
    && (forall c :: LifeOk(s, c))
    && (forall c :: HeardOk(s, c))
  }

  // ----- steps that touch no record

  /** Nothing the lives depend on differs between the two states. */
  ghost predicate SameStory(s: State, t: State) {
    t.ackQueue == s.ackQueue && t.lives == s.lives && t.heard == s.heard
  }

  predicate Free(w: Worker) {
    w.Top? || w.Sending? || w.Receiving? || w.Handling? || w.Stopped?
  }

  lemma QuietStep(s: State, t: State)
    requires Told(s) && SameStory(s, t) && AppOk(t)
    requires t.worker == s.worker || (Free(s.worker) && Free(t.worker))
    ensures Told(t)
  {
    forall c ensures LifeOk(t, c) && HeardOk(t, c) {
      assert LifeOk(s, c) && HeardOk(s, c);
    }
    forall i | 0 <= i < |t.ackQueue| ensures RecordOk(t, t.ackQueue[i]) {
      assert RecordOk(s, s.ackQueue[i]);
    }
  }

  // ----- registration

  lemma RegisterStep(s: State)
    requires Told(s) && s.app.AppRegistering?
    ensures Told(Register(s))
  {
    var w, t := s.app.record, Register(s);
    assert t.ackQueue == s.ackQueue + [w] && t.lives == s.lives + [[Registered(w.messageType, w.packetId)]];
    assert t.heard == s.heard && t.worker == s.worker;
    RegisterStory(s, t, w);
  }

  lemma RegisterStory(s: State, t: State, w: Waiting)
    requires Told(s) && w.context == |s.lives| && IsRequest(w) && w.messageType != PUBCOMP
    requires t.ackQueue == s.ackQueue + [w] && t.lives == s.lives + [[Registered(w.messageType, w.packetId)]]
    requires t.heard == s.heard && t.worker == s.worker && t.app.AppSubmitting?
    ensures Told(t)
  {
    forall c ensures LifeOk(t, c) && HeardOk(t, c) {
      assert LifeOk(s, c) && HeardOk(s, c);
      TallyAppend(s.ackQueue, w, RequestOf(c));
      TallyAppend(s.ackQueue, w, StoredAs(c));
    }
    forall i | 0 <= i < |t.ackQueue| ensures RecordOk(t, t.ackQueue[i]) {
      if i < |s.ackQueue| { assert RecordOk(s, s.ackQueue[i]); }
    }
  }

  // ----- a matched record leaves the queue

  /** The record found is the only one of its request, so no other record sees its life change. */
  lemma OnlyRecord(s: State, k: nat, i: nat)
    requires Told(s) && k < |s.ackQueue| && i < |s.ackQueue| && i != k
    requires s.ackQueue[k].messageType != PUBREL && s.ackQueue[i].messageType != PUBREL
    ensures s.ackQueue[i].context != s.ackQueue[k].context
  {
    var c := s.ackQueue[k].context;
    assert LifeOk(s, c);
    if s.ackQueue[i].context == c {
      TallyTwice(s.ackQueue, k, i, RequestOf(c));
    }
  }

  lemma OnlyStored(s: State, k: nat, i: nat)
    requires Told(s) && k < |s.ackQueue| && i < |s.ackQueue| && i != k
    requires s.ackQueue[k].messageType == PUBREL && s.ackQueue[i].messageType == PUBREL
    ensures s.ackQueue[i].context != s.ackQueue[k].context
  {
    var c := s.ackQueue[k].context;
    assert HeardOk(s, c);
    if s.ackQueue[i].context == c {
      TallyTwice(s.ackQueue, k, i, StoredAs(c));
    }
  }

  lemma TallyTwice(q: seq<Waiting>, k: nat, i: nat, f: Waiting -> bool)
    requires k < |q| && i < |q| && i != k && f(q[k]) && f(q[i])
    ensures Tally(q, f) >= 2
  {
    TallyWithout(q, k, f);
    TallyMember(Without(q, k), if i < k then i else i - 1, f);
  }

  /** A request's record goes from the queue into the session thread's hands. */
  ghost predicate RequestMatched(s: State, t: State, k: nat) {
    && k < |s.ackQueue| && s.ackQueue[k].messageType != PUBREL
    && t.ackQueue == Without(s.ackQueue, k) && t.heard == s.heard && t.app == s.app
    && var w := s.ackQueue[k];
       && t.lives == Live(s, w.context, Matched(w.messageType, w.packetId))
       && t.worker == if w.messageType == PUBREC then Releasing(w) else Calling(w)
  }

  /** A stored message's record goes from the queue into the session thread's hands. */
  ghost predicate StoredReleased(s: State, t: State, k: nat) {
    && k < |s.ackQueue| && s.ackQueue[k].messageType == PUBREL
    && t.ackQueue == Without(s.ackQueue, k) && t.lives == s.lives && t.app == s.app
    && var w := s.ackQueue[k];
       t.heard == Hear(s, w.context, ReleasedBy(w.packetId)) && t.worker == Completing(w)
  }

  lemma MatchedLife(s: State, t: State, k: nat, c: nat)
    requires Told(s) && Free(s.worker) && RequestMatched(s, t, k)
    ensures LifeOk(t, c)
  {
    assert LifeOk(s, c) && RecordOk(s, s.ackQueue[k]);
    TallyWithout(s.ackQueue, k, RequestOf(c));
  }

  lemma MatchedHearing(s: State, t: State, k: nat, c: nat)
    requires Told(s) && Free(s.worker) && RequestMatched(s, t, k)
    ensures HeardOk(t, c)
  {
    assert HeardOk(s, c);
    TallyWithout(s.ackQueue, k, StoredAs(c));
  }

  lemma MatchStory(s: State, t: State, k: nat)
    requires Told(s) && Free(s.worker) && RequestMatched(s, t, k)
    ensures Told(t)
  {
    var w := s.ackQueue[k];
    assert RecordOk(s, w);
    forall c ensures LifeOk(t, c) && HeardOk(t, c) {
      MatchedLife(s, t, k, c);
      MatchedHearing(s, t, k, c);
    }
    forall i | 0 <= i < |t.ackQueue| ensures RecordOk(t, t.ackQueue[i]) {
      var j := if i < k then i else i + 1;
      assert RecordOk(s, s.ackQueue[j]);
      if s.ackQueue[j].messageType != PUBREL { OnlyRecord(s, k, j); }
    }
  }

  lemma ReleasedLife(s: State, t: State, k: nat, c: nat)
    requires Told(s) && Free(s.worker) && StoredReleased(s, t, k)
    ensures LifeOk(t, c)
  {
    assert LifeOk(s, c);
    TallyWithout(s.ackQueue, k, RequestOf(c));
  }

  lemma ReleasedHearing(s: State, t: State, k: nat, c: nat)
    requires Told(s) && Free(s.worker) && StoredReleased(s, t, k)
    ensures HeardOk(t, c)
  {
    assert HeardOk(s, c) && RecordOk(s, s.ackQueue[k]);
    TallyWithout(s.ackQueue, k, StoredAs(c));
  }

  lemma ReleaseStory(s: State, t: State, k: nat)
    requires Told(s) && Free(s.worker) && StoredReleased(s, t, k)
    ensures Told(t)
  {
    var w := s.ackQueue[k];
    assert RecordOk(s, w);
    forall c ensures LifeOk(t, c) && HeardOk(t, c) {
      ReleasedLife(s, t, k, c);
      ReleasedHearing(s, t, k, c);
    }
    forall i | 0 <= i < |t.ackQueue| ensures RecordOk(t, t.ackQueue[i]) {
      var j := if i < k then i else i + 1;
      assert RecordOk(s, s.ackQueue[j]);
      if s.ackQueue[j].messageType == PUBREL { OnlyStored(s, k, j); }
    }
  }

  lemma LookupStep(s: State)
    requires Told(s) && Enabled(s, WorkerLookup)
    ensures Told(Do(s, WorkerLookup))
  {
    var key, t := AckKey(s.worker.packet), LookUp(s);
    var r := Lookup(s.ackQueue, key.0, key.1);
    if !r.FoundAt? {
      QuietStep(s, t);
    } else if key.0 == PUBREL {
      ReleaseStory(s, t, r.index);
    } else {
      var w := s.ackQueue[r.index];
      assert RecordOk(s, w);
      assert w.messageType == key.0 && w.packetId == key.1;
      MatchStory(s, t, r.index);
    }
  }

  // ----- the session thread acts on the record it holds

  /** The held request's life grows by one event; its record stays in hand or is let go. */
  ghost predicate HandMoved(s: State, t: State, e: Event) {
    && (s.worker.Calling? || s.worker.Releasing?)
    && t.ackQueue == s.ackQueue && t.heard == s.heard && t.app == s.app
    && t.lives == Live(s, s.worker.record.context, e)
    && match e
       case CalledBack => s.worker.Calling? && t.worker.Top?
       case PubrelLost(id) => s.worker.Releasing? && id == s.worker.record.packetId && t.worker.Top?
       case PubrelSent(id) =>
         && s.worker.Releasing? && id == s.worker.record.packetId
         && t.worker == Requeueing(s.worker.record.(messageType := PUBCOMP))
       case _ => false
  }

  lemma HandLife(s: State, t: State, e: Event, c: nat)
    requires Told(s) && HandMoved(s, t, e)
    ensures LifeOk(t, c)
  {
    assert LifeOk(s, c);
  }

  lemma HandHearing(s: State, t: State, e: Event, c: nat)
    requires Told(s) && HandMoved(s, t, e)
    ensures HeardOk(t, c)
  {
    assert HeardOk(s, c);
  }

  lemma HandStory(s: State, t: State, e: Event)
    requires Told(s) && HandMoved(s, t, e)
    ensures Told(t)
  {
    forall c ensures LifeOk(t, c) && HeardOk(t, c) {
      HandLife(s, t, e, c);
      HandHearing(s, t, e, c);
    }
    forall i | 0 <= i < |t.ackQueue| ensures RecordOk(t, t.ackQueue[i]) {
      assert RecordOk(s, s.ackQueue[i]);
    }
  }

  lemma CompleteStory(s: State, t: State, ok: bool)
    requires Told(s) && s.worker.Completing?
    requires t.ackQueue == s.ackQueue && t.lives == s.lives && t.app == s.app && t.worker.Top?
    requires var w := s.worker.record;
             t.heard == Hear(s, w.context, if ok then Delivered(w.topic, w.msg, w.retain) else CompLost)
    ensures Told(t)
  {
    var w := s.worker.record;
    forall c ensures LifeOk(t, c) && HeardOk(t, c) {
      assert LifeOk(s, c) && HeardOk(s, c);
    }
    forall i | 0 <= i < |t.ackQueue| ensures RecordOk(t, t.ackQueue[i]) {
      assert RecordOk(s, s.ackQueue[i]);
    }
  }

  lemma RequeueStory(s: State, t: State)
    requires Told(s) && s.worker.Requeueing?
    requires t.ackQueue == s.ackQueue + [s.worker.record] && t.lives == s.lives && t.heard == s.heard
    requires t.app == s.app && t.worker.Top?
    ensures Told(t)
  {
    var w := s.worker.record;
    forall c ensures LifeOk(t, c) && HeardOk(t, c) {
      assert LifeOk(s, c) && HeardOk(s, c);
      TallyAppend(s.ackQueue, w, RequestOf(c));
      TallyAppend(s.ackQueue, w, StoredAs(c));
    }
    forall i | 0 <= i < |t.ackQueue| ensures RecordOk(t, t.ackQueue[i]) {
      if i < |s.ackQueue| { assert RecordOk(s, s.ackQueue[i]); }
      assert RecordOk(s, w);
    }
  }

  lemma InboundStory(s: State, t: State, p: Packet, ok: bool)
    requires Told(s) && Free(s.worker) && p.Publish? && p.qos <= 2
    requires t.ackQueue == s.ackQueue && t.lives == s.lives && t.app == s.app
    requires t.heard == s.heard + [Heard(p, FirstHearing(p, ok))]
    requires t.worker == if p.qos == 2 && ok then Requeueing(StoredRecord(p, |s.heard|)) else Top
    ensures Told(t)
  {
    forall c ensures LifeOk(t, c) && HeardOk(t, c) {
      assert LifeOk(s, c) && HeardOk(s, c);
    }
    forall i | 0 <= i < |t.ackQueue| ensures RecordOk(t, t.ackQueue[i]) {
      assert RecordOk(s, s.ackQueue[i]);
    }
  }

  lemma ToldStep(s: State, step: Step)
    requires Told(s) && Enabled(s, step)
    ensures Told(Do(s, step))
  {
    var t := Do(s, step);
    match step
    case AppPublish(_, _, _, _) => QuietStep(s, t);
    case AppPing => QuietStep(s, t);
    case AppEnqueueWaiting => RegisterStep(s);
    case AppEnqueueSlot => QuietStep(s, t);
    case AppDisconnect => QuietStep(s, t);
    case WorkerTake => QuietStep(s, t);
    case WorkerSend(_) => QuietStep(s, t);
    case WorkerReceive(_) => QuietStep(s, t);
    case WorkerLookup => LookupStep(s);
    case WorkerInbound(ok) =>
      var p := s.worker.packet;
      if p.Publish? && p.qos <= 2 { InboundStory(s, t, p, ok); } else { QuietStep(s, t); }
    case WorkerRelease(ok) =>
      var id := s.worker.record.packetId;
      HandStory(s, t, if ok then PubrelSent(id) else PubrelLost(id));
    case WorkerComplete(ok) => CompleteStory(s, t, ok);
    case WorkerRequeue => RequeueStory(s, t);
    case WorkerCallback => HandStory(s, t, CalledBack);
    case BrokerRead => QuietStep(s, t);
    case BrokerAnswer(_) => QuietStep(s, t);
    case BrokerPublish(_) => QuietStep(s, t);
  }

  lemma InitTold()
    ensures Told(Init())
  {
    forall c ensures LifeOk(Init(), c) && HeardOk(Init(), c) {
    }
  }

  lemma {:induction false} ToldRun(s: State, steps: seq<Step>)
    requires Told(s) && Legal(s, steps)
    ensures Told(Run(s, steps))
    decreases |steps|
  {
    if steps != [] {
      ToldStep(s, steps[0]);
      ToldRun(Do(s, steps[0]), steps[1..]);
    }
  }

  /**
   * In every run each request has lived a prefix of one legal life, and it has exactly one record until it
   * has been called back or its PUBREL has been lost, and none afterwards.
   */
  lemma RequestsLiveLegally(steps: seq<Step>, c: nat)
    requires Legal(Init(), steps) && c < |Run(Init(), steps).lives|
    ensures var s := Run(Init(), steps);
            LegalLife(s.lives[c]) && Records(s, c) == One(!Finished(s.lives[c]))
  {
    InitTold();
    ToldRun(Init(), steps);
    assert LifeOk(Run(Init(), steps), c);
  }

  /** In every run a received message is delivered at most once, after its PUBREL, with its own content. */
  lemma MessagesHeardLegally(steps: seq<Step>, c: nat)
    requires Legal(Init(), steps) && c < |Run(Init(), steps).heard|
    ensures var s := Run(Init(), steps);
            LegalHearing(s.heard[c]) && Holders(s, c) == One(Held(s.heard[c]))
  {
    InitTold();
    ToldRun(Init(), steps);
    assert HeardOk(Run(Init(), steps), c);
  }
}
