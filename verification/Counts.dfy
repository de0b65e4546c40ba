/** How many requests and messages are where: the lives of a run, added up. */
module Counts {
  import opened Bytes
  import opened Frames
  import opened AckQueue
  import opened Tallies
  import opened Session
  import opened Lives

  predicate Begun(life: seq<Event>, messageType: nat) {
    life != [] && life[0].Registered? && life[0].messageType == messageType
  }

  predicate EndsCalledBack(life: seq<Event>) {
    life != [] && life[|life| - 1].CalledBack?
  }

  predicate EndsLost(life: seq<Event>) {
    life != [] && life[|life| - 1].PubrelLost?
  }

  function Qos2(): seq<Event> -> bool {
    (life: seq<Event>) => Begun(life, PUBREC)
  }

  function Qos2Called(): seq<Event> -> bool {
    (life: seq<Event>) => Begun(life, PUBREC) && EndsCalledBack(life)
  }

  function Qos2Lost(): seq<Event> -> bool {
    (life: seq<Event>) => EndsLost(life)
  }

  function OfType(messageType: nat): Waiting -> bool {
    (w: Waiting) => w.messageType == messageType
  }

  /** A QoS 2 request whose record the session thread holds. */
  function Qos2InHand(s: State): nat {
    One(s.worker.Releasing?
        || ((s.worker.Requeueing? || s.worker.Calling?) && s.worker.record.messageType == PUBCOMP))
  }

  /** Registered = waiting for PUBREC + in hand + waiting for PUBCOMP + called back + lost with their PUBREL. */
  ghost predicate SenderAdds(s: State) {
    Tally(s.lives, Qos2())
    == Tally(s.ackQueue, OfType(PUBREC)) + Qos2InHand(s) + Tally(s.ackQueue, OfType(PUBCOMP))
       + Tally(s.lives, Qos2Called()) + Tally(s.lives, Qos2Lost())
  }

  function Acked(): Heard -> bool {
    (h: Heard) => h.packet.Publish? && h.packet.qos == 2 && h.events != [] && h.events[0] == AckSent
  }

  function DeliveredAtLast(): Heard -> bool {
    (h: Heard) => h.packet.Publish? && h.packet.qos == 2 && h.events != [] && h.events[|h.events| - 1].Delivered?
  }

  function LostAtLast(): Heard -> bool {
    (h: Heard) => h.events != [] && h.events[|h.events| - 1] == CompLost
  }

  function MessageInHand(s: State): nat {
    One(s.worker.Completing? || (s.worker.Requeueing? && s.worker.record.messageType == PUBREL))
  }

  /** PUBREC sent = waiting for PUBREL + in hand + delivered + lost with their PUBCOMP. */
  ghost predicate ReceiverAdds(s: State) {
    Tally(s.heard, Acked())
    == Tally(s.ackQueue, OfType(PUBREL)) + MessageInHand(s)
       + Tally(s.heard, DeliveredAtLast()) + Tally(s.heard, LostAtLast())
  }

  ghost predicate Adds(s: State) {
    SenderAdds(s) && ReceiverAdds(s)
  }

  /** The three sender counts after one more event in one life. */
  lemma LifeGrows(lives: seq<seq<Event>>, c: nat, e: Event)
    requires c < |lives| && lives[c] != []
    ensures var grown := lives[c := lives[c] + [e]];
            && Tally(grown, Qos2()) == Tally(lives, Qos2())
            && Tally(grown, Qos2Called()) + One(Qos2Called()(lives[c]))
               == Tally(lives, Qos2Called()) + One(Begun(lives[c], PUBREC) && e.CalledBack?)
            && Tally(grown, Qos2Lost()) + One(Qos2Lost()(lives[c])) == Tally(lives, Qos2Lost()) + One(e.PubrelLost?)
  {
    var life := lives[c] + [e];
    assert life[0] == lives[c][0] && life[|life| - 1] == e;
    TallyUpdate(lives, c, life, Qos2());
    TallyUpdate(lives, c, life, Qos2Called());
    TallyUpdate(lives, c, life, Qos2Lost());
  }

  lemma HearingGrows(heard: seq<Heard>, c: nat, e: Hearing)
    requires c < |heard| && heard[c].events != []
    ensures var h := heard[c];
            var grown := heard[c := h.(events := h.events + [e])];
            && Tally(grown, Acked()) == Tally(heard, Acked())
            && Tally(grown, DeliveredAtLast()) + One(DeliveredAtLast()(h))
               == Tally(heard, DeliveredAtLast()) + One(h.packet.Publish? && h.packet.qos == 2 && e.Delivered?)
            && Tally(grown, LostAtLast()) + One(LostAtLast()(h)) == Tally(heard, LostAtLast()) + One(e == CompLost)
  {
    var h := heard[c];
    var g := h.(events := h.events + [e]);
    assert g.events[0] == h.events[0] && g.events[|g.events| - 1] == e;
    TallyUpdate(heard, c, g, Acked());
    TallyUpdate(heard, c, g, DeliveredAtLast());
    TallyUpdate(heard, c, g, LostAtLast());
  }

  lemma RegisterAdds(s: State)
    requires Told(s) && Adds(s) && s.app.AppRegistering?
    ensures Adds(Register(s))
  {
    var w, t := s.app.record, Register(s);
    var life := [Registered(w.messageType, w.packetId)];
    TallyAppend(s.ackQueue, w, OfType(PUBREC));
    TallyAppend(s.ackQueue, w, OfType(PUBCOMP));
    TallyAppend(s.ackQueue, w, OfType(PUBREL));
    TallyAppend(s.lives, life, Qos2());
    TallyAppend(s.lives, life, Qos2Called());
    TallyAppend(s.lives, life, Qos2Lost());
    assert t.ackQueue == s.ackQueue + [w] && t.lives == s.lives + [life] && t.heard == s.heard && t.worker == s.worker;
  }

  lemma RecordLeaves(q: seq<Waiting>, k: nat)
    requires k < |q|
    ensures Tally(q, OfType(PUBREC)) == Tally(Without(q, k), OfType(PUBREC)) + One(q[k].messageType == PUBREC)
    ensures Tally(q, OfType(PUBCOMP)) == Tally(Without(q, k), OfType(PUBCOMP)) + One(q[k].messageType == PUBCOMP)
    ensures Tally(q, OfType(PUBREL)) == Tally(Without(q, k), OfType(PUBREL)) + One(q[k].messageType == PUBREL)
  {
    TallyWithout(q, k, OfType(PUBREC));
    TallyWithout(q, k, OfType(PUBCOMP));
    TallyWithout(q, k, OfType(PUBREL));
  }

  lemma MatchAdds(s: State, t: State, k: nat)
    requires Told(s) && Adds(s) && Free(s.worker) && RequestMatched(s, t, k)
    ensures Adds(t)
  {
    var w := s.ackQueue[k];
    assert RecordOk(s, w);
    RecordLeaves(s.ackQueue, k);
    LifeGrows(s.lives, w.context, Matched(w.messageType, w.packetId));
  }

  lemma ReleaseAdds(s: State, t: State, k: nat)
    requires Told(s) && Adds(s) && Free(s.worker) && StoredReleased(s, t, k)
    ensures Adds(t)
  {
    var w := s.ackQueue[k];
    assert RecordOk(s, w);
    RecordLeaves(s.ackQueue, k);
    HearingGrows(s.heard, w.context, ReleasedBy(w.packetId));
  }

  lemma LookupAdds(s: State)
    requires Told(s) && Adds(s) && Enabled(s, WorkerLookup)
    ensures Adds(LookUp(s))
  {
    var key, t := AckKey(s.worker.packet), LookUp(s);
    var r := Lookup(s.ackQueue, key.0, key.1);
    if !r.FoundAt? {
      QuietAdds(s, t);
    } else if key.0 == PUBREL {
      ReleaseAdds(s, t, r.index);
    } else {
      var w := s.ackQueue[r.index];
      assert RecordOk(s, w);
      assert w.messageType == key.0 && w.packetId == key.1;
      MatchAdds(s, t, r.index);
    }
  }

  lemma HandAdds(s: State, t: State, e: Event)
    requires Told(s) && Adds(s) && HandMoved(s, t, e)
    ensures Adds(t)
  {
    LifeGrows(s.lives, s.worker.record.context, e);
  }

  lemma CompleteAdds(s: State, t: State, e: Hearing)
    requires Told(s) && Adds(s) && s.worker.Completing? && t.worker.Top?
    requires t.ackQueue == s.ackQueue && t.lives == s.lives && t.heard == Hear(s, s.worker.record.context, e)
    requires e.Delivered? || e.CompLost?
    ensures Adds(t)
  {
    HearingGrows(s.heard, s.worker.record.context, e);
  }

  lemma RequeueAdds(s: State, t: State)
    requires Told(s) && Adds(s) && s.worker.Requeueing? && t.worker.Top?
    requires t.ackQueue == s.ackQueue + [s.worker.record] && t.lives == s.lives && t.heard == s.heard
    ensures Adds(t)
  {
    var w := s.worker.record;
    TallyAppend(s.ackQueue, w, OfType(PUBREC));
    TallyAppend(s.ackQueue, w, OfType(PUBCOMP));
    TallyAppend(s.ackQueue, w, OfType(PUBREL));
  }

  lemma InboundAdds(s: State, t: State, p: Packet, ok: bool)
    requires Adds(s) && Free(s.worker) && p.Publish? && p.qos <= 2
    requires t.ackQueue == s.ackQueue && t.lives == s.lives
    requires t.heard == s.heard + [Heard(p, FirstHearing(p, ok))]
    requires t.worker == if p.qos == 2 && ok then Requeueing(StoredRecord(p, |s.heard|)) else Top
    ensures Adds(t)
  {
    var h := Heard(p, FirstHearing(p, ok));
    TallyAppend(s.heard, h, Acked());
    TallyAppend(s.heard, h, DeliveredAtLast());
    TallyAppend(s.heard, h, LostAtLast());
  }

  lemma QuietAdds(s: State, t: State)
    requires Adds(s) && SameStory(s, t) && (t.worker == s.worker || (Free(s.worker) && Free(t.worker)))
    ensures Adds(t)
  {
  }

  lemma InboundStepAdds(s: State, ok: bool)
    requires Told(s) && Adds(s) && Enabled(s, WorkerInbound(ok))
    ensures Adds(Inbound(s, ok))
  {
    var p, t := s.worker.packet, Inbound(s, ok);
    if p.Publish? && p.qos <= 2 { InboundAdds(s, t, p, ok); } else { QuietAdds(s, t); }
  }

  lemma ReleaseStepAdds(s: State, ok: bool)
    requires Told(s) && Adds(s) && Enabled(s, WorkerRelease(ok))
    ensures Adds(Release(s, ok))
  {
    var id := s.worker.record.packetId;
    HandAdds(s, Release(s, ok), if ok then PubrelSent(id) else PubrelLost(id));
  }

  lemma CompleteStepAdds(s: State, ok: bool)
    requires Told(s) && Adds(s) && Enabled(s, WorkerComplete(ok))
    ensures Adds(Complete(s, ok))
  {
    var w := s.worker.record;
    CompleteAdds(s, Complete(s, ok), if ok then Delivered(w.topic, w.msg, w.retain) else CompLost);
  }

  lemma RequeueStepAdds(s: State)
    requires Told(s) && Adds(s) && Enabled(s, WorkerRequeue)
    ensures Adds(Do(s, WorkerRequeue))
  {
    RequeueAdds(s, Do(s, WorkerRequeue));
  }

  lemma CallbackStepAdds(s: State)
    requires Told(s) && Adds(s) && Enabled(s, WorkerCallback)
    ensures Adds(Do(s, WorkerCallback))
  {
    HandAdds(s, Do(s, WorkerCallback), CalledBack);
  }

  predicate TouchesRecords(step: Step) {
    step.AppEnqueueWaiting? || step.WorkerLookup? || step.WorkerInbound? || step.WorkerRelease? || step.WorkerComplete?
    || step.WorkerRequeue? || step.WorkerCallback?
  }

  lemma OtherAdds(s: State, step: Step)
    requires Adds(s) && Enabled(s, step) && !TouchesRecords(step)
    ensures Adds(Do(s, step))
  {
    QuietAdds(s, Do(s, step));
  }

  lemma RecordAdds(s: State, step: Step)
    requires Told(s) && Adds(s) && Enabled(s, step) && TouchesRecords(step)
    ensures Adds(Do(s, step))
  {
    match step
    case AppEnqueueWaiting => RegisterAdds(s);
    case WorkerLookup => LookupAdds(s);
    case WorkerInbound(ok) => InboundStepAdds(s, ok);
    case WorkerRelease(ok) => ReleaseStepAdds(s, ok);
    case WorkerComplete(ok) => CompleteStepAdds(s, ok);
    case WorkerRequeue => RequeueStepAdds(s);
    case WorkerCallback => CallbackStepAdds(s);
  }

  lemma AddsStep(s: State, step: Step)
    requires Told(s) && Adds(s) && Enabled(s, step)
    ensures Adds(Do(s, step))
  {
    if TouchesRecords(step) { RecordAdds(s, step); } else { OtherAdds(s, step); }
  }

  lemma {:induction false} AddsRun(s: State, steps: seq<Step>)
    requires Told(s) && Adds(s) && Legal(s, steps)
    ensures Adds(Run(s, steps))
    decreases |steps|
  {
    if steps != [] {
      AddsStep(s, steps[0]);
      ToldStep(s, steps[0]);
      AddsRun(Do(s, steps[0]), steps[1..]);
    }
  }

  /** No QoS 2 request and no QoS 2 message is ever lost from the books, in either direction. */
  lemma NothingUnaccounted(steps: seq<Step>)
    requires Legal(Init(), steps)
    ensures SenderAdds(Run(Init(), steps)) && ReceiverAdds(Run(Init(), steps))
  {
    InitTold();
    AddsRun(Init(), steps);
  }

  // ----- in what order things happen

  /**
   * In every run: a callback comes once and last, and under the one id the request was registered with; at
   * QoS 2 after PUBREC, a sent PUBREL and PUBCOMP of that id, else after the one acknowledgement of that id.
   */
  lemma CalledBackInOrder(steps: seq<Step>, c: nat, i: nat)
    requires Legal(Init(), steps) && c < |Run(Init(), steps).lives|
    requires i < |Run(Init(), steps).lives[c]| && Run(Init(), steps).lives[c][i] == CalledBack
    ensures var life := Run(Init(), steps).lives[c];
            && i == |life| - 1 && life[0].Registered?
            && var id := life[0].packetId;
               if life[0].messageType == PUBREC then
                 life == [life[0], Matched(PUBREC, id), PubrelSent(id), Matched(PUBCOMP, id), CalledBack]
               else life == [life[0], Matched(life[0].messageType, id), CalledBack]
  {
    RequestsLiveLegally(steps, c);
    var life := Run(Init(), steps).lives[c];
    var full := FullLife(life[0].messageType, life[0].packetId);
    assert life == full[..|life|];
  }

  /**
   * In every run: a QoS 2 delivery comes once and last, after the PUBREC was sent and a PUBREL with the id of
   * its own PUBLISH arrived, and carries that PUBLISH's content.
   */
  lemma DeliveredInOrder(steps: seq<Step>, c: nat, i: nat)
    requires Legal(Init(), steps) && c < |Run(Init(), steps).heard|
    requires var h := Run(Init(), steps).heard[c];
             i < |h.events| && h.events[i].Delivered? && (h.packet.Publish? ==> h.packet.qos == 2)
    ensures var h := Run(Init(), steps).heard[c];
            && i == 2 && h.packet.Publish?
            && h.events == [AckSent, ReleasedBy(h.packet.packetId), Delivery(h.packet)]
  {
    MessagesHeardLegally(steps, c);
    var h := Run(Init(), steps).heard[c];
    assert h.events <= [AckSent, ReleasedBy(h.packet.packetId), Delivery(h.packet)];
  }

  // ----- what is written down is what goes over the wire, and is never rewritten

  /** The step that adds this event to the life of request c, and what it does on the wire. */
  ghost predicate Witnessed(s: State, step: Step, c: nat, e: Event)
    requires Enabled(s, step)
  {
    match e
    case Matched(t, id) => step.WorkerLookup? && AckKey(s.worker.packet) == (t, id)
    case PubrelSent(id) => step == WorkerRelease(true) && Do(s, step).up == s.up + [Pubrel(id)]
    case PubrelLost(id) => step == WorkerRelease(false) && Do(s, step).up == s.up
    case CalledBack => step == WorkerCallback && s.worker.record.context == c
    case Registered(_, _) => false
  }

  /** A life changes by one event at a time, and the event tells what arrived or was sent. */
  lemma LifeKept(s: State, step: Step, c: nat)
    requires Enabled(s, step) && c < |s.lives|
    ensures var t := Do(s, step);
            c < |t.lives| &&
            (t.lives[c] == s.lives[c] || exists e :: t.lives[c] == s.lives[c] + [e] && Witnessed(s, step, c, e))
  {
    var t := Do(s, step);
    match step
    case WorkerLookup =>
      var key := AckKey(s.worker.packet);
      assert Witnessed(s, step, c, Matched(key.0, key.1));
    case WorkerRelease(ok) =>
      var id := s.worker.record.packetId;
      assert Witnessed(s, step, c, if ok then PubrelSent(id) else PubrelLost(id));
    case WorkerCallback =>
    case _ =>
  }

  /** Lives are only ever extended. */
  lemma {:induction false} LivesGrow(s: State, steps: seq<Step>, c: nat)
    requires Legal(s, steps) && c < |s.lives|
    ensures c < |Run(s, steps).lives| && s.lives[c] <= Run(s, steps).lives[c]
    decreases |steps|
  {
    if steps != [] {
      LifeKept(s, steps[0], c);
      LivesGrow(Do(s, steps[0]), steps[1..], c);
    }
  }

  /** The step that adds this event to the history of message c, and what it does on the wire. */
  ghost predicate Overheard(s: State, step: Step, c: nat, e: Hearing)
    requires Enabled(s, step)
  {
    match e
    case ReleasedBy(id) => step.WorkerLookup? && AckKey(s.worker.packet) == (PUBREL, id)
    case Delivered(_, _, _) =>
      && step == WorkerComplete(true) && s.worker.record.context == c
      && Do(s, step).up == s.up + [Pubcomp(s.worker.record.packetId)]
    case CompLost =>
      step == WorkerComplete(false) && s.worker.record.context == c && Do(s, step).up == s.up
    case _ => false
  }

  /** A history grows by one event at a time, and the event tells what arrived or was sent. */
  lemma HearingKept(s: State, step: Step, c: nat)
    requires Enabled(s, step) && c < |s.heard|
    ensures var t := Do(s, step);
            c < |t.heard| && t.heard[c].packet == s.heard[c].packet &&
            var before, after := s.heard[c].events, t.heard[c].events;
            after == before || exists e :: after == before + [e] && Overheard(s, step, c, e)
  {
    match step
    case WorkerLookup =>
      var key := AckKey(s.worker.packet);
      assert Overheard(s, step, c, ReleasedBy(key.1)) || key.0 != PUBREL;
    case WorkerInbound(_) =>
    case WorkerComplete(ok) =>
      var w := s.worker.record;
      assert w.context == c ==> Overheard(s, step, c, if ok then Delivered(w.topic, w.msg, w.retain) else CompLost);
    case _ =>
  }

  /** A history begins when a PUBLISH is handled: AckSent says that its acknowledgement went out, with its id. */
  lemma HearingBegins(s: State, step: Step)
    requires Enabled(s, step) && |Do(s, step).heard| != |s.heard|
    ensures var t := Do(s, step);
            && step.WorkerInbound? && t.heard == s.heard + [t.heard[|s.heard|]]
            && var h := t.heard[|s.heard|];
               && h.packet == s.worker.packet && h.packet.Publish? && h.packet.qos <= 2
               && (h.events != [] && h.events[0] == AckSent ==>
                     var id := h.packet.packetId;
                     t.up == s.up + [if h.packet.qos == 1 then Puback(id) else Pubrec(id)])
               && (h.events == [] || h.events[0] != AckSent ==> t.up == s.up)
  {
    var p := s.worker.packet;
    assert s.up + [] == s.up;
    match step
    case WorkerInbound(ok) =>
      assert Do(s, step).heard == s.heard + [Heard(p, FirstHearing(p, ok))];
    case WorkerLookup =>
    case WorkerComplete(_) =>
    case _ =>
  }

  /** The PUBCOMP that precedes a delivery has the id of the message delivered. */
  lemma PubcompOfOwnId(s: State)
    requires Told(s) && s.worker.Completing?
    ensures var w := s.worker.record;
            w.context < |s.heard| && s.heard[w.context].packet.Publish?
            && w.packetId == s.heard[w.context].packet.packetId
  {
  }

  /** What was heard keeps its packet, and its history is only ever extended. */
  lemma {:induction false} HearingsGrow(s: State, steps: seq<Step>, c: nat)
    requires Legal(s, steps) && c < |s.heard|
    ensures var t := Run(s, steps);
            c < |t.heard| && t.heard[c].packet == s.heard[c].packet && s.heard[c].events <= t.heard[c].events
    decreases |steps|
  {
    if steps != [] {
      HearingKept(s, steps[0], c);
      HearingsGrow(Do(s, steps[0]), steps[1..], c);
    }
  }
}
