/** The loop of the session thread (session_thread_loop): one send and one receive in turn, until a disconnect. */
module SessionLoop {
  import opened Bytes
  import AckQueue
  import opened Tallies
  import opened Session

  // ----- a pass of the loop

  function Takes(): Step -> bool {
    (step: Step) => step.WorkerTake?
  }

  function Receives(): Step -> bool {
    (step: Step) => step.WorkerReceive?
  }

  /** The send queue has been looked at, and server_receive has not been called since. */
  predicate OnTheWay(s: State) {
    s.worker.Sending? || s.worker.Receiving? || s.worker.Stopped?
  }

  /** The thread looks at the send queue and receives in turn, whatever it sends, finds or handles in between. */
  lemma {:induction false} Alternates(s: State, steps: seq<Step>)
    requires Legal(s, steps)
    ensures Tally(steps, Takes()) + One(OnTheWay(s)) == Tally(steps, Receives()) + One(OnTheWay(Run(s, steps)))
    decreases |steps|
  {
    if steps != [] {
      PlaceStep(s, steps[0]);
      Alternates(Do(s, steps[0]), steps[1..]);
    }
  }

  lemma PlaceStep(s: State, step: Step)
    requires Enabled(s, step)
    ensures One(step.WorkerTake?) + One(OnTheWay(s)) == One(step.WorkerReceive?) + One(OnTheWay(Do(s, step)))
  {
    if step.WorkerLookup? { FoundOrNot(s); }
  }

  lemma FoundOrNot(s: State)
    requires Enabled(s, WorkerLookup)
    ensures !OnTheWay(s) && !OnTheWay(Do(s, WorkerLookup))
  {
  }

  // ----- the environment

  /** The broker may publish, read and answer at any time and in any order, and each send may work or fail. */
  lemma NothingHeldBack(s: State, p: Packet, k: nat)
    ensures p.Publish? && p.qos <= 2 ==> Enabled(s, BrokerPublish(p))
    ensures s.up != [] ==> Enabled(s, BrokerRead)
    ensures k < |s.pending| ==> Enabled(s, BrokerAnswer(k))
    ensures s.worker.Sending? ==> Enabled(s, WorkerSend(true)) && Enabled(s, WorkerSend(false))
    ensures s.worker.Receiving? ==>
              Enabled(s, WorkerReceive(false)) && (s.down != [] ==> Enabled(s, WorkerReceive(true)))
    ensures s.worker.Handling? && s.worker.packet.Publish? ==>
              Enabled(s, WorkerInbound(true)) && Enabled(s, WorkerInbound(false))
    ensures s.worker.Releasing? && s.worker.record.context < |s.lives| ==>
              Enabled(s, WorkerRelease(true)) && Enabled(s, WorkerRelease(false))
    ensures s.worker.Completing? && s.worker.record.context < |s.heard| ==>
              Enabled(s, WorkerComplete(true)) && Enabled(s, WorkerComplete(false))
  {
  }

  // ----- from the broker to the application

  /** The steps by which a message of the broker reaches the application when nothing else is going on. */
  function Arrival(p: Packet): seq<Step>
    requires p.Publish?
  {
    [BrokerPublish(p), WorkerTake, WorkerReceive(true), WorkerInbound(true)]
    + (if p.qos < 2 then [] else [WorkerRequeue] + Releasing())
  }

  /** The second half at QoS 2: PUBREC and PUBREL travel, and the stored record is found. */
  function Releasing(): seq<Step> {
    [BrokerRead, BrokerAnswer(0), WorkerTake, WorkerReceive(true), WorkerLookup, WorkerComplete(true)]
  }

  /** Every message of the broker, at every QoS, can be delivered: the first one arrives so. */
  lemma MessageReaches(p: Packet)
    requires p.Publish? && p.qos <= 2
    ensures Legal(Init(), Arrival(p))
    ensures var t := Run(Init(), Arrival(p));
            && |t.heard| == 1 && t.heard[0].packet == AsRead(p) && t.heard[0].events != []
            && t.heard[0].events[|t.heard[0].events| - 1] == Delivered(StrNCpy(p.topic), StrNCpy(p.msg), p.retain)
            && t.worker.Top? && t.ackQueue == []
  {
    var first := [BrokerPublish(p), WorkerTake, WorkerReceive(true), WorkerInbound(true)];
    var s := Received(p);
    FirstHalf(p);
    if p.qos == 2 {
      SecondHalf(p);
      Follows(Init(), first, s, [WorkerRequeue] + Releasing());
    } else {
      assert first + [] == first;
    }
  }

  /** The message has been handled and acknowledged. */
  function Received(p: Packet): State
    requires p.Publish? && p.qos <= 2
  {
    var q := AsRead(p);
    Init().(worker := if q.qos == 2 then Requeueing(StoredRecord(q, 0)) else Top, up := Reply(q, true),
            heard := [Heard(q, FirstHearing(q, true))])
  }

  lemma FirstHalf(p: Packet)
    requires p.Publish? && p.qos <= 2
    ensures var first := [BrokerPublish(p), WorkerTake, WorkerReceive(true), WorkerInbound(true)];
            Legal(Init(), first) && Run(Init(), first) == Received(p)
  {
    var a := Init().(down := [p]);
    var b := a.(worker := Receiving);
    var c := Init().(worker := Handling(AsRead(p)));
    assert Do(Init(), BrokerPublish(p)) == a && Do(a, WorkerTake) == b && Do(b, WorkerReceive(true)) == c;
    assert Do(c, WorkerInbound(true)) == Received(p);
    OneStep(c, WorkerInbound(true), []);
    OneStep(b, WorkerReceive(true), [WorkerInbound(true)]);
    OneStep(a, WorkerTake, [WorkerReceive(true), WorkerInbound(true)]);
    OneStep(Init(), BrokerPublish(p), [WorkerTake, WorkerReceive(true), WorkerInbound(true)]);
  }

  lemma OneStep(s: State, a: Step, rest: seq<Step>)
    requires Enabled(s, a) && Legal(Do(s, a), rest)
    ensures Legal(s, [a] + rest) && Run(s, [a] + rest) == Run(Do(s, a), rest)
  {
    assert ([a] + rest)[1..] == rest;
  }

  lemma {:induction false} Follows(s: State, a: seq<Step>, t: State, b: seq<Step>)
    requires Legal(s, a) && Run(s, a) == t && Legal(t, b)
    ensures Legal(s, a + b) && Run(s, a + b) == Run(t, b)
    decreases |a|
  {
    if a == [] {
      assert a + b == b;
    } else {
      Follows(Do(s, a[0]), a[1..], t, b);
      OneStep(s, a[0], a[1..] + b);
      assert [a[0]] + (a[1..] + b) == a + b;
    }
  }

  /** PUBREC has gone out, the message is stored, and the broker's PUBREL is on its way. */
  function Stored(p: Packet): State
    requires p.Publish? && p.qos == 2
  {
    var q := AsRead(p);
    Received(p).(worker := Top, ackQueue := [StoredRecord(q, 0)], up := [], down := [Pubrel(q.packetId)])
  }

  lemma ToStored(p: Packet)
    requires p.Publish? && p.qos == 2
    ensures var steps := [WorkerRequeue, BrokerRead, BrokerAnswer(0)];
            Legal(Received(p), steps) && Run(Received(p), steps) == Stored(p)
  {
    var s, id := Received(p), AsRead(p).packetId;
    var a := s.(worker := Top, ackQueue := [StoredRecord(AsRead(p), 0)]);
    var b := a.(up := [], pending := [Pubrel(id)]);
    assert Do(s, WorkerRequeue) == a && Do(a, BrokerRead) == b;
    assert Do(b, BrokerAnswer(0)) == Stored(p);
    ThreeSteps(s, WorkerRequeue, BrokerRead, BrokerAnswer(0));
  }

  lemma ThreeSteps(s: State, x: Step, y: Step, z: Step)
    requires Enabled(s, x) && Enabled(Do(s, x), y) && Enabled(Do(Do(s, x), y), z)
    ensures Legal(s, [x, y, z]) && Run(s, [x, y, z]) == Do(Do(Do(s, x), y), z)
  {
    OneStep(Do(Do(s, x), y), z, []);
    OneStep(Do(s, x), y, [z]);
    OneStep(s, x, [y, z]);
    assert [z] + [] == [z] && [y] + [z] == [y, z] && [x] + [y, z] == [x, y, z];
  }

  /** The PUBREL has arrived and found the record. */
  function RecordFound(p: Packet): State
    requires p.Publish? && p.qos == 2
  {
    var q := AsRead(p);
    var h := Stored(p).heard[0];
    Stored(p).(worker := Completing(StoredRecord(q, 0)), ackQueue := [], down := [],
               heard := [h.(events := h.events + [ReleasedBy(q.packetId)])])
  }

  lemma ToRecordFound(p: Packet)
    requires p.Publish? && p.qos == 2
    ensures var steps := [WorkerTake, WorkerReceive(true), WorkerLookup];
            Legal(Stored(p), steps) && Run(Stored(p), steps) == RecordFound(p)
  {
    var s, id := Stored(p), AsRead(p).packetId;
    var a := s.(worker := Receiving);
    var b := s.(worker := Handling(Pubrel(id)), down := []);
    AckQueue.LookupAt(s.ackQueue, 6, id, 0);
    assert Do(s, WorkerTake) == a && Do(a, WorkerReceive(true)) == b && Do(b, WorkerLookup) == RecordFound(p);
    ThreeSteps(s, WorkerTake, WorkerReceive(true), WorkerLookup);
  }

  lemma SecondHalf(p: Packet)
    requires p.Publish? && p.qos == 2
    ensures var s, second := Received(p), [WorkerRequeue] + Releasing();
            Legal(s, second) &&
            var t := Run(s, second);
            && |t.heard| == 1 && t.heard[0].packet == AsRead(p) && |t.heard[0].events| == 3
            && t.heard[0].events[2] == Delivered(StrNCpy(p.topic), StrNCpy(p.msg), p.retain)
            && t.worker.Top? && t.ackQueue == []
  {
    var x, y := [WorkerRequeue, BrokerRead, BrokerAnswer(0)], [WorkerTake, WorkerReceive(true), WorkerLookup];
    ToStored(p);
    ToRecordFound(p);
    OneStep(RecordFound(p), WorkerComplete(true), []);
    Follows(Stored(p), y, RecordFound(p), [WorkerComplete(true)]);
    Follows(Received(p), x, Stored(p), y + [WorkerComplete(true)]);
    assert x + (y + [WorkerComplete(true)]) == [WorkerRequeue] + Releasing();
  }

  // ----- disconnect

  predicate ByThread(step: Step) {
    || step.WorkerTake? || step.WorkerSend? || step.WorkerReceive? || step.WorkerLookup? || step.WorkerInbound?
    || step.WorkerRelease? || step.WorkerComplete? || step.WorkerRequeue? || step.WorkerCallback?
  }

  function ThreadStep(): Step -> bool {
    (step: Step) => ByThread(step)
  }

  /** The steps left to the thread once it is to stop: the pass it is in, then one look at the flag. */
  function Remaining(w: Worker): nat {
    match w
    case Sending(_) => 6
    case Receiving => 5
    case Handling(_) => 4
    case Releasing(_) => 3
    case Completing(_) => 2
    case Calling(_) => 2
    case Requeueing(_) => 2
    case Top => 1
    case Stopped => 0
  }

  /** No call is under way when the flag is set, and none starts afterwards. */
  ghost predicate Quiet(s: State) {
    s.stopping ==> s.app.AppIdle?
  }

  lemma QuietStep(s: State, step: Step)
    requires Quiet(s) && Enabled(s, step)
    ensures Quiet(Do(s, step)) && (s.stopping ==> Do(s, step).stopping)
  {
    match step
    case WorkerLookup =>
    case _ =>
  }

  lemma {:induction false} AlwaysQuiet(s: State, steps: seq<Step>)
    requires Quiet(s) && Legal(s, steps)
    ensures Quiet(Run(s, steps)) && (s.stopping ==> Run(s, steps).stopping)
    decreases |steps|
  {
    if steps != [] {
      QuietStep(s, steps[0]);
      AlwaysQuiet(Do(s, steps[0]), steps[1..]);
    }
  }

  lemma StoppingStep(s: State, step: Step)
    requires Quiet(s) && s.stopping && Enabled(s, step)
    ensures var t := Do(s, step);
            && One(ByThread(step)) + Remaining(t.worker) <= Remaining(s.worker)
            && t.sendQueue == s.sendQueue && t.nextId == s.nextId && |t.lives| == |s.lives|
            && (s.worker.Stopped? ==>
                  t.worker.Stopped? && t.ackQueue == s.ackQueue && t.lives == s.lives && t.heard == s.heard
                  && |t.up| <= |s.up|)
  {
    match step
    case WorkerLookup =>
    case _ =>
  }

  /**
   * After a disconnect, in every run: the thread takes at most six more steps, nothing more is taken from the send
   * queue, registered or numbered; and once it has stopped it stays so, sends, calls back and delivers nothing.
   */
  lemma {:induction false} StopsAfterDisconnect(begin: seq<Step>, steps: seq<Step>)
    requires Legal(Init(), begin) && Run(Init(), begin).stopping && Legal(Run(Init(), begin), steps)
    ensures var s := Run(Init(), begin);
            var t := Run(s, steps);
            && Tally(steps, ThreadStep()) + Remaining(t.worker) <= Remaining(s.worker) <= 6
            && t.stopping && t.sendQueue == s.sendQueue && t.nextId == s.nextId && |t.lives| == |s.lives|
            && (s.worker.Stopped? ==>
                  t.worker.Stopped? && t.ackQueue == s.ackQueue && t.lives == s.lives && t.heard == s.heard
                  && |t.up| <= |s.up|)
  {
    AlwaysQuiet(Init(), begin);
    StoppingRun(Run(Init(), begin), steps);
  }

  lemma {:induction false} StoppingRun(s: State, steps: seq<Step>)
    requires Quiet(s) && s.stopping && Legal(s, steps)
    ensures var t := Run(s, steps);
            && Tally(steps, ThreadStep()) + Remaining(t.worker) <= Remaining(s.worker)
            && t.stopping && t.sendQueue == s.sendQueue && t.nextId == s.nextId && |t.lives| == |s.lives|
            && (s.worker.Stopped? ==>
                  t.worker.Stopped? && t.ackQueue == s.ackQueue && t.lives == s.lives && t.heard == s.heard
                  && |t.up| <= |s.up|)
    decreases |steps|
  {
    if steps != [] {
      QuietStep(s, steps[0]);
      StoppingStep(s, steps[0]);
      StoppingRun(Do(s, steps[0]), steps[1..]);
    }
  }

  /** The flag is set by the disconnect, and the thread stops the next time it looks at it. */
  lemma LooksAtFlag(s: State)
    ensures s.app.AppIdle? ==> Enabled(s, AppDisconnect) && Do(s, AppDisconnect) == s.(stopping := true)
    ensures s.stopping && s.worker.Top? ==> Enabled(s, WorkerTake) && Do(s, WorkerTake) == s.(worker := Stopped)
    ensures s.stopping ==> forall step: Step :: step.AppPublish? || step.AppPing? ==> !Enabled(s, step)
  {
  }
}
