/** What is left to be done in the session, and that there is always a step that does some of it. */
module Drain {
  import opened Bytes
  import opened Frames
  import opened AckQueue
  import opened Tallies
  import opened Session
  import opened Balance
  import opened Matching
  import opened Lives

  // ----- how much is left to be done

  function Down(p: Packet): nat {
    if p.Pubrec? || p.Publish? then 9 else if p.Pubrel? then 4 else if IsAck(p) then 3 else 2
  }

  function Up(p: Packet): nat {
    1 + Sum(Answer(p), PendingCost())
  }

  function DownCost(): Packet -> nat {
    (p: Packet) => Down(p)
  }

  function PendingCost(): Packet -> nat {
    (p: Packet) => Down(p) + 1
  }

  function UpCost(): Packet -> nat {
    (p: Packet) => Up(p)
  }

  function SendCost(): Packet -> nat {
    (p: Packet) => Up(p) + 2
  }

  function AppCost(a: App): nat {
    match a
    case AppIdle => 0
    case AppRegistering(p, _) => Up(p) + 4
    case AppSubmitting(p) => Up(p) + 3
  }

  function WorkerCost(w: Worker): nat {
    match w
    case Sending(p) => Up(p) + 1
    case Handling(p) => Down(p) - 1
    case Calling(_) => 1
    case Releasing(_) => 7
    case Completing(_) => 2
    case Requeueing(_) => 1
    case _ => 0
  }

  function Cost(s: State): nat {
    AppCost(s.app) + Sum(s.sendQueue, SendCost()) + WorkerCost(s.worker)
    + Sum(s.up, UpCost()) + Sum(s.pending, PendingCost()) + Sum(s.down, DownCost())
  }

  /** The session thread is on the wrong side of its loop for the work at hand. */
  function Detour(s: State): nat {
    if s.worker.Receiving? then One(s.down == [] || s.sendQueue != [])
    else if s.worker.Top? then One(s.down != [] && s.sendQueue == [])
    else 0
  }

  predicate Quiescent(s: State) {
    s.app.AppIdle? && s.worker.Top? && s.sendQueue == s.up == s.pending == s.down == []
  }

  predicate Running(s: State) {
    !s.stopping && !s.worker.Stopped?
  }

  /** A step that helps: whoever holds something passes it on, and every send succeeds. */
  function Helpful(s: State): Step {
    match s.app
    case AppRegistering(_, _) => AppEnqueueWaiting
    case AppSubmitting(_) => AppEnqueueSlot
    case AppIdle =>
      match s.worker
      case Sending(_) => WorkerSend(true)
      case Handling(p) => if IsAck(p) then WorkerLookup else WorkerInbound(true)
      case Calling(_) => WorkerCallback
      case Releasing(_) => WorkerRelease(true)
      case Completing(_) => WorkerComplete(true)
      case Requeueing(_) => WorkerRequeue
      case _ =>
        if s.up != [] then BrokerRead
        else if s.pending != [] then BrokerAnswer(0)
        else if s.worker.Receiving? then WorkerReceive(s.sendQueue == [] && s.down != [])
        else WorkerTake
  }

  /** Neither a new request nor a failing send. */
  predicate Kind(step: Step) {
    match step
    case AppPublish(_, _, _, _) => false
    case AppPing => false
    case AppDisconnect => false
    case WorkerSend(ok) => ok
    case WorkerInbound(ok) => ok
    case WorkerRelease(ok) => ok
    case WorkerComplete(ok) => ok
    case _ => true
  }

  /** Less is left to be done, or as much and one detour less. */
  predicate Less(t: State, s: State) {
    Cost(t) < Cost(s) || (Cost(t) == Cost(s) && Detour(t) < Detour(s))
  }

  predicate Helped(s: State, t: State) {
    Less(t, s) && Running(t) && t.lost == s.lost
  }

  lemma AnswerCost(p: Packet)
    ensures Up(p) == if Answer(p) == [] then 1 else Down(Answer(p)[0]) + 2
  {
    if Answer(p) != [] {
      assert Answer(p)[1..] == [];
      assert Sum(Answer(p), PendingCost()) == PendingCost()(Answer(p)[0]) + Sum([], PendingCost());
    }
  }

  /** Less is left to be done, and nothing has been lost on the way. */
  predicate Cheaper(s: State, t: State) {
    Cost(t) < Cost(s) && Running(t) && t.lost == s.lost
  }

  // ----- every step that does something leaves less to be done

  lemma AppWorks(s: State)
    requires Running(s) && !s.app.AppIdle?
    ensures var step := if s.app.AppRegistering? then AppEnqueueWaiting else AppEnqueueSlot;
            Enabled(s, step) && Cheaper(s, Do(s, step))
  {
    if s.app.AppSubmitting? {
      SumAppend(s.sendQueue, s.app.packet, SendCost());
    } else {
      var t := Register(s);
      assert t.sendQueue == s.sendQueue && t.worker == s.worker && t.up == s.up && t.pending == s.pending
          && t.down == s.down && t.app == AppSubmitting(s.app.packet) && t.lost == s.lost;
    }
  }

  lemma TakeWorks(s: State)
    requires Running(s) && s.worker.Top? && s.sendQueue != []
    ensures Cheaper(s, Do(s, WorkerTake))
  {
    var t := Do(s, WorkerTake);
    assert Sum(s.sendQueue, SendCost()) == Up(s.sendQueue[0]) + 2 + Sum(t.sendQueue, SendCost());
  }

  lemma SendWorks(s: State)
    requires Running(s) && s.worker.Sending?
    ensures Cheaper(s, Do(s, WorkerSend(true)))
  {
    SumAppend(s.up, s.worker.packet, UpCost());
  }

  lemma ReceiveWorks(s: State)
    requires Running(s) && s.worker.Receiving? && s.down != []
    ensures Cheaper(s, Do(s, WorkerReceive(true)))
  {
    var t := Do(s, WorkerReceive(true));
    assert Down(AsRead(s.down[0])) == Down(s.down[0]);
    assert Sum(s.down, DownCost()) == Down(s.down[0]) + Sum(t.down, DownCost());
  }

  /** The worker passes from one state to another and sends a packet or nothing. */
  lemma WorkerWorks(s: State, t: State, sent: seq<Packet>)
    requires Running(s) && Running(t) && t.app == s.app && t.sendQueue == s.sendQueue && t.lost == s.lost
    requires t.up == s.up + sent && t.pending == s.pending && t.down == s.down
    requires WorkerCost(t.worker) + Sum(sent, UpCost()) < WorkerCost(s.worker)
    ensures Cheaper(s, t)
  {
    SumConcat(s.up, sent, UpCost());
  }

  lemma OneCost(p: Packet)
    ensures Sum([p], UpCost()) == Up(p)
    ensures p.Pubrel? ==> Up(p) == 5
    ensures p.Pubrec? ==> Up(p) == 6
    ensures p.Puback? || p.Pubcomp? ==> Up(p) == 1
  {
    assert [p][1..] == [];
    AnswerCost(p);
  }

  lemma HandlingWorks(s: State)
    requires Running(s) && s.worker.Handling?
    ensures var step := if IsAck(s.worker.packet) then WorkerLookup else WorkerInbound(true);
            Enabled(s, step) && Cheaper(s, Do(s, step))
  {
    var p := s.worker.packet;
    if IsAck(p) {
      assert s.up + [] == s.up;
      WorkerWorks(s, Do(s, WorkerLookup), []);
    } else {
      var sent := if p.Publish? && p.qos <= 2 then Reply(p, true) else [];
      if sent != [] { OneCost(sent[0]); }
      assert s.up + [] == s.up;
      WorkerWorks(s, Do(s, WorkerInbound(true)), sent);
    }
  }

  function HoldingStep(w: Worker): Step {
    match w
    case Calling(_) => WorkerCallback
    case Releasing(_) => WorkerRelease(true)
    case Completing(_) => WorkerComplete(true)
    case _ => WorkerRequeue
  }

  lemma HoldingWorks(s: State)
    requires Running(s) && Enabled(s, HoldingStep(s.worker))
    ensures Cheaper(s, Do(s, HoldingStep(s.worker)))
  {
    var w, t := s.worker.record, Do(s, HoldingStep(s.worker));
    var sent := if s.worker.Releasing? then [Pubrel(w.packetId)] else if s.worker.Completing? then [Pubcomp(w.packetId)]
                else [];
    if sent != [] { OneCost(sent[0]); }
    assert t.up == s.up + sent;
    WorkerWorks(s, t, sent);
  }

  lemma ReadWorks(s: State)
    requires Running(s) && s.up != []
    ensures Cheaper(s, Do(s, BrokerRead))
  {
    SumConcat(s.pending, Answer(s.up[0]), PendingCost());
    var t := Do(s, BrokerRead);
    assert t.app == s.app && t.worker == s.worker && t.sendQueue == s.sendQueue && t.down == s.down;
    assert Sum(s.up, UpCost()) == Up(s.up[0]) + Sum(t.up, UpCost());
  }

  lemma SumWithout(q: seq<Packet>, k: nat, f: Packet -> nat)
    requires k < |q|
    ensures Sum(q, f) == Sum(q[..k] + q[k + 1..], f) + f(q[k])
  {
    assert q == q[..k] + q[k..] && q[k..][1..] == q[k + 1..];
    SumConcat(q[..k], q[k..], f);
    SumConcat(q[..k], q[k + 1..], f);
  }

  lemma AnswerWorks(s: State, k: nat)
    requires Running(s) && k < |s.pending|
    ensures Cheaper(s, Do(s, BrokerAnswer(k)))
  {
    var t := Do(s, BrokerAnswer(k));
    SumWithout(s.pending, k, PendingCost());
    SumAppend(s.down, s.pending[k], DownCost());
    assert t.app == s.app && t.worker == s.worker && t.sendQueue == s.sendQueue && t.up == s.up;
  }

  /** The session thread looks for something to send or to receive and finds nothing. */
  predicate Polls(s: State, step: Step) {
    (step.WorkerTake? && s.sendQueue == []) || step == WorkerReceive(false)
  }

  lemma PollsCostNothing(s: State, step: Step)
    requires Enabled(s, step) && Running(s) && Polls(s, step)
    ensures Cost(Do(s, step)) == Cost(s) && Running(Do(s, step)) && Do(s, step).lost == s.lost
  {
  }

  /** Whatever is done without a new request, a failing send or a new message from the broker is progress. */
  lemma KindWorks(s: State, step: Step)
    requires Enabled(s, step) && Running(s) && Kind(step) && !Polls(s, step) && !step.BrokerPublish?
    ensures Cheaper(s, Do(s, step))
  {
    match step
    case AppEnqueueWaiting => AppWorks(s);
    case AppEnqueueSlot => AppWorks(s);
    case WorkerTake => TakeWorks(s);
    case WorkerSend(_) => SendWorks(s);
    case WorkerReceive(_) => ReceiveWorks(s);
    case WorkerLookup => HandlingWorks(s);
    case WorkerInbound(_) => HandlingWorks(s);
    case WorkerRelease(_) => HoldingWorks(s);
    case WorkerComplete(_) => HoldingWorks(s);
    case WorkerRequeue => HoldingWorks(s);
    case WorkerCallback => HoldingWorks(s);
    case BrokerRead => ReadWorks(s);
    case BrokerAnswer(k) => AnswerWorks(s, k);
  }

  // ----- and there is always one, at most one poll away

  lemma PollHelps(s: State)
    requires Running(s) && !Quiescent(s) && s.app.AppIdle? && s.up == s.pending == []
    requires s.worker.Top? || s.worker.Receiving?
    requires Polls(s, Helpful(s))
    ensures Enabled(s, Helpful(s)) && Helped(s, Do(s, Helpful(s)))
  {
    PollsCostNothing(s, Helpful(s));
  }

  lemma HelpfulEnabled(s: State)
    requires Running(s) && WorkerOk(s) && !Quiescent(s)
    ensures Enabled(s, Helpful(s)) && Kind(Helpful(s)) && !Helpful(s).BrokerPublish?
    ensures Polls(s, Helpful(s)) ==>
              s.app.AppIdle? && s.up == s.pending == [] && (s.worker.Top? || s.worker.Receiving?)
  {
  }

  lemma Helps(s: State)
    requires Running(s) && WorkerOk(s) && !Quiescent(s)
    ensures Enabled(s, Helpful(s)) && Kind(Helpful(s)) && Helped(s, Do(s, Helpful(s)))
  {
    HelpfulEnabled(s);
    if Polls(s, Helpful(s)) { PollHelps(s); } else { KindWorks(s, Helpful(s)); }
  }

  /** When all is quiet, nothing was lost and ids were small, no record is left waiting. */
  lemma QuietMeansFinished(s: State)
    requires Matchable(s) && Told(s) && Quiescent(s) && s.lost == multiset{} && FewIssued(s)
    ensures s.ackQueue == []
    ensures forall c :: 0 <= c < |s.lives| ==> Finished(s.lives[c])
    ensures forall c :: 0 <= c < |s.heard| ==> !Held(s.heard[c])
  {
    if s.ackQueue != [] {
      var k := KeyOf(s.ackQueue[0]);
      assert Settled(s, k);
      TallyMember(s.ackQueue, 0, WaitsFor(k));
      assert false;
    }
    forall c | 0 <= c < |s.lives| ensures Finished(s.lives[c]) {
      assert LifeOk(s, c);
    }
    forall c | 0 <= c < |s.heard| ensures !Held(s.heard[c]) {
      assert HeardOk(s, c);
    }
  }
}
