/**
 * When the handshakes can be completed: from every state of a run of the whole client, exactly if the
 * application is not spinning in get_buffer_slot, which nothing can end.
 */
module Completion {
  import opened Bytes
  import opened Frames
  import opened Tallies
  import opened Coupling
  import P = SlotPool
  import S = Session
  import L = Lives
  import D = Drain

  function Anything(): Reading {
    (block: seq<byte>, packet: S.Packet) => true
  }

  /** What holds in every state of a run. */
  ghost predicate Sound(e: Engine) {
    Coupled(e, Anything()) && L.Told(e.session)
  }

  lemma ToldAlong(e: Engine, step: Step)
    requires L.Told(e.session) && Enabled(e, step)
    ensures L.Told(Do(e, step).session)
  {
    var s := SessionPart(e, step);
    if s.Some? { L.ToldStep(e.session, s.value); }
  }

  lemma SoundStep(e: Engine, step: Step)
    requires Sound(e) && Enabled(e, step)
    ensures Sound(Do(e, step))
  {
    CoupledStep(e, step, Anything());
    ToldAlong(e, step);
  }

  lemma {:induction false} SoundRun(e: Engine, steps: seq<Step>)
    requires Sound(e) && Legal(e, steps)
    ensures Sound(Run(e, steps))
    decreases |steps|
  {
    if steps != [] {
      SoundStep(e, steps[0]);
      SoundRun(Do(e, steps[0]), steps[1..]);
    }
  }

  lemma InitSound(count: nat, size: nat)
    ensures Sound(Init(count, size))
  {
    InitCoupled(count, size, Anything());
    L.InitTold();
  }

  // ----- stuck for good

  /** get_buffer_slot holds the mutex and there is no slot for it. */
  predicate Stuck(e: Engine) {
    e.pool.app.AppSpinning? && e.pool.free == []
  }

  /** The call is where it was, and nothing has been taken from or added to the queues under the mutex. */
  predicate SameQueues(e: Engine, t: Engine) {
    && t.call == e.call && t.pool.send == e.pool.send
    && t.session.sendQueue == e.session.sendQueue && t.session.ackQueue == e.session.ackQueue
  }

  lemma StuckStep(e: Engine, step: Step)
    requires CallAgrees(e) && Stuck(e) && Enabled(e, step)
    ensures Stuck(Do(e, step)) && SameQueues(e, Do(e, step))
  {
    match step
    case Retry => CallSteps(e);
    case Send(_) => WorkerSteps(e);
    case Alone(s) =>
      AloneStep(e, s);
      AloneLeaves(e.session, s);
    case _ =>
  }

  /** Nobody can free a slot: the call never returns, nothing more is sent from a slot, no record is matched. */
  lemma {:induction false} StuckForGood(e: Engine, steps: seq<Step>)
    requires Sound(e) && Stuck(e) && Legal(e, steps)
    ensures Stuck(Run(e, steps)) && SameQueues(e, Run(e, steps))
    decreases |steps|
  {
    if steps != [] {
      StuckStep(e, steps[0]);
      SoundStep(e, steps[0]);
      StuckForGood(Do(e, steps[0]), steps[1..]);
    }
  }

  // ----- otherwise a step always helps

  predicate Quiescent(e: Engine) {
    e.call.NoCall? && e.pool.worker.WorkerIdle? && D.Quiescent(e.session)
  }

  /** Neither a new call nor a failing send. */
  predicate Kind(step: Step) {
    match step
    case Ask(_) => false
    case Disconnect => false
    case Send(ok) => ok
    case Alone(s) => D.Kind(s)
    case _ => true
  }

  predicate AllKind(steps: seq<Step>) {
    forall i :: 0 <= i < |steps| ==> Kind(steps[i])
  }

  lemma KindTail(steps: seq<Step>)
    requires AllKind(steps) && steps != []
    ensures Kind(steps[0]) && AllKind(steps[1..])
  {
    forall i | 0 <= i < |steps[1..]| ensures Kind(steps[1..][i]) {
      assert steps[1..][i] == steps[i + 1];
    }
  }

  function Helpful(e: Engine): Step {
    match e.call
    case Wanting(_) => Fill
    case Holding(_) =>
      if e.session.app.AppRegistering? then Register else if e.pool.app.AppFilling? then SetLength else Submit
    case NoCall =>
      if e.pool.worker.WorkerRecycling? then Recycle
      else if e.session.worker.Sending? then Send(true)
      else
        var s := D.Helpful(e.session);
        if s.WorkerTake? && e.session.sendQueue != [] then Take else Alone(s)
  }

  function Extra(e: Engine): nat {
    (match e.call
     case Wanting(_) => 32
     case Holding(_) => One(e.pool.app.AppFilling?)
     case NoCall => 0)
    + One(!e.pool.worker.WorkerIdle?)
  }

  function Cost(e: Engine): nat {
    2 * D.Cost(e.session) + Extra(e)
  }

  /** Less is left to be done, or as much and one detour of the session thread less. */
  predicate Nearer(t: Engine, e: Engine) {
    Cost(t) < Cost(e) || (Cost(t) == Cost(e) && D.Detour(t.session) < D.Detour(e.session))
  }

  predicate Helped(e: Engine, t: Engine) {
    Nearer(t, e) && D.Running(t.session) && !Stuck(t) && t.session.lost == e.session.lost
  }

  /** Less is left to be done, and nothing has been lost on the way. */
  predicate Cheaper(e: Engine, t: Engine) {
    Cost(t) < Cost(e) && D.Running(t.session) && t.session.lost == e.session.lost
  }

  // ----- every step that does something leaves less to be done

  lemma CanFill(e: Engine)
    requires CallAgrees(e) && !Stuck(e) && e.call.Wanting?
    ensures Enabled(e, Fill)
  {
    SameSize(e.call.request, e.session.nextId);
  }

  lemma FillWorks(e: Engine)
    requires CallAgrees(e) && Enabled(e, Fill) && D.Running(e.session)
    ensures Cheaper(e, Do(e, Fill))
  {
    FillStep(e);
    AsksPacket(e.session, e.call.request);
    FillCost(e, Do(e, Fill));
  }

  lemma FillCost(e: Engine, t: Engine)
    requires D.Running(e.session) && e.call.Wanting? && e.session.app.AppIdle? && t.call.Holding?
    requires t.session == e.session.(app := t.session.app) && !t.session.app.AppIdle?
    requires t.pool.app.AppFilling? && t.pool.worker == e.pool.worker
    ensures Cheaper(e, t)
  {
    D.AnswerCost(t.session.app.packet);
  }

  lemma RegisterWorks(e: Engine)
    requires Enabled(e, Register) && D.Running(e.session)
    ensures Cheaper(e, Do(e, Register))
  {
    CallSteps(e);
    D.AppWorks(e.session);
  }

  lemma SetLengthWorks(e: Engine)
    requires Enabled(e, SetLength) && D.Running(e.session)
    ensures Cheaper(e, Do(e, SetLength))
  {
    CallSteps(e);
  }

  lemma SubmitWorks(e: Engine)
    requires Enabled(e, Submit) && D.Running(e.session)
    ensures Cheaper(e, Do(e, Submit))
  {
    CallSteps(e);
    D.AppWorks(e.session);
  }

  lemma TakeWorks(e: Engine)
    requires Enabled(e, Take) && D.Running(e.session)
    ensures Cheaper(e, Do(e, Take))
  {
    WorkerSteps(e);
    D.TakeWorks(e.session);
  }

  lemma SendWorks(e: Engine)
    requires Enabled(e, Send(true)) && D.Running(e.session)
    ensures Cheaper(e, Do(e, Send(true)))
  {
    WorkerSteps(e);
    D.SendWorks(e.session);
  }

  lemma RecycleWorks(e: Engine)
    requires Enabled(e, Recycle) && D.Running(e.session)
    ensures Cheaper(e, Do(e, Recycle))
  {
    WorkerSteps(e);
  }

  /** The step finds nothing to do: a pass of the spinning loop, or the session thread polls in vain. */
  predicate Idles(e: Engine, step: Step) {
    step.Retry? || (step.Alone? && D.Polls(e.session, step.step))
  }

  lemma AloneWorks(e: Engine, step: S.Step)
    requires Enabled(e, Alone(step)) && D.Running(e.session)
    requires D.Kind(step) && !D.Polls(e.session, step) && !step.BrokerPublish?
    ensures Cheaper(e, Do(e, Alone(step)))
  {
    AloneStep(e, step);
    D.KindWorks(e.session, step);
  }

  predicate NewMessage(step: Step) {
    step.Alone? && step.step.BrokerPublish?
  }

  /** Whatever is done without a new call, a failing send or a new message from the broker is progress. */
  lemma KindWorks(e: Engine, step: Step)
    requires CallAgrees(e) && D.Running(e.session) && Enabled(e, step)
    requires Kind(step) && !Idles(e, step) && !NewMessage(step)
    ensures Cheaper(e, Do(e, step))
  {
    match step
    case Fill => FillWorks(e);
    case Register => RegisterWorks(e);
    case SetLength => SetLengthWorks(e);
    case Submit => SubmitWorks(e);
    case Take => TakeWorks(e);
    case Send(_) => SendWorks(e);
    case Recycle => RecycleWorks(e);
    case Alone(s) => AloneWorks(e, s);
  }

  lemma IdlingCostsNothing(e: Engine, step: Step)
    requires CallAgrees(e) && D.Running(e.session) && Enabled(e, step) && Idles(e, step)
    ensures var t := Do(e, step);
            && Cost(t) == Cost(e) && D.Running(t.session) && t.session.lost == e.session.lost
            && t.pool == e.pool && t.call == e.call
  {
    if step.Retry? {
      CallSteps(e);
    } else {
      AloneStep(e, step.step);
      D.PollsCostNothing(e.session, step.step);
    }
  }

  // ----- and there is always one, at most one poll away

  lemma HoldingEnabled(e: Engine)
    requires CallAgrees(e) && e.call.Holding?
    ensures Enabled(e, Helpful(e)) && !Idles(e, Helpful(e))
  {
  }

  lemma TakeEnabled(e: Engine)
    requires Sound(e) && D.Running(e.session) && e.call.NoCall? && e.pool.worker.WorkerIdle?
    requires e.session.worker.Top? && e.session.sendQueue != []
    ensures Enabled(e, Take)
  {
    assert |P.Pending(e.pool)| == |e.session.sendQueue|;
  }

  lemma SlotEnabled(e: Engine)
    requires Sound(e) && e.call.NoCall?
    ensures e.session.worker.Sending? ==> Enabled(e, Send(true))
    ensures e.pool.worker.WorkerRecycling? ==> Enabled(e, Recycle)
  {
  }

  lemma AloneEnabled(e: Engine)
    requires Sound(e) && D.Running(e.session) && !Quiescent(e) && e.call.NoCall? && e.pool.worker.WorkerIdle?
    ensures var s := D.Helpful(e.session);
            (s.WorkerTake? ==> e.session.sendQueue == []) ==>
              Enabled(e, Alone(s)) && D.Kind(s) && !s.BrokerPublish?
  {
    D.HelpfulEnabled(e.session);
  }

  lemma HelpfulEnabled(e: Engine)
    requires Sound(e) && D.Running(e.session) && !Stuck(e) && !Quiescent(e)
    ensures Enabled(e, Helpful(e)) && Kind(Helpful(e)) && !NewMessage(Helpful(e))
    ensures Idles(e, Helpful(e)) ==>
              e.call.NoCall? && e.pool.worker.WorkerIdle? && Helpful(e) == Alone(D.Helpful(e.session))
  {
    if e.call.Wanting? {
      CanFill(e);
    } else if e.call.Holding? {
      HoldingEnabled(e);
    } else {
      SlotEnabled(e);
      if e.pool.worker.WorkerIdle? {
        AloneEnabled(e);
        if D.Helpful(e.session).WorkerTake? && e.session.sendQueue != [] { TakeEnabled(e); }
      }
    }
  }

  lemma PollHelps(e: Engine)
    requires Sound(e) && D.Running(e.session) && !Stuck(e) && !Quiescent(e) && Enabled(e, Helpful(e))
    requires Idles(e, Helpful(e)) && e.call.NoCall? && e.pool.worker.WorkerIdle?
    requires Helpful(e) == Alone(D.Helpful(e.session))
    ensures Helped(e, Do(e, Helpful(e))) && D.Detour(Do(e, Helpful(e)).session) < D.Detour(e.session)
  {
    var s := D.Helpful(e.session);
    IdlingCostsNothing(e, Alone(s));
    AloneStep(e, s);
    D.HelpfulEnabled(e.session);
    D.PollHelps(e.session);
    D.PollsCostNothing(e.session, s);
  }

  /** No step but a call of the application can begin to spin. */
  lemma StaysUnstuck(e: Engine, step: Step)
    requires CallAgrees(e) && !Stuck(e) && Enabled(e, step) && Kind(step)
    ensures !Stuck(Do(e, step))
  {
    match step
    case Fill => FillStep(e);
    case Register => CallSteps(e);
    case SetLength => CallSteps(e);
    case Submit => CallSteps(e);
    case Take => WorkerSteps(e);
    case Send(_) => WorkerSteps(e);
    case Recycle => WorkerSteps(e);
    case Alone(s) => AloneStep(e, s);
    case _ =>
  }

  lemma Helps(e: Engine)
    requires Sound(e) && D.Running(e.session) && !Stuck(e) && !Quiescent(e)
    ensures Enabled(e, Helpful(e)) && Kind(Helpful(e)) && Helped(e, Do(e, Helpful(e)))
  {
    HelpfulEnabled(e);
    if Idles(e, Helpful(e)) {
      PollHelps(e);
    } else {
      KindWorks(e, Helpful(e));
      StaysUnstuck(e, Helpful(e));
    }
  }

  /** The steps empty everything, without a new call and without losing anything. */
  ghost predicate Drains(e: Engine, steps: seq<Step>) {
    Legal(e, steps) && AllKind(steps) && Quiescent(Run(e, steps)) && Run(e, steps).session.lost == e.session.lost
  }

  lemma DrainsFirst(e: Engine, step: Step, rest: seq<Step>)
    requires Enabled(e, step) && Kind(step) && Do(e, step).session.lost == e.session.lost && Drains(Do(e, step), rest)
    ensures Drains(e, [step] + rest)
  {
    Prepend(e, step, rest);
    var steps := [step] + rest;
    forall i | 0 <= i < |steps| ensures Kind(steps[i]) {
      if i > 0 { assert steps[i] == rest[i - 1]; }
    }
  }

  lemma {:induction false} CanDrain(e: Engine) returns (steps: seq<Step>)
    requires Sound(e) && D.Running(e.session) && !Stuck(e)
    ensures Drains(e, steps)
    decreases Cost(e), D.Detour(e.session)
  {
    if Quiescent(e) {
      steps := [];
    } else {
      var step := Helpful(e);
      Helps(e);
      SoundStep(e, step);
      steps := CanDrain(Do(e, step));
      DrainsFirst(e, step, steps);
      steps := [step] + steps;
    }
  }

  lemma StuckNeverQuiet(e: Engine, steps: seq<Step>)
    requires Sound(e) && Stuck(e) && Legal(e, steps)
    ensures !Quiescent(Run(e, steps))
  {
    StuckForGood(e, steps);
    assert e.call.Wanting?;
  }

  ghost predicate Drainable(e: Engine) {
    exists steps :: Legal(e, steps) && AllKind(steps) && Quiescent(Run(e, steps))
  }

  lemma DrainableExactly(e: Engine)
    requires Sound(e) && D.Running(e.session)
    ensures Drainable(e) <==> !Stuck(e)
  {
    if Stuck(e) {
      forall steps | Legal(e, steps) ensures !Quiescent(Run(e, steps)) {
        StuckNeverQuiet(e, steps);
      }
    } else {
      var steps := CanDrain(e);
    }
  }

  lemma ReachedSound(count: nat, size: nat, begin: seq<Step>)
    requires Legal(Init(count, size), begin)
    ensures Sound(Run(Init(count, size), begin))
  {
    InitSound(count, size);
    SoundRun(Init(count, size), begin);
  }

  /**
   * From a state of any run in which no disconnect is under way, some continuation without new calls empties
   * the queues, the hands and the channels, exactly if the application is not spinning without a free slot.
   */
  lemma DrainsUnlessStuck(count: nat, size: nat, begin: seq<Step>)
    requires Legal(Init(count, size), begin) && D.Running(Run(Init(count, size), begin).session)
    ensures Drainable(Run(Init(count, size), begin)) <==> !Stuck(Run(Init(count, size), begin))
  {
    ReachedSound(count, size, begin);
    DrainableExactly(Run(Init(count, size), begin));
  }

  // ----- and draining is inevitable for every scheduler that does more than poll

  /** How many steps of the run did something. */
  ghost function Effort(e: Engine, steps: seq<Step>): nat
    requires Legal(e, steps)
    decreases |steps|
  {
    if steps == [] then 0 else One(!Idles(e, steps[0])) + Effort(Do(e, steps[0]), steps[1..])
  }

  predicate NoNewMessages(steps: seq<Step>) {
    forall i :: 0 <= i < |steps| ==> !NewMessage(steps[i])
  }

  lemma StepCosts(e: Engine, step: Step)
    requires CallAgrees(e) && D.Running(e.session) && Enabled(e, step) && Kind(step) && !NewMessage(step)
    ensures One(!Idles(e, step)) + Cost(Do(e, step)) <= Cost(e) && D.Running(Do(e, step).session)
  {
    if Idles(e, step) { IdlingCostsNothing(e, step); } else { KindWorks(e, step); }
  }

  lemma {:induction false} EffortCosts(e: Engine, steps: seq<Step>)
    requires Sound(e) && D.Running(e.session) && Legal(e, steps) && AllKind(steps) && NoNewMessages(steps)
    ensures Effort(e, steps) + Cost(Run(e, steps)) <= Cost(e)
    decreases |steps|
  {
    if steps != [] {
      KindTail(steps);
      assert !NewMessage(steps[0]);
      StepCosts(e, steps[0]);
      SoundStep(e, steps[0]);
      forall i | 0 <= i < |steps[1..]| ensures !NewMessage(steps[1..][i]) {
        assert steps[1..][i] == steps[i + 1];
      }
      EffortCosts(Do(e, steps[0]), steps[1..]);
    }
  }

  /**
   * From a state of any run, whatever the scheduler does without new calls, failing sends and new messages from
   * the broker: all steps but idle ones together are no more than the work there was.
   */
  lemma WorkIsBounded(count: nat, size: nat, begin: seq<Step>, steps: seq<Step>)
    requires Legal(Init(count, size), begin) && D.Running(Run(Init(count, size), begin).session)
    requires Legal(Run(Init(count, size), begin), steps) && AllKind(steps) && NoNewMessages(steps)
    ensures var e := Run(Init(count, size), begin); Effort(e, steps) <= Cost(e)
  {
    ReachedSound(count, size, begin);
    EffortCosts(Run(Init(count, size), begin), steps);
  }

  /** And until the client is at rest or stuck there is such a step, if need be after one that idles. */
  lemma WorkIsNear(count: nat, size: nat, begin: seq<Step>)
    requires Legal(Init(count, size), begin) && D.Running(Run(Init(count, size), begin).session)
    requires !Stuck(Run(Init(count, size), begin)) && !Quiescent(Run(Init(count, size), begin))
    ensures var e := Run(Init(count, size), begin);
            && Enabled(e, Helpful(e)) && Kind(Helpful(e))
            && (Idles(e, Helpful(e)) ==>
                  var t := Do(e, Helpful(e));
                  Quiescent(t) || (Enabled(t, Helpful(t)) && Kind(Helpful(t)) && !Idles(t, Helpful(t))))
  {
    ReachedSound(count, size, begin);
    OnePollAway(Run(Init(count, size), begin));
  }

  lemma OnePollAway(e: Engine)
    requires Sound(e) && D.Running(e.session) && !Stuck(e) && !Quiescent(e)
    ensures Enabled(e, Helpful(e)) && Kind(Helpful(e))
    ensures Idles(e, Helpful(e)) ==>
              var t := Do(e, Helpful(e));
              Quiescent(t) || (Enabled(t, Helpful(t)) && Kind(Helpful(t)) && !Idles(t, Helpful(t)))
  {
    HelpfulEnabled(e);
    if Idles(e, Helpful(e)) {
      PollHelps(e);
      SoundStep(e, Helpful(e));
      AfterPoll(Do(e, Helpful(e)));
    }
  }

  lemma AfterPoll(e: Engine)
    requires Sound(e) && D.Running(e.session) && !Stuck(e) && D.Detour(e.session) == 0
    ensures Quiescent(e) || (Enabled(e, Helpful(e)) && Kind(Helpful(e)) && !Idles(e, Helpful(e)))
  {
    if !Quiescent(e) {
      HelpfulEnabled(e);
      if Idles(e, Helpful(e)) { PollHelps(e); }
    }
  }
}
