/**
 * The client as one machine: the application's call, the slot pool and the session step together. What one
 * thread does under the mutex is one step, and while get_buffer_slot spins nobody else takes the mutex.
 */
module Coupling {
  import opened Bytes
  import opened Frames
  import opened Refinement
  import P = SlotPool
  import S = Session

  /** What smqtt_mt_publish and smqtt_mt_ping are asked to send. */
  datatype Request = PublishRequest(qos: Qos, topic: CString, msg: CString, retain: bool) | PingRequest

  /** Where the application thread is in its call, and what its local variables hold. */
  datatype Call =
    | NoCall
    | Wanting(request: Request)  // in get_buffer_slot, or about to fill the slot it got
    | Holding(len: nat)          // the slot is filled, enqueue_waiting and enqueue_slot_for_send come next

  datatype Engine = Engine(pool: P.Pool, session: S.State, call: Call)

  datatype Step =
    | Ask(request: Request) | Retry | Fill | Register | SetLength | Submit | Disconnect
    | Take | Send(ok: bool) | Recycle
    | Alone(step: S.Step)  // a step of the session thread, the broker or the network that concerns no slot

  function Init(count: nat, size: nat): Engine {
    Engine(P.Init(count, size), S.Init(), NoCall)
  }

  // ----- requests and their frames

  /** The request as a packet with the full 16-bit id. */
  function Raw(r: Request, id: uint16): S.Packet {
    match r
    case PublishRequest(qos, topic, msg, retain) => S.Publish(qos, id, topic, msg, retain)
    case PingRequest => S.Pingreq
  }

  /** The program accepts the request and the codec can carry its strings. */
  predicate Askable(r: Request) {
    r.PublishRequest? ==> r.qos <= 2 && |r.topic| < 256 && |r.msg| < 65536
  }

  /** What make_publish_message or make_pingreq_message writes. */
  function FrameOf(r: Request, id: uint16): seq<byte>
    requires Askable(r)
  {
    Encode(Raw(r, id))
  }

  /** A call can be made whenever none is under way and the client is connected; nothing else keeps it back. */
  lemma Accepts(e: Engine, r: Request)
    ensures Enabled(e, Ask(r)) <==>
              && e.call.NoCall? && e.pool.app.AppIdle? && e.session.app.AppIdle? && !e.session.stopping
              && (r.PublishRequest? ==> r.qos <= 2 && |r.topic| < 256 && |r.msg| < 65536)
              && forall i :: 0 <= i < |e.pool.slots| ==> |FrameOf(r, 0)| <= |e.pool.slots[i].buffer|
  {
  }

  /** In the whole client broker and network are never held up, and the session thread only by the mutex. */
  lemma HeldUpByMutexOnly(e: Engine, s: S.Step)
    requires S.Enabled(e.session, s)
    ensures s.BrokerRead? || s.BrokerAnswer? || s.BrokerPublish? ==> Enabled(e, Alone(s))
    ensures s.WorkerReceive? || s.WorkerInbound? || s.WorkerRelease? || s.WorkerComplete? || s.WorkerCallback? ==>
              (Enabled(e, Alone(s)) <==> e.pool.worker.WorkerIdle?)
    ensures s.WorkerLookup? || s.WorkerRequeue? ==>
              (Enabled(e, Alone(s)) <==> e.pool.worker.WorkerIdle? && !e.pool.app.AppSpinning?)
    ensures s.WorkerTake? && (e.session.stopping || e.session.sendQueue == []) ==>
              (Enabled(e, Alone(s)) <==> e.pool.worker.WorkerIdle? && !e.pool.app.AppSpinning?)
    ensures s.WorkerTake? && !e.session.stopping && e.session.sendQueue != [] && e.pool.send != [] ==>
              (Enabled(e, Take) <==> e.pool.worker.WorkerIdle? && !e.pool.app.AppSpinning?)
    ensures s.WorkerSend? ==> (Enabled(e, Send(s.ok)) <==> P.Enabled(e.pool, P.WorkerSend))
  {
  }

  lemma SameSize(r: Request, id: uint16)
    requires Askable(r)
    ensures |FrameOf(r, id)| == |FrameOf(r, 0)|
  {
  }

  /** BUFFER_SIZE is enough for the frame, as the program takes for granted. */
  ghost predicate Fits(slots: seq<P.Slot>, r: Request)
    requires Askable(r)
  {
    forall i :: 0 <= i < |slots| ==> |FrameOf(r, 0)| <= |slots[i].buffer|
  }

  // ----- steps

  predicate ByWorker(s: S.Step) {
    s.WorkerTake? || s.WorkerReceive? || s.WorkerLookup? || s.WorkerInbound? || s.WorkerRelease? || s.WorkerComplete?
    || s.WorkerRequeue? || s.WorkerCallback?
  }

  predicate ByBroker(s: S.Step) {
    s.BrokerRead? || s.BrokerAnswer? || s.BrokerPublish?
  }

  predicate Locks(s: S.Step) {
    s.WorkerTake? || s.WorkerLookup? || s.WorkerRequeue?
  }

  /** Where the call, the mutex and the session thread's place in its loop allow the step. */
  ghost predicate Allowed(e: Engine, step: Step) {
    match step
    case Ask(r) =>
      e.call.NoCall? && e.session.app.AppIdle? && !e.session.stopping && Askable(r) && Fits(e.pool.slots, r)
    case Retry => e.call.Wanting?
    case Fill =>
      && e.call.Wanting? && Askable(e.call.request) && e.pool.app.AppFilling? && e.pool.app.slot < |e.pool.slots|
      && |FrameOf(e.call.request, e.session.nextId)| <= |e.pool.slots[e.pool.app.slot].buffer|
    case Register => e.call.Holding?
    case SetLength => e.call.Holding? && e.session.app.AppSubmitting?
    case Submit => e.call.Holding?
    case Disconnect => e.call.NoCall?
    case Take => !e.session.stopping && e.session.sendQueue != []
    case Send(_) => true
    case Recycle => true
    case Alone(s) =>
      && (ByBroker(s) || (ByWorker(s) && e.pool.worker.WorkerIdle?))
      && (Locks(s) ==> !e.pool.app.AppSpinning?)
      && (s.WorkerTake? ==> e.session.stopping || e.session.sendQueue == [])
  }

  /** The pool's part in the step. */
  ghost function PoolPart(e: Engine, step: Step): Option<P.Step>
    requires Allowed(e, step)
  {
    match step
    case Ask(_) => Some(P.AppAsk)
    case Retry => Some(P.AppRetry)
    case Fill =>
      var frame := FrameOf(e.call.request, e.session.nextId);
      Some(P.AppWrite(frame + e.pool.slots[e.pool.app.slot].buffer[|frame|..]))
    case SetLength => Some(P.AppSetLength(e.call.len))
    case Submit => Some(P.AppSubmit)
    case Take => Some(P.WorkerTake)
    case Send(_) => Some(P.WorkerSend)
    case Recycle => Some(P.WorkerRecycle)
    case _ => None
  }

  function Asks(r: Request): S.Step {
    match r
    case PublishRequest(qos, topic, msg, retain) => S.AppPublish(qos, topic, msg, retain)
    case PingRequest => S.AppPing
  }

  /** The session's part in the step. */
  ghost function SessionPart(e: Engine, step: Step): Option<S.Step>
    requires Allowed(e, step)
  {
    match step
    case Fill => Some(Asks(e.call.request))
    case Register => Some(S.AppEnqueueWaiting)
    case Submit => Some(S.AppEnqueueSlot)
    case Disconnect => Some(S.AppDisconnect)
    case Take => Some(S.WorkerTake)
    case Send(ok) => Some(S.WorkerSend(ok))
    case Alone(s) => Some(s)
    case _ => None
  }

  ghost predicate Enabled(e: Engine, step: Step) {
    && Allowed(e, step)
    && var p, s := PoolPart(e, step), SessionPart(e, step);
       (p.Some? ==> P.Enabled(e.pool, p.value)) && (s.Some? ==> S.Enabled(e.session, s.value))
  }

  ghost function CallAfter(e: Engine, step: Step): Call
    requires Allowed(e, step)
  {
    match step
    case Ask(r) => Wanting(r)
    case Fill => Holding(|FrameOf(e.call.request, e.session.nextId)|)
    case Submit => NoCall
    case _ => e.call
  }

  ghost function Do(e: Engine, step: Step): Engine
    requires Enabled(e, step)
  {
    var p, s := PoolPart(e, step), SessionPart(e, step);
    Engine(if p.Some? then P.Do(e.pool, p.value) else e.pool,
           if s.Some? then S.Do(e.session, s.value) else e.session,
           CallAfter(e, step))
  }

  ghost predicate Legal(e: Engine, steps: seq<Step>)
    decreases |steps|
  {
    steps == [] || (Enabled(e, steps[0]) && Legal(Do(e, steps[0]), steps[1..]))
  }

  ghost function Run(e: Engine, steps: seq<Step>): Engine
    requires Legal(e, steps)
    decreases |steps|
  {
    if steps == [] then e else Run(Do(e, steps[0]), steps[1..])
  }

  lemma Prepend(e: Engine, step: Step, rest: seq<Step>)
    requires Enabled(e, step) && Legal(Do(e, step), rest)
    ensures Legal(e, [step] + rest) && Run(e, [step] + rest) == Run(Do(e, step), rest)
  {
    assert ([step] + rest)[1..] == rest;
  }

  // ----- every run of the machine is a run of the session and a run of the pool

  ghost function SessionSteps(e: Engine, steps: seq<Step>): seq<S.Step>
    requires Legal(e, steps)
    decreases |steps|
  {
    if steps == [] then []
    else
      var s := SessionPart(e, steps[0]);
      (if s.Some? then [s.value] else []) + SessionSteps(Do(e, steps[0]), steps[1..])
  }

  ghost function PoolSteps(e: Engine, steps: seq<Step>): seq<P.Step>
    requires Legal(e, steps)
    decreases |steps|
  {
    if steps == [] then []
    else
      var p := PoolPart(e, steps[0]);
      (if p.Some? then [p.value] else []) + PoolSteps(Do(e, steps[0]), steps[1..])
  }

  /** So all that holds in every run of the session holds of the session in every run of the whole client. */
  lemma {:induction false} SessionRuns(e: Engine, steps: seq<Step>)
    requires Legal(e, steps)
    ensures S.Legal(e.session, SessionSteps(e, steps))
    ensures S.Run(e.session, SessionSteps(e, steps)) == Run(e, steps).session
    decreases |steps|
  {
    if steps != [] {
      var s, t := SessionPart(e, steps[0]), Do(e, steps[0]);
      var rest := SessionSteps(t, steps[1..]);
      SessionRuns(t, steps[1..]);
      if s.Some? {
        TwoSteps(e.session, s.value, rest);
      } else {
        assert [] + rest == rest;
      }
    }
  }

  lemma {:induction false} PoolRuns(e: Engine, steps: seq<Step>)
    requires Legal(e, steps)
    ensures P.Legal(e.pool, PoolSteps(e, steps))
    ensures P.Run(e.pool, PoolSteps(e, steps)) == Run(e, steps).pool
    decreases |steps|
  {
    if steps != [] {
      var p, t := PoolPart(e, steps[0]), Do(e, steps[0]);
      var rest := PoolSteps(t, steps[1..]);
      PoolRuns(t, steps[1..]);
      if p.Some? {
        P.OneStep(e.pool, p.value, rest);
      } else {
        assert [] + rest == rest;
      }
    }
  }

  // ----- pool, session and call agree

  /** get_buffer_slot has a slot, or it spins because there is none. */
  predicate GotOrSpins(p: P.Pool) {
    (p.app.AppSpinning? && p.free == []) || (p.app.AppFilling? && p.app.slot < |p.slots|)
  }

  ghost predicate CallAgrees(e: Engine) {
    match e.call
    case NoCall => e.pool.app.AppIdle? && e.session.app.AppIdle?
    case Wanting(r) =>
      && GotOrSpins(e.pool)
      && e.session.app.AppIdle? && !e.session.stopping && Askable(r) && Fits(e.pool.slots, r)
    case Holding(len) =>
      && (e.pool.app.AppFilling? || (e.pool.app.AppReady? && e.session.app.AppSubmitting?))
      && e.pool.app.slot < |e.pool.slots| && !e.session.app.AppIdle?
      && var slot := e.pool.slots[e.pool.app.slot];
         len <= |slot.buffer| && (e.pool.app.AppReady? ==> slot.length == len)
  }

  predicate WorkerAgrees(e: Engine) {
    && (e.session.worker.Sending? <==> e.pool.worker.WorkerSending?)
    && (e.pool.worker.WorkerRecycling? ==> e.session.worker.Receiving?)
  }

  /** When a block of bytes stands for a packet. */
  type Reading = (seq<byte>, S.Packet) -> bool

  /** The packets submitted and not yet sent, the one in the session thread's hands first. */
  function Unsent(s: S.State): seq<S.Packet> {
    (if s.worker.Sending? then [s.worker.packet] else []) + s.sendQueue
  }

  ghost predicate Read(blocks: seq<seq<byte>>, packets: seq<S.Packet>, stands: Reading) {
    |blocks| == |packets| && forall i :: 0 <= i < |blocks| ==> stands(blocks[i], packets[i])
  }

  /** The bytes in the slot being filled stand for the packet the application has in mind. */
  ghost predicate HeldReads(e: Engine, stands: Reading)
    requires CallAgrees(e)
  {
    e.call.Holding? ==> stands(e.pool.slots[e.pool.app.slot].buffer[..e.call.len], e.session.app.packet)
  }

  /** `blocks` are the blocks that the pool holds for server_send. */
  ghost predicate Joined(e: Engine, blocks: seq<seq<byte>>, stands: Reading) {
    CallAgrees(e) && WorkerAgrees(e) && Read(blocks, Unsent(e.session), stands) && HeldReads(e, stands)
  }

  ghost predicate Coupled(e: Engine, stands: Reading) {
    P.Inv(e.pool) && Joined(e, P.Pending(e.pool), stands)
  }

  /** The reading holds of every frame the builders write: a built frame stands for the packet as it arrives. */
  ghost predicate Faithful(stands: Reading) {
    forall p :: Encodable(p) ==> stands(Encode(p), S.AsRead(p))
  }

  lemma PoolMoves(p: P.Pool, step: P.Step)
    requires P.Inv(p) && P.Enabled(p, step) && !step.AppSubmit? && !step.WorkerSend?
    ensures P.Inv(P.Do(p, step)) && P.Pending(P.Do(p, step)) == P.Pending(p)
  {
    P.RefinesFifo(p, step);
    P.InvStep(p, step);
  }

  lemma PoolSubmits(p: P.Pool)
    requires P.Inv(p) && P.Enabled(p, P.AppSubmit)
    ensures var t := P.Do(p, P.AppSubmit);
            P.Inv(t) && P.Pending(t) == P.Pending(p) + [p.slots[p.app.slot].Block()]
  {
    P.SubmitPuts(p);
    P.InvStep(p, P.AppSubmit);
  }

  lemma PoolSends(p: P.Pool)
    requires P.Inv(p) && P.Enabled(p, P.WorkerSend)
    ensures var t, block := P.Do(p, P.WorkerSend), p.slots[p.worker.slot].Block();
            && P.Inv(t) && t.handed == p.handed + [block]
            && P.Pending(p) != [] && P.Pending(p)[0] == block && P.Pending(t) == P.Pending(p)[1..]
  {
    P.RefinesFifo(p, P.WorkerSend);
    P.InvStep(p, P.WorkerSend);
  }

  // ----- what each step does, part by part

  lemma CallSteps(e: Engine)
    ensures forall r :: Enabled(e, Ask(r)) ==>
              && e.call.NoCall? && e.session.app.AppIdle? && !e.session.stopping && Askable(r) && Fits(e.pool.slots, r)
              && P.Enabled(e.pool, P.AppAsk) && Do(e, Ask(r)) == Engine(P.TakeFree(e.pool), e.session, Wanting(r))
    ensures Enabled(e, Retry) ==>
              && e.call.Wanting? && P.Enabled(e.pool, P.AppRetry)
              && Do(e, Retry) == e.(pool := P.TakeFree(e.pool))
    ensures Enabled(e, Register) ==>
              && e.call.Holding? && S.Enabled(e.session, S.AppEnqueueWaiting)
              && Do(e, Register) == e.(session := S.Register(e.session))
    ensures Enabled(e, SetLength) ==>
              && e.call.Holding? && e.session.app.AppSubmitting? && P.Enabled(e.pool, P.AppSetLength(e.call.len))
              && Do(e, SetLength) == e.(pool := P.Do(e.pool, P.AppSetLength(e.call.len)))
    ensures Enabled(e, Submit) ==>
              && e.call.Holding? && P.Enabled(e.pool, P.AppSubmit) && S.Enabled(e.session, S.AppEnqueueSlot)
              && Do(e, Submit)
                 == Engine(P.Do(e.pool, P.AppSubmit),
                           e.session.(app := S.AppIdle, sendQueue := e.session.sendQueue + [e.session.app.packet]),
                           NoCall)
    ensures Enabled(e, Disconnect) ==>
              && e.call.NoCall? && e.session.app.AppIdle?
              && Do(e, Disconnect) == e.(session := e.session.(stopping := true))
  {
  }

  lemma FillStep(e: Engine)
    requires Enabled(e, Fill)
    ensures e.call.Wanting? && Askable(e.call.request) && e.pool.app.AppFilling? && e.pool.app.slot < |e.pool.slots|
    ensures S.Enabled(e.session, Asks(e.call.request))
    ensures var frame, slot := FrameOf(e.call.request, e.session.nextId), e.pool.slots[e.pool.app.slot];
            && |frame| <= |slot.buffer| && P.Enabled(e.pool, P.AppWrite(frame + slot.buffer[|frame|..]))
            && Do(e, Fill) == Engine(P.Do(e.pool, P.AppWrite(frame + slot.buffer[|frame|..])),
                                     S.Do(e.session, Asks(e.call.request)), Holding(|frame|))
  {
  }

  /** The slot is filled with the frame of the very request, and the session is asked for the same. */
  lemma FillCarries(e: Engine)
    requires Enabled(e, Fill)
    ensures var r, slot := e.call.request, Do(e, Fill).pool.slots[e.pool.app.slot];
            match r
            case PublishRequest(qos, topic, msg, retain) =>
              && PublishFrame(PublishArgs(topic, e.session.nextId, qos, retain, Some(msg))) <= slot.buffer
              && Do(e, Fill).call.len == |PublishFrame(PublishArgs(topic, e.session.nextId, qos, retain, Some(msg)))|
              && Do(e, Fill).session == S.Do(e.session, S.AppPublish(qos, topic, msg, retain))
            case PingRequest =>
              && [192, 0] <= slot.buffer && Do(e, Fill).call.len == 2
              && Do(e, Fill).session == S.Do(e.session, S.AppPing)
  {
    FillStep(e);
  }

  lemma WorkerSteps(e: Engine)
    ensures Enabled(e, Take) ==>
              && P.Enabled(e.pool, P.WorkerTake)
              && e.session.worker.Top? && !e.session.stopping && e.session.sendQueue != []
              && Do(e, Take) == e.(pool := P.Do(e.pool, P.WorkerTake), session := S.Do(e.session, S.WorkerTake))
    ensures forall ok :: Enabled(e, Send(ok)) ==>
              && P.Enabled(e.pool, P.WorkerSend) && e.session.worker.Sending?
              && Do(e, Send(ok)) == e.(pool := P.Do(e.pool, P.WorkerSend), session := S.Do(e.session, S.WorkerSend(ok)))
    ensures Enabled(e, Recycle) ==>
              P.Enabled(e.pool, P.WorkerRecycle) && Do(e, Recycle) == e.(pool := P.Do(e.pool, P.WorkerRecycle))
  {
  }

  lemma AloneStep(e: Engine, step: S.Step)
    requires Enabled(e, Alone(step))
    ensures ByBroker(step) || (ByWorker(step) && e.pool.worker.WorkerIdle?)
    ensures Locks(step) ==> !e.pool.app.AppSpinning?
    ensures step.WorkerTake? ==> e.session.stopping || e.session.sendQueue == []
    ensures S.Enabled(e.session, step) && Do(e, Alone(step)) == e.(session := S.Do(e.session, step))
  {
  }

  // ----- and that each keeps the parts together

  /** A free slot that is taken is one of the slots. */
  lemma TakenSlot(p: P.Pool)
    requires P.Inv(p)
    ensures var t := P.TakeFree(p);
            t.slots == p.slots && t.worker == p.worker && GotOrSpins(t)
  {
    P.OwnedOnce(p);
    if p.free != [] { assert p.free[0] in p.free; }
  }

  lemma AskKeeps(e: Engine, r: Request, stands: Reading)
    requires Coupled(e, stands) && Enabled(e, Ask(r))
    ensures Coupled(Do(e, Ask(r)), stands)
  {
    CallSteps(e);
    PoolMoves(e.pool, P.AppAsk);
    TakenSlot(e.pool);
    WantingJoins(e, Engine(P.TakeFree(e.pool), e.session, Wanting(r)), r, P.Pending(e.pool), stands);
  }

  lemma WantingJoins(e: Engine, t: Engine, r: Request, blocks: seq<seq<byte>>, stands: Reading)
    requires Joined(e, blocks, stands) && e.session.app.AppIdle? && !e.session.stopping && Askable(r)
    requires Fits(e.pool.slots, r)
    requires t.call == Wanting(r) && t.session == e.session && t.pool.slots == e.pool.slots
    requires t.pool.worker == e.pool.worker
    requires GotOrSpins(t.pool)
    ensures Joined(t, blocks, stands)
  {
  }

  lemma RetryKeeps(e: Engine, stands: Reading)
    requires Coupled(e, stands) && Enabled(e, Retry)
    ensures Coupled(Do(e, Retry), stands)
  {
    CallSteps(e);
    PoolMoves(e.pool, P.AppRetry);
    TakenSlot(e.pool);
    WantingJoins(e, e.(pool := P.TakeFree(e.pool)), e.call.request, P.Pending(e.pool), stands);
  }

  /** The builder's frame now stands at the start of the slot. */
  lemma FillJoins(e: Engine, t: Engine, frame: seq<byte>, blocks: seq<seq<byte>>, stands: Reading)
    requires Joined(e, blocks, stands) && e.call.Wanting? && e.pool.app.AppFilling?
    requires var i := e.pool.app.slot;
             && |frame| <= |e.pool.slots[i].buffer| && t.pool.app == e.pool.app && t.pool.worker == e.pool.worker
             && t.pool.slots
                == e.pool.slots[i := e.pool.slots[i].(buffer := frame + e.pool.slots[i].buffer[|frame|..])]
    requires t.session == e.session.(app := t.session.app) && !t.session.app.AppIdle? && t.call == Holding(|frame|)
    requires stands(frame, t.session.app.packet)
    ensures Joined(t, blocks, stands)
  {
    var rest := e.pool.slots[e.pool.app.slot].buffer[|frame|..];
    assert (frame + rest)[..|frame|] == frame;
    assert Unsent(t.session) == Unsent(e.session);
  }

  lemma AsksPacket(s: S.State, r: Request)
    requires S.Enabled(s, Asks(r))
    ensures var t := S.Do(s, Asks(r));
            && t == s.(app := t.app) && !t.app.AppIdle? && t.app.packet == S.AsRead(Raw(r, s.nextId))
  {
  }

  lemma FillKeeps(e: Engine, stands: Reading)
    requires Coupled(e, stands) && Faithful(stands) && Enabled(e, Fill)
    ensures Coupled(Do(e, Fill), stands)
  {
    FillStep(e);
    var r := e.call.request;
    var frame := FrameOf(r, e.session.nextId);
    PoolMoves(e.pool, P.AppWrite(frame + e.pool.slots[e.pool.app.slot].buffer[|frame|..]));
    AsksPacket(e.session, r);
    assert stands(Encode(Raw(r, e.session.nextId)), S.AsRead(Raw(r, e.session.nextId)));
    FillJoins(e, Do(e, Fill), frame, P.Pending(e.pool), stands);
  }

  lemma RegisterKeeps(e: Engine, stands: Reading)
    requires Coupled(e, stands) && Enabled(e, Register)
    ensures Coupled(Do(e, Register), stands)
  {
    CallSteps(e);
    RegisterJoins(e, S.Register(e.session), P.Pending(e.pool), stands);
  }

  lemma RegisterJoins(e: Engine, s: S.State, blocks: seq<seq<byte>>, stands: Reading)
    requires Joined(e, blocks, stands) && e.call.Holding? && e.session.app.AppRegistering? && s == S.Register(e.session)
    ensures Joined(e.(session := s), blocks, stands)
  {
    assert s.worker == e.session.worker && s.sendQueue == e.session.sendQueue;
    assert s.app == S.AppSubmitting(e.session.app.packet);
  }

  lemma SetLengthKeeps(e: Engine, stands: Reading)
    requires Coupled(e, stands) && Enabled(e, SetLength)
    ensures Coupled(Do(e, SetLength), stands)
  {
    CallSteps(e);
    PoolMoves(e.pool, P.AppSetLength(e.call.len));
    SetLengthJoins(e, P.Do(e.pool, P.AppSetLength(e.call.len)), P.Pending(e.pool), stands);
  }

  lemma SetLengthJoins(e: Engine, p: P.Pool, blocks: seq<seq<byte>>, stands: Reading)
    requires Joined(e, blocks, stands) && e.call.Holding? && e.session.app.AppSubmitting? && e.pool.app.AppFilling?
    requires var i := e.pool.app.slot;
             && p.app == P.AppReady(i) && p.worker == e.pool.worker
             && p.slots == e.pool.slots[i := e.pool.slots[i].(length := e.call.len)]
    ensures Joined(e.(pool := p), blocks, stands)
  {
  }

  lemma SubmitKeeps(e: Engine, stands: Reading)
    requires Coupled(e, stands) && Enabled(e, Submit)
    ensures Coupled(Do(e, Submit), stands)
  {
    CallSteps(e);
    PoolSubmits(e.pool);
    SubmitJoins(e, Do(e, Submit), P.Pending(e.pool), stands);
  }

  lemma SubmitJoins(e: Engine, t: Engine, blocks: seq<seq<byte>>, stands: Reading)
    requires Joined(e, blocks, stands) && e.call.Holding? && e.pool.app.AppReady?
    requires t.call.NoCall? && t.pool.app.AppIdle? && t.pool.worker == e.pool.worker
    requires t.session == e.session.(app := S.AppIdle, sendQueue := e.session.sendQueue + [e.session.app.packet])
    ensures Joined(t, blocks + [e.pool.slots[e.pool.app.slot].Block()], stands)
  {
    assert Unsent(t.session) == Unsent(e.session) + [e.session.app.packet];
  }

  lemma TakeKeeps(e: Engine, stands: Reading)
    requires Coupled(e, stands) && Enabled(e, Take)
    ensures Coupled(Do(e, Take), stands)
  {
    WorkerSteps(e);
    PoolMoves(e.pool, P.WorkerTake);
    TakeJoins(e, P.Do(e.pool, P.WorkerTake), P.Pending(e.pool), stands);
  }

  lemma TakeJoins(e: Engine, p: P.Pool, blocks: seq<seq<byte>>, stands: Reading)
    requires Joined(e, blocks, stands) && e.session.worker.Top? && !e.session.stopping && e.session.sendQueue != []
    requires p == e.pool.(send := p.send, worker := p.worker) && p.worker.WorkerSending?
    ensures Joined(e.(pool := p, session := S.Do(e.session, S.WorkerTake)), blocks, stands)
  {
    assert Unsent(S.Do(e.session, S.WorkerTake)) == Unsent(e.session);
  }

  lemma SendKeeps(e: Engine, ok: bool, stands: Reading)
    requires Coupled(e, stands) && Enabled(e, Send(ok))
    ensures Coupled(Do(e, Send(ok)), stands)
    ensures var t, block := Do(e, Send(ok)), e.pool.slots[e.pool.worker.slot].Block();
            && t.pool.handed == e.pool.handed + [block] && stands(block, e.session.worker.packet)
            && t.session.up == e.session.up + (if ok then [e.session.worker.packet] else [])
  {
    WorkerSteps(e);
    PoolSends(e.pool);
    SendJoins(e, P.Do(e.pool, P.WorkerSend), ok, P.Pending(e.pool), stands);
  }

  lemma SendJoins(e: Engine, p: P.Pool, ok: bool, blocks: seq<seq<byte>>, stands: Reading)
    requires Joined(e, blocks, stands) && e.session.worker.Sending?
    requires p == e.pool.(handed := p.handed, worker := p.worker) && p.worker.WorkerRecycling?
    ensures blocks != [] && stands(blocks[0], e.session.worker.packet)
    ensures var s := S.Do(e.session, S.WorkerSend(ok));
            && Joined(e.(pool := p, session := s), blocks[1..], stands)
            && s.up == e.session.up + (if ok then [e.session.worker.packet] else [])
  {
    var s := S.Do(e.session, S.WorkerSend(ok));
    assert s.worker == S.Receiving && s.sendQueue == e.session.sendQueue && s.app == e.session.app;
    assert Unsent(e.session)[0] == e.session.worker.packet && Unsent(s) == Unsent(e.session)[1..];
    assert e.session.up + [] == e.session.up;
  }

  lemma RecycleKeeps(e: Engine, stands: Reading)
    requires Coupled(e, stands) && Enabled(e, Recycle)
    ensures Coupled(Do(e, Recycle), stands)
  {
    WorkerSteps(e);
    PoolMoves(e.pool, P.WorkerRecycle);
    RecycleJoins(e, P.Do(e.pool, P.WorkerRecycle), P.Pending(e.pool), stands);
  }

  lemma RecycleJoins(e: Engine, p: P.Pool, blocks: seq<seq<byte>>, stands: Reading)
    requires Joined(e, blocks, stands) && e.pool.worker.WorkerRecycling? && !e.pool.app.AppSpinning?
    requires p == e.pool.(free := p.free, worker := P.WorkerIdle)
    ensures Joined(e.(pool := p), blocks, stands)
  {
  }

  /** What a step of the session that concerns no slot leaves alone. */
  ghost predicate Leaves(s: S.State, t: S.State) {
    && t.app == s.app && t.stopping == s.stopping
    && t.issued == s.issued && t.nextId == s.nextId && |t.lives| == |s.lives|
    && t.sendQueue == s.sendQueue && Unsent(t) == Unsent(s)
    && (t.worker.Sending? <==> s.worker.Sending?)
  }

  lemma BrokerLeaves(s: S.State, step: S.Step)
    requires S.Enabled(s, step) && ByBroker(step)
    ensures Leaves(s, S.Do(s, step)) && S.Do(s, step).worker == s.worker && S.Do(s, step).ackQueue == s.ackQueue
  {
  }

  lemma WorkerLeaves(s: S.State, step: S.Step)
    requires S.Enabled(s, step) && ByWorker(step) && (step.WorkerTake? ==> s.stopping || s.sendQueue == [])
    ensures Leaves(s, S.Do(s, step)) && (!Locks(step) ==> S.Do(s, step).ackQueue == s.ackQueue)
  {
    match step
    case WorkerLookup =>
    case WorkerInbound(_) =>
    case WorkerRelease(_) =>
    case WorkerComplete(_) =>
    case _ =>
  }

  lemma AloneLeaves(s: S.State, step: S.Step)
    requires S.Enabled(s, step) && (ByWorker(step) || ByBroker(step))
    requires step.WorkerTake? ==> s.stopping || s.sendQueue == []
    ensures Leaves(s, S.Do(s, step)) && (!Locks(step) ==> S.Do(s, step).ackQueue == s.ackQueue)
    ensures ByBroker(step) ==> S.Do(s, step).worker == s.worker
  {
    if ByBroker(step) { BrokerLeaves(s, step); } else { WorkerLeaves(s, step); }
  }

  lemma AloneKeeps(e: Engine, step: S.Step, stands: Reading)
    requires Coupled(e, stands) && Enabled(e, Alone(step))
    ensures Coupled(Do(e, Alone(step)), stands)
  {
    AloneStep(e, step);
    AloneLeaves(e.session, step);
    AloneJoins(e, S.Do(e.session, step), P.Pending(e.pool), stands);
  }

  lemma AloneJoins(e: Engine, s: S.State, blocks: seq<seq<byte>>, stands: Reading)
    requires Joined(e, blocks, stands) && Unsent(s) == Unsent(e.session)
    requires s.app == e.session.app && s.stopping == e.session.stopping
    requires s.worker.Sending? <==> e.session.worker.Sending?
    requires s.worker == e.session.worker || e.pool.worker.WorkerIdle?
    ensures Joined(e.(session := s), blocks, stands)
  {
  }

  lemma DisconnectKeeps(e: Engine, stands: Reading)
    requires Coupled(e, stands) && Enabled(e, Disconnect)
    ensures Coupled(Do(e, Disconnect), stands)
  {
    CallSteps(e);
    DisconnectJoins(e, e.session.(stopping := true), P.Pending(e.pool), stands);
  }

  lemma DisconnectJoins(e: Engine, s: S.State, blocks: seq<seq<byte>>, stands: Reading)
    requires Joined(e, blocks, stands) && e.call.NoCall? && s == e.session.(stopping := true)
    ensures Joined(e.(session := s), blocks, stands)
  {
    assert Unsent(s) == Unsent(e.session);
  }

  lemma CoupledStep(e: Engine, step: Step, stands: Reading)
    requires Coupled(e, stands) && Faithful(stands) && Enabled(e, step)
    ensures Coupled(Do(e, step), stands)
  {
    match step
    case Ask(r) => AskKeeps(e, r, stands);
    case Retry => RetryKeeps(e, stands);
    case Fill => FillKeeps(e, stands);
    case Register => RegisterKeeps(e, stands);
    case SetLength => SetLengthKeeps(e, stands);
    case Submit => SubmitKeeps(e, stands);
    case Disconnect => DisconnectKeeps(e, stands);
    case Take => TakeKeeps(e, stands);
    case Send(ok) => SendKeeps(e, ok, stands);
    case Recycle => RecycleKeeps(e, stands);
    case Alone(s) => AloneKeeps(e, s, stands);
  }

  lemma {:induction false} CoupledRun(e: Engine, steps: seq<Step>, stands: Reading)
    requires Coupled(e, stands) && Faithful(stands) && Legal(e, steps)
    ensures Coupled(Run(e, steps), stands)
    decreases |steps|
  {
    if steps != [] {
      CoupledStep(e, steps[0], stands);
      CoupledRun(Do(e, steps[0]), steps[1..], stands);
    }
  }

  lemma InitCoupled(count: nat, size: nat, stands: Reading)
    ensures Coupled(Init(count, size), stands)
  {
    P.InitInv(count, size);
  }

  /** Whatever holds of the frames the builders write holds of every block handed to server_send from a slot. */
  lemma SentAsBuilt(count: nat, size: nat, steps: seq<Step>, ok: bool, stands: Reading)
    requires Faithful(stands) && Legal(Init(count, size), steps)
    requires Enabled(Run(Init(count, size), steps), Send(ok))
    ensures var e := Run(Init(count, size), steps);
            var t := Do(e, Send(ok));
            && |t.pool.handed| == |e.pool.handed| + 1 && e.pool.handed <= t.pool.handed
            && stands(t.pool.handed[|e.pool.handed|], e.session.worker.packet)
            && t.session.up == e.session.up + (if ok then [e.session.worker.packet] else [])
  {
    InitCoupled(count, size, stands);
    CoupledRun(Init(count, size), steps, stands);
    SendKeeps(Run(Init(count, size), steps), ok, stands);
  }

  ghost function Deserialised(): Reading {
    (block: seq<byte>, packet: S.Packet) => ReadsAs(block, |block|, packet)
  }

  lemma CodecIsFaithful()
    ensures Faithful(Deserialised())
  {
    forall p | Encodable(p) ensures Deserialised()(Encode(p), S.AsRead(p)) {
      EncodedReadsAs(p, Encode(p));
    }
  }

  /**
   * In every run of the whole client, the bytes handed to server_send from a slot deserialise to exactly the
   * packet that the protocol then has on the wire.
   */
  lemma SlotsCarryThePackets(count: nat, size: nat, steps: seq<Step>, ok: bool)
    requires Legal(Init(count, size), steps)
    requires Enabled(Run(Init(count, size), steps), Send(ok))
    ensures var e := Run(Init(count, size), steps);
            var t := Do(e, Send(ok));
            && |t.pool.handed| == |e.pool.handed| + 1 && e.pool.handed <= t.pool.handed
            && t.session.up == e.session.up + (if ok then [e.session.worker.packet] else [])
            && var block := t.pool.handed[|e.pool.handed|]; ReadsAs(block, |block|, e.session.worker.packet)
  {
    CodecIsFaithful();
    SentAsBuilt(count, size, steps, ok, Deserialised());
  }
}
