/**
 * The client of libsmqttclient_mt as a transition system: one application thread (smqttc_mt.c), the session
 * thread (connection.c), the broker and the two channels between them. A step is one critical section, one
 * server_send, one server_receive or one callback; `Step` arguments carry what the environment decides.
 * Packets are what the codec makes of frames, so ids in them are the low bytes that survive the wire.
 */
module Session {
  import opened Bytes
  import opened Frames
  import opened AckQueue
  import opened Tallies

  datatype Packet =
    | Publish(qos: Qos, packetId: uint16, topic: seq<byte>, msg: seq<byte>, retain: bool)
    | Puback(packetId: uint16)
    | Pubrec(packetId: uint16)
    | Pubrel(packetId: uint16)
    | Pubcomp(packetId: uint16)
    | Pingreq
    | Pingresp

  /** The id that SER_short and short_from_buffer let through. */
  function Wire(id: uint16): uint16 {
    id % 256
  }

  /** The packet as deserialize_response presents it. */
  function AsRead(p: Packet): Packet {
    match p
    case Publish(qos, id, topic, msg, retain) => Publish(qos, if qos >= 1 then Wire(id) else 0, topic, msg, retain)
    case Puback(id) => Puback(Wire(id))
    case Pubrec(id) => Pubrec(Wire(id))
    case Pubrel(id) => Pubrel(Wire(id))
    case Pubcomp(id) => Pubcomp(Wire(id))
    case _ => p
  }

  datatype App =
    | AppIdle
    | AppRegistering(packet: Packet, record: Waiting)  // serialised, enqueue_waiting comes next
    | AppSubmitting(packet: Packet)                    // enqueue_slot_for_send comes next

  datatype Worker =
    | Top                                // about to look at the send queue
    | Sending(packet: Packet)            // holds a slot
    | Receiving                          // about to call server_receive
    | Handling(packet: Packet)           // has deserialised a response
    | Calling(record: Waiting)           // about to call a request's callback
    | Releasing(record: Waiting)         // PUBREC matched, about to send PUBREL
    | Completing(record: Waiting)        // PUBREL matched, about to send PUBCOMP
    | Requeueing(record: Waiting)        // about to call enqueue_waiting
    | Stopped

  /**
   * The life of a request as the steps of the program write it down: the record registered, the type and id of
   * an acknowledgement that found it, the id of the PUBREL handed to server_send.
   */
  datatype Event =
    | Registered(messageType: nat, packetId: uint16)
    | Matched(messageType: nat, packetId: uint16)
    | PubrelSent(packetId: uint16)
    | PubrelLost(packetId: uint16)
    | CalledBack

  /** The life of a received PUBLISH. */
  datatype Heard = Heard(packet: Packet, events: seq<Hearing>)

  datatype Hearing =
    | AckSent | AckLost | ReleasedBy(packetId: uint16) | CompLost
    | Delivered(topic: seq<byte>, msg: seq<byte>, retain: bool)

  type Key = (nat, nat)

  datatype State = State(
    sendQueue: seq<Packet>,
    ackQueue: seq<Waiting>,
    nextId: uint16,
    app: App,
    worker: Worker,
    stopping: bool,
    up: seq<Packet>,
    pending: seq<Packet>,
    down: seq<Packet>,
    issued: nat,
    lives: seq<seq<Event>>,
    heard: seq<Heard>,
    lost: multiset<Key>,
    unmatched: multiset<Key>)

  datatype Step =
    | AppPublish(qos: Qos, topic: seq<byte>, msg: seq<byte>, retain: bool)
    | AppPing
    | AppEnqueueWaiting
    | AppEnqueueSlot
    | AppDisconnect
    | WorkerTake
    | WorkerSend(ok: bool)
    | WorkerReceive(arrived: bool)
    | WorkerLookup
    | WorkerInbound(ok: bool)
    | WorkerRelease(ok: bool)
    | WorkerComplete(ok: bool)
    | WorkerRequeue
    | WorkerCallback
    | BrokerRead
    | BrokerAnswer(k: nat)
    | BrokerPublish(packet: Packet)

  function Init(): State {
    State([], [], 1, AppIdle, Top, false, [], [], [], 0, [], [], multiset{}, multiset{})
  }

  // ----- the broker

  /** What a conforming broker owes for a packet it has read. */
  function Answer(p: Packet): seq<Packet> {
    match p
    case Publish(qos, id, _, _, _) => if qos == 1 then [Puback(id)] else if qos == 2 then [Pubrec(id)] else []
    case Pubrel(id) => [Pubcomp(id)]
    case Pubrec(id) => [Pubrel(id)]
    case Pingreq => [Pingresp]
    case _ => []
  }

  // ----- the client

  function Request(messageType: nat, packetId: uint16, context: nat): Waiting {
    Waiting(messageType, packetId, context, [], [], false)
  }

  /** The type and id an arriving acknowledgement is looked up by. */
  function AckKey(p: Packet): (nat, uint16) {
    match p
    case Puback(id) => (PUBACK, id)
    case Pubrec(id) => (PUBREC, id)
    case Pubrel(id) => (PUBREL, id)
    case Pubcomp(id) => (PUBCOMP, id)
    case Pingresp => (PINGRESP, 0)
    case _ => (0, 0)
  }

  predicate IsAck(p: Packet) {
    p.Puback? || p.Pubrec? || p.Pubrel? || p.Pubcomp? || p.Pingresp?
  }

  predicate Enabled(s: State, step: Step) {
    match step
    case AppPublish(qos, _, _, _) => s.app.AppIdle? && !s.stopping && qos <= 2
    case AppPing => s.app.AppIdle? && !s.stopping
    case AppEnqueueWaiting => s.app.AppRegistering?
    case AppEnqueueSlot => s.app.AppSubmitting?
    case AppDisconnect => s.app.AppIdle?
    case WorkerTake => s.worker.Top?
    case WorkerSend(_) => s.worker.Sending?
    case WorkerReceive(arrived) => s.worker.Receiving? && (arrived ==> s.down != [])
    case WorkerLookup => s.worker.Handling? && IsAck(s.worker.packet)
    case WorkerInbound(_) => s.worker.Handling? && !IsAck(s.worker.packet)
    case WorkerRelease(_) => s.worker.Releasing? && s.worker.record.context < |s.lives|
    case WorkerComplete(_) => s.worker.Completing? && s.worker.record.context < |s.heard|
    case WorkerRequeue => s.worker.Requeueing?
    case WorkerCallback => s.worker.Calling? && s.worker.record.context < |s.lives|
    case BrokerRead => s.up != []
    case BrokerAnswer(k) => k < |s.pending|
    case BrokerPublish(p) => p.Publish? && p.qos <= 2
  }

  function Live(s: State, context: nat, e: Event): seq<seq<Event>> {
    if context < |s.lives| then s.lives[context := s.lives[context] + [e]] else s.lives
  }

  function Hear(s: State, serial: nat, e: Hearing): seq<Heard> {
    if serial < |s.heard| then s.heard[serial := s.heard[serial].(events := s.heard[serial].events + [e])] else s.heard
  }

  /** The request as prepared in its slot; QoS 0 registers nothing. */
  function Prepare(s: State, messageType: nat, packet: Packet): App {
    AppRegistering(packet, Request(messageType, if messageType == PINGRESP then 0 else s.nextId, |s.lives|))
  }

  function PreparePublish(s: State, qos: Qos, topic: seq<byte>, msg: seq<byte>, retain: bool): App {
    var packet := AsRead(Publish(qos, s.nextId, topic, msg, retain));
    if qos == 0 then AppSubmitting(packet) else Prepare(s, if qos == 1 then PUBACK else PUBREC, packet)
  }

  /** enqueue_waiting and the id increment that follows it. */
  function Register(s: State): State
    requires s.app.AppRegistering?
  {
    var w := s.app.record;
    var t := s.(ackQueue := s.ackQueue + [w], lives := s.lives + [[Registered(w.messageType, w.packetId)]],
                app := AppSubmitting(s.app.packet));
    if w.messageType == PINGRESP then t else t.(nextId := NextId(s.nextId), issued := s.issued + 1)
  }

  /** The lookup under the mutex and the branch taken on its result. */
  function LookUp(s: State): State
    requires s.worker.Handling?
  {
    var key := AckKey(s.worker.packet);
    var r := Lookup(s.ackQueue, key.0, key.1);
    if !r.FoundAt? then s.(worker := Top, unmatched := s.unmatched + multiset{key})
    else
      var w := s.ackQueue[r.index];
      var t := s.(ackQueue := Without(s.ackQueue, r.index));
      if key.0 == PUBREL then
        t.(worker := Completing(w), heard := Hear(s, w.context, ReleasedBy(key.1)))
      else
        t.(worker := if key.0 == PUBREC then Releasing(w) else Calling(w),
           lives := Live(s, w.context, Matched(key.0, key.1)))
  }

  /** The acknowledgement sent for a received PUBLISH. */
  function Reply(p: Packet, ok: bool): seq<Packet> {
    if !ok || !p.Publish? then []
    else if p.qos == 1 then [Puback(p.packetId)]
    else if p.qos == 2 then [Pubrec(p.packetId)]
    else []
  }

  /** maybe_deliver_message works on copies made with strncpy. */
  function Delivery(p: Packet): Hearing
    requires p.Publish?
  {
    Delivered(StrNCpy(p.topic), StrNCpy(p.msg), p.retain)
  }

  function FirstHearing(p: Packet, ok: bool): seq<Hearing>
    requires p.Publish?
  {
    if p.qos == 0 then [Delivery(p)]
    else if !ok then [AckLost]
    else if p.qos == 1 then [AckSent, Delivery(p)]
    else [AckSent]
  }

  /** The record that keeps a QoS 2 message until its PUBREL; `context` numbers the received messages. */
  function StoredRecord(p: Packet, serial: nat): Waiting
    requires p.Publish?
  {
    Waiting(PUBREL, p.packetId, serial, StrNCpy(p.topic), StrNCpy(p.msg), p.retain)
  }

  /** A received PUBLISH: deliver at QoS 0, acknowledge first at QoS 1, store for PUBREL at QoS 2. */
  function Inbound(s: State, ok: bool): State
    requires s.worker.Handling?
  {
    var p := s.worker.packet;
    if !p.Publish? || p.qos > 2 then s.(worker := Top)
    else
      s.(worker := if p.qos == 2 && ok then Requeueing(StoredRecord(p, |s.heard|)) else Top,
         up := s.up + Reply(p, ok),
         heard := s.heard + [Heard(p, FirstHearing(p, ok))])
  }

  function Release(s: State, ok: bool): State
    requires s.worker.Releasing?
  {
    var w := s.worker.record;
    if ok then
      s.(worker := Requeueing(w.(messageType := PUBCOMP)), up := s.up + [Pubrel(w.packetId)],
         lives := Live(s, w.context, PubrelSent(w.packetId)))
    else s.(worker := Top, lives := Live(s, w.context, PubrelLost(w.packetId)))
  }

  function Complete(s: State, ok: bool): State
    requires s.worker.Completing?
  {
    var w := s.worker.record;
    if ok then
      s.(worker := Top, up := s.up + [Pubcomp(w.packetId)],
         heard := Hear(s, w.context, Delivered(w.topic, w.msg, w.retain)))
    else s.(worker := Top, heard := Hear(s, w.context, CompLost))
  }

  function Just(k: Option<Key>): multiset<Key> {
    if k.Some? then multiset{k.value} else multiset{}
  }

  function Do(s: State, step: Step): State
    requires Enabled(s, step)
  {
    match step
    case AppPublish(qos, topic, msg, retain) =>
      s.(app := PreparePublish(s, qos, topic, msg, retain))
    case AppPing => s.(app := Prepare(s, PINGRESP, Pingreq))
    case AppEnqueueWaiting => Register(s)
    case AppEnqueueSlot => s.(app := AppIdle, sendQueue := s.sendQueue + [s.app.packet])
    case AppDisconnect => s.(stopping := true)
    case WorkerTake =>
      if s.stopping then s.(worker := Stopped)
      else if s.sendQueue == [] then s.(worker := Receiving)
      else s.(worker := Sending(s.sendQueue[0]), sendQueue := s.sendQueue[1..])
    case WorkerSend(ok) =>
      if ok then s.(worker := Receiving, up := s.up + [s.worker.packet])
      else s.(worker := Receiving, lost := s.lost + Just(OwedKey(s.worker.packet)))
    case WorkerReceive(arrived) =>
      if arrived then s.(worker := Handling(AsRead(s.down[0])), down := s.down[1..]) else s.(worker := Top)
    case WorkerLookup => LookUp(s)
    case WorkerInbound(ok) => Inbound(s, ok)
    case WorkerRelease(ok) => Release(s, ok)
    case WorkerComplete(ok) => Complete(s, ok)
    case WorkerRequeue => s.(worker := Top, ackQueue := s.ackQueue + [s.worker.record])
    case WorkerCallback => s.(worker := Top, lives := Live(s, s.worker.record.context, CalledBack))
    case BrokerRead => s.(up := s.up[1..], pending := s.pending + Answer(s.up[0]))
    case BrokerAnswer(k) => s.(pending := s.pending[..k] + s.pending[k + 1..], down := s.down + [s.pending[k]])
    case BrokerPublish(p) => s.(down := s.down + [p])
  }

  predicate Legal(s: State, steps: seq<Step>)
    decreases |steps|
  {
    steps == [] || (Enabled(s, steps[0]) && Legal(Do(s, steps[0]), steps[1..]))
  }

  function Run(s: State, steps: seq<Step>): State
    requires Legal(s, steps)
    decreases |steps|
  {
    if steps == [] then s else Run(Do(s, steps[0]), steps[1..])
  }

  // ----- acknowledgements owed and expected

  /** The key of the acknowledgement that a packet from the client will bring about. */
  function OwedKey(p: Packet): Option<Key> {
    match p
    case Publish(qos, id, _, _, _) =>
      if qos == 1 then Some((PUBACK, Wire(id))) else if qos == 2 then Some((PUBREC, Wire(id))) else None
    case Pubrel(id) => Some((PUBCOMP, Wire(id)))
    case Pubrec(id) => Some((PUBREL, Wire(id)))
    case Pingreq => Some((PINGRESP, 0))
    case _ => None
  }

  /** The key of the acknowledgement that a packet from the broker is. */
  function BroughtKey(p: Packet): Option<Key> {
    if IsAck(p) then Some((AckKey(AsRead(p)).0, AckKey(AsRead(p)).1)) else None
  }

  /** The key of the acknowledgement a record waits for. */
  function KeyOf(w: Waiting): Key {
    (w.messageType, if w.messageType == PINGRESP then 0 else Wire(w.packetId))
  }

  function Owes(k: Key): Packet -> bool {
    (p: Packet) => OwedKey(p) == Some(k)
  }

  function Brings(k: Key): Packet -> bool {
    (p: Packet) => BroughtKey(p) == Some(k)
  }

  function WaitsFor(k: Key): Waiting -> bool {
    (w: Waiting) => KeyOf(w) == k
  }

  /** Acknowledgements on their way: queued or sent requests, answers the broker owes, answers travelling back. */
  function Travelling(s: State, k: Key): nat {
    One(s.app.AppSubmitting? && Owes(k)(s.app.packet))
    + Tally(s.sendQueue, Owes(k))
    + One(s.worker.Sending? && Owes(k)(s.worker.packet))
    + Tally(s.up, Owes(k)) + Tally(s.pending, Brings(k)) + Tally(s.down, Brings(k))
    + One(s.worker.Handling? && Brings(k)(s.worker.packet))
  }

  /** Acknowledgements some record waits for. */
  function Expected(s: State, k: Key): nat {
    Tally(s.ackQueue, WaitsFor(k)) + One(s.worker.Requeueing? && WaitsFor(k)(s.worker.record))
  }

  /** The conservation law of the handshakes, in both directions, for the acknowledgements with key k. */
  ghost predicate Balanced(s: State, k: Key) {
    Expected(s, k) == Travelling(s, k) + s.lost[k] + s.unmatched[k]
  }
}
