/** The conservation law: acknowledgements waited for = on their way + lost with a failed send + unmatched. */
module Balance {
  import opened Bytes
  import opened Frames
  import opened AckQueue
  import opened Tallies
  import opened Session

  ghost predicate Settled(s: State, k: Key) {
    && Balanced(s, k)
    && (s.app.AppRegistering? ==> OwedKey(s.app.packet) == Some(KeyOf(s.app.record)))
    && (s.worker.Handling? ==> AsRead(s.worker.packet) == s.worker.packet)
  }

  /** The broker's answer to a packet is the acknowledgement owed for it. */
  lemma AnswerBrings(p: Packet, k: Key)
    ensures Tally(Answer(p), Brings(k)) == One(Owes(k)(p))
  {
    if Answer(p) != [] {
      TallyOne(Answer(p)[0], Brings(k));
      assert Answer(p) == [Answer(p)[0]];
      assert BroughtKey(Answer(p)[0]) == OwedKey(p);
    }
  }

  lemma ReadingKeepsKeys(p: Packet)
    ensures AsRead(AsRead(p)) == AsRead(p) && BroughtKey(AsRead(p)) == BroughtKey(p)
  {
  }

  // ----- one lemma per kind of step

  /** The channels and the send queue are the same in both states. */
  ghost predicate SameTraffic(s: State, t: State) {
    t.sendQueue == s.sendQueue && t.up == s.up && t.pending == s.pending && t.down == s.down && t.lost == s.lost
  }

  lemma RequestStep(s: State, step: Step, k: Key)
    requires Settled(s, k) && Enabled(s, step) && (step.AppPublish? || step.AppPing?)
    ensures Settled(Do(s, step), k)
  {
    var t := Do(s, step);
    assert SameTraffic(s, t) && t.worker == s.worker && t.ackQueue == s.ackQueue && t.unmatched == s.unmatched;
    match step
    case AppPing => PreparedOwes(s, PINGRESP, Pingreq);
    case AppPublish(qos, topic, msg, retain) =>
      var p := AsRead(Publish(qos, s.nextId, topic, msg, retain));
      if qos > 0 { PreparedOwes(s, if qos == 1 then PUBACK else PUBREC, p); }
    RequestBalance(s, t, k);
  }

  /** The record prepared waits for what the packet will bring about. */
  lemma PreparedOwes(s: State, messageType: nat, p: Packet)
    requires match p
             case Publish(qos, id, _, _, _) =>
               1 <= qos <= 2 && id == Wire(s.nextId) && messageType == if qos == 1 then PUBACK else PUBREC
             case Pingreq => messageType == PINGRESP
             case _ => false
    ensures OwedKey(p) == Some(KeyOf(Prepare(s, messageType, p).record))
  {
  }

  lemma RequestBalance(s: State, t: State, k: Key)
    requires Settled(s, k) && s.app.AppIdle? && !t.app.AppIdle?
    requires SameTraffic(s, t) && t.worker == s.worker && t.ackQueue == s.ackQueue && t.unmatched == s.unmatched
    requires t.app.AppSubmitting? ==> OwedKey(t.app.packet) == None
    requires t.app.AppRegistering? ==> OwedKey(t.app.packet) == Some(KeyOf(t.app.record))
    ensures Settled(t, k)
  {
  }

  lemma RegisterStep(s: State, k: Key)
    requires Settled(s, k) && Enabled(s, AppEnqueueWaiting)
    ensures Settled(Do(s, AppEnqueueWaiting), k)
  {
    var t := Do(s, AppEnqueueWaiting);
    assert SameTraffic(s, t) && t.worker == s.worker && t.unmatched == s.unmatched;
    assert t.app == AppSubmitting(s.app.packet) && t.ackQueue == s.ackQueue + [s.app.record];
    RegisterBalance(s, t, k);
  }

  lemma RegisterBalance(s: State, t: State, k: Key)
    requires Settled(s, k) && s.app.AppRegistering?
    requires SameTraffic(s, t) && t.worker == s.worker && t.unmatched == s.unmatched
    requires t.app == AppSubmitting(s.app.packet) && t.ackQueue == s.ackQueue + [s.app.record]
    ensures Settled(t, k)
  {
    TallyAppend(s.ackQueue, s.app.record, WaitsFor(k));
  }

  lemma SubmitStep(s: State, k: Key)
    requires Settled(s, k) && Enabled(s, AppEnqueueSlot)
    ensures Settled(Do(s, AppEnqueueSlot), k)
  {
    TallyAppend(s.sendQueue, s.app.packet, Owes(k));
  }

  lemma BrokerReadStep(s: State, k: Key)
    requires Settled(s, k) && Enabled(s, BrokerRead)
    ensures Settled(Do(s, BrokerRead), k)
  {
    AnswerBrings(s.up[0], k);
    TallyConcat(s.pending, Answer(s.up[0]), Brings(k));
  }

  lemma BrokerAnswerStep(s: State, i: nat, k: Key)
    requires Settled(s, k) && Enabled(s, BrokerAnswer(i))
    ensures Settled(Do(s, BrokerAnswer(i)), k)
  {
    TallyWithout(s.pending, i, Brings(k));
    TallyAppend(s.down, s.pending[i], Brings(k));
  }

  lemma BrokerPublishStep(s: State, p: Packet, k: Key)
    requires Settled(s, k) && Enabled(s, BrokerPublish(p))
    ensures Settled(Do(s, BrokerPublish(p)), k)
  {
    TallyAppend(s.down, p, Brings(k));
  }

  lemma SlotSendStep(s: State, ok: bool, k: Key)
    requires Settled(s, k) && Enabled(s, WorkerSend(ok))
    ensures Settled(Do(s, WorkerSend(ok)), k)
  {
    TallyAppend(s.up, s.worker.packet, Owes(k));
  }

  lemma ReceiveStep(s: State, arrived: bool, k: Key)
    requires Settled(s, k) && Enabled(s, WorkerReceive(arrived))
    ensures Settled(Do(s, WorkerReceive(arrived)), k)
  {
    if arrived { ReadingKeepsKeys(s.down[0]); }
  }

  lemma AnswersKey(w: Waiting, p: Packet)
    requires IsAck(p) && AsRead(p) == p && Answers(w, AckKey(p).0, AckKey(p).1)
    ensures BroughtKey(p) == Some(KeyOf(w))
  {
  }

  lemma LookupStep(s: State, k: Key)
    requires Settled(s, k) && Enabled(s, WorkerLookup)
    ensures Settled(Do(s, WorkerLookup), k)
  {
    var p, t := s.worker.packet, Do(s, WorkerLookup);
    var key := AckKey(p);
    var r := Lookup(s.ackQueue, key.0, key.1);
    assert SameTraffic(s, t) && t.app == s.app;
    assert BroughtKey(p) == Some((key.0, key.1));
    if r.FoundAt? {
      AnswersKey(s.ackQueue[r.index], p);
      assert t.ackQueue == Without(s.ackQueue, r.index) && t.unmatched == s.unmatched;
      FoundBalance(s, t, r.index, k);
    } else {
      assert t.ackQueue == s.ackQueue && t.unmatched == s.unmatched + multiset{(key.0, key.1)};
      MissBalance(s, t, (key.0, key.1), k);
    }
  }

  lemma FoundBalance(s: State, t: State, i: nat, k: Key)
    requires Settled(s, k) && s.worker.Handling? && i < |s.ackQueue|
    requires BroughtKey(s.worker.packet) == Some(KeyOf(s.ackQueue[i]))
    requires SameTraffic(s, t) && t.app == s.app && t.unmatched == s.unmatched
    requires t.ackQueue == Without(s.ackQueue, i)
    requires t.worker.Calling? || t.worker.Releasing? || t.worker.Completing?
    ensures Settled(t, k)
  {
    TallyWithout(s.ackQueue, i, WaitsFor(k));
  }

  lemma MissBalance(s: State, t: State, key: Key, k: Key)
    requires Settled(s, k) && s.worker.Handling? && BroughtKey(s.worker.packet) == Some(key)
    requires SameTraffic(s, t) && t.app == s.app && t.ackQueue == s.ackQueue
    requires t.unmatched == s.unmatched + multiset{key} && t.worker.Top?
    ensures Settled(t, k)
  {
  }

  /** The worker sends p (or nothing) and goes on to state w: what becomes of the two sides of the law. */
  lemma SendStep(s: State, t: State, sent: seq<Packet>, k: Key)
    requires |sent| <= 1 && t.up == s.up + sent
    requires t.sendQueue == s.sendQueue && t.ackQueue == s.ackQueue && t.app == s.app
    requires t.pending == s.pending && t.down == s.down && t.lost == s.lost && t.unmatched == s.unmatched
    requires t.worker.Top? || t.worker.Requeueing?
    requires s.worker.Releasing? || s.worker.Completing? || (s.worker.Handling? && !IsAck(s.worker.packet))
    requires Tally(sent, Owes(k)) == One(t.worker.Requeueing? && KeyOf(t.worker.record) == k)
    requires Settled(s, k)
    ensures Settled(t, k)
  {
    TallyConcat(s.up, sent, Owes(k));
  }

  lemma InboundStep(s: State, ok: bool, k: Key)
    requires Settled(s, k) && Enabled(s, WorkerInbound(ok))
    ensures Settled(Do(s, WorkerInbound(ok)), k)
  {
    var p, t := s.worker.packet, Do(s, WorkerInbound(ok));
    if p.Publish? && p.qos <= 2 {
      var sent := Reply(p, ok);
      if sent != [] { TallyOne(sent[0], Owes(k)); }
      SendStep(s, t, sent, k);
    } else {
      assert s.up + [] == s.up;
      SendStep(s, t, [], k);
    }
  }

  lemma ReleaseStep(s: State, ok: bool, k: Key)
    requires Settled(s, k) && Enabled(s, WorkerRelease(ok))
    ensures Settled(Do(s, WorkerRelease(ok)), k)
  {
    var sent := if ok then [Pubrel(s.worker.record.packetId)] else [];
    assert Do(s, WorkerRelease(ok)).up == s.up + sent;
    TallyOne(Pubrel(s.worker.record.packetId), Owes(k));
    SendStep(s, Do(s, WorkerRelease(ok)), sent, k);
  }

  lemma CompleteStep(s: State, ok: bool, k: Key)
    requires Settled(s, k) && Enabled(s, WorkerComplete(ok))
    ensures Settled(Do(s, WorkerComplete(ok)), k)
  {
    var sent := if ok then [Pubcomp(s.worker.record.packetId)] else [];
    assert Do(s, WorkerComplete(ok)).up == s.up + sent;
    TallyOne(Pubcomp(s.worker.record.packetId), Owes(k));
    SendStep(s, Do(s, WorkerComplete(ok)), sent, k);
  }

  /** Every step of every thread and of the broker keeps the law. */
  lemma SettledStep(s: State, step: Step, k: Key)
    requires Settled(s, k) && Enabled(s, step)
    ensures Settled(Do(s, step), k)
  {
    match step
    case AppPublish(_, _, _, _) => RequestStep(s, step, k);
    case AppPing => RequestStep(s, step, k);
    case AppEnqueueWaiting => RegisterStep(s, k);
    case AppEnqueueSlot => SubmitStep(s, k);
    case AppDisconnect =>
    case WorkerTake =>
    case WorkerSend(ok) => SlotSendStep(s, ok, k);
    case WorkerReceive(arrived) => ReceiveStep(s, arrived, k);
    case WorkerLookup => LookupStep(s, k);
    case WorkerInbound(ok) => InboundStep(s, ok, k);
    case WorkerRelease(ok) => ReleaseStep(s, ok, k);
    case WorkerComplete(ok) => CompleteStep(s, ok, k);
    case WorkerRequeue => TallyAppend(s.ackQueue, s.worker.record, WaitsFor(k));
    case WorkerCallback =>
    case BrokerRead => BrokerReadStep(s, k);
    case BrokerAnswer(i) => BrokerAnswerStep(s, i, k);
    case BrokerPublish(p) => BrokerPublishStep(s, p, k);
  }

  lemma {:induction false} SettledRun(s: State, steps: seq<Step>, k: Key)
    requires Settled(s, k) && Legal(s, steps)
    ensures Settled(Run(s, steps), k)
    decreases |steps|
  {
    if steps != [] {
      SettledStep(s, steps[0], k);
      SettledRun(Do(s, steps[0]), steps[1..], k);
    }
  }

  /** In every run, records and acknowledgements on their way balance. */
  lemma AlwaysBalanced(steps: seq<Step>, k: Key)
    requires Legal(Init(), steps)
    ensures Balanced(Run(Init(), steps), k)
  {
    SettledRun(Init(), steps, k);
  }
}
