/** Every matching acknowledgement brings the handshakes one step nearer to their end. */
module Progress {
  import opened Bytes
  import opened Frames
  import opened AckQueue
  import opened Tallies
  import opened Session
  import opened Lives
  import opened Counts

  /** Acknowledgements a request still has to see: two for QoS 2, one for QoS 1 and for a ping. */
  function Left(): seq<Event> -> nat {
    (life: seq<Event>) =>
      if life == [] || EndsLost(life) then 0
      else if Begun(life, PUBREC) then (if |life| == 1 then 2 else if |life| <= 3 then 1 else 0)
      else if |life| == 1 then 1 else 0
  }

  function Outstanding(s: State): nat {
    Sum(s.lives, Left())
  }

  /** The step is a lookup that finds the record of a request. */
  predicate MatchesRequest(s: State, step: Step) {
    && Enabled(s, step) && step.WorkerLookup?
    && AckKey(s.worker.packet).0 != PUBREL
    && Lookup(s.ackQueue, AckKey(s.worker.packet).0, AckKey(s.worker.packet).1).FoundAt?
  }

  function NewWork(s: State, step: Step): nat
    requires Enabled(s, step)
  {
    if !step.AppEnqueueWaiting? then 0 else if s.app.record.messageType == PUBREC then 2 else 1
  }

  /**
   * A matching acknowledgement lowers the outstanding work by exactly one; besides, only a registration
   * raises it and only a failed PUBREL gives up the one acknowledgement that was left.
   */
  lemma WorkStep(s: State, step: Step)
    requires Told(s) && Enabled(s, step)
    ensures Outstanding(Do(s, step)) + One(MatchesRequest(s, step)) + One(step == WorkerRelease(false))
         == Outstanding(s) + NewWork(s, step)
  {
    match step
    case AppEnqueueWaiting =>
      SumAppend(s.lives, [Registered(s.app.record.messageType, s.app.record.packetId)], Left());
      assert Register(s).lives == s.lives + [[Registered(s.app.record.messageType, s.app.record.packetId)]];
    case WorkerLookup => LookupWork(s);
    case WorkerRelease(ok) => ReleaseWork(s, ok);
    case WorkerCallback => CallbackWork(s);
    case _ =>
  }

  lemma LifeWork(lives: seq<seq<Event>>, c: nat, e: Event)
    requires c < |lives|
    ensures Sum(lives[c := lives[c] + [e]], Left()) + Left()(lives[c]) == Sum(lives, Left()) + Left()(lives[c] + [e])
  {
    SumUpdate(lives, c, lives[c] + [e], Left());
  }

  lemma LookupWork(s: State)
    requires Told(s) && Enabled(s, WorkerLookup)
    ensures Outstanding(LookUp(s)) + One(MatchesRequest(s, WorkerLookup)) == Outstanding(s)
  {
    var key := AckKey(s.worker.packet);
    var r := Lookup(s.ackQueue, key.0, key.1);
    if r.FoundAt? && key.0 != PUBREL {
      var w := s.ackQueue[r.index];
      assert RecordOk(s, w);
      LifeWork(s.lives, w.context, Matched(key.0, key.1));
    }
  }

  lemma ReleaseWork(s: State, ok: bool)
    requires Told(s) && Enabled(s, WorkerRelease(ok))
    ensures Outstanding(Release(s, ok)) + One(!ok) == Outstanding(s)
  {
    var id := s.worker.record.packetId;
    LifeWork(s.lives, s.worker.record.context, if ok then PubrelSent(id) else PubrelLost(id));
  }

  lemma CallbackWork(s: State)
    requires Told(s) && Enabled(s, WorkerCallback)
    ensures Outstanding(Do(s, WorkerCallback)) == Outstanding(s)
  {
    LifeWork(s.lives, s.worker.record.context, CalledBack);
  }

  /** How many request acknowledgements were matched along a run. */
  function MatchedAlong(s: State, steps: seq<Step>): nat
    requires Legal(s, steps)
    decreases |steps|
  {
    if steps == [] then 0 else One(MatchesRequest(s, steps[0])) + MatchedAlong(Do(s, steps[0]), steps[1..])
  }

  predicate NoNewWork(steps: seq<Step>) {
    forall i :: 0 <= i < |steps| ==> steps[i] != AppEnqueueWaiting && steps[i] != WorkerRelease(false)
  }

  /** Without new requests and failed PUBRELs the work done is the number of acknowledgements matched. */
  lemma {:induction false} WorkAlong(s: State, steps: seq<Step>)
    requires Told(s) && Legal(s, steps) && NoNewWork(steps)
    ensures Outstanding(Run(s, steps)) + MatchedAlong(s, steps) == Outstanding(s)
    decreases |steps|
  {
    if steps != [] {
      WorkStep(s, steps[0]);
      ToldStep(s, steps[0]);
      assert steps[0] != AppEnqueueWaiting && steps[0] != WorkerRelease(false);
      forall i | 0 <= i < |steps[1..]|
        ensures steps[1..][i] != AppEnqueueWaiting && steps[1..][i] != WorkerRelease(false)
      {
        assert steps[1..][i] == steps[i + 1];
      }
      WorkAlong(Do(s, steps[0]), steps[1..]);
    }
  }

  /** With no callback about to be made, no work is left exactly when every request is finished. */
  lemma NoWorkLeft(s: State)
    requires Told(s) && !s.worker.Calling?
    ensures Outstanding(s) == 0 <==> forall c :: 0 <= c < |s.lives| ==> Finished(s.lives[c])
  {
    if Outstanding(s) == 0 {
      forall c | 0 <= c < |s.lives| ensures Finished(s.lives[c]) {
        assert LifeOk(s, c);
        SumMember(s.lives, c, Left());
        if !Finished(s.lives[c]) {
          NotAwaiting(s, c);
        }
      }
    } else if forall c :: 0 <= c < |s.lives| ==> Finished(s.lives[c]) {
      forall c | 0 <= c < |s.lives| ensures Left()(s.lives[c]) == 0 {
        assert LifeOk(s, c);
      }
      SumZero(s.lives, Left());
    }
  }

  /** An unfinished request has a record, and whatever type that has, it waits for something. */
  lemma NotAwaiting(s: State, c: nat)
    requires Told(s) && !s.worker.Calling? && c < |s.lives| && !Finished(s.lives[c])
    ensures Left()(s.lives[c]) > 0
  {
    assert LifeOk(s, c);
    if Tally(s.ackQueue, RequestOf(c)) > 0 {
      var i := TallyWitness(s.ackQueue, RequestOf(c));
      assert RecordOk(s, s.ackQueue[i]);
    }
  }

  /**
   * From a state of any run, while no new request is made and no PUBREL fails: all requests are finished
   * after exactly as many matching acknowledgements as were outstanding, and not before.
   */
  lemma FinishedAfterExactly(begin: seq<Step>, steps: seq<Step>)
    requires Legal(Init(), begin) && Legal(Run(Init(), begin), steps) && NoNewWork(steps)
    requires !Run(Run(Init(), begin), steps).worker.Calling?
    ensures var s := Run(Init(), begin);
            var t := Run(s, steps);
            (forall c :: 0 <= c < |t.lives| ==> Finished(t.lives[c])) <==> MatchedAlong(s, steps) == Outstanding(s)
  {
    var s := Run(Init(), begin);
    InitTold();
    ToldRun(Init(), begin);
    ToldRun(s, steps);
    WorkAlong(s, steps);
    NoWorkLeft(Run(s, steps));
  }
}
