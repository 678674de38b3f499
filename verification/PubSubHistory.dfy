/** What the state of the bus says about the calls that were made: who asked for which topic, who called what off,
    and whom a Publish call reaches, by the steps of the run alone. */
module PubSubHistory {
  import opened PubSubModel
  import opened PubSubSafety
  import opened PubSubDelivery

  lemma {:induction false} RunSplit(s: State, a: seq<Step>, b: seq<Step>)
    ensures Possible(s, a + b) <==> Possible(s, a) && Possible(Run(s, a), b)
    ensures Possible(s, a + b) ==> Run(s, a + b) == Run(Run(s, a), b)
    decreases |a|
  {
    if a == [] {
      assert a + b == b;
    } else {
      assert (a + b)[1..] == a[1..] + b;
      if Enabled(s, a[0]) {
        RunSplit(Next(s, a[0]), a[1..], b);
      }
    }
  }

  lemma LastStep(s: State, steps: seq<Step>)
    requires steps != [] && Possible(s, steps)
    ensures var n := |steps| - 1;
            && steps == steps[..n] + [steps[n]] && Possible(s, steps[..n]) && Enabled(Run(s, steps[..n]), steps[n])
            && Run(s, steps) == Next(Run(s, steps[..n]), steps[n])
  {
    var n := |steps| - 1;
    assert steps == steps[..n] + [steps[n]];
    RunSplit(s, steps[..n], [steps[n]]);
  }

  // ---------- What a call was made with ----------

  lemma PubMadeWith(s: State, step: Step, p: PubId)
    requires Enabled(s, step)
    ensures p in Next(s, step).pubs <==> p in s.pubs || (step.Publish? && step.pub == p)
    ensures p in s.pubs ==>
              Next(s, step).pubs[p].topic == s.pubs[p].topic && Next(s, step).pubs[p].data == s.pubs[p].data
    ensures step.Publish? && step.pub == p ==>
              Next(s, step).pubs[p].topic == step.topic && Next(s, step).pubs[p].data == step.data
    ensures step.Publish? && step.pub == p ==> p !in s.pubs
  {
    if !OfPublisher(step) {
      PubsUntouched(s, step);
    }
  }

  /** There is a call named `p` if and only if a step made it, and it is for the topic and with the data of
      that step. */
  lemma {:induction false} PublishMade(capacity: nat, steps: seq<Step>, p: PubId, topic: Topic, data: string)
    requires Possible(Init(capacity), steps)
    ensures var s := Run(Init(capacity), steps);
            Step.Publish(p, topic, data) in steps <==>
            p in s.pubs && s.pubs[p].topic == topic && s.pubs[p].data == data
    decreases |steps|
  {
    if steps == [] {
    } else {
      var n := |steps| - 1;
      LastStep(Init(capacity), steps);
      PublishMade(capacity, steps[..n], p, topic, data);
      PubMadeWith(Run(Init(capacity), steps[..n]), steps[n], p);
    }
  }

  lemma SubMadeWith(s: State, step: Step, i: SubId)
    requires Enabled(s, step)
    ensures i in Next(s, step).subs <==> i in s.subs || (step.Subscribe? && step.sub == i)
    ensures i in s.subs ==> Next(s, step).subs[i].topic == s.subs[i].topic
    ensures step.Subscribe? && step.sub == i ==> Next(s, step).subs[i].topic == step.topic && i !in s.subs
  {
    if OfPublisher(step) || OfCloser(step) {
      if step.Send? || step.Hand? {
        assert Next(s, step).subs.Keys == s.subs.Keys;
      } else {
        SubsUntouched(s, step);
      }
    }
  }

  lemma {:induction false} SubscribeMade(capacity: nat, steps: seq<Step>, i: SubId, topic: Topic)
    requires Possible(Init(capacity), steps)
    ensures var s := Run(Init(capacity), steps);
            Step.Subscribe(i, topic) in steps <==> i in s.subs && s.subs[i].topic == topic
    decreases |steps|
  {
    if steps == [] {
    } else {
      var n := |steps| - 1;
      LastStep(Init(capacity), steps);
      SubscribeMade(capacity, steps[..n], i, topic);
      SubMadeWith(Run(Init(capacity), steps[..n]), steps[n], i);
    }
  }

  /** The close signal comes first: a call made after it is refused as closed, even for an empty topic; before it,
      one for an empty topic is refused as that, and any other is let in. */
  lemma CallAnswers(s: State, p: PubId, i: SubId, topic: Topic, data: string)
    requires Enabled(s, Step.Publish(p, topic, data)) && Enabled(s, Step.Subscribe(i, topic))
    ensures Next(s, Step.Publish(p, topic, data)).pubs[p].phase ==
            if s.Closed() then Returned(PubSubClosed) else if topic == "" then Returned(InvalidTopic) else Checked
    ensures Next(s, Step.Subscribe(i, topic)).subs[i].phase ==
            if s.Closed() then Refused(PubSubClosed) else if topic == "" then Refused(InvalidTopic) else Fresh
  {
  }

  // ---------- What was called off ----------

  lemma ClosedBy(s: State, step: Step)
    requires Enabled(s, step)
    ensures Next(s, step).Closed() <==> s.Closed() || step == Step.Close
  {
  }

  lemma {:induction false} ClosedIff(capacity: nat, steps: seq<Step>)
    requires Possible(Init(capacity), steps)
    ensures Run(Init(capacity), steps).Closed() <==> Step.Close in steps
    decreases |steps|
  {
    if steps == [] {
    } else {
      LastStep(Init(capacity), steps);
      ClosedIff(capacity, steps[..|steps| - 1]);
      ClosedBy(Run(Init(capacity), steps[..|steps| - 1]), steps[|steps| - 1]);
    }
  }

  lemma PubCancelledBy(s: State, step: Step, p: PubId)
    requires Enabled(s, step) && p in Next(s, step).pubs
    ensures Next(s, step).pubs[p].cancelled <==>
            (p in s.pubs && s.pubs[p].cancelled) || step == Step.CancelPublish(p)
  {
    if !OfPublisher(step) {
      PubsUntouched(s, step);
    }
  }

  lemma {:induction false} PubCancelledIff(capacity: nat, steps: seq<Step>, p: PubId)
    requires Possible(Init(capacity), steps)
    ensures var s := Run(Init(capacity), steps);
            p in s.pubs && s.pubs[p].cancelled <==> Step.CancelPublish(p) in steps
    decreases |steps|
  {
    if steps == [] {
    } else {
      var n := |steps| - 1;
      LastStep(Init(capacity), steps);
      PubCancelledIff(capacity, steps[..n], p);
      PubMadeWith(Run(Init(capacity), steps[..n]), steps[n], p);
      if p in Run(Init(capacity), steps).pubs {
        PubCancelledBy(Run(Init(capacity), steps[..n]), steps[n], p);
      }
    }
  }

  lemma SubCancelledBy(s: State, step: Step, i: SubId)
    requires Enabled(s, step) && i in Next(s, step).subs && Next(s, step).subs[i].cancelled
    ensures (i in s.subs && s.subs[i].cancelled) || step == Step.CancelSubscription(i) || s.Closed()
  {
    if OfPublisher(step) || OfCloser(step) {
      if !step.Send? && !step.Hand? {
        SubsUntouched(s, step);
      }
    }
  }

  lemma {:induction false} SubCancelledOnly(capacity: nat, steps: seq<Step>, i: SubId)
    requires Possible(Init(capacity), steps) && Step.CancelSubscription(i) !in steps && Step.Close !in steps
    ensures var s := Run(Init(capacity), steps); i in s.subs ==> !s.subs[i].cancelled
    decreases |steps|
  {
    if steps == [] {
    } else {
      var n := |steps| - 1;
      LastStep(Init(capacity), steps);
      SubCancelledOnly(capacity, steps[..n], i);
      ClosedIff(capacity, steps[..n]);
      var s := Run(Init(capacity), steps);
      if i in s.subs && s.subs[i].cancelled {
        SubCancelledBy(Run(Init(capacity), steps[..n]), steps[n], i);
      }
    }
  }

  /** Nobody called off the call, the subscription or the bus. */
  ghost predicate Undisturbed(steps: seq<Step>, p: PubId, i: SubId) {
    Step.CancelPublish(p) !in steps && Step.CancelSubscription(i) !in steps && Step.Close !in steps
  }

  lemma NothingCalledOff(capacity: nat, steps: seq<Step>, p: PubId, i: SubId)
    requires Possible(Init(capacity), steps) && Undisturbed(steps, p, i)
    requires p in Run(Init(capacity), steps).pubs && i in Run(Init(capacity), steps).subs
    ensures !CalledOff(Run(Init(capacity), steps), p, i)
  {
    ClosedIff(capacity, steps);
    PubCancelledIff(capacity, steps, p);
    SubCancelledOnly(capacity, steps, i);
  }

  // ---------- Who is subscribed ----------

  predicate WasInserted(phase: SubPhase) {
    Listed(phase) || WasDeleted(phase)
  }

  predicate WasDeleted(phase: SubPhase) {
    phase.Deleted? || phase.Unlocked? || phase.Finished?
  }

  lemma PhaseMoves(s: State, step: Step, i: SubId)
    requires Enabled(s, step) && i in Next(s, step).subs
    ensures WasInserted(PhaseOf(Next(s, step), i)) <==>
            (i in s.subs && WasInserted(PhaseOf(s, i))) || step == Step.Insert(i)
    ensures WasDeleted(PhaseOf(Next(s, step), i)) <==>
            (i in s.subs && WasDeleted(PhaseOf(s, i))) || step == Step.Delete(i)
  {
    if OfPublisher(step) || OfCloser(step) {
      if !step.Send? && !step.Hand? {
        SubsUntouched(s, step);
      }
    }
  }

  lemma {:induction false} ListedIff(capacity: nat, steps: seq<Step>, i: SubId)
    requires Possible(Init(capacity), steps)
    ensures var s := Run(Init(capacity), steps);
            && (i in s.subs && WasInserted(PhaseOf(s, i)) <==> Step.Insert(i) in steps)
            && (i in s.subs && WasDeleted(PhaseOf(s, i)) <==> Step.Delete(i) in steps)
    decreases |steps|
  {
    if steps == [] {
    } else {
      var n := |steps| - 1;
      LastStep(Init(capacity), steps);
      ListedIff(capacity, steps[..n], i);
      SubMadeWith(Run(Init(capacity), steps[..n]), steps[n], i);
      if i in Run(Init(capacity), steps).subs {
        PhaseMoves(Run(Init(capacity), steps[..n]), steps[n], i);
      }
    }
  }

  /** The goroutine of the subscription has been woken. */
  predicate WasWoken(phase: SubPhase) {
    phase.Woken? || phase.WantDelete? || phase.HoldDelete? || WasDeleted(phase)
  }

  lemma WakingCancels(s: State, step: Step, i: SubId)
    requires Enabled(s, step) && i in Next(s, step).subs && WasWoken(PhaseOf(Next(s, step), i))
    requires i in s.subs && WasWoken(PhaseOf(s, i)) ==> s.subs[i].cancelled
    ensures Next(s, step).subs[i].cancelled
  {
    if OfPublisher(step) || OfCloser(step) {
      if !step.Send? && !step.Hand? {
        SubsUntouched(s, step);
      }
    }
  }

  lemma {:induction false} WokenIsCancelled(capacity: nat, steps: seq<Step>, i: SubId)
    requires Possible(Init(capacity), steps)
    ensures var s := Run(Init(capacity), steps); i in s.subs && WasWoken(PhaseOf(s, i)) ==> s.subs[i].cancelled
    decreases |steps|
  {
    if steps == [] {
    } else {
      LastStep(Init(capacity), steps);
      WokenIsCancelled(capacity, steps[..|steps| - 1], i);
      var s := Run(Init(capacity), steps);
      if i in s.subs && WasWoken(PhaseOf(s, i)) {
        WakingCancels(Run(Init(capacity), steps[..|steps| - 1]), steps[|steps| - 1], i);
      }
    }
  }

  /** A subscription lasts until it is cancelled or the bus is closed. */
  lemma SubscriptionLasts(capacity: nat, steps: seq<Step>, i: SubId)
    requires Possible(Init(capacity), steps) && Step.Delete(i) in steps
    ensures Step.CancelSubscription(i) in steps || Step.Close in steps
  {
    ListedIff(capacity, steps, i);
    WokenIsCancelled(capacity, steps, i);
    if Step.CancelSubscription(i) !in steps && Step.Close !in steps {
      SubCancelledOnly(capacity, steps, i);
    }
  }

  /** At the end of these steps `i` is subscribed to the topic: it asked for it, was inserted, and not deleted. */
  ghost predicate Subscribed(steps: seq<Step>, i: SubId, topic: Topic) {
    Step.Subscribe(i, topic) in steps && Step.Insert(i) in steps && Step.Delete(i) !in steps
  }

  /** Whom a call is to reach is settled when it takes the read lock: whoever is subscribed then to the topic it
      was made with. */
  lemma TargetsAtLockTime(capacity: nat, before: seq<Step>, p: PubId, topic: Topic, data: string, i: SubId)
    requires Possible(Init(capacity), before) && Enabled(Run(Init(capacity), before), Step.LockRead(p))
    requires Step.Publish(p, topic, data) in before
    ensures i in Next(Run(Init(capacity), before), Step.LockRead(p)).pubs[p].targets <==> Subscribed(before, i, topic)
  {
    var s := Run(Init(capacity), before);
    InitSafe(capacity);
    RunDelivery(Init(capacity), before);
    LockReadTargets(s, p);
    PublishMade(capacity, before, p, topic, data);
    SubscribeMade(capacity, before, i, topic);
    ListedIff(capacity, before, i);
  }

  lemma {:induction false} TargetsLast(s: State, steps: seq<Step>, p: PubId)
    requires Possible(s, steps) && p in s.pubs && s.pubs[p].phase != Checked
    ensures p in Run(s, steps).pubs && Run(s, steps).pubs[p].targets == s.pubs[p].targets
    ensures Run(s, steps).pubs[p].after == s.pubs[p].after
    decreases |steps|
  {
    if steps == [] {
    } else {
      TargetsStay(s, steps[0], p);
      TargetsLast(Next(s, steps[0]), steps[1..], p);
    }
  }

  /** When a call has returned without an error: whoever was subscribed to its topic when it took the read lock
      has taken its message exactly once, unless the call, that subscription or the bus was called off; and
      nobody else has taken it. */
  lemma PublishReaches(capacity: nat, before: seq<Step>, rest: seq<Step>, p: PubId, topic: Topic, data: string,
                       i: SubId)
    requires var steps := before + [Step.LockRead(p)] + rest;
             && Possible(Init(capacity), steps) && Step.Publish(p, topic, data) in before
             && p in Run(Init(capacity), steps).pubs && Run(Init(capacity), steps).pubs[p].phase == Returned(NoError)
             && i in Run(Init(capacity), steps).subs
    ensures var steps := before + [Step.LockRead(p)] + rest;
            var times := multiset(Accepted(Run(Init(capacity), steps).subs[i].ch))[p];
            && times <= 1
            && (Subscribed(before, i, topic) && Undisturbed(steps, p, i) ==> times == 1)
            && (!Subscribed(before, i, topic) ==> times == 0)
  {
    var steps := before + [Step.LockRead(p)] + rest;
    RunSplit(Init(capacity), before + [Step.LockRead(p)], rest);
    RunSplit(Init(capacity), before, [Step.LockRead(p)]);
    var s, s0 := Run(Init(capacity), steps), Run(Init(capacity), before);
    TargetsAtLockTime(capacity, before, p, topic, data, i);
    TargetsLast(Next(s0, Step.LockRead(p)), rest, p);
    PublishDelivers(capacity, steps, p);
    if Undisturbed(steps, p, i) {
      NothingCalledOff(capacity, steps, p, i);
    }
  }

  // ---------- Order ----------

  lemma {:induction false} AfterLast(s: State, steps: seq<Step>, q: PubId)
    requires Possible(s, steps) && q in s.pubs
    ensures q in Run(s, steps).pubs && Run(s, steps).pubs[q].after == s.pubs[q].after
    decreases |steps|
  {
    if steps == [] {
    } else {
      PubsKept(s, steps[0]);
      AfterKept(s, steps[0], q);
      AfterLast(Next(s, steps[0]), steps[1..], q);
    }
  }

  /** A call made after another has returned comes after it in every channel that took both. */
  lemma LaterCallComesLater(capacity: nat, before: seq<Step>, rest: seq<Step>, p: PubId, q: PubId, topic: Topic,
                            data: string, i: SubId, a: nat, b: nat)
    requires var steps := before + [Step.Publish(q, topic, data)] + rest;
             && Possible(Init(capacity), steps) && Possible(Init(capacity), before)
             && p in Run(Init(capacity), before).pubs && Run(Init(capacity), before).pubs[p].phase.Returned?
             && i in Run(Init(capacity), steps).subs
             && var taken := Accepted(Run(Init(capacity), steps).subs[i].ch);
                a < |taken| && taken[a] == p && b < |taken| && taken[b] == q
    ensures a < b
  {
    var steps := before + [Step.Publish(q, topic, data)] + rest;
    RunSplit(Init(capacity), before + [Step.Publish(q, topic, data)], rest);
    RunSplit(Init(capacity), before, [Step.Publish(q, topic, data)]);
    var s0 := Run(Init(capacity), before);
    AfterLast(Next(s0, Step.Publish(q, topic, data)), rest, q);
    PublishesKeepOrder(capacity, steps, p, q, i, a, b);
  }

  // ---------- With room everything goes through ----------

  /** The subscribers a Publish call under the lock is still to serve. */
  function Unserved(s: State, p: PubId): set<SubId>
    requires p in s.pubs
  {
    s.pubs[p].todo + s.pubs[p].live
  }

  /** The channels of those it is still to serve are open and have room, or nothing waiting before a reader. */
  predicate Room(s: State, p: PubId)
    requires p in s.pubs
  {
    forall i | i in Unserved(s, p) ::
      && i in s.subs && !s.subs[i].ch.closed
      && (|s.subs[i].ch.buffer| < s.capacity || s.subs[i].ch.buffer == [])
  }

  predicate Serving(s: State, p: PubId) {
    s.panic == NoPanic && p in s.pubs && s.pubs[p].phase == Locked && s.pubs[p].todo !! s.pubs[p].live
  }

  lemma SpawnServes(s: State, p: PubId, i: SubId)
    requires Serving(s, p) && Room(s, p) && i in s.pubs[p].todo
    ensures Enabled(s, Step.Spawn(p, i))
    ensures var s' := Next(s, Step.Spawn(p, i));
            && Serving(s', p) && Room(s', p) && s'.pubs[p].todo == s.pubs[p].todo - {i}
            && Unserved(s', p) == Unserved(s, p) && s'.pubs[p].sent == s.pubs[p].sent
  {
    assert i in Unserved(s, p);
  }

  /** Into the buffer if there is room, or else straight to the reader. */
  lemma SendServes(s: State, p: PubId, i: SubId) returns (step: Step)
    requires Serving(s, p) && Room(s, p) && i in s.pubs[p].live
    ensures step == (if |s.subs[i].ch.buffer| < s.capacity then Step.Send(p, i) else Step.Hand(p, i))
    ensures Enabled(s, step)
    ensures var s' := Next(s, step);
            && Serving(s', p) && Room(s', p) && s'.pubs[p].todo == s.pubs[p].todo
            && s'.pubs[p].live == s.pubs[p].live - {i}
            && Unserved(s', p) == Unserved(s, p) - {i} && s'.pubs[p].sent == s.pubs[p].sent + {i}
  {
    assert i in Unserved(s, p);
    step := if |s.subs[i].ch.buffer| < s.capacity then Step.Send(p, i) else Step.Hand(p, i);
  }

  lemma OneMoved(a: set<SubId>, u: set<SubId>, i: SubId)
    requires i in u
    ensures (a + {i}) + (u - {i}) == a + u && |u - {i}| < |u|
  {
  }

  lemma UnlockServes(s: State, p: PubId)
    requires Serving(s, p) && Unserved(s, p) == {}
    ensures Enabled(s, Step.UnlockRead(p))
    ensures var s' := Next(s, Step.UnlockRead(p));
            p in s'.pubs && s'.pubs[p].phase == Returned(NoError) && s'.pubs[p].sent == s.pubs[p].sent
  {
    assert s.pubs[p].todo <= Unserved(s, p) && s.pubs[p].live <= Unserved(s, p);
  }

  lemma StepThen(s: State, step: Step, rest: seq<Step>)
    requires Enabled(s, step) && Possible(Next(s, step), rest)
    ensures Possible(s, [step] + rest) && Run(s, [step] + rest) == Run(Next(s, step), rest)
  {
    assert ([step] + rest)[1..] == rest;
  }

  /** With room in the channels a Publish call that has the lock waits for nobody: by its own steps alone it serves
      everyone it is still to serve, and returns. */
  lemma {:induction false} PublishCompletes(s: State, p: PubId) returns (steps: seq<Step>)
    requires Serving(s, p) && Room(s, p)
    ensures Possible(s, steps) && p in Run(s, steps).pubs && Run(s, steps).pubs[p].phase == Returned(NoError)
    ensures Run(s, steps).pubs[p].sent == s.pubs[p].sent + Unserved(s, p)
    decreases |s.pubs[p].todo| + |Unserved(s, p)|
  {
    var todo, live := s.pubs[p].todo, s.pubs[p].live;
    if todo != {} {
      var i :| i in todo;
      SpawnServes(s, p, i);
      var rest := PublishCompletes(Next(s, Step.Spawn(p, i)), p);
      StepThen(s, Step.Spawn(p, i), rest);
      steps := [Step.Spawn(p, i)] + rest;
    } else if live != {} {
      var i :| i in live;
      var step := SendServes(s, p, i);
      OneMoved(s.pubs[p].sent, Unserved(s, p), i);
      var rest := PublishCompletes(Next(s, step), p);
      StepThen(s, step, rest);
      steps := [step] + rest;
    } else {
      assert Unserved(s, p) == {};
      UnlockServes(s, p);
      StepThen(s, Step.UnlockRead(p), []);
      steps := [Step.UnlockRead(p)] + [];
    }
  }

  /** With the lock free a subscription is listed by five steps of its own, and its goroutine waits. */
  lemma SubscribeGoesThrough(s: State, i: SubId) returns (steps: seq<Step>)
    requires s.panic == NoPanic && s.lock == NoWriter && s.readers == {} && s.closer != Draining
    requires i in s.subs && s.subs[i].phase == Fresh
    ensures Possible(s, steps) && i in Run(s, steps).subs && Run(s, steps).subs[i] == s.subs[i].(phase := Waiting)
    ensures Run(s, steps).topics == AddTo(s.topics, s.subs[i].topic, i) && Run(s, steps).lock == NoWriter
  {
    var s1 := Next(s, Step.WantLock(i));
    var s2 := Next(s1, Step.TakeLock(i));
    var s3 := Next(s2, Step.Insert(i));
    var s4 := Next(s3, Step.Unlock(i));
    StepThen(s4, Step.StartReaper(i), []);
    StepThen(s3, Step.Unlock(i), [Step.StartReaper(i)] + []);
    StepThen(s2, Step.Insert(i), [Step.Unlock(i)] + ([Step.StartReaper(i)] + []));
    steps := [Step.Insert(i)] + ([Step.Unlock(i)] + ([Step.StartReaper(i)] + []));
    StepThen(s1, Step.TakeLock(i), steps);
    StepThen(s, Step.WantLock(i), [Step.TakeLock(i)] + steps);
    steps := [Step.WantLock(i)] + ([Step.TakeLock(i)] + steps);
  }

  lemma WokenHasLock(s: State, i: SubId) returns (s': State)
    requires s.panic == NoPanic && s.lock == NoWriter && s.readers == {}
    requires i in s.subs && s.subs[i].phase == Waiting && s.subs[i].cancelled
    ensures s' == s.(lock := Holding(i), subs := s.subs[i := s.subs[i].(phase := HoldDelete)])
    ensures forall rest | Possible(s', rest) ::
              var steps := [Step.Wake(i)] + ([Step.WantLock(i)] + ([Step.TakeLock(i)] + rest));
              Possible(s, steps) && Run(s, steps) == Run(s', rest)
  {
    var s1 := Next(s, Step.Wake(i));
    var s2 := Next(s1, Step.WantLock(i));
    s' := Next(s2, Step.TakeLock(i));
    forall rest | Possible(s', rest)
      ensures var steps := [Step.Wake(i)] + ([Step.WantLock(i)] + ([Step.TakeLock(i)] + rest));
              Possible(s, steps) && Run(s, steps) == Run(s', rest)
    {
      StepThen(s2, Step.TakeLock(i), rest);
      StepThen(s1, Step.WantLock(i), [Step.TakeLock(i)] + rest);
      StepThen(s, Step.Wake(i), [Step.WantLock(i)] + ([Step.TakeLock(i)] + rest));
    }
  }

  lemma HolderDeletes(s: State, i: SubId) returns (steps: seq<Step>)
    requires s.panic == NoPanic && s.lock == Holding(i) && i in s.subs && s.subs[i].phase == HoldDelete
    requires !s.subs[i].ch.closed
    ensures Possible(s, steps) && i in Run(s, steps).subs
    ensures Run(s, steps).subs[i] == s.subs[i].(phase := Finished, ch := s.subs[i].ch.(closed := true))
    ensures Run(s, steps).topics == RemoveFrom(s.topics, s.subs[i].topic, i) && Run(s, steps).lock == NoWriter
  {
    var s1 := Next(s, Step.Delete(i));
    var s2 := Next(s1, Step.Unlock(i));
    StepThen(s2, Step.CloseChannel(i), []);
    StepThen(s1, Step.Unlock(i), [Step.CloseChannel(i)] + []);
    StepThen(s, Step.Delete(i), [Step.Unlock(i)] + ([Step.CloseChannel(i)] + []));
    steps := [Step.Delete(i)] + ([Step.Unlock(i)] + ([Step.CloseChannel(i)] + []));
  }

  /** A subscription that has been cancelled is taken off the list by six steps of its own, with the lock free,
      and its channel closed. */
  lemma CancelGoesThrough(s: State, i: SubId) returns (steps: seq<Step>)
    requires s.panic == NoPanic && s.lock == NoWriter && s.readers == {}
    requires i in s.subs && s.subs[i].phase == Waiting && s.subs[i].cancelled && !s.subs[i].ch.closed
    ensures Possible(s, steps) && i in Run(s, steps).subs
    ensures Run(s, steps).subs[i] == s.subs[i].(phase := Finished, ch := s.subs[i].ch.(closed := true))
    ensures Run(s, steps).topics == RemoveFrom(s.topics, s.subs[i].topic, i) && Run(s, steps).lock == NoWriter
  {
    var s' := WokenHasLock(s, i);
    var rest := HolderDeletes(s', i);
    steps := [Step.Wake(i)] + ([Step.WantLock(i)] + ([Step.TakeLock(i)] + rest));
  }
}
