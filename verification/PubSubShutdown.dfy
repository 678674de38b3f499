/** Once the close signal is given everything in flight runs to its end, even if no consumer
    ever receives again. */
module PubSubShutdown {
  import opened PubSubModel
  import opened PubSubSafety
  import opened PubSubDelivery

  // ---------- Sums over calls ----------

  ghost function Total(m: map<nat, nat>): nat
    decreases |m|
  {
    if m == map[] then 0 else var k :| k in m; m[k] + Total(m - {k})
  }

  lemma {:induction false} TotalSplit(m: map<nat, nat>, k: nat)
    requires k in m
    ensures Total(m) == m[k] + Total(m - {k})
    decreases |m|
  {
    var c :| c in m && Total(m) == m[c] + Total(m - {c});
    if c != k {
      TotalSplit(m - {c}, k);
      TotalSplit(m - {k}, c);
      assert m - {c} - {k} == m - {k} - {c};
    }
  }

  lemma TotalChange(m: map<nat, nat>, m': map<nat, nat>, k: nat)
    requires k in m && k in m' && m' == m[k := m'[k]]
    ensures Total(m') - m'[k] == Total(m) - m[k]
  {
    TotalSplit(m, k);
    TotalSplit(m', k);
    assert m' - {k} == m - {k};
  }

  lemma {:induction false} SubsetSmaller(a: set<nat>, b: set<nat>)
    requires a <= b
    ensures |a| <= |b|
    decreases |a|
  {
    if a != {} {
      var x :| x in a;
      SubsetSmaller(a - {x}, b - {x});
    }
  }

  /** An entry worth nothing. */
  lemma TotalNothing(m: map<nat, nat>, k: nat)
    requires k !in m
    ensures Total(m[k := 0]) == Total(m)
  {
    TotalSplit(m[k := 0], k);
    assert m[k := 0] - {k} == m;
  }

  // ---------- How much is left to do ----------

  function Flag(b: bool): nat {
    if b then 0 else 1
  }

  /** `n` bounds the number of subscribers a call may have to serve. */
  function PubWeight(n: nat, pub: Pub): nat {
    match pub.phase
    case Checked => 2 + 4 * n + Flag(pub.cancelled)
    case Locked => 1 + 4 * |pub.todo| + 3 * |pub.live| + Flag(pub.cancelled)
    case Returned(_) => 0
  }

  function PhaseWeight(phase: SubPhase): nat {
    match phase
    case Fresh => 11
    case WantInsert => 10
    case HoldInsert => 9
    case Inserted => 8
    case Registered => 7
    case Waiting => 6
    case Woken => 5
    case WantDelete => 4
    case HoldDelete => 3
    case Deleted => 2
    case Unlocked => 1
    case Finished => 0
    case Refused(_) => 0
  }

  function SubWeight(sub: Sub): nat {
    if sub.phase.Refused? then 0 else Flag(sub.cancelled) + PhaseWeight(sub.phase) + |sub.ch.buffer|
  }

  function CloserWeight(closer: Closer): nat {
    match closer
    case NotCalled => 5
    case Closing => 4
    case Blocked => 3
    case Draining => 2
    case Resuming => 1
    case Closed => 0
  }

  /** The subscribers that were not refused. */
  function Admitted(subs: map<SubId, Sub>): set<SubId> {
    set i | i in subs && !subs[i].phase.Refused?
  }

  ghost function PubWeights(n: nat, pubs: map<PubId, Pub>): map<nat, nat> {
    map p | p in pubs :: PubWeight(n, pubs[p])
  }

  ghost function SubWeights(subs: map<SubId, Sub>): map<nat, nat> {
    map i | i in subs :: SubWeight(subs[i])
  }

  ghost function Rank(s: State): nat {
    Total(PubWeights(|Admitted(s.subs)|, s.pubs)) + Total(SubWeights(s.subs)) + CloserWeight(s.closer)
    + if s.panic == NoPanic then 1 else 0
  }

  lemma PubChange(s: State, s': State, p: PubId)
    requires p in s.pubs && p in s'.pubs && s'.pubs == s.pubs[p := s'.pubs[p]]
    requires Admitted(s'.subs) == Admitted(s.subs)
    ensures var n := |Admitted(s.subs)|;
            Total(PubWeights(n, s'.pubs)) - PubWeight(n, s'.pubs[p]) ==
              Total(PubWeights(n, s.pubs)) - PubWeight(n, s.pubs[p])
  {
    var n := |Admitted(s.subs)|;
    var w, w' := PubWeights(n, s.pubs), PubWeights(n, s'.pubs);
    assert w' == w[p := w'[p]];
    TotalChange(w, w', p);
  }

  lemma SubChange(s: State, s': State, i: SubId)
    requires i in s.subs && i in s'.subs && s'.subs == s.subs[i := s'.subs[i]]
    requires s'.subs[i].phase.Refused? == s.subs[i].phase.Refused?
    ensures Total(SubWeights(s'.subs)) - SubWeight(s'.subs[i]) == Total(SubWeights(s.subs)) - SubWeight(s.subs[i])
    ensures Admitted(s'.subs) == Admitted(s.subs)
  {
    var w, w' := SubWeights(s.subs), SubWeights(s'.subs);
    assert w' == w[i := w'[i]];
    TotalChange(w, w', i);
  }

  /** Calls made after the signal are refused at once; every other step is of a call or goroutine
      already in flight. */
  predicate InFlight(step: Step) {
    !step.Publish? && !step.Subscribe?
  }

  lemma PubLess(s: State, s': State, p: PubId)
    requires p in s.pubs && p in s'.pubs && s'.pubs == s.pubs[p := s'.pubs[p]]
    requires s'.subs == s.subs && s'.closer == s.closer && s'.panic == s.panic
    requires PubWeight(|Admitted(s.subs)|, s'.pubs[p]) < PubWeight(|Admitted(s.subs)|, s.pubs[p])
    ensures Rank(s') < Rank(s)
  {
    PubChange(s, s', p);
  }

  lemma SubLess(s: State, s': State, i: SubId)
    requires i in s.subs && i in s'.subs && s'.subs == s.subs[i := s'.subs[i]] && s'.pubs == s.pubs
    requires CloserWeight(s'.closer) <= CloserWeight(s.closer) && s'.panic == s.panic
    requires s'.subs[i].phase.Refused? == s.subs[i].phase.Refused?
    requires SubWeight(s'.subs[i]) < SubWeight(s.subs[i])
    ensures Rank(s') < Rank(s)
  {
    SubChange(s, s', i);
  }

  lemma Moved(a: set<SubId>, b: set<SubId>, i: SubId)
    requires i in a && i !in b
    ensures |a - {i}| == |a| - 1 && |b + {i}| == |b| + 1
  {
  }

  lemma LockReadDown(s: State, step: Step)
    requires Inv(s) && Enabled(s, step) && step.LockRead?
    ensures Rank(Next(s, step)) < Rank(s)
  {
    var p := step.pub;
    FewMembers(s, s.pubs[p].topic);
    assert s.pubs[p].live == {} by {
      assert PubOk(s, s.pubs[p]);
    }
    LockReadWeight(|Admitted(s.subs)|, s.pubs[p], Members(s.topics, s.pubs[p].topic));
    PubLess(s, Next(s, step), p);
  }

  lemma FewMembers(s: State, topic: Topic)
    requires Inv(s)
    ensures |Members(s.topics, topic)| <= |Admitted(s.subs)|
  {
    assert forall i | i in Members(s.topics, topic) :: i in s.subs && Listed(s.subs[i].phase);
    SubsetSmaller(Members(s.topics, topic), Admitted(s.subs));
  }

  lemma LockReadWeight(n: nat, pub: Pub, members: set<SubId>)
    requires pub.phase == Checked && pub.live == {} && |members| <= n
    ensures PubWeight(n, pub.(phase := Locked, targets := members, todo := members)) < PubWeight(n, pub)
  {
  }

  lemma SpawnDown(s: State, step: Step)
    requires Inv(s) && Enabled(s, step) && step.Spawn?
    ensures Rank(Next(s, step)) < Rank(s)
  {
    var s', p, i := Next(s, step), step.pub, step.sub;
    assert PubOk(s, s.pubs[p]);
    Moved(s.pubs[p].todo, s.pubs[p].live, i);
    PubLess(s, s', p);
  }

  lemma GiveUpDown(s: State, step: Step)
    requires Inv(s) && Enabled(s, step) && step.GiveUp?
    ensures Rank(Next(s, step)) < Rank(s)
  {
    var s', p, i := Next(s, step), step.pub, step.sub;
    assert PubOk(s, s.pubs[p]);
    Moved(s.pubs[p].live, {}, i);
    PubLess(s, s', p);
  }

  lemma CallStepDown(s: State, step: Step)
    requires Enabled(s, step) && (step.UnlockRead? || step.CancelPublish?)
    ensures Rank(Next(s, step)) < Rank(s)
  {
    CallStepMoves(s, step);
    PubLess(s, Next(s, step), step.pub);
  }

  lemma CallStepMoves(s: State, step: Step)
    requires Enabled(s, step) && (step.UnlockRead? || step.CancelPublish?)
    ensures var s', p := Next(s, step), step.pub;
            && p in s.pubs && p in s'.pubs && s'.pubs == s.pubs[p := s'.pubs[p]]
            && s'.subs == s.subs && s'.closer == s.closer && s'.panic == s.panic
            && PubWeight(|Admitted(s.subs)|, s'.pubs[p]) < PubWeight(|Admitted(s.subs)|, s.pubs[p])
  {
  }

  lemma SendDown(s: State, s': State, p: PubId, i: SubId)
    requires Inv(s) && LiveSender(s, p, i) && i in s'.subs && p in s'.pubs
    requires s'.closer == s.closer && s'.panic == s.panic
    requires s'.pubs == s.pubs[p := s'.pubs[p]] && s'.subs == s.subs[i := s'.subs[i]]
    requires s'.pubs[p].live == s.pubs[p].live - {i} && s'.pubs[p].todo == s.pubs[p].todo
    requires s'.pubs[p].phase == s.pubs[p].phase && s'.pubs[p].cancelled == s.pubs[p].cancelled
    requires s'.subs[i].phase == s.subs[i].phase && s'.subs[i].cancelled == s.subs[i].cancelled
    requires |s'.subs[i].ch.buffer| <= |s.subs[i].ch.buffer| + 1
    ensures Rank(s') < Rank(s)
  {
    SenderNeedsOpenChannel(s, p, i);
    Moved(s.pubs[p].live, {}, i);
    var mid := s.(pubs := s'.pubs);
    PubChange(s, mid, p);
    SubChange(mid, s', i);
  }

  lemma SendStepDown(s: State, step: Step)
    requires Inv(s) && Enabled(s, step) && (step.Send? || step.Hand?)
    ensures Rank(Next(s, step)) < Rank(s)
  {
    SenderNeedsOpenChannel(s, step.pub, step.sub);
    SendDown(s, Next(s, step), step.pub, step.sub);
  }

  lemma SubStepDown(s: State, step: Step)
    requires Inv(s) && Enabled(s, step)
    requires step.WantLock? || step.TakeLock? || step.Insert? || step.Unlock? || step.Wake?
             || step.Delete? || step.CancelSubscription? || (step.StartReaper? && s.closer != Draining)
    ensures Rank(Next(s, step)) < Rank(s)
  {
    var i := step.sub;
    SubStepMoves(s, step);
    SubLess(s, Next(s, step), i);
  }

  lemma SubStepMoves(s: State, step: Step)
    requires Enabled(s, step)
    requires step.WantLock? || step.TakeLock? || step.Insert? || step.Unlock? || step.Wake?
             || step.Delete? || step.CancelSubscription? || (step.StartReaper? && s.closer != Draining)
    ensures var s', i := Next(s, step), step.sub;
            && i in s.subs && i in s'.subs && s'.subs == s.subs[i := s'.subs[i]]
            && s'.pubs == s.pubs && s'.closer == s.closer && s'.panic == s.panic
            && s'.subs[i].phase.Refused? == s.subs[i].phase.Refused?
            && SubWeight(s'.subs[i]) < SubWeight(s.subs[i])
  {
  }

  lemma ChanStepDown(s: State, step: Step)
    requires Inv(s) && Enabled(s, step) && (step.CloseChannel? || step.Receive?)
    ensures Rank(Next(s, step)) < Rank(s)
  {
    if step.CloseChannel? {
      CloserFindsOpenChannel(s, step.sub);
    }
    SubLess(s, Next(s, step), step.sub);
  }

  lemma CloserLess(s: State, s': State)
    requires s'.pubs == s.pubs && s'.subs == s.subs
    requires || CloserWeight(s'.closer) < CloserWeight(s.closer)
             || (s'.closer == s.closer && s.panic == NoPanic != s'.panic)
    requires s.panic == NoPanic
    ensures Rank(s') < Rank(s)
  {
  }

  lemma CloserStepDown(s: State, step: Step)
    requires Enabled(s, step)
    requires step.CloseWaits? || step.ReleaseWait? || step.CloseReturns? || (step.StartReaper? && s.closer == Draining)
    ensures Rank(Next(s, step)) < Rank(s)
  {
    CloserLess(s, Next(s, step));
  }

  lemma PublisherStepDown(s: State, step: Step)
    requires Inv(s) && Enabled(s, step) && OfPublisher(step) && InFlight(step)
    ensures Rank(Next(s, step)) < Rank(s)
  {
    match step
    case LockRead(_) => LockReadDown(s, step);
    case Spawn(_, _) => SpawnDown(s, step);
    case Send(_, _) => SendStepDown(s, step);
    case Hand(_, _) => SendStepDown(s, step);
    case GiveUp(_, _) => GiveUpDown(s, step);
    case UnlockRead(_) => CallStepDown(s, step);
    case CancelPublish(_) => CallStepDown(s, step);
  }

  lemma SubscriberStepDown(s: State, step: Step)
    requires Inv(s) && Enabled(s, step) && !OfPublisher(step) && !OfCloser(step) && InFlight(step)
    ensures Rank(Next(s, step)) < Rank(s)
  {
    if step.CloseChannel? || step.Receive? {
      ChanStepDown(s, step);
    } else if step.StartReaper? && s.closer == Draining {
      CloserStepDown(s, step);
    } else {
      SubStepDown(s, step);
    }
  }

  /** After the close signal every step leaves strictly less to do. */
  lemma StepDown(s: State, step: Step)
    requires Inv(s) && Enabled(s, step) && s.Closed() && InFlight(step)
    ensures Rank(Next(s, step)) < Rank(s)
  {
    if OfPublisher(step) {
      PublisherStepDown(s, step);
    } else if OfCloser(step) {
      CloserStepDown(s, step);
    } else {
      SubscriberStepDown(s, step);
    }
  }

  /** A call made after the signal is refused and adds nothing to what is left to do. */
  lemma RefusedAddsNothing(s: State, step: Step)
    requires Enabled(s, step) && s.Closed() && !InFlight(step)
    ensures Rank(Next(s, step)) == Rank(s)
  {
    var s', n := Next(s, step), |Admitted(s.subs)|;
    if step.Publish? {
      assert PubWeights(n, s'.pubs) == PubWeights(n, s.pubs)[step.pub := 0];
      TotalNothing(PubWeights(n, s.pubs), step.pub);
    } else {
      assert Admitted(s'.subs) == Admitted(s.subs);
      assert SubWeights(s'.subs) == SubWeights(s.subs)[step.sub := 0];
      TotalNothing(SubWeights(s.subs), step.sub);
    }
  }

  function InFlightCount(steps: seq<Step>): nat
    decreases |steps|
  {
    if steps == [] then 0 else (if InFlight(steps[0]) then 1 else 0) + InFlightCount(steps[1..])
  }

  /** So in no run after the signal do what was in flight take more steps than were left to do, however
      many calls keep arriving to be refused. */
  lemma {:induction false} ShutdownBounded(s: State, steps: seq<Step>)
    requires Inv(s) && s.Closed() && Possible(s, steps)
    ensures InFlightCount(steps) + Rank(Run(s, steps)) <= Rank(s)
    decreases |steps|
  {
    if steps == [] {
    } else {
      if InFlight(steps[0]) {
        StepDown(s, steps[0]);
      } else {
        RefusedAddsNothing(s, steps[0]);
      }
      ClosedKept(s, steps[0]);
      StepSafe(s, steps[0]);
      ShutdownBounded(Next(s, steps[0]), steps[1..]);
    }
  }

  // ---------- Something can always be done ----------

  /** Steps that wait for no consumer, no cancellation and no new call. */
  predicate Unaided(step: Step) {
    InFlight(step) && !step.Hand? && !step.Receive? && !step.CancelPublish? && !step.CancelSubscription?
  }

  predicate SubDone(sub: Sub) {
    sub.phase == Finished || sub.phase.Refused?
  }

  ghost predicate Final(s: State) {
    && (forall p | p in s.pubs :: s.pubs[p].phase.Returned?)
    && (forall i | i in s.subs :: SubDone(s.subs[i]))
    && s.closer == Closed
  }

  lemma PublisherMoves(s: State, p: PubId) returns (step: Step)
    requires Inv(s) && s.Closed() && s.panic == NoPanic && p in s.pubs && s.pubs[p].phase == Locked
    ensures Enabled(s, step) && Unaided(step) && !OfCloser(step) && !step.StartReaper?
  {
    if s.pubs[p].todo != {} {
      var i :| i in s.pubs[p].todo;
      step := Step.Spawn(p, i);
    } else if s.pubs[p].live != {} {
      var i :| i in s.pubs[p].live;
      assert PubOk(s, s.pubs[p]);
      step := Step.GiveUp(p, i);
    } else {
      step := Step.UnlockRead(p);
    }
  }

  lemma WriterMoves(s: State) returns (step: Step)
    requires Inv(s) && s.Closed() && s.panic == NoPanic && s.lock != NoWriter
    ensures Enabled(s, step) && Unaided(step) && !OfCloser(step) && !step.StartReaper?
  {
    var i := s.lock.id;
    if s.lock.Pending? {
      if s.readers == {} {
        step := Step.TakeLock(i);
      } else {
        var p :| p in s.readers;
        step := PublisherMoves(s, p);
      }
    } else if s.subs[i].phase == HoldInsert {
      step := Step.Insert(i);
    } else if s.subs[i].phase == HoldDelete {
      step := Step.Delete(i);
    } else {
      step := Step.Unlock(i);
    }
  }

  lemma SubscriberMoves(s: State, i: SubId) returns (step: Step)
    requires Inv(s) && s.Closed() && s.panic == NoPanic && s.lock == NoWriter && i in s.subs && !SubDone(s.subs[i])
    ensures Enabled(s, step) && Unaided(step) && !OfCloser(step)
    ensures step.StartReaper? ==> step.sub == i && s.subs[i].phase == Registered
  {
    match s.subs[i].phase
    case Registered => step := Step.StartReaper(i);
    case Waiting => step := Step.Wake(i);
    case Unlocked => step := Step.CloseChannel(i);
    case _ => step := Step.WantLock(i);
  }

  lemma CallerMoves(s: State, p: PubId) returns (step: Step)
    requires Inv(s) && s.Closed() && s.panic == NoPanic && s.lock == NoWriter
    requires p in s.pubs && !s.pubs[p].phase.Returned?
    ensures Enabled(s, step) && Unaided(step) && !OfCloser(step) && !step.StartReaper?
  {
    if s.pubs[p].phase == Checked {
      step := Step.LockRead(p);
    } else {
      step := PublisherMoves(s, p);
    }
  }

  /** Only two steps bring down the wait group. */
  lemma MisuseOnly(s: State, step: Step)
    requires Inv(s) && Enabled(s, step)
    ensures Next(s, step).panic != NoPanic <==>
            (step.StartReaper? && s.closer == Draining) || (step.CloseReturns? && s.reapers != {})
  {
    if step.Send? {
      SenderNeedsOpenChannel(s, step.pub, step.sub);
    }
  }

  /** After the close signal the bus is never stuck before all is done, and need not panic. */
  lemma NeverStuck(s: State) returns (step: Step)
    requires Inv(s) && s.Closed() && s.panic == NoPanic && !Final(s)
    ensures Enabled(s, step) && Unaided(step) && Next(s, step).panic == NoPanic
  {
    if s.closer == Draining {
      step := Step.ReleaseWait;
    } else if s.lock != NoWriter {
      step := WriterMoves(s);
    } else if i :| i in s.subs && !SubDone(s.subs[i]) {
      step := SubscriberMoves(s, i);
    } else if p :| p in s.pubs && !s.pubs[p].phase.Returned? {
      step := CallerMoves(s, p);
    } else {
      step := if s.closer == Closing then Step.CloseWaits else Step.CloseReturns;
    }
    MisuseOnly(s, step);
  }

  /** When all is done nobody is listed, nobody holds anything, and every channel is closed. */
  lemma FinalIsClean(s: State)
    requires Inv(s) && Final(s)
    ensures s.topics == map[] && s.lock == NoWriter && s.readers == {} && s.reapers == {}
    ensures forall i | i in s.subs && !s.subs[i].phase.Refused? :: s.subs[i].ch.closed
  {
    TopicsNeedMembers(s);
  }

  lemma TopicsNeedMembers(s: State)
    requires Inv(s)
    ensures s.topics == map[] || exists i :: i in s.subs && Listed(s.subs[i].phase)
  {
    if t :| t in s.topics {
      var i :| i in s.topics[t];
      assert i in s.subs && s.subs[i].topic == t;
    }
  }

  /** From any reachable state after the signal the bus can wind down by itself: Close returns, all
      calls return, no subscriber stays listed, every channel is closed, and nothing panics. */
  lemma {:induction false} WindsDown(s: State) returns (steps: seq<Step>)
    requires Inv(s) && s.Closed() && s.panic == NoPanic
    ensures Possible(s, steps) && forall k | 0 <= k < |steps| :: Unaided(steps[k])
    ensures Inv(Run(s, steps)) && Final(Run(s, steps)) && Run(s, steps).panic == NoPanic
    ensures Run(s, steps).topics == map[]
    ensures forall i | i in Run(s, steps).subs && !Run(s, steps).subs[i].phase.Refused? ::
            Run(s, steps).subs[i].ch.closed
    decreases Rank(s)
  {
    if Final(s) {
      steps := [];
      FinalIsClean(s);
    } else {
      var step := NeverStuck(s);
      StepDown(s, step);
      ClosedKept(s, step);
      StepSafe(s, step);
      var rest := WindsDown(Next(s, step));
      steps := [step] + rest;
      assert steps[1..] == rest;
    }
  }

  /** And no matter how it is scheduled, and what is refused meanwhile: a run that cannot go on has
      wound down, unless the wait group has brought the program down. */
  lemma StoppedIsFinal(s: State, steps: seq<Step>)
    requires Inv(s) && s.Closed() && Possible(s, steps)
    requires forall step | Unaided(step) :: !Enabled(Run(s, steps), step)
    ensures Run(s, steps).panic != OnChannel
    ensures Run(s, steps).panic == NoPanic ==> Final(Run(s, steps)) && Run(s, steps).topics == map[]
  {
    RunSafe(s, steps);
    StaysClosed(s, steps);
    var end := Run(s, steps);
    if end.panic == NoPanic {
      if !Final(end) {
        var step := NeverStuck(end);
      }
      FinalIsClean(end);
    }
  }

  lemma {:induction false} StaysClosed(s: State, steps: seq<Step>)
    requires s.Closed() && Possible(s, steps)
    ensures Run(s, steps).Closed()
    decreases |steps|
  {
    if steps == [] {
    } else {
      StaysClosed(Next(s, steps[0]), steps[1..]);
    }
  }

  // ---------- What Close itself waits for ----------

  /** A Subscribe call that passed its check and has not yet started its goroutine. */
  predicate Subscribing(phase: SubPhase) {
    phase.Fresh? || phase.WantInsert? || phase.HoldInsert? || phase.Inserted? || phase.Registered?
  }

  lemma AllReaped(s: State)
    requires Inv(s) && s.reapers == {}
    ensures forall i | i in s.subs :: SubDone(s.subs[i]) <==> !Subscribing(s.subs[i].phase)
  {
    forall i | i in s.subs
      ensures SubDone(s.subs[i]) <==> !Subscribing(s.subs[i].phase)
    {
      assert i !in s.reapers;
    }
  }

  lemma ReturnsAtZero(s: State, step: Step)
    requires Enabled(s, step) && s.closer != Closed && Next(s, step).closer == Closed
    ensures s.reapers == {}
  {
  }

  /** Close waits for the goroutines it knows of, so when it returns all is released exactly if
      no Subscribe call was still on its way. */
  lemma CloseReturnsClean(s: State, step: Step)
    requires Inv(s) && Enabled(s, step) && s.closer != Closed && Next(s, step).closer == Closed
    ensures (forall i | i in s.subs :: SubDone(s.subs[i])) <==> (forall i | i in s.subs ::
            !Subscribing(s.subs[i].phase))
    ensures (forall i | i in s.subs :: !Subscribing(s.subs[i].phase)) ==> s.topics == map[]
  {
    ReturnsAtZero(s, step);
    AllReaped(s);
    if forall i | i in s.subs :: !Subscribing(s.subs[i].phase) {
      TopicsNeedMembers(s);
    }
  }

  /** A run in which Close returns and a subscriber is listed, its channel open, afterwards. */
  function OvertakenClose(): seq<Step> {
    [Step.Subscribe(0, "news"), Step.Close, Step.CloseWaits, Step.WantLock(0), Step.TakeLock(0), Step.Insert(0),
      Step.Unlock(0)]
  }

  lemma RunStep(s: State, step: Step, rest: seq<Step>)
    requires Enabled(s, step) && Possible(Next(s, step), rest)
    ensures Possible(s, [step] + rest) && Run(s, [step] + rest) == Run(Next(s, step), rest)
  {
    assert ([step] + rest)[1..] == rest;
  }

  lemma CloseCanBeOvertaken()
    ensures Possible(Init(0), OvertakenClose())
    ensures var s := Run(Init(0), OvertakenClose());
            s.closer == Closed && s.topics == map["news" := {0}] && 0 in s.subs && !s.subs[0].ch.closed
  {
    var s := Next(Init(0), Step.Subscribe(0, "news"));
    var steps := [Step.Close, Step.CloseWaits, Step.WantLock(0), Step.TakeLock(0), Step.Insert(0), Step.Unlock(0)];
    Overtaken(s);
    RunStep(Init(0), Step.Subscribe(0, "news"), steps);
    assert OvertakenClose() == [Step.Subscribe(0, "news")] + steps;
  }

  lemma Overtaken(s: State)
    requires 0 in s.subs && s.subs[0].phase == Fresh && s.subs[0].topic == "news" && !s.subs[0].ch.closed
    requires s.lock == NoWriter && s.readers == {} && s.topics == map[] && s.reapers == {}
    requires s.closer == NotCalled && s.panic == NoPanic
    ensures var steps := [Step.Close, Step.CloseWaits, Step.WantLock(0), Step.TakeLock(0), Step.Insert(0),
            Step.Unlock(0)];
            && Possible(s, steps) && Run(s, steps).closer == Closed && Run(s, steps).topics == map["news" := {0}]
            && 0 in Run(s, steps).subs && !Run(s, steps).subs[0].ch.closed
  {
    var s1 := Next(s, Step.Close);
    var late := [Step.WantLock(0), Step.TakeLock(0), Step.Insert(0), Step.Unlock(0)];
    LateSubscriber(Next(s1, Step.CloseWaits));
    RunStep(s1, Step.CloseWaits, late);
    RunStep(s, Step.Close, [Step.CloseWaits] + late);
    assert [Step.Close, Step.CloseWaits, Step.WantLock(0), Step.TakeLock(0), Step.Insert(0), Step.Unlock(0)] ==
           [Step.Close] + ([Step.CloseWaits] + late);
  }

  /** A Subscribe call past its check goes on to list its subscriber, closed bus or not. */
  lemma LateSubscriber(s: State)
    requires 0 in s.subs && s.subs[0].phase == Fresh && s.subs[0].topic == "news" && !s.subs[0].ch.closed
    requires s.lock == NoWriter && s.readers == {} && s.topics == map[] && s.panic == NoPanic
    ensures var steps := [Step.WantLock(0), Step.TakeLock(0), Step.Insert(0), Step.Unlock(0)];
            && Possible(s, steps) && Run(s, steps).closer == s.closer && Run(s, steps).topics == map["news" := {0}]
            && 0 in Run(s, steps).subs && !Run(s, steps).subs[0].ch.closed
  {
    var s1 := Next(s, Step.WantLock(0));
    var s2 := Next(s1, Step.TakeLock(0));
    LateInsert(s2);
    RunStep(s1, Step.TakeLock(0), [Step.Insert(0), Step.Unlock(0)]);
    RunStep(s, Step.WantLock(0), [Step.TakeLock(0)] + [Step.Insert(0), Step.Unlock(0)]);
    assert [Step.WantLock(0), Step.TakeLock(0), Step.Insert(0), Step.Unlock(0)] ==
           [Step.WantLock(0)] + ([Step.TakeLock(0)] + [Step.Insert(0), Step.Unlock(0)]);
  }

  lemma LateInsert(s: State)
    requires 0 in s.subs && s.subs[0].phase == HoldInsert && s.subs[0].topic == "news" && !s.subs[0].ch.closed
    requires s.topics == map[] && s.panic == NoPanic
    ensures var steps := [Step.Insert(0), Step.Unlock(0)];
            && Possible(s, steps) && Run(s, steps).closer == s.closer && Run(s, steps).topics == map["news" := {0}]
            && 0 in Run(s, steps).subs && !Run(s, steps).subs[0].ch.closed
  {
    var s1 := Next(s, Step.Insert(0));
    assert Members(s.topics, "news") + {0} == {0};
    RunStep(s1, Step.Unlock(0), []);
    RunStep(s, Step.Insert(0), [Step.Unlock(0)]);
    assert [Step.Insert(0), Step.Unlock(0)] == [Step.Insert(0)] + [Step.Unlock(0)];
  }

  // ---------- When the wait group brings the program down ----------

  predicate OnItsWay(s: State, j: SubId) {
    j in s.subs && Subscribing(s.subs[j].phase)
  }

  /** `j` is on its way while Close waits or may come to wait for somebody else. */
  ghost predicate Threatened(s: State, j: SubId) {
    && s.Closed() && s.closer != Closed && OnItsWay(s, j)
    && (s.closer == Closing && s.reapers == {} ==> exists i :: i != j && OnItsWay(s, i))
  }

  /** A Subscribe past its check may start its goroutine between the end of the last one and the
      return of Close, or has done so. */
  ghost predicate Exposed(s: State) {
    (s.closer == Resuming && s.reapers != {}) || exists j :: Threatened(s, j)
  }

  /** After the signal nobody new sets out. */
  lemma NobodySetsOut(s: State, step: Step, j: SubId)
    requires Enabled(s, step) && s.Closed() && OnItsWay(Next(s, step), j)
    ensures OnItsWay(s, j)
  {
    if OfPublisher(step) || OfCloser(step) {
      PhasesKept(s, step, j);
    }
  }

  lemma PhasesKept(s: State, step: Step, j: SubId)
    requires Enabled(s, step) && (OfPublisher(step) || OfCloser(step))
    ensures OnItsWay(Next(s, step), j) <==> OnItsWay(s, j)
  {
  }

  lemma StartArrives(s: State, step: Step)
    requires Enabled(s, step) && step.StartReaper? && s.closer != Draining
    ensures OnItsWay(s, step.sub) && !OnItsWay(Next(s, step), step.sub)
  {
  }

  /** Only one's own start ends being on the way. */
  lemma StaysOnItsWay(s: State, step: Step, j: SubId)
    requires Enabled(s, step) && OnItsWay(s, j) && step != Step.StartReaper(j)
    ensures OnItsWay(Next(s, step), j)
  {
    if OfPublisher(step) || OfCloser(step) {
      PhasesKept(s, step, j);
    }
  }

  lemma CloserKept(s: State, step: Step)
    requires Enabled(s, step) && s.Closed() && !OfCloser(step)
    ensures Next(s, step).closer == s.closer || (s.closer == Blocked && Next(s, step).closer == Draining)
    ensures !step.StartReaper? ==> Next(s, step).reapers <= s.reapers
    ensures step.StartReaper? && s.closer != Draining ==> step.sub in Next(s, step).reapers
  {
  }

  lemma ThreatWas(s: State, step: Step, j: SubId)
    requires Enabled(s, step) && s.Closed() && s.closer != Closed && Threatened(Next(s, step), j)
    ensures Threatened(s, j)
  {
    NobodySetsOut(s, step, j);
    if s.closer == Closing && s.reapers == {} {
      SomeoneElse(s, step, j);
    }
  }

  lemma SomeoneElse(s: State, step: Step, j: SubId)
    requires Enabled(s, step) && s.closer == Closing && s.reapers == {} && Threatened(Next(s, step), j)
    ensures exists i :: i != j && OnItsWay(s, i)
  {
    if step.StartReaper? {
      StartArrives(s, step);
    } else {
      StillAtZero(s, step);
      var i :| i != j && OnItsWay(Next(s, step), i);
      NobodySetsOut(s, step, i);
    }
  }

  lemma StillAtZero(s: State, step: Step)
    requires Enabled(s, step) && s.closer == Closing && s.reapers == {} && !step.StartReaper?
    ensures Next(s, step).closer == Closed || (Next(s, step).closer == Closing && Next(s, step).reapers == {})
  {
  }

  lemma ShelteredStep(s: State, step: Step)
    requires Inv(s) && Enabled(s, step) && s.Closed() && !Exposed(s)
    ensures Next(s, step).panic == NoPanic && !Exposed(Next(s, step))
  {
    MisuseOnly(s, step);
    forall j ensures !Threatened(Next(s, step), j) {
      if s.closer != Closed && Threatened(Next(s, step), j) {
        ThreatWas(s, step, j);
      } else if s.closer == Closed {
        ReturnedForGood(s, step);
      }
    }
    if step.StartReaper? {
      assert OnItsWay(s, step.sub) && !Threatened(s, step.sub);
    }
    ReturnKept(s, step);
  }

  lemma ReturnedForGood(s: State, step: Step)
    requires Enabled(s, step) && s.closer == Closed
    ensures Next(s, step).closer == Closed
  {
  }

  lemma ReturnKept(s: State, step: Step)
    requires CloserInv(s) && Enabled(s, step) && s.Closed() && !(s.closer == Resuming && s.reapers != {})
    requires step.StartReaper? ==> s.closer != Resuming
    ensures !(Next(s, step).closer == Resuming && Next(s, step).reapers != {})
  {
    if !OfCloser(step) {
      CloserKept(s, step);
    }
  }

  lemma {:induction false} ShelteredRun(s: State, steps: seq<Step>)
    requires Inv(s) && s.Closed() && s.panic == NoPanic && !Exposed(s) && Possible(s, steps)
    ensures Run(s, steps).panic == NoPanic
    decreases |steps|
  {
    if steps == [] {
    } else {
      ShelteredStep(s, steps[0]);
      ClosedKept(s, steps[0]);
      StepSafe(s, steps[0]);
      ShelteredRun(Next(s, steps[0]), steps[1..]);
    }
  }

  /** Everybody but `j` is done, and `j` is about to start its goroutine. */
  ghost predicate LastOne(s: State, j: SubId) {
    && OnItsWay(s, j) && s.subs[j].phase == Registered && s.lock == NoWriter
    && forall i | i in s.subs && i != j :: SubDone(s.subs[i])
  }

  /** Until then there is something to do that neither starts the goroutine of `j` nor moves Close. */
  lemma HoldBack(s: State, j: SubId) returns (step: Step)
    requires Inv(s) && s.Closed() && s.panic == NoPanic && OnItsWay(s, j) && !LastOne(s, j)
    ensures Enabled(s, step) && InFlight(step) && !OfCloser(step) && step != Step.StartReaper(j)
  {
    if s.lock != NoWriter {
      step := WriterMoves(s);
    } else if i :| i in s.subs && i != j && !SubDone(s.subs[i]) {
      step := SubscriberMoves(s, i);
    } else {
      step := SubscriberMoves(s, j);
    }
  }

  lemma ThreatStays(s: State, step: Step, j: SubId)
    requires Enabled(s, step) && Threatened(s, j) && step != Step.StartReaper(j)
    requires if s.closer == Closing && s.reapers != {} then step == Step.CloseWaits else !OfCloser(step)
    requires Next(s, step).panic == NoPanic
    ensures Threatened(Next(s, step), j)
  {
    StaysOnItsWay(s, step, j);
    if !OfCloser(step) {
      CloserKept(s, step);
      if s.closer == Closing && !step.StartReaper? {
        var i :| i != j && OnItsWay(s, i);
        StaysOnItsWay(s, step, i);
      }
    }
  }

  lemma ReturnPanics(s: State)
    requires s.panic == NoPanic && s.closer == Resuming && s.reapers != {}
    ensures var steps := [Step.CloseReturns] + []; Possible(s, steps) && Run(s, steps).panic == OnWaitGroup
  {
    RunStep(s, Step.CloseReturns, []);
  }

  lemma LastOneWaits(s: State, j: SubId)
    requires Inv(s) && Threatened(s, j) && LastOne(s, j)
    ensures s.reapers == {} && (s.closer == Draining || s.closer == Resuming)
  {
  }

  lemma LastOnePanics(s: State, j: SubId) returns (steps: seq<Step>)
    requires Inv(s) && s.panic == NoPanic && Threatened(s, j) && LastOne(s, j)
    ensures Possible(s, steps) && Run(s, steps).panic == OnWaitGroup
  {
    LastOneWaits(s, j);
    if s.closer == Draining {
      RunStep(s, Step.StartReaper(j), []);
      steps := [Step.StartReaper(j)] + [];
    } else {
      ReturnPanics(Next(s, Step.StartReaper(j)));
      RunStep(s, Step.StartReaper(j), [Step.CloseReturns] + []);
      steps := [Step.StartReaper(j)] + ([Step.CloseReturns] + []);
    }
  }

  lemma {:induction false} ExposedPanics(s: State, j: SubId) returns (steps: seq<Step>)
    requires Inv(s) && s.panic == NoPanic && Threatened(s, j)
    ensures Possible(s, steps) && Run(s, steps).panic == OnWaitGroup
    decreases Rank(s)
  {
    if LastOne(s, j) && !(s.closer == Closing && s.reapers != {}) {
      steps := LastOnePanics(s, j);
    } else {
      var step := Step.CloseWaits;
      if !(s.closer == Closing && s.reapers != {}) {
        step := HoldBack(s, j);
      }
      StepDown(s, step);
      StepSafe(s, step);
      if Next(s, step).panic == NoPanic {
        ThreatStays(s, step, j);
        var rest := ExposedPanics(Next(s, step), j);
        RunStep(s, step, rest);
        steps := [step] + rest;
      } else {
        RunStep(s, step, []);
        steps := [step] + [];
      }
    }
  }

  /** After the close signal some run ends in a wait-group panic if and only if the state is exposed. */
  lemma WaitGroupPanicsIff(s: State)
    requires Inv(s) && s.Closed() && s.panic == NoPanic
    ensures Exposed(s) <==> exists steps :: Possible(s, steps) && Run(s, steps).panic == OnWaitGroup
  {
    if !Exposed(s) {
      forall steps | Possible(s, steps) ensures Run(s, steps).panic == NoPanic {
        ShelteredRun(s, steps);
      }
    } else if s.closer == Resuming && s.reapers != {} {
      ReturnPanics(s);
    } else {
      var j :| Threatened(s, j);
      var steps := ExposedPanics(s, j);
    }
  }

  /** From the start of the program: two Subscribe calls check the signal just before Close gives it. */
  lemma WaitGroupCanPanic() returns (steps: seq<Step>)
    ensures Possible(Init(0), steps) && Run(Init(0), steps).panic == OnWaitGroup
  {
    var s1 := Next(Init(0), Step.Subscribe(0, "news"));
    var s2 := Next(s1, Step.Subscribe(1, "news"));
    var s3 := Next(s2, Step.Close);
    InitSafe(0);
    StepSafe(Init(0), Step.Subscribe(0, "news"));
    StepSafe(s1, Step.Subscribe(1, "news"));
    StepSafe(s2, Step.Close);
    assert OnItsWay(s3, 0) && OnItsWay(s3, 1) && Threatened(s3, 0);
    var rest := ExposedPanics(s3, 0);
    RunStep(s2, Step.Close, rest);
    RunStep(s1, Step.Subscribe(1, "news"), [Step.Close] + rest);
    RunStep(Init(0), Step.Subscribe(0, "news"), [Step.Subscribe(1, "news")] + ([Step.Close] + rest));
    steps := [Step.Subscribe(0, "news")] + ([Step.Subscribe(1, "news")] + ([Step.Close] + rest));
  }
}
