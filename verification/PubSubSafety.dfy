/** No run of the bus sends on a closed channel or closes a channel twice. */
module PubSubSafety {
  import opened PubSubModel

  predicate Wants(phase: SubPhase) {
    (phase.WantInsert? || phase.WantDelete?)
  }

  predicate Holds(phase: SubPhase) {
    (phase.HoldInsert? || phase.Inserted? || phase.HoldDelete? || phase.Deleted?)
  }

  /** The subscriber is in the table of topics. */
  predicate Listed(phase: SubPhase) {
    (phase.Inserted? || phase.Registered? || phase.Waiting? || phase.Woken? || phase.WantDelete? || phase.HoldDelete?)
  }

  /** The subscriber's goroutine has started and not ended. */
  predicate Reaping(phase: SubPhase) {
    (phase.Waiting? || phase.Woken? || phase.WantDelete? || phase.HoldDelete? || phase.Deleted? || phase.Unlocked?)
  }

  /** The lock knows its writer and the writer knows it has the lock; a holder shuts readers out. */
  ghost predicate LockInv(s: State) {
    && (s.lock.Pending? ==> s.lock.id in s.subs && Wants(s.subs[s.lock.id].phase))
    && (s.lock.Holding? ==> s.lock.id in s.subs && Holds(s.subs[s.lock.id].phase) && s.readers == {})
    && (forall i | i in s.subs :: Wants(s.subs[i].phase) ==> s.lock == Pending(i))
    && (forall i | i in s.subs :: Holds(s.subs[i].phase) ==> s.lock == Holding(i))
  }

  ghost predicate TableInv(s: State) {
    && (forall i | i in s.subs :: Listed(s.subs[i].phase) <==> i in Members(s.topics, s.subs[i].topic))
    && (forall t, i | t in s.topics && i in s.topics[t] :: i in s.subs && s.subs[i].topic == t)
    && (forall t | t in s.topics :: s.topics[t] != {})
  }

  /** A channel is closed only when its subscriber has left the table and its goroutine ends. */
  ghost predicate ChanInv(s: State) {
    && (forall i | i in s.subs :: s.subs[i].ch.closed <==> s.subs[i].phase == Finished)
    && (forall i | i in s.subs :: |s.subs[i].ch.buffer| <= s.capacity)
    && (forall i :: i in s.reapers <==> i in s.subs && Reaping(s.subs[i].phase))
  }

  ghost predicate PubOk(s: State, pub: Pub) {
    && pub.targets == pub.todo + pub.live + pub.sent + pub.gaveUp
    && pub.todo !! pub.live !! pub.sent !! pub.gaveUp
    && (pub.phase == Locked ==> pub.targets == Members(s.topics, pub.topic))
    && (pub.phase != Locked ==> pub.todo == {} && pub.live == {})
    && (pub.phase == Checked ==> pub.targets == {})
    && pub.targets <= s.subs.Keys
  }

  /** While a publisher holds the read lock, its targets are the subscribers of its topic. */
  ghost predicate PubInv(s: State) {
    && (forall p :: p in s.readers <==> p in s.pubs && s.pubs[p].phase == Locked)
    && (forall p | p in s.pubs :: PubOk(s, s.pubs[p]))
  }

  /** Close is blocked while goroutines are left, and until the last one has released it. */
  ghost predicate CloserInv(s: State) {
    (s.closer == Blocked ==> s.reapers != {}) && (s.closer == Draining ==> s.reapers == {})
  }

  ghost predicate Inv(s: State) {
    s.panic != OnChannel && LockInv(s) && TableInv(s) && ChanInv(s) && PubInv(s) && CloserInv(s)
  }

  /** The heart of it: whoever can still be sent to is in the table, so its channel is open. */
  lemma SenderNeedsOpenChannel(s: State, p: PubId, i: SubId)
    requires Inv(s) && LiveSender(s, p, i)
    ensures s.pubs[p].phase == Locked && Listed(s.subs[i].phase) && !s.subs[i].ch.closed
  {
    assert PubOk(s, s.pubs[p]);
    assert i in Members(s.topics, s.pubs[p].topic);
  }

  /** The channel about to be closed has no sender and was never closed before. */
  lemma CloserFindsOpenChannel(s: State, i: SubId)
    requires Inv(s) && i in s.subs && s.subs[i].phase == Unlocked
    ensures !s.subs[i].ch.closed && forall p | p in s.pubs :: i !in s.pubs[p].live + s.pubs[p].todo
  {
    forall p | p in s.pubs
      ensures i !in s.pubs[p].live + s.pubs[p].todo
    {
      assert PubOk(s, s.pubs[p]);
    }
  }

  lemma PubChanged(s: State, p: PubId, pub: Pub)
    requires Inv(s) && p in s.pubs && PubOk(s, pub) && pub.phase == s.pubs[p].phase
    ensures Inv(SetPub(s, p, pub))
  {
    assert forall q: Pub :: PubOk(SetPub(s, p, pub), q) <==> PubOk(s, q);
  }

  lemma ChanChanged(s: State, i: SubId, ch: Chan)
    requires Inv(s) && i in s.subs && ch.closed == s.subs[i].ch.closed && |ch.buffer| <= s.capacity
    ensures Inv(SetChan(s, i, ch))
  {
    assert SetChan(s, i, ch).subs.Keys == s.subs.Keys;
    assert forall q: Pub :: PubOk(SetChan(s, i, ch), q) <==> PubOk(s, q);
  }

  /** What publishers rely on is kept while the table is kept or while nobody holds the read lock. */
  lemma TargetsKept(s: State, s': State)
    requires PubInv(s) && s'.pubs == s.pubs && s'.readers == s.readers && s.subs.Keys <= s'.subs.Keys
    requires s'.topics == s.topics || s.readers == {}
    ensures PubInv(s')
  {
    forall p | p in s.pubs
      ensures PubOk(s', s.pubs[p])
    {
      assert PubOk(s, s.pubs[p]) && (p in s.readers <==> s.pubs[p].phase == Locked);
    }
  }

  /** A subscriber moves on without joining or leaving the table. */
  lemma SubMoved(s: State, s': State, i: SubId)
    requires Inv(s) && i in s.subs && i in s'.subs
    requires s'.subs == s.subs[i := s'.subs[i]]
    requires s'.topics == s.topics && s'.pubs == s.pubs && s'.readers == s.readers && s'.capacity == s.capacity
    requires s'.subs[i].topic == s.subs[i].topic && s'.subs[i].ch.buffer == s.subs[i].ch.buffer
    requires Listed(s'.subs[i].phase) == Listed(s.subs[i].phase)
    requires s'.subs[i].ch.closed <==> s'.subs[i].phase.Finished?
    requires s'.reapers == if Reaping(s'.subs[i].phase) then s.reapers + {i} else s.reapers - {i}
    ensures TableInv(s') && ChanInv(s') && PubInv(s')
  {
    TargetsKept(s, s');
  }

  /** A subscriber moves on without touching the lock. */
  lemma LockKept(s: State, s': State, i: SubId)
    requires LockInv(s) && i in s'.subs && s'.lock == s.lock && s'.readers == s.readers
    requires s'.subs == s.subs[i := s'.subs[i]]
    requires i in s.subs ==>
             Wants(s'.subs[i].phase) == Wants(s.subs[i].phase) && Holds(s'.subs[i].phase) == Holds(s.subs[i].phase)
    requires i !in s.subs ==> !Wants(s'.subs[i].phase) && !Holds(s'.subs[i].phase)
    ensures LockInv(s')
  {
  }

  /** A subscriber joins or leaves the table. */
  predicate Written(s: State, s': State, i: SubId) {
    && i in s.subs && (s.subs[i].phase == HoldInsert || s.subs[i].phase == HoldDelete)
    && s'.subs == s.subs[i := s.subs[i].(phase := if s.subs[i].phase == HoldInsert then Inserted else Deleted)]
    && s'.topics == (if s.subs[i].phase == HoldInsert then AddTo(s.topics, s.subs[i].topic, i)
                     else RemoveFrom(s.topics, s.subs[i].topic, i))
    && s'.reapers == s.reapers && s'.pubs == s.pubs && s'.readers == s.readers
    && s'.lock == s.lock && s'.capacity == s.capacity && s'.panic == s.panic && s'.closer == s.closer
  }

  lemma RowsWritten(s: State, s': State, i: SubId)
    requires TableInv(s) && Written(s, s', i)
    ensures TableInv(s')
  {
  }

  lemma ChannelsWritten(s: State, s': State, i: SubId)
    requires ChanInv(s) && Written(s, s', i)
    ensures ChanInv(s')
  {
  }

  lemma TableWritten(s: State, s': State, i: SubId)
    requires Inv(s) && s.lock == Holding(i) && Written(s, s', i)
    ensures Inv(s')
  {
    LockKept(s, s', i);
    TargetsKept(s, s');
    RowsWritten(s, s', i);
    ChannelsWritten(s, s', i);
  }

  /** A Subscribe call begins. */
  predicate Added(s: State, s': State, i: SubId) {
    && i !in s.subs && i in s'.subs && s'.subs == s.subs[i := s'.subs[i]]
    && (s'.subs[i].phase == Fresh || s'.subs[i].phase.Refused?) && s'.subs[i].ch == Chan([], [], false)
    && s'.topics == s.topics && s'.reapers == s.reapers && s'.pubs == s.pubs && s'.readers == s.readers
    && s'.lock == s.lock && s'.capacity == s.capacity && s'.panic == s.panic && s'.closer == s.closer
  }

  lemma RowsAdded(s: State, s': State, i: SubId)
    requires TableInv(s) && Added(s, s', i)
    ensures TableInv(s')
  {
  }

  lemma ChannelsAdded(s: State, s': State, i: SubId)
    requires ChanInv(s) && Added(s, s', i)
    ensures ChanInv(s')
  {
  }

  lemma SubAdded(s: State, s': State, i: SubId)
    requires Inv(s) && Added(s, s', i)
    ensures Inv(s')
  {
    LockKept(s, s', i);
    TargetsKept(s, s');
    RowsAdded(s, s', i);
    ChannelsAdded(s, s', i);
  }

  lemma PublishSafe(s: State, step: Step)
    requires Inv(s) && Enabled(s, step) && step.Publish?
    ensures Inv(Next(s, step))
  {
  }

  lemma LockReadPub(s: State, step: Step)
    requires Inv(s) && Enabled(s, step) && step.LockRead?
    ensures PubOk(s, Next(s, step).pubs[step.pub])
    ensures Next(s, step).pubs == s.pubs[step.pub := Next(s, step).pubs[step.pub]]
    ensures Next(s, step).pubs[step.pub].phase == Locked
  {
    assert forall i | i in Members(s.topics, s.pubs[step.pub].topic) :: i in s.subs;
  }

  lemma LockReadPubs(s: State, step: Step)
    requires Inv(s) && Enabled(s, step) && step.LockRead?
    ensures PubInv(Next(s, step))
  {
    LockReadPub(s, step);
    var s' := Next(s, step);
    forall p | p in s'.pubs ensures PubOk(s', s'.pubs[p]) {
      assert p != step.pub ==> PubOk(s, s.pubs[p]);
    }
  }

  lemma LockReadSafe(s: State, step: Step)
    requires Inv(s) && Enabled(s, step) && step.LockRead?
    ensures Inv(Next(s, step))
  {
    LockReadPubs(s, step);
  }

  lemma SpawnSafe(s: State, step: Step)
    requires Inv(s) && Enabled(s, step) && step.Spawn?
    ensures Inv(Next(s, step))
  {
    var p, i := step.pub, step.sub;
    var pub := s.pubs[p];
    PubChanged(s, p, pub.(todo := pub.todo - {i}, live := pub.live + {i}));
  }

  lemma SendSafe(s: State, step: Step)
    requires Inv(s) && Enabled(s, step) && step.Send?
    ensures Inv(Next(s, step))
  {
    var p, i := step.pub, step.sub;
    SenderNeedsOpenChannel(s, p, i);
    var pub := s.pubs[p].(live := s.pubs[p].live - {i}, sent := s.pubs[p].sent + {i});
    PubChanged(s, p, pub);
    ChanChanged(SetPub(s, p, pub), i, s.subs[i].ch.(buffer := s.subs[i].ch.buffer + [p]));
  }

  lemma HandSafe(s: State, step: Step)
    requires Inv(s) && Enabled(s, step) && step.Hand?
    ensures Inv(Next(s, step))
  {
    var p, i := step.pub, step.sub;
    SenderNeedsOpenChannel(s, p, i);
    var pub := s.pubs[p].(live := s.pubs[p].live - {i}, sent := s.pubs[p].sent + {i});
    PubChanged(s, p, pub);
    ChanChanged(SetPub(s, p, pub), i, s.subs[i].ch.(received := s.subs[i].ch.received + [p]));
  }

  lemma GiveUpSafe(s: State, step: Step)
    requires Inv(s) && Enabled(s, step) && step.GiveUp?
    ensures Inv(Next(s, step))
  {
    var p, i := step.pub, step.sub;
    var pub := s.pubs[p];
    PubChanged(s, p, pub.(live := pub.live - {i}, gaveUp := pub.gaveUp + {i}));
  }

  lemma UnlockReadSafe(s: State, step: Step)
    requires Inv(s) && Enabled(s, step) && step.UnlockRead?
    ensures Inv(Next(s, step))
  {
  }

  lemma CancelPublishSafe(s: State, step: Step)
    requires Inv(s) && Enabled(s, step) && step.CancelPublish?
    ensures Inv(Next(s, step))
  {
    var p := step.pub;
    PubChanged(s, p, s.pubs[p].(cancelled := true));
  }

  lemma SubscribeSafe(s: State, step: Step)
    requires Inv(s) && Enabled(s, step) && step.Subscribe?
    ensures Inv(Next(s, step))
  {
    SubAdded(s, Next(s, step), step.sub);
  }

  lemma WantLockLock(s: State, step: Step)
    requires LockInv(s) && Enabled(s, step) && step.WantLock?
    ensures LockInv(Next(s, step))
  {
  }

  lemma WantLockSafe(s: State, step: Step)
    requires Inv(s) && Enabled(s, step) && step.WantLock?
    ensures Inv(Next(s, step))
  {
    SubMoved(s, Next(s, step), step.sub);
    WantLockLock(s, step);
  }

  lemma TakeLockLock(s: State, step: Step)
    requires LockInv(s) && Enabled(s, step) && step.TakeLock?
    ensures LockInv(Next(s, step))
  {
  }

  lemma TakeLockSafe(s: State, step: Step)
    requires Inv(s) && Enabled(s, step) && step.TakeLock?
    ensures Inv(Next(s, step))
  {
    SubMoved(s, Next(s, step), step.sub);
    TakeLockLock(s, step);
  }

  lemma InsertSafe(s: State, step: Step)
    requires Inv(s) && Enabled(s, step) && step.Insert?
    ensures Inv(Next(s, step))
  {
    TableWritten(s, Next(s, step), step.sub);
  }

  lemma UnlockLock(s: State, step: Step)
    requires LockInv(s) && Enabled(s, step) && step.Unlock?
    ensures LockInv(Next(s, step))
  {
  }

  lemma UnlockSafe(s: State, step: Step)
    requires Inv(s) && Enabled(s, step) && step.Unlock?
    ensures Inv(Next(s, step))
  {
    SubMoved(s, Next(s, step), step.sub);
    UnlockLock(s, step);
  }

  lemma StartReaperSafe(s: State, step: Step)
    requires Inv(s) && Enabled(s, step) && step.StartReaper?
    ensures Inv(Next(s, step))
  {
    if s.closer == Draining {
      CloserMoved(s, Next(s, step));
    } else {
      SubMoved(s, Next(s, step), step.sub);
      LockKept(s, Next(s, step), step.sub);
    }
  }

  lemma WakeSafe(s: State, step: Step)
    requires Inv(s) && Enabled(s, step) && step.Wake?
    ensures Inv(Next(s, step))
  {
    SubMoved(s, Next(s, step), step.sub);
    LockKept(s, Next(s, step), step.sub);
  }

  lemma DeleteSafe(s: State, step: Step)
    requires Inv(s) && Enabled(s, step) && step.Delete?
    ensures Inv(Next(s, step))
  {
    TableWritten(s, Next(s, step), step.sub);
  }

  lemma CloseChannelSafe(s: State, step: Step)
    requires Inv(s) && Enabled(s, step) && step.CloseChannel?
    ensures Inv(Next(s, step))
  {
    CloserFindsOpenChannel(s, step.sub);
    SubMoved(s, Next(s, step), step.sub);
    LockKept(s, Next(s, step), step.sub);
  }

  lemma CancelSubscriptionSafe(s: State, step: Step)
    requires Inv(s) && Enabled(s, step) && step.CancelSubscription?
    ensures Inv(Next(s, step))
  {
    SubMoved(s, Next(s, step), step.sub);
    LockKept(s, Next(s, step), step.sub);
  }

  lemma ReceiveSafe(s: State, step: Step)
    requires Inv(s) && Enabled(s, step) && step.Receive?
    ensures Inv(Next(s, step))
  {
    var i := step.sub;
    var ch := s.subs[i].ch;
    ChanChanged(s, i, ch.(buffer := ch.buffer[1..], received := ch.received + [ch.buffer[0]]));
  }

  predicate OfCloser(step: Step) {
    step.Close? || step.CloseWaits? || step.ReleaseWait? || step.CloseReturns?
  }

  /** Only the closer moved, or the program is brought down. */
  lemma CloserMoved(s: State, s': State)
    requires Inv(s) && s' == s.(closer := s'.closer, panic := s'.panic) && s'.panic != OnChannel && CloserInv(s')
    ensures Inv(s')
  {
    TargetsKept(s, s');
  }

  lemma CloserSafe(s: State, step: Step)
    requires Inv(s) && Enabled(s, step) && OfCloser(step)
    ensures Inv(Next(s, step))
  {
    CloserMoved(s, Next(s, step));
  }

  predicate OfPublisher(step: Step) {
    || step.Publish? || step.LockRead? || step.Spawn? || step.Send?
    || step.Hand? || step.GiveUp? || step.UnlockRead? || step.CancelPublish?
  }

  lemma PublisherSafe(s: State, step: Step)
    requires Inv(s) && Enabled(s, step) && OfPublisher(step)
    ensures Inv(Next(s, step))
  {
    match step
    case Publish(_, _, _) => PublishSafe(s, step);
    case LockRead(_) => LockReadSafe(s, step);
    case Spawn(_, _) => SpawnSafe(s, step);
    case Send(_, _) => SendSafe(s, step);
    case Hand(_, _) => HandSafe(s, step);
    case GiveUp(_, _) => GiveUpSafe(s, step);
    case UnlockRead(_) => UnlockReadSafe(s, step);
    case CancelPublish(_) => CancelPublishSafe(s, step);
  }

  lemma SubscriberSafe(s: State, step: Step)
    requires Inv(s) && Enabled(s, step) && !OfPublisher(step) && !OfCloser(step)
    ensures Inv(Next(s, step))
  {
    match step
    case Subscribe(_, _) => SubscribeSafe(s, step);
    case WantLock(_) => WantLockSafe(s, step);
    case TakeLock(_) => TakeLockSafe(s, step);
    case Insert(_) => InsertSafe(s, step);
    case Unlock(_) => UnlockSafe(s, step);
    case StartReaper(_) => StartReaperSafe(s, step);
    case Wake(_) => WakeSafe(s, step);
    case Delete(_) => DeleteSafe(s, step);
    case CloseChannel(_) => CloseChannelSafe(s, step);
    case CancelSubscription(_) => CancelSubscriptionSafe(s, step);
    case Receive(_) => ReceiveSafe(s, step);
  }

  lemma StepSafe(s: State, step: Step)
    requires Inv(s) && Enabled(s, step)
    ensures Inv(Next(s, step))
  {
    if OfPublisher(step) {
      PublisherSafe(s, step);
    } else if OfCloser(step) {
      CloserSafe(s, step);
    } else {
      SubscriberSafe(s, step);
    }
  }

  lemma InitSafe(capacity: nat)
    ensures Inv(Init(capacity))
  {
  }

  lemma {:induction false} RunSafe(s: State, steps: seq<Step>)
    requires Inv(s) && Possible(s, steps)
    ensures Inv(Run(s, steps))
    decreases |steps|
  {
    if steps == [] {
    } else {
      StepSafe(s, steps[0]);
      RunSafe(Next(s, steps[0]), steps[1..]);
    }
  }

  /** Whatever publishers, subscribers, consumers and the closer do, in any order: no message is sent
      on a closed channel and none is closed twice, a closed channel is out of the table and has no
      sender, and buffers keep to their size. */
  lemma ChannelsNeverPanic(capacity: nat, steps: seq<Step>)
    requires Possible(Init(capacity), steps)
    ensures var s := Run(Init(capacity), steps);
            && s.panic != OnChannel
            && (forall i | i in s.subs :: |s.subs[i].ch.buffer| <= capacity)
            && (forall i, t | i in s.subs && s.subs[i].ch.closed :: i !in Members(s.topics, t))
            && (forall i, p | i in s.subs && s.subs[i].ch.closed && p in s.pubs ::
              i !in s.pubs[p].live + s.pubs[p].todo)
  {
    InitSafe(capacity);
    RunSafe(Init(capacity), steps);
    RunKeepsCapacity(Init(capacity), steps);
    var s := Run(Init(capacity), steps);
    forall i, p | i in s.subs && s.subs[i].ch.closed && p in s.pubs
      ensures i !in s.pubs[p].live + s.pubs[p].todo
    {
      assert PubOk(s, s.pubs[p]);
    }
  }

  lemma {:induction false} RunKeepsCapacity(s: State, steps: seq<Step>)
    requires Possible(s, steps)
    ensures Run(s, steps).capacity == s.capacity
    decreases |steps|
  {
    if steps == [] {
    } else {
      RunKeepsCapacity(Next(s, steps[0]), steps[1..]);
    }
  }
}
