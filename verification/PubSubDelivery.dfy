/** What a returned Publish call has done: each subscriber it found got its message exactly once,
    in order with the calls before it, unless someone called it off. */
module PubSubDelivery {
  import opened PubSubModel
  import opened PubSubSafety

  /** Every message the channel ever took, oldest first. */
  function Accepted(ch: Chan): seq<PubId> {
    ch.received + ch.buffer
  }

  ghost predicate NoRepeats(q: seq<PubId>) {
    forall a, b | 0 <= a < b < |q| :: q[a] != q[b]
  }

  /** No message stands before one whose call had returned when its own call began. */
  ghost predicate InOrder(pubs: map<PubId, Pub>, q: seq<PubId>) {
    forall a, b | 0 <= a < b < |q| :: q[a] in pubs && q[b] !in pubs[q[a]].after
  }

  ghost predicate CalledOff(s: State, p: PubId, i: SubId)
    requires p in s.pubs && i in s.subs
  {
    s.pubs[p].cancelled || s.subs[i].cancelled || s.Closed()
  }

  ghost predicate SubDelivery(s: State, i: SubId)
    requires i in s.subs
  {
    var q := Accepted(s.subs[i].ch);
    && NoRepeats(q) && InOrder(s.pubs, q)
    && (forall p :: p in q <==> p in s.pubs && i in s.pubs[p].sent)
  }

  ghost predicate PubDelivery(s: State, p: PubId)
    requires p in s.pubs
  {
    && (forall q | q in s.pubs[p].after :: q in s.pubs && s.pubs[q].phase.Returned?)
    && (forall i | i in s.pubs[p].gaveUp :: i in s.subs && CalledOff(s, p, i))
  }

  ghost predicate Delivery(s: State) {
    && (forall i | i in s.subs :: SubDelivery(s, i))
    && (forall p | p in s.pubs :: PubDelivery(s, p))
  }

  /** Nothing is taken by any channel; calls may begin, move on, give up or return. */
  lemma NothingSent(s: State, s': State)
    requires Delivery(s) && SameSent(s, s') && SameTaken(s, s')
    requires forall p | p in s.pubs :: s.pubs[p].sent <= s.subs.Keys
    requires forall p | p in s'.pubs :: PubDelivery(s', p)
    ensures Delivery(s')
  {
    forall i | i in s'.subs
      ensures SubDelivery(s', i)
    {
      if i in s.subs {
        assert SubDelivery(s, i);
      }
    }
  }

  /** Channel `i` takes the message of call `p`, which is still running and not in it yet. */
  lemma MessageTaken(s: State, s': State, p: PubId, i: SubId)
    requires Delivery(s) && i in s.subs && i in s'.subs
    requires p in s.pubs && !s.pubs[p].phase.Returned? && i !in s.pubs[p].sent
    requires Accepted(s'.subs[i].ch) == Accepted(s.subs[i].ch) + [p]
    requires s'.pubs == s.pubs[p := s.pubs[p].(live := s.pubs[p].live - {i}, sent := s.pubs[p].sent + {i})]
    ensures SubDelivery(s', i)
  {
    assert SubDelivery(s, i);
    var q := Accepted(s.subs[i].ch);
    forall a | 0 <= a < |q|
      ensures q[a] in s.pubs && q[a] != p && p !in s.pubs[q[a]].after
    {
      assert q[a] in q;
      assert PubDelivery(s, q[a]);
    }
  }

  lemma MessageElsewhere(s: State, s': State, p: PubId, i: SubId, j: SubId)
    requires Delivery(s) && j in s.subs && j in s'.subs && j != i
    requires p in s.pubs && s'.subs[j].ch == s.subs[j].ch
    requires s'.pubs == s.pubs[p := s.pubs[p].(live := s.pubs[p].live - {i}, sent := s.pubs[p].sent + {i})]
    ensures SubDelivery(s', j)
  {
    assert SubDelivery(s, j);
  }

  /** The call counts as sent to one more. */
  predicate SentOneMore(s: State, s': State, p: PubId, i: SubId) {
    && p in s.pubs && i in s.subs && s'.closer == s.closer && i in s'.subs
    && s'.subs == s.subs[i := s'.subs[i]] && s'.subs[i].cancelled == s.subs[i].cancelled
    && s'.pubs == s.pubs[p := s.pubs[p].(live := s.pubs[p].live - {i}, sent := s.pubs[p].sent + {i})]
  }

  lemma OneMoreCall(s: State, s': State, p: PubId, i: SubId, r: PubId)
    requires SentOneMore(s, s', p, i) && r in s.pubs && PubDelivery(s, r)
    ensures PubDelivery(s', r)
  {
  }

  lemma MessageSent(s: State, s': State, p: PubId, i: SubId)
    requires Inv(s) && Delivery(s) && LiveSender(s, p, i) && SentOneMore(s, s', p, i)
    requires Accepted(s'.subs[i].ch) == Accepted(s.subs[i].ch) + [p]
    ensures Delivery(s')
  {
    SenderNeedsOpenChannel(s, p, i);
    assert PubOk(s, s.pubs[p]);
    MessageTaken(s, s', p, i);
    forall j | j in s'.subs && j != i
      ensures SubDelivery(s', j)
    {
      MessageElsewhere(s, s', p, i, j);
    }
    forall r | r in s'.pubs
      ensures PubDelivery(s', r)
    {
      OneMoreCall(s, s', p, i, r);
    }
  }

  lemma SubsUntouched(s: State, step: Step)
    requires Enabled(s, step) && !step.Send? && !step.Hand? && (OfPublisher(step) || OfCloser(step))
    ensures Next(s, step).subs == s.subs
  {
  }

  lemma PubsUntouched(s: State, step: Step)
    requires Enabled(s, step) && !OfPublisher(step)
    ensures Next(s, step).pubs == s.pubs
  {
  }

  lemma ChannelKept(s: State, step: Step, i: SubId)
    requires Enabled(s, step) && !step.Send? && !step.Hand? && i in Next(s, step).subs
    ensures Accepted(Next(s, step).subs[i].ch) == if i in s.subs then Accepted(s.subs[i].ch) else []
  {
    if OfPublisher(step) || OfCloser(step) {
      SubsUntouched(s, step);
    }
  }

  lemma SentKept(s: State, step: Step, p: PubId)
    requires Enabled(s, step) && !step.Send? && !step.Hand? && p in Next(s, step).pubs
    ensures Next(s, step).pubs[p].sent == if p in s.pubs then s.pubs[p].sent else {}
  {
  }

  lemma AfterKept(s: State, step: Step, p: PubId)
    requires Enabled(s, step) && p in Next(s, step).pubs
    ensures Next(s, step).pubs[p].after == if p in s.pubs then s.pubs[p].after else ReturnedCalls(s)
  {
    if !OfPublisher(step) {
      PubsUntouched(s, step);
    }
  }

  /** Calls and subscriptions are never forgotten. */
  lemma PubsKept(s: State, step: Step)
    requires Enabled(s, step)
    ensures s.pubs.Keys <= Next(s, step).pubs.Keys
  {
  }

  lemma SubsKept(s: State, step: Step)
    requires Enabled(s, step)
    ensures s.subs.Keys <= Next(s, step).subs.Keys
  {
  }

  lemma ClosedKept(s: State, step: Step)
    requires Enabled(s, step) && s.Closed()
    ensures Next(s, step).Closed()
  {
  }

  /** A call off or a return is for good. */
  lemma PubFlagsKept(s: State, step: Step, p: PubId)
    requires Enabled(s, step) && p in s.pubs
    ensures p in Next(s, step).pubs
    ensures s.pubs[p].cancelled ==> Next(s, step).pubs[p].cancelled
    ensures s.pubs[p].phase.Returned? ==> Next(s, step).pubs[p].phase.Returned?
  {
    if !OfPublisher(step) {
      PubsUntouched(s, step);
    }
  }

  lemma SubFlagsKept(s: State, step: Step, i: SubId)
    requires Enabled(s, step) && i in s.subs && s.subs[i].cancelled
    ensures i in Next(s, step).subs && Next(s, step).subs[i].cancelled
  {
  }

  lemma GivenUp(s: State, step: Step, p: PubId, i: SubId)
    requires Enabled(s, step) && p in Next(s, step).pubs && i in Next(s, step).pubs[p].gaveUp
    ensures (p in s.pubs && i in s.pubs[p].gaveUp) || step == Step.GiveUp(p, i)
  {
  }

  lemma AfterReturned(s: State, step: Step, p: PubId)
    requires Delivery(s) && Enabled(s, step) && p in Next(s, step).pubs
    ensures forall q | q in Next(s, step).pubs[p].after ::
            q in Next(s, step).pubs && Next(s, step).pubs[q].phase.Returned?
  {
    AfterKept(s, step, p);
    forall q | q in Next(s, step).pubs[p].after
      ensures q in Next(s, step).pubs && Next(s, step).pubs[q].phase.Returned?
    {
      assert p in s.pubs ==> PubDelivery(s, p);
      PubFlagsKept(s, step, q);
    }
  }

  lemma GaveUpCalledOff(s: State, step: Step, p: PubId, i: SubId)
    requires Delivery(s) && Enabled(s, step) && p in Next(s, step).pubs && i in Next(s, step).pubs[p].gaveUp
    ensures i in Next(s, step).subs && CalledOff(Next(s, step), p, i)
  {
    GivenUp(s, step, p, i);
    assert p in s.pubs && PubDelivery(s, p);
    assert i in s.subs && CalledOff(s, p, i);
    SubsKept(s, step);
    CallOffStays(s, step, p, i);
  }

  lemma CallOffStays(s: State, step: Step, p: PubId, i: SubId)
    requires Enabled(s, step) && p in s.pubs && i in s.subs && CalledOff(s, p, i)
    requires p in Next(s, step).pubs && i in Next(s, step).subs
    ensures CalledOff(Next(s, step), p, i)
  {
    if s.pubs[p].cancelled {
      PubFlagsKept(s, step, p);
    } else if s.subs[i].cancelled {
      SubFlagsKept(s, step, i);
    } else {
      ClosedKept(s, step);
    }
  }

  lemma CallKept(s: State, step: Step, p: PubId)
    requires Delivery(s) && Enabled(s, step) && p in Next(s, step).pubs
    ensures PubDelivery(Next(s, step), p)
  {
    AfterReturned(s, step, p);
    forall i | i in Next(s, step).pubs[p].gaveUp ensures i in Next(s, step).subs && CalledOff(Next(s, step), p, i) {
      GaveUpCalledOff(s, step, p, i);
    }
  }

  lemma SendDelivery(s: State, step: Step)
    requires Inv(s) && Delivery(s) && Enabled(s, step) && step.Send?
    ensures Delivery(Next(s, step))
  {
    SenderNeedsOpenChannel(s, step.pub, step.sub);
    MessageSent(s, Next(s, step), step.pub, step.sub);
  }

  lemma HandDelivery(s: State, step: Step)
    requires Inv(s) && Delivery(s) && Enabled(s, step) && step.Hand?
    ensures Delivery(Next(s, step))
  {
    SenderNeedsOpenChannel(s, step.pub, step.sub);
    MessageSent(s, Next(s, step), step.pub, step.sub);
  }

  lemma StepDelivery(s: State, step: Step)
    requires Inv(s) && Delivery(s) && Enabled(s, step)
    ensures Delivery(Next(s, step))
  {
    if step.Send? {
      SendDelivery(s, step);
    } else if step.Hand? {
      HandDelivery(s, step);
    } else {
      QuietStepDelivery(s, step);
    }
  }

  /** What each call has sent, and which calls came before it, is as it was. */
  ghost predicate SameSent(s: State, s': State) {
    && s.pubs.Keys <= s'.pubs.Keys
    && (forall p | p in s.pubs :: s'.pubs[p].sent == s.pubs[p].sent && s'.pubs[p].after == s.pubs[p].after)
    && (forall p | p in s'.pubs && p !in s.pubs :: s'.pubs[p].sent == {})
  }

  lemma QuietCalls(s: State, step: Step)
    requires Enabled(s, step) && !step.Send? && !step.Hand?
    ensures SameSent(s, Next(s, step))
  {
    PubsKept(s, step);
    forall p | p in Next(s, step).pubs
      ensures Next(s, step).pubs[p].sent == if p in s.pubs then s.pubs[p].sent else {}
      ensures p in s.pubs ==> Next(s, step).pubs[p].after == s.pubs[p].after
    {
      SentKept(s, step, p);
      AfterKept(s, step, p);
    }
  }

  /** What each channel has taken is as it was. */
  ghost predicate SameTaken(s: State, s': State) {
    && s.subs.Keys <= s'.subs.Keys
    && (forall i | i in s.subs :: Accepted(s'.subs[i].ch) == Accepted(s.subs[i].ch))
    && (forall i | i in s'.subs && i !in s.subs :: Accepted(s'.subs[i].ch) == [])
  }

  lemma QuietChannels(s: State, step: Step)
    requires Enabled(s, step) && !step.Send? && !step.Hand?
    ensures SameTaken(s, Next(s, step))
  {
    SubsKept(s, step);
    forall i | i in Next(s, step).subs
      ensures Accepted(Next(s, step).subs[i].ch) == if i in s.subs then Accepted(s.subs[i].ch) else []
    {
      ChannelKept(s, step, i);
    }
  }

  lemma QuietStepDelivery(s: State, step: Step)
    requires Inv(s) && Delivery(s) && Enabled(s, step) && !step.Send? && !step.Hand?
    ensures Delivery(Next(s, step))
  {
    QuietCalls(s, step);
    QuietChannels(s, step);
    forall p | p in Next(s, step).pubs ensures PubDelivery(Next(s, step), p) {
      CallKept(s, step, p);
    }
    SentToKnown(s);
    NothingSent(s, Next(s, step));
  }

  lemma SentToKnown(s: State)
    requires Inv(s)
    ensures forall p | p in s.pubs :: s.pubs[p].sent <= s.subs.Keys
  {
    forall p | p in s.pubs ensures s.pubs[p].sent <= s.subs.Keys {
      assert PubOk(s, s.pubs[p]);
    }
  }

  lemma {:induction false} RunDelivery(s: State, steps: seq<Step>)
    requires Inv(s) && Delivery(s) && Possible(s, steps)
    ensures Inv(Run(s, steps)) && Delivery(Run(s, steps))
    decreases |steps|
  {
    if steps == [] {
    } else {
      StepSafe(s, steps[0]);
      StepDelivery(s, steps[0]);
      RunDelivery(Next(s, steps[0]), steps[1..]);
    }
  }

  // ---------- What callers are promised ----------

  lemma {:induction false} CountedOnce(q: seq<PubId>, p: PubId)
    requires NoRepeats(q)
    ensures multiset(q)[p] == if p in q then 1 else 0
    decreases |q|
  {
    if q == [] {
    } else {
      assert q == [q[0]] + q[1..];
      CountedOnce(q[1..], p);
    }
  }

  /** The subscribers a call will serve are those listed for its topic when it takes the read lock. */
  lemma LockReadTargets(s: State, p: PubId)
    requires Inv(s) && Enabled(s, Step.LockRead(p))
    ensures Next(s, Step.LockRead(p)).pubs[p].targets ==
            set i | i in s.subs && s.subs[i].topic == s.pubs[p].topic && Listed(s.subs[i].phase)
  {
  }

  lemma LockedStays(s: State, step: Step, p: PubId)
    requires Enabled(s, step) && p in s.pubs && s.pubs[p].phase != Checked
    ensures p in Next(s, step).pubs && Next(s, step).pubs[p].phase != Checked
  {
    if !OfPublisher(step) {
      PubsUntouched(s, step);
    }
  }

  lemma TargetsStay(s: State, step: Step, p: PubId)
    requires Enabled(s, step) && p in s.pubs && s.pubs[p].phase != Checked
    ensures p in Next(s, step).pubs && Next(s, step).pubs[p].targets == s.pubs[p].targets
    ensures Next(s, step).pubs[p].phase != Checked && Next(s, step).pubs[p].after == s.pubs[p].after
  {
    LockedStays(s, step, p);
    AfterKept(s, step, p);
    if !OfPublisher(step) {
      PubsUntouched(s, step);
    }
  }

  /** When Publish returns, every target has the message exactly once unless the call, that
      subscription or the bus was called off; nobody else has it. */
  lemma PublishDelivers(capacity: nat, steps: seq<Step>, p: PubId)
    requires Possible(Init(capacity), steps)
    requires p in Run(Init(capacity), steps).pubs && Run(Init(capacity), steps).pubs[p].phase == Returned(NoError)
    ensures var s := Run(Init(capacity), steps);
            && (forall i | i in s.pubs[p].targets :: i in s.subs)
            && (forall i | i in s.subs :: multiset(Accepted(s.subs[i].ch))[p] == if i in s.pubs[p].sent then 1 else 0)
            && (forall i | i in s.subs && i !in s.pubs[p].targets :: p !in Accepted(s.subs[i].ch))
            && (forall i | i in s.pubs[p].targets && !CalledOff(s, p, i) :: multiset(Accepted(s.subs[i].ch))[p] == 1)
  {
    InitSafe(capacity);
    RunDelivery(Init(capacity), steps);
    var s := Run(Init(capacity), steps);
    assert PubOk(s, s.pubs[p]) && PubDelivery(s, p);
    forall i | i in s.subs
      ensures multiset(Accepted(s.subs[i].ch))[p] == if i in s.pubs[p].sent then 1 else 0
    {
      assert SubDelivery(s, i);
      CountedOnce(Accepted(s.subs[i].ch), p);
    }
  }

  /** A call begun after another returned comes after it in every channel that took both. */
  lemma PublishesKeepOrder(capacity: nat, steps: seq<Step>, p: PubId, q: PubId, i: SubId, a: nat, b: nat)
    requires Possible(Init(capacity), steps)
    requires var s := Run(Init(capacity), steps);
             && q in s.pubs && p in s.pubs[q].after && i in s.subs
             && a < |Accepted(s.subs[i].ch)| && Accepted(s.subs[i].ch)[a] == p
             && b < |Accepted(s.subs[i].ch)| && Accepted(s.subs[i].ch)[b] == q
    ensures p != q ==> a < b
  {
    InitSafe(capacity);
    RunDelivery(Init(capacity), steps);
    assert SubDelivery(Run(Init(capacity), steps), i);
  }

  /** What a channel took is never lost or reordered: later it has only taken more. */
  lemma AcceptedGrows(s: State, step: Step, i: SubId)
    requires Enabled(s, step) && i in s.subs
    ensures i in Next(s, step).subs && Accepted(s.subs[i].ch) <= Accepted(Next(s, step).subs[i].ch)
  {
    SubsKept(s, step);
    if !step.Send? && !step.Hand? {
      ChannelKept(s, step, i);
    }
  }
}
