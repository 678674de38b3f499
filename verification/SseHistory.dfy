/** What the state of the connections says about what happened: whom a Send is for, what it means that a buffer was
    full, and whose signals have been closed, by the steps of the run alone. */
module SseHistory {
  import opened SseRegistry
  import opened SseDelivery

  lemma {:induction false} RunSplit(s: State, a: seq<Step>, b: seq<Step>)
    ensures Possible(s, a + b) <==> Possible(s, a) && Possible(Run(s, a), b)
    ensures Possible(s, a + b) ==> Run(s, a + b) == Run(Run(s, a), b)
    decreases |a|
  {
    if a == [] {
      assert a + b == b;
    } else {
      assert (a + b)[1..] == a[1..] + b;
      if Enabled(s, a[0]) {
        RunSplit(Next(s, a[0]), a[1..], b);
      }
    }
  }

  lemma LastStep(s: State, steps: seq<Step>)
    requires steps != [] && Possible(s, steps)
    ensures var n := |steps| - 1;
            && steps == steps[..n] + [steps[n]] && Possible(s, steps[..n]) && Enabled(Run(s, steps[..n]), steps[n])
            && Run(s, steps) == Next(Run(s, steps[..n]), steps[n])
  {
    var n := |steps| - 1;
    assert steps == steps[..n] + [steps[n]];
    RunSplit(s, steps[..n], [steps[n]]);
  }

  // ---------- Who is connected ----------

  function Except(ids: seq<ConnId>, id: ConnId): seq<ConnId>
    decreases |ids|
  {
    if ids == [] then [] else (if ids[0] == id then [] else [ids[0]]) + Except(ids[1..], id)
  }

  /** The connections of a device: those registered for it, in that order, less those removed, and none after
      everything was closed. */
  function Connected(steps: seq<Step>, device: string): seq<ConnId>
    decreases |steps|
  {
    if steps == [] then []
    else
      var last, before := steps[|steps| - 1], Connected(steps[..|steps| - 1], device);
      match last
      case Register(id, d) => if d == device then before + [id] else before
      case Remove(id) => Except(before, id)
      case Close => []
      case _ => before
  }

  lemma {:induction false} ExceptNone(ids: seq<ConnId>, id: ConnId)
    requires id !in ids
    ensures Except(ids, id) == ids
    decreases |ids|
  {
    if ids == [] {
    } else {
      ExceptNone(ids[1..], id);
    }
  }

  lemma {:induction false} ExceptIsWithout(ids: seq<ConnId>, id: ConnId)
    requires Distinct(ids)
    ensures Except(ids, id) == Without(ids, id)
    decreases |ids|
  {
    if ids == [] {
    } else if ids[0] == id {
      ExceptNone(ids[1..], id);
    } else {
      ExceptIsWithout(ids[1..], id);
    }
  }

  lemma RemovedOf(r: Registry, own: string, id: ConnId, device: string)
    requires device in r.connections ==> Distinct(r.connections[device])
    requires device != own ==> id !in Of(r, device)
    ensures Of(Removed(r, own, id), device) == Except(Of(r, device), id)
  {
    if device in r.connections && device == own {
      ExceptIsWithout(r.connections[device], id);
    } else {
      ExceptNone(Of(r, device), id);
    }
  }

  lemma RemovedIsExcept(s: State, id: ConnId, device: string)
    requires WellFormed(s.r) && ListedOk(s) && Enabled(s, Step.Remove(id))
    ensures Of(Next(s, Step.Remove(id)).r, device) == Except(Of(s.r, device), id)
  {
    RemovedOf(s.r, s.conns[id].device, id, device);
  }

  lemma ListAfter(s: State, step: Step, device: string)
    requires Inv(s) && Enabled(s, step)
    ensures Of(Next(s, step).r, device) ==
            match step
            case Register(id, d) => if d == device then Of(s.r, device) + [id] else Of(s.r, device)
            case Remove(id) => Except(Of(s.r, device), id)
            case Close => []
            case _ => Of(s.r, device)
  {
    if step.Remove? {
      RemovedIsExcept(s, step.id, device);
    }
  }

  /** The registry lists, for every device, exactly those. */
  lemma {:induction false} ListIsConnected(steps: seq<Step>, device: string)
    requires Possible(Init(), steps)
    ensures Of(Run(Init(), steps).r, device) == Connected(steps, device)
    decreases |steps|
  {
    if steps == [] {
    } else {
      var n := |steps| - 1;
      LastStep(Init(), steps);
      RunKeeps(Init(), steps[..n]);
      ListIsConnected(steps[..n], device);
      ListAfter(Run(Init(), steps[..n]), steps[n], device);
    }
  }

  lemma RegisteredFor(s: State, step: Step, id: ConnId)
    requires Enabled(s, step)
    ensures id in Next(s, step).conns <==> id in s.conns || (step.Register? && step.id == id)
    ensures id in s.conns ==> Next(s, step).conns[id].device == s.conns[id].device
    ensures step.Register? && step.id == id ==> Next(s, step).conns[id].device == step.device && id !in s.conns
  {
  }

  lemma {:induction false} RegisterMade(steps: seq<Step>, id: ConnId, device: string)
    requires Possible(Init(), steps)
    ensures Register(id, device) in steps <==>
            id in Run(Init(), steps).conns && Run(Init(), steps).conns[id].device == device
    decreases |steps|
  {
    if steps == [] {
    } else {
      LastStep(Init(), steps);
      RegisterMade(steps[..|steps| - 1], id, device);
      RegisteredFor(Run(Init(), steps[..|steps| - 1]), steps[|steps| - 1], id);
    }
  }

  /** The close signal of a connection has been closed once if the connection is no longer connected, and not at
      all if it still is or never was. */
  lemma ClosedIffGone(steps: seq<Step>, id: ConnId)
    requires Possible(Init(), steps)
    ensures forall device :: Register(id, device) in steps ==>
              Closes(Run(Init(), steps).r, id) == if id in Connected(steps, device) then 0 else 1
    ensures (forall device :: Register(id, device) !in steps) ==> Closes(Run(Init(), steps).r, id) == 0
  {
    RunKeeps(Init(), steps);
    var s := Run(Init(), steps);
    assert Closes(s.r, id) == if id in s.conns && !IsListed(s, id) then 1 else 0;
    forall device | Register(id, device) in steps
      ensures Closes(s.r, id) == if id in Connected(steps, device) then 0 else 1
    {
      RegisterMade(steps, id, device);
      ListIsConnected(steps, device);
    }
    if id in s.conns {
      RegisterMade(steps, id, s.conns[id].device);
    }
  }

  // ---------- Whom a Send is for ----------

  lemma TargetsKept(s: State, step: Step, k: SendId)
    requires Enabled(s, step) && k in s.senders
    ensures k in Next(s, step).senders && Next(s, step).senders[k].targets == s.senders[k].targets
  {
  }

  lemma {:induction false} TargetsLast(s: State, steps: seq<Step>, k: SendId)
    requires Possible(s, steps) && k in s.senders
    ensures k in Run(s, steps).senders && Run(s, steps).senders[k].targets == s.senders[k].targets
    decreases |steps|
  {
    if steps == [] {
    } else {
      TargetsKept(s, steps[0], k);
      TargetsLast(Next(s, steps[0]), steps[1..], k);
    }
  }

  /** When a Send has returned: whoever was connected for its device when it began has accepted the event exactly
      once or was found with a full buffer, nobody else has accepted it, and it reports success if and only if
      somebody has. */
  lemma SendReaches(before: seq<Step>, rest: seq<Step>, k: SendId, device: string, id: ConnId)
    requires var steps := before + [Begin(k, device)] + rest;
             && Possible(Init(), steps) && k in Run(Init(), steps).senders
             && Run(Init(), steps).senders[k].outcome != Sending && id in Run(Init(), steps).conns
    ensures var s := Run(Init(), before + [Begin(k, device)] + rest);
            var x, times := s.senders[k], multiset(s.conns[id].accepted)[k];
            && times <= 1
            && (id in Connected(before, device) ==> (times == 1 <==> id !in x.full))
            && (id !in Connected(before, device) ==> times == 0)
            && (x.outcome == Ok <==> exists c | c in s.conns :: k in s.conns[c].accepted)
  {
    var steps := before + [Begin(k, device)] + rest;
    RunSplit(Init(), before + [Begin(k, device)], rest);
    RunSplit(Init(), before, [Begin(k, device)]);
    ListIsConnected(before, device);
    TargetsLast(Next(Run(Init(), before), Begin(k, device)), rest, k);
    SendAccounts(steps, k, id);
  }

  lemma FullKept(s: State, step: Step, k: SendId)
    requires Enabled(s, step) && step != FindFull(k) && k in Next(s, step).senders
    ensures Next(s, step).senders[k].full == if k in s.senders then s.senders[k].full else []
  {
  }

  lemma FullFound(s: State, k: SendId, id: ConnId)
    requires Enabled(s, FindFull(k)) && id in Next(s, FindFull(k)).senders[k].full && id !in s.senders[k].full
    ensures id in s.conns && |s.conns[id].buffer| >= 8
  {
  }

  lemma FullAfter(s: State, step: Step, k: SendId, id: ConnId)
    requires Enabled(s, step) && k in Next(s, step).senders && id in Next(s, step).senders[k].full
    requires forall x | x in s.conns :: ConnOk(s, x)
    ensures (k in s.senders && id in s.senders[k].full)
            || (step == FindFull(k) && id in s.conns && |s.conns[id].buffer| == 8)
  {
    if step == FindFull(k) {
      if id !in s.senders[k].full {
        FullFound(s, k, id);
        assert ConnOk(s, id);
      }
    } else {
      FullKept(s, step, k);
    }
  }

  /** Found full means that eight events were waiting for the connection at that moment. */
  lemma {:induction false} FullMeansEight(steps: seq<Step>, k: SendId, id: ConnId) returns (j: nat)
    requires Possible(Init(), steps) && k in Run(Init(), steps).senders && id in Run(Init(), steps).senders[k].full
    ensures j < |steps| && steps[j] == FindFull(k) && Possible(Init(), steps[..j])
    ensures id in Run(Init(), steps[..j]).conns && |Run(Init(), steps[..j]).conns[id].buffer| == 8
    decreases |steps|
  {
    var n := |steps| - 1;
    LastStep(Init(), steps);
    RunKeeps(Init(), steps[..n]);
    var s := Run(Init(), steps[..n]);
    FullAfter(s, steps[n], k, id);
    if k in s.senders && id in s.senders[k].full {
      j := FullMeansEight(steps[..n], k, id);
      assert steps[..n][..j] == steps[..j];
    } else {
      j := n;
    }
  }

  // ---------- Nobody is kept waiting ----------

  lemma NextIsConnected(s: State, k: SendId)
    requires Inv(s) && k in s.senders && s.senders[k].outcome == Sending && s.senders[k].todo != []
    ensures var id := s.senders[k].todo[0]; id in s.conns && ConnOk(s, id) && Closes(s.r, id) == 0
  {
    var x := s.senders[k];
    assert SenderOk(s, k);
    assert x.todo[0] in multiset(x.todo) && x.todo[0] in multiset(x.targets) && x.todo[0] in x.targets;
    HeadIsListed(s, k);
  }

  lemma SendGates(s: State, k: SendId)
    requires k in s.senders
    requires s.senders[k].outcome == Sending && s.senders[k].todo != [] ==>
               var id := s.senders[k].todo[0]; id in s.conns && |s.conns[id].buffer| <= 8 && Closes(s.r, id) == 0
    ensures var x := s.senders[k];
            && (Enabled(s, Return(k)) <==> x.outcome == Sending && x.todo == [])
            && (Enabled(s, Accept(k)) <==> x.outcome == Sending && x.todo != [] && |s.conns[x.todo[0]].buffer| < 8)
            && (Enabled(s, FindFull(k)) <==>
                  x.outcome == Sending && x.todo != [] && |s.conns[x.todo[0]].buffer| == 8)
  {
  }

  /** What a Send under way does next is settled by the next connection on its list: it is handed the event if fewer
      than eight are waiting there, and passed over otherwise; at the end of the list the Send returns. */
  lemma SendGoesOn(s: State, k: SendId)
    requires Inv(s) && k in s.senders
    ensures var x := s.senders[k];
            && (Enabled(s, Return(k)) <==> x.outcome == Sending && x.todo == [])
            && (x.outcome == Sending && x.todo != [] ==> x.todo[0] in s.conns)
            && (Enabled(s, Accept(k)) <==>
                  x.outcome == Sending && x.todo != [] && |s.conns[x.todo[0]].buffer| < 8)
            && (Enabled(s, FindFull(k)) <==>
                  x.outcome == Sending && x.todo != [] && |s.conns[x.todo[0]].buffer| == 8)
  {
    if s.senders[k].outcome == Sending && s.senders[k].todo != [] {
      NextIsConnected(s, k);
    }
    SendGates(s, k);
  }

  /** A step of Send `k`. */
  predicate OfSend(step: Step, k: SendId) {
    step == Accept(k) || step == FindFull(k) || step == Return(k)
  }

  lemma SendStep(s: State, step: Step, k: SendId)
    requires Enabled(s, step) && OfSend(step, k)
    ensures var x, x' := s.senders[k], Next(s, step).senders[k];
            if step == Return(k) then x'.outcome != Sending
            else x'.outcome == Sending && x'.todo == x.todo[1..] && x.todo != []
    ensures Next(s, step).r == s.r && Next(s, step).senders - {k} == s.senders - {k}
  {
  }

  lemma RunStep(s: State, step: Step, rest: seq<Step>)
    requires Enabled(s, step) && Possible(Next(s, step), rest)
    ensures Possible(s, [step] + rest) && Run(s, [step] + rest) == Run(Next(s, step), rest)
  {
    assert ([step] + rest)[1..] == rest;
  }

  lemma SendMoves(s: State, k: SendId) returns (step: Step)
    requires Inv(s) && k in s.senders && s.senders[k].outcome == Sending
    ensures Enabled(s, step) && OfSend(step, k) && Inv(Next(s, step)) && k in Next(s, step).senders
    ensures var todo, x' := s.senders[k].todo, Next(s, step).senders[k];
            if todo == [] then x'.outcome != Sending else x'.outcome == Sending && x'.todo == todo[1..]
  {
    SendGoesOn(s, k);
    if s.senders[k].todo == [] {
      step := Return(k);
    } else {
      NextIsConnected(s, k);
      step := if |s.conns[s.senders[k].todo[0]].buffer| < 8 then Accept(k) else FindFull(k);
    }
    SendStep(s, step, k);
    StepKeeps(s, step);
  }

  /** So a Send waits for nobody: by its own steps alone it comes to its end, one for each connection and one to
      return. */
  lemma {:induction false} SendCompletes(s: State, k: SendId) returns (steps: seq<Step>)
    requires Inv(s) && k in s.senders && s.senders[k].outcome == Sending
    ensures Possible(s, steps) && |steps| == |s.senders[k].todo| + 1
    ensures forall j | 0 <= j < |steps| :: OfSend(steps[j], k)
    ensures k in Run(s, steps).senders && Run(s, steps).senders[k].outcome != Sending
    decreases |s.senders[k].todo|
  {
    var step := SendMoves(s, k);
    var rest := [];
    if s.senders[k].todo != [] {
      rest := SendCompletes(Next(s, step), k);
    }
    steps := SendContinues(s, k, step, rest);
  }

  lemma SendContinues(s: State, k: SendId, step: Step, rest: seq<Step>) returns (steps: seq<Step>)
    requires Enabled(s, step) && OfSend(step, k) && Possible(Next(s, step), rest)
    requires forall j | 0 <= j < |rest| :: OfSend(rest[j], k)
    ensures steps == [step] + rest && Possible(s, steps) && Run(s, steps) == Run(Next(s, step), rest)
    ensures forall j | 0 <= j < |steps| :: OfSend(steps[j], k)
  {
    RunStep(s, step, rest);
    steps := [step] + rest;
  }

  /** A connection that is read gives the oldest event waiting; nothing is read once it has been left. */
  lemma ReadTakesOldest(s: State, id: ConnId)
    requires id in s.conns
    ensures Enabled(s, Receive(id)) <==> s.conns[id].phase == Streaming && s.conns[id].buffer != []
    ensures Enabled(s, Receive(id)) ==>
              var c := s.conns[id];
              Next(s, Receive(id)) ==
              s.(conns := s.conns[id := c.(buffer := c.buffer[1..], received := c.received + [c.buffer[0]])])
  {
  }

  /** Reading on until nothing is waiting, everything accepted has been received, in that order. */
  lemma {:induction false} ReadsAll(s: State, id: ConnId) returns (steps: seq<Step>)
    requires id in s.conns && s.conns[id].phase == Streaming && ConnOk(s, id)
    ensures Possible(s, steps) && steps == seq(|s.conns[id].buffer|, _ => Receive(id))
    ensures id in Run(s, steps).conns && Run(s, steps).conns[id].received == s.conns[id].accepted
    ensures Run(s, steps).conns[id].buffer == []
    decreases |s.conns[id].buffer|
  {
    if s.conns[id].buffer == [] {
      steps := [];
    } else {
      ReadTakesOldest(s, id);
      ReceiveConn(s, id);
      var rest := ReadsAll(Next(s, Receive(id)), id);
      RunStep(s, Receive(id), rest);
      steps := [Receive(id)] + rest;
    }
  }

  /** A connection is left once, and removed once after that, when no Send is under way. */
  lemma LeavesAndGoes(s: State, id: ConnId)
    requires id in s.conns
    ensures Enabled(s, Leave(id)) <==> s.conns[id].phase == Streaming
    ensures Enabled(s, Leave(id)) ==> Next(s, Leave(id)) == s.(conns := s.conns[id := s.conns[id].(phase := Leaving)])
    ensures Enabled(s, Remove(id)) <==> s.conns[id].phase == Leaving && NoReaders(s)
    ensures Enabled(s, Remove(id)) ==>
              && Next(s, Remove(id)).conns == s.conns[id := s.conns[id].(phase := Gone)]
              && Next(s, Remove(id)).senders == s.senders
  {
  }

  /** Once removed it is on no list, and its close signal has been closed once. */
  lemma RemovedIsGone(s: State, id: ConnId)
    requires RegistryOk(s) && Enabled(s, Remove(id))
    ensures var s' := Next(s, Remove(id)); id !in Of(s'.r, s.conns[id].device) && Closes(s'.r, id) == 1
  {
    RemovedMembers(s.r, s.conns[id].device, id);
    RemoveOk(s, id);
    assert !IsListed(Next(s, Remove(id)), id);
  }
}
