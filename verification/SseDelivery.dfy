/** Sending to the connections of a device while they come, read and go.

    Send holds the read lock from the lookup to its end; registering, removing and closing hold
    the write lock, and so wait for every Send in progress.  Reading a channel takes no lock.
  */
module SseDelivery {
  import opened SseRegistry

  type SendId = nat

  const BUFFER_SIZE: nat := 8

  datatype Phase = Streaming | Leaving | Gone

  /** Events are named by the Send call they come from. */
  datatype Conn = Conn(device: string, buffer: seq<SendId>, received: seq<SendId>, accepted: seq<SendId>, phase: Phase)

  datatype Outcome = Sending | Ok | NoConnection

  /** `todo` is what is left of `targets`; the others took the event, had a full buffer, or were
      found closed. */
  datatype Sender = Sender(device: string, targets: seq<ConnId>, todo: seq<ConnId>, took: seq<ConnId>,
                           full: seq<ConnId>, foundClosed: seq<ConnId>, outcome: Outcome)

  datatype State = State(r: Registry, conns: map<ConnId, Conn>, senders: map<SendId, Sender>)

  datatype Step =
    | Register(id: ConnId, device: string)
    | Begin(send: SendId, device: string)
    | Accept(send: SendId)
    | FindClosed(send: SendId)
    | FindFull(send: SendId)
    | Return(send: SendId)
    | Receive(id: ConnId)
    | Leave(id: ConnId)
    | Remove(id: ConnId)
    | Close

  function Init(): State {
    State(Registry(map[], map[]), map[], map[])
  }

  predicate NoReaders(s: State) {
    forall k | k in s.senders :: s.senders[k].outcome != Sending
  }

  predicate AtHead(s: State, k: SendId) {
    k in s.senders && s.senders[k].outcome == Sending && s.senders[k].todo != [] && s.senders[k].todo[0] in s.conns
  }

  predicate Enabled(s: State, step: Step) {
    match step
    case Register(id, _) => id !in s.conns && NoReaders(s)
    case Begin(k, _) => k !in s.senders
    case Accept(k) => AtHead(s, k) && |s.conns[s.senders[k].todo[0]].buffer| < BUFFER_SIZE
    case FindClosed(k) => AtHead(s, k) && Closes(s.r, s.senders[k].todo[0]) > 0
    case FindFull(k) =>
      && AtHead(s, k) && |s.conns[s.senders[k].todo[0]].buffer| >= BUFFER_SIZE && Closes(s.r, s.senders[k].todo[0]) == 0
    case Return(k) => k in s.senders && s.senders[k].outcome == Sending && s.senders[k].todo == []
    case Receive(id) => id in s.conns && s.conns[id].phase == Streaming && s.conns[id].buffer != []
    case Leave(id) => id in s.conns && s.conns[id].phase == Streaming
    case Remove(id) => id in s.conns && s.conns[id].phase == Leaving && NoReaders(s)
    case Close => NoReaders(s)
  }

  function SetSender(s: State, k: SendId, sender: Sender): State {
    s.(senders := s.senders[k := sender])
  }

  function Next(s: State, step: Step): State
    requires Enabled(s, step)
  {
    match step
    case Register(id, device) =>
      s.(r := Added(s.r, device, id), conns := s.conns[id := Conn(device, [], [], [], Streaming)])
    case Begin(k, device) =>
      var targets := Of(s.r, device);
      SetSender(s, k, Sender(device, targets, targets, [], [], [],
        if device in s.r.connections then Sending else NoConnection))
    case Accept(k) =>
      var sender := s.senders[k];
      var id := sender.todo[0];
      var conn := s.conns[id];
      SetSender(s, k, sender.(todo := sender.todo[1..], took := sender.took + [id])).(
        conns := s.conns[id := conn.(buffer := conn.buffer + [k], accepted := conn.accepted + [k])])
    case FindClosed(k) =>
      var sender := s.senders[k];
      SetSender(s, k, sender.(todo := sender.todo[1..], foundClosed := sender.foundClosed + [sender.todo[0]]))
    case FindFull(k) =>
      var sender := s.senders[k];
      SetSender(s, k, sender.(todo := sender.todo[1..], full := sender.full + [sender.todo[0]]))
    case Return(k) =>
      SetSender(s, k, s.senders[k].(outcome := if s.senders[k].took == [] then NoConnection else Ok))
    case Receive(id) =>
      var conn := s.conns[id];
      s.(conns := s.conns[id := conn.(buffer := conn.buffer[1..], received := conn.received + [conn.buffer[0]])])
    case Leave(id) => s.(conns := s.conns[id := s.conns[id].(phase := Leaving)])
    case Remove(id) =>
      s.(r := Removed(s.r, s.conns[id].device, id), conns := s.conns[id := s.conns[id].(phase := Gone)])
    case Close => s.(r := Cleared(s.r))
  }

  predicate Possible(s: State, steps: seq<Step>)
    decreases |steps|
  {
    steps == [] || (Enabled(s, steps[0]) && Possible(Next(s, steps[0]), steps[1..]))
  }

  function Run(s: State, steps: seq<Step>): State
    requires Possible(s, steps)
    decreases |steps|
  {
    if steps == [] then s else Run(Next(s, steps[0]), steps[1..])
  }

  // ---------- The invariant ----------

  /** A connection is listed under its own device only, until it is gone. */
  ghost predicate ListedOk(s: State) {
    forall d, id | d in s.r.connections && id in s.r.connections[d] ::
      id in s.conns && s.conns[id].device == d && s.conns[id].phase != Gone
  }

  predicate IsListed(s: State, id: ConnId) {
    id in s.conns && id in Of(s.r, s.conns[id].device)
  }

  /** Listed means open; not listed any more means closed exactly once. */
  ghost predicate ClosesOk(s: State) {
    forall id :: Closes(s.r, id) == if id in s.conns && !IsListed(s, id) then 1 else 0
  }

  ghost predicate RegistryOk(s: State) {
    WellFormed(s.r) && ListedOk(s) && ClosesOk(s)
  }

  ghost predicate ConnOk(s: State, id: ConnId)
    requires id in s.conns
  {
    var c := s.conns[id];
    && c.accepted == c.received + c.buffer && |c.buffer| <= BUFFER_SIZE
    && forall k :: multiset(c.accepted)[k] == if k in s.senders then multiset(s.senders[k].took)[id] else 0
  }

  ghost predicate SenderOk(s: State, k: SendId)
    requires k in s.senders
  {
    var x := s.senders[k];
    && Distinct(x.targets) && x.foundClosed == [] && (forall id | id in x.targets :: id in s.conns)
    && (x.outcome == Sending ==> x.targets == Of(s.r, x.device))
    && (x.outcome != Sending ==> x.todo == [])
    && (x.outcome == Ok ==> x.took != []) && (x.outcome == NoConnection ==> x.took == [])
    && multiset(x.targets) == multiset(x.took) + multiset(x.full) + multiset(x.todo)
  }

  ghost predicate Inv(s: State) {
    && RegistryOk(s)
    && (forall id | id in s.conns :: ConnOk(s, id))
    && (forall k | k in s.senders :: SenderOk(s, k))
  }

  // ---------- The registry's own steps ----------

  lemma AddedWellFormed(r: Registry, device: string, id: ConnId)
    requires WellFormed(r) && forall d | d in r.connections :: id !in r.connections[d]
    ensures WellFormed(Added(r, device, id))
  {
    var r' := Added(r, device, id);
    assert device in r.connections ==> Distinct(r.connections[device]);
    forall d, e | d in r'.connections && e in r'.connections && d != e
      ensures Apart(r'.connections[d], r'.connections[e])
    {
      if d in r.connections && e in r.connections {
        assert Apart(r.connections[d], r.connections[e]);
      }
    }
  }

  lemma RegisterOk(s: State, device: string, id: ConnId)
    requires RegistryOk(s) && id !in s.conns
    ensures RegistryOk(s.(r := Added(s.r, device, id), conns := s.conns[id := Conn(device, [], [], [], Streaming)]))
  {
    var s' := s.(r := Added(s.r, device, id), conns := s.conns[id := Conn(device, [], [], [], Streaming)]);
    AddedWellFormed(s.r, device, id);
    forall x ensures Closes(s'.r, x) == if x in s'.conns && !IsListed(s', x) then 1 else 0 {
      assert Closes(s.r, x) == if x in s.conns && !IsListed(s, x) then 1 else 0;
      assert x != id ==> (IsListed(s', x) <==> IsListed(s, x));
    }
  }

  /** Cutting the i-th id out of its list. */
  lemma CutMembers(ids: seq<ConnId>, i: nat)
    requires Distinct(ids) && i < |ids|
    ensures Distinct(ids[..i] + ids[i + 1..])
    ensures forall x :: x in ids[..i] + ids[i + 1..] <==> x in ids && x != ids[i]
  {
    var left := ids[..i] + ids[i + 1..];
    forall x | x in ids && x != ids[i] ensures x in left {
      var j :| 0 <= j < |ids| && ids[j] == x;
      assert left[if j < i then j else j - 1] == x;
    }
  }

  lemma RemovedMembers(r: Registry, device: string, id: ConnId)
    requires WellFormed(r)
    ensures Distinct(Of(Removed(r, device, id), device))
    ensures forall x :: x in Of(Removed(r, device, id), device) <==> x in Of(r, device) && x != id
  {
    var ids := Of(r, device);
    if id in ids {
      var i :| 0 <= i < |ids| && ids[i] == id;
      WithoutCuts(ids, id, i);
      CutMembers(ids, i);
    } else {
      WithoutNone(ids, id);
    }
  }

  lemma RemovedWellFormed(r: Registry, device: string, id: ConnId)
    requires WellFormed(r)
    ensures WellFormed(Removed(r, device, id))
  {
    var r' := Removed(r, device, id);
    RemovedMembers(r, device, id);
    forall d, e | d in r'.connections && e in r'.connections && d != e
      ensures Apart(r'.connections[d], r'.connections[e])
    {
      assert Apart(r.connections[d], r.connections[e]);
      forall i, j | 0 <= i < |r'.connections[d]| && 0 <= j < |r'.connections[e]|
        ensures r'.connections[d][i] != r'.connections[e][j]
      {
        assert r'.connections[d][i] in Of(r, d) && r'.connections[e][j] in Of(r, e);
      }
    }
  }

  lemma RemoveOk(s: State, id: ConnId)
    requires RegistryOk(s) && Enabled(s, Remove(id))
    ensures RegistryOk(Next(s, Remove(id)))
  {
    var device := s.conns[id].device;
    var s' := Next(s, Remove(id));
    RemovedWellFormed(s.r, device, id);
    RemovedMembers(s.r, device, id);
    forall d, x | d in s'.r.connections && x in s'.r.connections[d]
      ensures x in s'.conns && s'.conns[x].device == d && s'.conns[x].phase != Gone
    {
      assert x in Of(s.r, d);
    }
    forall x ensures Closes(s'.r, x) == if x in s'.conns && !IsListed(s', x) then 1 else 0 {
      assert Closes(s.r, x) == if x in s.conns && !IsListed(s, x) then 1 else 0;
      assert x != id ==> (IsListed(s', x) <==> IsListed(s, x));
    }
  }

  lemma CloseOk(s: State)
    requires RegistryOk(s)
    ensures RegistryOk(s.(r := Cleared(s.r)))
  {
    forall x ensures Closes(Cleared(s.r), x) == if x in s.conns then 1 else 0 {
      assert Closes(s.r, x) == if x in s.conns && !IsListed(s, x) then 1 else 0;
      assert x in Listed(s.r) <==> IsListed(s, x);
    }
  }

  // ---------- Registry steps leave connections and senders alone ----------

  lemma NotTaken(s: State, k: SendId, id: ConnId)
    requires k in s.senders && SenderOk(s, k) && id !in s.conns
    ensures multiset(s.senders[k].took)[id] == 0
  {
    assert multiset(s.senders[k].targets)[id] == 0;
  }

  lemma SenderKept(s: State, s': State, k: SendId)
    requires k in s.senders && SenderOk(s, k) && k in s'.senders && s'.senders[k] == s.senders[k]
    requires s.conns.Keys <= s'.conns.Keys && (s.senders[k].outcome == Sending ==> s'.r.connections == s.r.connections)
    ensures SenderOk(s', k)
  {
  }

  lemma ConnKept(s: State, s': State, id: ConnId)
    requires id in s.conns && ConnOk(s, id) && id in s'.conns
    requires s'.conns[id] == s.conns[id].(phase := s'.conns[id].phase)
    requires forall k | k in s.senders :: k in s'.senders && s'.senders[k].took == s.senders[k].took
    requires forall k | k in s'.senders && k !in s.senders :: s'.senders[k].took == []
    ensures ConnOk(s', id)
  {
    forall k
      ensures multiset(s'.conns[id].accepted)[k] == if k in s'.senders then multiset(s'.senders[k].took)[id] else 0
    {
      assert multiset(s.conns[id].accepted)[k] == if k in s.senders then multiset(s.senders[k].took)[id] else 0;
    }
  }

  lemma RegistryStepKeeps(s: State, s': State)
    requires (forall id | id in s.conns :: ConnOk(s, id)) && (forall k | k in s.senders :: SenderOk(s, k))
    requires NoReaders(s) && RegistryOk(s') && s'.senders == s.senders
    requires forall id | id in s.conns :: id in s'.conns && s'.conns[id] == s.conns[id].(phase := s'.conns[id].phase)
    requires forall id | id in s'.conns && id !in s.conns ::
               s'.conns[id].accepted == s'.conns[id].received == s'.conns[id].buffer == []
    ensures Inv(s')
  {
    forall id | id in s'.conns ensures ConnOk(s', id) {
      if id in s.conns {
        ConnKept(s, s', id);
      } else {
        forall k | k in s.senders ensures multiset(s.senders[k].took)[id] == 0 {
          NotTaken(s, k, id);
        }
      }
    }
    forall k | k in s'.senders ensures SenderOk(s', k) {
      SenderKept(s, s', k);
    }
  }

  /** The connections may move on, but none changes its device or comes back. */
  ghost predicate Moved(s: State, s': State) {
    && s'.r == s.r && s'.conns.Keys == s.conns.Keys
    && forall id | id in s.conns ::
         s'.conns[id].device == s.conns[id].device && (s'.conns[id].phase == Gone ==> s.conns[id].phase == Gone)
  }

  lemma ListedMoved(s: State, s': State)
    requires ListedOk(s) && Moved(s, s')
    ensures ListedOk(s')
  {
  }

  lemma ClosesMoved(s: State, s': State)
    requires ClosesOk(s) && Moved(s, s')
    ensures ClosesOk(s')
  {
    forall id ensures Closes(s'.r, id) == if id in s'.conns && !IsListed(s', id) then 1 else 0 {
      assert Closes(s.r, id) == if id in s.conns && !IsListed(s, id) then 1 else 0;
    }
  }

  lemma ConnsMoved(s: State, s': State)
    requires RegistryOk(s) && Moved(s, s')
    ensures RegistryOk(s')
  {
    ListedMoved(s, s');
    ClosesMoved(s, s');
  }

  lemma SendersKept(s: State, s': State)
    requires forall k | k in s.senders :: SenderOk(s, k)
    requires s'.senders == s.senders && s'.conns.Keys == s.conns.Keys && s'.r == s.r
    ensures forall k | k in s'.senders :: SenderOk(s', k)
  {
    forall k | k in s'.senders ensures SenderOk(s', k) {
      SenderKept(s, s', k);
    }
  }

  // ---------- Sending and reading ----------

  /** The connection at the head of a Send's list is listed, and so open. */
  lemma HeadIsListed(s: State, k: SendId)
    requires RegistryOk(s) && AtHead(s, k) && SenderOk(s, k)
    ensures Closes(s.r, s.senders[k].todo[0]) == 0
  {
    var x := s.senders[k];
    var id := x.todo[0];
    assert multiset(x.todo)[id] > 0;
    assert id in multiset(x.targets) && id in Of(s.r, x.device);
    assert IsListed(s, id);
  }

  lemma TailOf(todo: seq<ConnId>)
    requires todo != []
    ensures multiset(todo) == multiset{todo[0]} + multiset(todo[1..])
  {
    assert todo == [todo[0]] + todo[1..];
  }

  lemma FindFullSender(s: State, k: SendId)
    requires AtHead(s, k) && SenderOk(s, k) && Enabled(s, FindFull(k))
    ensures SenderOk(Next(s, FindFull(k)), k)
  {
    TailOf(s.senders[k].todo);
  }

  lemma ReturnSender(s: State, k: SendId)
    requires Enabled(s, Return(k)) && SenderOk(s, k)
    ensures SenderOk(Next(s, Return(k)), k)
  {
  }

  lemma BeginSender(s: State, k: SendId, device: string)
    requires RegistryOk(s) && k !in s.senders
    ensures SenderOk(Next(s, Begin(k, device)), k)
  {
    assert forall id | id in Of(s.r, device) :: id in s.conns;
  }

  /** Only the sender itself is touched, and it hands nothing over. */
  lemma SenderStepKeeps(s: State, s': State, k: SendId, sender: Sender)
    requires Inv(s) && s' == SetSender(s, k, sender) && SenderOk(s', k)
    requires sender.took == if k in s.senders then s.senders[k].took else []
    ensures Inv(s')
  {
    ConnsMoved(s, s');
    OtherSenders(s, s', k);
    ConnsOfSender(s, s', k, sender);
  }

  lemma OtherSenders(s: State, s': State, k: SendId)
    requires (forall j | j in s.senders :: SenderOk(s, j)) && k in s'.senders && SenderOk(s', k)
    requires s'.conns == s.conns && s'.r == s.r && s'.senders.Keys == s.senders.Keys + {k}
    requires forall j | j in s.senders && j != k :: s'.senders[j] == s.senders[j]
    ensures forall j | j in s'.senders :: SenderOk(s', j)
  {
    forall j | j in s'.senders ensures SenderOk(s', j) {
      if j != k {
        SenderKept(s, s', j);
      }
    }
  }

  lemma ConnsOfSender(s: State, s': State, k: SendId, sender: Sender)
    requires (forall id | id in s.conns :: ConnOk(s, id)) && s' == SetSender(s, k, sender)
    requires sender.took == if k in s.senders then s.senders[k].took else []
    ensures forall id | id in s'.conns :: ConnOk(s', id)
  {
    forall id | id in s'.conns ensures ConnOk(s', id) {
      ConnKept(s, s', id);
    }
  }

  lemma AcceptSender(s: State, k: SendId)
    requires Enabled(s, Accept(k)) && SenderOk(s, k)
    ensures SenderOk(Next(s, Accept(k)), k)
  {
    TailOf(s.senders[k].todo);
  }

  /** How often the event of Send `j` was accepted grows with the list of those that took it. */
  lemma AcceptCount(s: State, k: SendId, id: ConnId, j: SendId)
    requires Enabled(s, Accept(k)) && id in s.conns
    requires multiset(s.conns[id].accepted)[j] == if j in s.senders then multiset(s.senders[j].took)[id] else 0
    ensures var s' := Next(s, Accept(k));
            multiset(s'.conns[id].accepted)[j] == if j in s'.senders then multiset(s'.senders[j].took)[id] else 0
  {
  }

  lemma AcceptBuffer(s: State, k: SendId, id: ConnId)
    requires Enabled(s, Accept(k)) && id in s.conns && ConnOk(s, id)
    ensures var c := Next(s, Accept(k)).conns[id]; c.accepted == c.received + c.buffer && |c.buffer| <= BUFFER_SIZE
  {
  }

  lemma AcceptConn(s: State, k: SendId, id: ConnId)
    requires Enabled(s, Accept(k)) && id in s.conns && ConnOk(s, id)
    ensures ConnOk(Next(s, Accept(k)), id)
  {
    var s' := Next(s, Accept(k));
    AcceptBuffer(s, k, id);
    forall j
      ensures multiset(s'.conns[id].accepted)[j] == if j in s'.senders then multiset(s'.senders[j].took)[id] else 0
    {
      AcceptCount(s, k, id, j);
    }
  }

  lemma AcceptKeeps(s: State, k: SendId)
    requires Inv(s) && Enabled(s, Accept(k))
    ensures Inv(Next(s, Accept(k)))
  {
    var s' := Next(s, Accept(k));
    ConnsMoved(s, s');
    AcceptSenders(s, k);
    forall id | id in s'.conns ensures ConnOk(s', id) {
      AcceptConn(s, k, id);
    }
  }

  lemma AcceptSenders(s: State, k: SendId)
    requires Enabled(s, Accept(k)) && forall j | j in s.senders :: SenderOk(s, j)
    ensures forall j | j in Next(s, Accept(k)).senders :: SenderOk(Next(s, Accept(k)), j)
  {
    AcceptSender(s, k);
    forall j | j in s.senders && j != k ensures SenderOk(Next(s, Accept(k)), j) {
      SenderKept(s, Next(s, Accept(k)), j);
    }
  }

  lemma ReceiveMoves(s: State, id: ConnId)
    requires Enabled(s, Receive(id))
    ensures var c, c', s' := s.conns[id], Next(s, Receive(id)).conns[id], Next(s, Receive(id));
            && c'.received + c'.buffer == c.received + c.buffer && |c'.buffer| == |c.buffer| - 1
            && c'.accepted == c.accepted && s'.senders == s.senders
  {
    var c, c' := s.conns[id], Next(s, Receive(id)).conns[id];
    assert c.received + c.buffer == c'.received + c'.buffer;
  }

  lemma ReceiveConn(s: State, id: ConnId)
    requires Enabled(s, Receive(id)) && ConnOk(s, id)
    ensures ConnOk(Next(s, Receive(id)), id)
  {
    ReceiveMoves(s, id);
    var s' := Next(s, Receive(id));
    forall k
      ensures multiset(s'.conns[id].accepted)[k] == if k in s'.senders then multiset(s'.senders[k].took)[id] else 0
    {
      assert multiset(s.conns[id].accepted)[k] == if k in s.senders then multiset(s.senders[k].took)[id] else 0;
    }
  }

  lemma OneMoved(s: State, s': State, id: ConnId, c: Conn)
    requires id in s.conns && s' == s.(conns := s.conns[id := c])
    requires c.device == s.conns[id].device && (c.phase == Gone ==> s.conns[id].phase == Gone)
    ensures Moved(s, s') && s'.conns - {id} == s.conns - {id} && s'.senders == s.senders
  {
  }

  /** Only the connection itself is touched. */
  lemma ConnStepKeeps(s: State, s': State, id: ConnId, c: Conn)
    requires Inv(s) && id in s.conns && s' == s.(conns := s.conns[id := c]) && ConnOk(s', id)
    requires c.device == s.conns[id].device && (c.phase == Gone ==> s.conns[id].phase == Gone)
    ensures Inv(s')
  {
    OneMoved(s, s', id, c);
    ConnsMoved(s, s');
    SendersKept(s, s');
    OthersKept(s, s', id);
  }

  lemma OthersKept(s: State, s': State, id: ConnId)
    requires (forall x | x in s.conns :: ConnOk(s, x)) && id in s'.conns && ConnOk(s', id)
    requires s'.senders == s.senders && s'.conns.Keys == s.conns.Keys && s'.conns - {id} == s.conns - {id}
    ensures forall x | x in s'.conns :: ConnOk(s', x)
  {
    forall x | x in s'.conns ensures ConnOk(s', x) {
      if x != id {
        assert (s'.conns - {id})[x] == (s.conns - {id})[x];
        ConnKept(s, s', x);
      }
    }
  }

  lemma ReceiveKeeps(s: State, id: ConnId)
    requires Inv(s) && Enabled(s, Receive(id))
    ensures Inv(Next(s, Receive(id)))
  {
    ReceiveConn(s, id);
    ConnStepKeeps(s, Next(s, Receive(id)), id, Next(s, Receive(id)).conns[id]);
  }

  lemma LeaveKeeps(s: State, id: ConnId)
    requires Inv(s) && Enabled(s, Leave(id))
    ensures Inv(Next(s, Leave(id)))
  {
    ConnKept(s, Next(s, Leave(id)), id);
    ConnStepKeeps(s, Next(s, Leave(id)), id, Next(s, Leave(id)).conns[id]);
  }

  /** No reachable state enables the branch of Send for closed connections. */
  lemma NeverFindsClosed(s: State, k: SendId)
    requires Inv(s)
    ensures AtHead(s, k) ==> Closes(s.r, s.senders[k].todo[0]) == 0
    ensures !Enabled(s, FindClosed(k))
  {
    if AtHead(s, k) {
      HeadIsListed(s, k);
    }
  }

  lemma RegisterKeeps(s: State, id: ConnId, device: string)
    requires Inv(s) && Enabled(s, Register(id, device))
    ensures Inv(Next(s, Register(id, device)))
  {
    RegisterOk(s, device, id);
    RegistryStepKeeps(s, Next(s, Register(id, device)));
  }

  lemma RemoveKeeps(s: State, id: ConnId)
    requires Inv(s) && Enabled(s, Remove(id))
    ensures Inv(Next(s, Remove(id)))
  {
    RemoveOk(s, id);
    RegistryStepKeeps(s, Next(s, Remove(id)));
  }

  lemma CloseKeeps(s: State)
    requires Inv(s) && NoReaders(s)
    ensures Inv(Next(s, Close))
  {
    CloseOk(s);
    RegistryStepKeeps(s, Next(s, Close));
  }

  lemma StepKeeps(s: State, step: Step)
    requires Inv(s) && Enabled(s, step)
    ensures Inv(Next(s, step))
  {
    var s' := Next(s, step);
    match step
    case Register(id, device) => RegisterKeeps(s, id, device);
    case Remove(id) => RemoveKeeps(s, id);
    case Close => CloseKeeps(s);
    case Begin(k, device) =>
      BeginSender(s, k, device);
      SenderStepKeeps(s, s', k, s'.senders[k]);
    case FindFull(k) =>
      FindFullSender(s, k);
      SenderStepKeeps(s, s', k, s'.senders[k]);
    case Return(k) =>
      ReturnSender(s, k);
      SenderStepKeeps(s, s', k, s'.senders[k]);
    case Accept(k) => AcceptKeeps(s, k);
    case FindClosed(k) => NeverFindsClosed(s, k);
    case Receive(id) => ReceiveKeeps(s, id);
    case Leave(id) => LeaveKeeps(s, id);
  }

  lemma {:induction false} RunKeeps(s: State, steps: seq<Step>)
    requires Inv(s) && Possible(s, steps)
    ensures Inv(Run(s, steps))
    decreases |steps|
  {
    if steps == [] {
    } else {
      StepKeeps(s, steps[0]);
      RunKeeps(Next(s, steps[0]), steps[1..]);
    }
  }

  // ---------- What every run gives ----------

  /** No close signal is ever closed twice, and a Send never meets a closed one. */
  lemma ClosedAtMostOnce(steps: seq<Step>, id: ConnId, k: SendId)
    requires Possible(Init(), steps)
    ensures Closes(Run(Init(), steps).r, id) <= 1
    ensures !Enabled(Run(Init(), steps), FindClosed(k))
  {
    RunKeeps(Init(), steps);
    NeverFindsClosed(Run(Init(), steps), k);
  }

  /** What a connection received, followed by what waits in its buffer of at most eight, is what
      it accepted, in that order. */
  lemma NothingLost(steps: seq<Step>, id: ConnId)
    requires Possible(Init(), steps) && id in Run(Init(), steps).conns
    ensures var c := Run(Init(), steps).conns[id];
            c.accepted == c.received + c.buffer && |c.buffer| <= BUFFER_SIZE
  {
    RunKeeps(Init(), steps);
    assert ConnOk(Run(Init(), steps), id);
  }

  lemma DistinctOnce(ids: seq<ConnId>, id: ConnId)
    requires Distinct(ids)
    ensures multiset(ids)[id] == if id in ids then 1 else 0
    decreases |ids|
  {
    if ids == [] {
    } else {
      TailOf(ids);
      DistinctOnce(ids[1..], id);
    }
  }

  /** When Send has returned, each connection listed when it began has accepted the event exactly
      once or had a full buffer, and no other connection accepted it; it reports success exactly
      if somebody accepted. */
  lemma SendAccounts(steps: seq<Step>, k: SendId, id: ConnId)
    requires Possible(Init(), steps)
    requires var s := Run(Init(), steps); k in s.senders && s.senders[k].outcome != Sending && id in s.conns
    ensures var s := Run(Init(), steps);
            var x, times := s.senders[k], multiset(s.conns[id].accepted)[k];
            && times == (if id in x.took then 1 else 0)
            && (times > 0 ==> id in x.targets)
            && (id in x.targets ==> (times == 1 <==> id !in x.full))
            && (x.outcome == Ok <==> exists c | c in s.conns :: k in s.conns[c].accepted)
  {
    RunKeeps(Init(), steps);
    var s := Run(Init(), steps);
    var x := s.senders[k];
    assert SenderOk(s, k) && ConnOk(s, id);
    DistinctOnce(x.targets, id);
    assert multiset(x.took)[id] + multiset(x.full)[id] == multiset(x.targets)[id];
    if x.outcome == Ok {
      var c := x.took[0];
      assert c in multiset(x.took) && c in multiset(x.targets) && c in x.targets;
      assert ConnOk(s, c) && multiset(s.conns[c].accepted)[k] > 0;
    } else {
      forall c | c in s.conns ensures k !in s.conns[c].accepted {
        assert ConnOk(s, c) && multiset(s.conns[c].accepted)[k] == 0;
      }
    }
  }
}
