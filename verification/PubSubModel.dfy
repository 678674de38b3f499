/** The in-memory publish/subscribe bus as a state machine.

    Each step is one thing a goroutine does without being interrupted where it matters: a check
    of the close signal, a move on the read-write lock, a channel operation.  Messages are named
    by the Publish call that carries them.
  */
module PubSubModel {

  type PubId = nat
  type SubId = nat
  type Topic = string
  type Topics = map<Topic, set<SubId>>

  datatype CallError = NoError | PubSubClosed | InvalidTopic

  /** Where a Publish call is: past its checks, holding the read lock, or back at its caller. */
  datatype PubPhase = Checked | Locked | Returned(error: CallError)

  /** `targets` are the subscribers read under the lock; each of them is still to get a sender
      (`todo`), has a live one (`live`), was sent the message, or was given up on. */
  datatype Pub = Pub(topic: Topic, data: string, phase: PubPhase, cancelled: bool,
                     targets: set<SubId>, todo: set<SubId>, live: set<SubId>,
                     sent: set<SubId>, gaveUp: set<SubId>, after: set<PubId>)

  /** A Subscribe call up to `Registered`, then the life of the goroutine it leaves behind. */
  datatype SubPhase =
    | Fresh | WantInsert | HoldInsert | Inserted | Registered
    | Waiting | Woken | WantDelete | HoldDelete | Deleted | Unlocked | Finished
    | Refused(error: CallError)

  datatype Chan = Chan(buffer: seq<PubId>, received: seq<PubId>, closed: bool)

  datatype Sub = Sub(topic: Topic, phase: SubPhase, cancelled: bool, ch: Chan)

  /** A waiting writer keeps new readers out until it has had its turn. */
  datatype Lock = NoWriter | Pending(id: SubId) | Holding(id: SubId)

  /** Close gives the signal and then waits for the goroutines.  It may be about to wait, blocked with
      goroutines left, blocked although the last one has just ended, woken but yet to look again, or
      back at its caller. */
  datatype Closer = NotCalled | Closing | Blocked | Draining | Resuming | Closed

  datatype Panic = NoPanic | OnChannel | OnWaitGroup

  datatype State = State(capacity: nat, closer: Closer, topics: Topics, lock: Lock,
                         readers: set<PubId>, reapers: set<SubId>,
                         pubs: map<PubId, Pub>, subs: map<SubId, Sub>, panic: Panic)
  {
    /** The close signal has been given. */
    predicate Closed() {
      closer != NotCalled
    }
  }

  function Init(capacity: nat): State {
    State(capacity, NotCalled, map[], NoWriter, {}, {}, map[], map[], NoPanic)
  }

  /** The close signal is looked at before the topic. */
  function Check(closed: bool, topic: Topic): CallError {
    if closed then PubSubClosed else if topic == "" then InvalidTopic else NoError
  }

  function Members(topics: Topics, topic: Topic): set<SubId> {
    if topic in topics then topics[topic] else {}
  }

  function AddTo(topics: Topics, topic: Topic, id: SubId): Topics {
    topics[topic := Members(topics, topic) + {id}]
  }

  function RemoveFrom(topics: Topics, topic: Topic, id: SubId): Topics {
    if topic !in topics then topics
    else if topics[topic] - {id} == {} then topics - {topic}
    else topics[topic := topics[topic] - {id}]
  }

  datatype Step =
    | Publish(pub: PubId, topic: Topic, data: string)
    | LockRead(pub: PubId)
    | Spawn(pub: PubId, sub: SubId)
    | Send(pub: PubId, sub: SubId)
    | Hand(pub: PubId, sub: SubId)
    | GiveUp(pub: PubId, sub: SubId)
    | UnlockRead(pub: PubId)
    | CancelPublish(pub: PubId)
    | Subscribe(sub: SubId, topic: Topic)
    | WantLock(sub: SubId)
    | TakeLock(sub: SubId)
    | Insert(sub: SubId)
    | Unlock(sub: SubId)
    | StartReaper(sub: SubId)
    | Wake(sub: SubId)
    | Delete(sub: SubId)
    | CloseChannel(sub: SubId)
    | CancelSubscription(sub: SubId)
    | Receive(sub: SubId)
    | Close
    | CloseWaits
    | ReleaseWait
    | CloseReturns

  function PhaseOf(s: State, i: SubId): SubPhase {
    if i in s.subs then s.subs[i].phase else Finished
  }

  predicate LiveSender(s: State, p: PubId, i: SubId) {
    p in s.pubs && i in s.subs && i in s.pubs[p].live
  }

  /** A panic ends the program. */
  predicate Enabled(s: State, step: Step) {
    s.panic == NoPanic &&
    match step
    case Publish(p, _, _) => p !in s.pubs
    case LockRead(p) => p in s.pubs && s.pubs[p].phase == Checked && s.lock == NoWriter
    case Spawn(p, i) => p in s.pubs && i in s.pubs[p].todo
    // a send on a closed channel is always ready, and panics
    case Send(p, i) => LiveSender(s, p, i) && (s.subs[i].ch.closed || |s.subs[i].ch.buffer| < s.capacity)
    case Hand(p, i) => LiveSender(s, p, i) && s.subs[i].ch.buffer == [] && !s.subs[i].ch.closed
    case GiveUp(p, i) => LiveSender(s, p, i) && (s.pubs[p].cancelled || s.Closed() || s.subs[i].cancelled)
    case UnlockRead(p) => p in s.pubs && s.pubs[p].phase == Locked && s.pubs[p].todo == {} && s.pubs[p].live == {}
    case CancelPublish(p) => p in s.pubs && !s.pubs[p].cancelled && !s.pubs[p].phase.Returned?
    case Subscribe(i, _) => i !in s.subs
    case WantLock(i) => i in s.subs && (s.subs[i].phase.Fresh? || s.subs[i].phase.Woken?) && s.lock == NoWriter
    case TakeLock(i) => i in s.subs && (s.subs[i].phase.WantInsert? || s.subs[i].phase.WantDelete?) && s.readers == {}
    case Insert(i) => i in s.subs && s.subs[i].phase == HoldInsert
    case Unlock(i) => i in s.subs && (s.subs[i].phase.Inserted? || s.subs[i].phase.Deleted?)
    case StartReaper(i) => i in s.subs && s.subs[i].phase == Registered
    case Wake(i) => i in s.subs && s.subs[i].phase == Waiting && (s.subs[i].cancelled || s.Closed())
    case Delete(i) => i in s.subs && s.subs[i].phase == HoldDelete
    case CloseChannel(i) => i in s.subs && s.subs[i].phase == Unlocked
    case CancelSubscription(i) => i in s.subs && !s.subs[i].cancelled && !s.subs[i].phase.Refused?
    case Receive(i) => i in s.subs && !s.subs[i].phase.Refused? && s.subs[i].ch.buffer != []
    case Close => s.closer == NotCalled
    case CloseWaits => s.closer == Closing
    case ReleaseWait => s.closer == Draining
    case CloseReturns => s.closer == Resuming
  }

  function SetPub(s: State, p: PubId, pub: Pub): State {
    s.(pubs := s.pubs[p := pub])
  }

  function SetPhase(s: State, i: SubId, phase: SubPhase): State
    requires i in s.subs
  {
    s.(subs := s.subs[i := s.subs[i].(phase := phase)])
  }

  function SetChan(s: State, i: SubId, ch: Chan): State
    requires i in s.subs
  {
    s.(subs := s.subs[i := s.subs[i].(ch := ch)])
  }

  function ReturnedCalls(s: State): set<PubId> {
    set p | p in s.pubs && s.pubs[p].phase.Returned?
  }

  function Next(s: State, step: Step): State
    requires Enabled(s, step)
  {
    match step
    case Publish(p, topic, data) =>
      var error := Check(s.Closed(), topic);
      SetPub(s, p, Pub(topic, data, if error == NoError then Checked else Returned(error), false,
                       {}, {}, {}, {}, {}, ReturnedCalls(s)))
    case LockRead(p) =>
      var members := Members(s.topics, s.pubs[p].topic);
      SetPub(s, p, s.pubs[p].(phase := Locked, targets := members, todo := members)).(readers := s.readers + {p})
    case Spawn(p, i) =>
      SetPub(s, p, s.pubs[p].(todo := s.pubs[p].todo - {i}, live := s.pubs[p].live + {i}))
    case Send(p, i) =>
      if s.subs[i].ch.closed then s.(panic := OnChannel)
      else
        var sent := SetPub(s, p, s.pubs[p].(live := s.pubs[p].live - {i}, sent := s.pubs[p].sent + {i}));
        SetChan(sent, i, s.subs[i].ch.(buffer := s.subs[i].ch.buffer + [p]))
    case Hand(p, i) =>
      var sent := SetPub(s, p, s.pubs[p].(live := s.pubs[p].live - {i}, sent := s.pubs[p].sent + {i}));
      SetChan(sent, i, s.subs[i].ch.(received := s.subs[i].ch.received + [p]))
    case GiveUp(p, i) =>
      SetPub(s, p, s.pubs[p].(live := s.pubs[p].live - {i}, gaveUp := s.pubs[p].gaveUp + {i}))
    case UnlockRead(p) =>
      SetPub(s, p, s.pubs[p].(phase := Returned(NoError))).(readers := s.readers - {p})
    case CancelPublish(p) =>
      SetPub(s, p, s.pubs[p].(cancelled := true))
    case Subscribe(i, topic) =>
      var error := Check(s.Closed(), topic);
      s.(subs := s.subs[i := Sub(topic, if error == NoError then Fresh else Refused(error), false, Chan([], [],
        false))])
    case WantLock(i) =>
      SetPhase(s, i, if s.subs[i].phase == Fresh then WantInsert else WantDelete).(lock := Pending(i))
    case TakeLock(i) =>
      SetPhase(s, i, if s.subs[i].phase == WantInsert then HoldInsert else HoldDelete).(lock := Holding(i))
    case Insert(i) =>
      SetPhase(s, i, Inserted).(topics := AddTo(s.topics, s.subs[i].topic, i))
    case Unlock(i) =>
      SetPhase(s, i, if s.subs[i].phase == Inserted then Registered else Unlocked).(lock := NoWriter)
    // the counter may not leave zero while somebody still waits for it
    case StartReaper(i) =>
      if s.closer == Draining then s.(panic := OnWaitGroup)
      else SetPhase(s, i, Waiting).(reapers := s.reapers + {i})
    case Wake(i) =>
      s.(subs := s.subs[i := s.subs[i].(phase := Woken, cancelled := true)])
    case Delete(i) =>
      SetPhase(s, i, Deleted).(topics := RemoveFrom(s.topics, s.subs[i].topic, i))
    case CloseChannel(i) =>
      if s.subs[i].ch.closed then s.(panic := OnChannel)
      else
        SetPhase(SetChan(s, i, s.subs[i].ch.(closed := true)), i, Finished).(
          reapers := s.reapers - {i},
          closer := if s.closer == Blocked && s.reapers - {i} == {} then Draining else s.closer)
    case CancelSubscription(i) =>
      s.(subs := s.subs[i := s.subs[i].(cancelled := true)])
    case Receive(i) =>
      var ch := s.subs[i].ch;
      SetChan(s, i, ch.(buffer := ch.buffer[1..], received := ch.received + [ch.buffer[0]]))
    case Close => s.(closer := Closing)
    case CloseWaits => s.(closer := if s.reapers == {} then Closed else Blocked)
    case ReleaseWait => s.(closer := Resuming)
    // who is woken expects the counter to be still at zero
    case CloseReturns => if s.reapers == {} then s.(closer := Closed) else s.(panic := OnWaitGroup)
  }

  /** `steps` can be taken one after the other from `s`. */
  predicate Possible(s: State, steps: seq<Step>)
    decreases |steps|
  {
    steps == [] || (Enabled(s, steps[0]) && Possible(Next(s, steps[0]), steps[1..]))
  }

  function Run(s: State, steps: seq<Step>): State
    requires Possible(s, steps)
    decreases |steps|
  {
    if steps == [] then s else Run(Next(s, steps[0]), steps[1..])
  }

  /** The two operations on the table of topics, as they are written. */
  class TopicTable {
    var topics: Topics

    constructor ()
      ensures topics == map[]
    {
      topics := map[];
    }

    method Subscribe(id: SubId, topic: Topic)
      modifies this
      ensures topics == AddTo(old(topics), topic, id)
    {
      if topic !in topics {
        topics := topics[topic := {}];
      }
      topics := topics[topic := topics[topic] + {id}];
    }

    method Unsubscribe(id: SubId, topic: Topic)
      modifies this
      ensures topics == RemoveFrom(old(topics), topic, id)
    {
      if topic !in topics {
        return;
      }
      topics := topics[topic := topics[topic] - {id}];
      if topics[topic] == {} {
        topics := topics - {topic};
      }
    }
  }

  /** Leaving undoes joining, down to the entry of the topic itself. */
  lemma RemoveUndoesAdd(topics: Topics, topic: Topic, id: SubId)
    requires id !in Members(topics, topic) && (topic in topics ==> topics[topic] != {})
    ensures RemoveFrom(AddTo(topics, topic, id), topic, id) == topics
    ensures forall other | other != topic :: Members(AddTo(topics, topic, id), other) == Members(topics, other)
  {
    var joined := AddTo(topics, topic, id);
    assert joined[topic] - {id} == Members(topics, topic);
    if topic in topics {
      assert joined[topic := topics[topic]] == topics;
    } else {
      assert joined - {topic} == topics;
    }
  }
}
