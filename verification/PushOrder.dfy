/** The push queue with calls to Enqueue landing anywhere inside the one sending loop. */
module PushOrder {
  import opened PushModel

  /** An entry together with the number of the call to Enqueue that stored it. */
  datatype Item = Item(wrapper: Wrapper, ticket: nat)

  datatype Fate = Delivered | Blacklisted | Replaced(newer: nat) | Superseded(newer: nat)

  datatype Place = Queued | Sending | Retrying | Over(fate: Fate)

  /** `calls` are past the blacklist and about to store their event.  The rest is history:
      `serial` has the ticket of every entry, `enqueued` what was stored under each ticket, `sent`
      what was handed to the client in that order, `outcomes` whether it then went through, and
      `place` where each ticket has got to. */
  datatype State = State(q: Queue, now: int, calls: map<nat, Wrapper>, batch: seq<Item>, failed: seq<Item>,
                         serial: map<Key, nat>, enqueued: seq<Wrapper>,
                         sent: seq<Item>, outcomes: seq<bool>, place: map<nat, Place>)

  datatype Step =
    | Enqueue(call: nat, token: string, event: Event)
    | Store(call: nat)
    | Drain(order: seq<Key>)
    | Send(reply: Reply)
    | Retry
    | Tick(seconds: nat)

  function Init(): State {
    State(Queue(map[], map[]), 0, map[], [], [], map[], [], [], [], map[])
  }

  predicate Enabled(s: State, step: Step) {
    match step
    case Enqueue(call, _, _) => call !in s.calls
    case Store(call) => call in s.calls
    case Drain(order) => s.batch == [] && s.failed == [] && Order(s.q.events, order)
    case Send(reply) => s.batch != [] && Answers(reply, |s.batch|)
    case Retry => s.failed != []
    case Tick(_) => true
  }

  function SerialOf(s: State, k: Key): nat {
    if k in s.serial then s.serial[k] else 0
  }

  function ItemAt(s: State, k: Key): Item
    requires k in s.q.events
  {
    Item(s.q.events[k], SerialOf(s, k))
  }

  function ItemsOf(s: State, order: seq<Key>): seq<Item>
    requires forall k | k in order :: k in s.q.events
  {
    seq(|order|, i requires 0 <= i < |order| => ItemAt(s, order[i]))
  }

  function Tickets(items: seq<Item>): set<nat> {
    set i | 0 <= i < |items| :: items[i].ticket
  }

  /** The same place for many tickets at once. */
  function PutAll(place: map<nat, Place>, tickets: set<nat>, p: Place): map<nat, Place> {
    place + map t | t in tickets :: p
  }

  function DoStore(s: State, w: Wrapper): State {
    var k, t := KeyOf(w), |s.enqueued|;
    var place := if k in s.serial then s.place[s.serial[k] := Over(Replaced(t))] else s.place;
    s.(q := Put(s.q, w), serial := s.serial[k := t], enqueued := s.enqueued + [w], place := place[t := Queued])
  }

  function DoDrain(s: State, order: seq<Key>): State
    requires forall k | k in order :: k in s.q.events
  {
    var batch := ItemsOf(s, order);
    s.(q := s.q.(events := map[]), serial := map[], batch := batch, place := PutAll(s.place, Tickets(batch), Sending))
  }

  /** What the client reported of each message of a batch. */
  function OutcomesOf(reply: Reply, size: nat): seq<bool>
    requires Answers(reply, size)
  {
    seq(size, i requires 0 <= i < size => reply.Errors? && (reply.failed == [] || !reply.failed[i]))
  }

  function DoSend(s: State, failed: seq<Item>, oks: seq<bool>): State {
    s.(batch := [], failed := failed, sent := s.sent + s.batch, outcomes := s.outcomes + oks,
       place := PutAll(PutAll(s.place, Tickets(s.batch), Over(Delivered)), Tickets(failed), Retrying))
  }

  function DoRetry(s: State): State
    requires s.failed != []
  {
    var item := s.failed[0];
    var k, t, again := KeyOf(item.wrapper), item.ticket, item.wrapper.retries + 1;
    var s' := s.(q := RetryOne(s.q, item.wrapper, s.now), failed := s.failed[1..]);
    if again >= MAX_RETRIES then s'.(place := s.place[t := Over(Fate.Blacklisted)])
    else if k in s.q.events then s'.(place := s.place[t := Over(Superseded(SerialOf(s, k)))])
    else s'.(serial := s.serial[k := t], place := s.place[t := Queued])
  }

  function Next(s: State, step: Step): State
    requires Enabled(s, step)
  {
    match step
    case Enqueue(call, token, event) =>
      if PushModel.Blacklisted(s.q, token, s.now) then s else s.(calls := s.calls[call := Wrapper(token, event, 0)])
    case Store(call) => DoStore(s, s.calls[call]).(calls := s.calls - {call})
    case Drain(order) => DoDrain(s, order)
    case Send(reply) => DoSend(s, FailedOf(s.batch, reply), OutcomesOf(reply, |s.batch|))
    case Retry => DoRetry(s)
    case Tick(seconds) => s.(now := s.now + seconds)
  }

  // ---------- The invariant ----------

  /** Handed out earlier, or the same event with fewer retries. */
  predicate Before(a: Item, b: Item) {
    a.ticket < b.ticket || (a.ticket == b.ticket && a.wrapper.retries < b.wrapper.retries)
  }

  predicate SameKey(a: Item, b: Item) {
    KeyOf(a.wrapper) == KeyOf(b.wrapper)
  }

  /** The item is what was enqueued under its ticket, sent fewer than three times so far. */
  predicate Genuine(s: State, item: Item) {
    && item.ticket < |s.enqueued| && item.wrapper.retries < MAX_RETRIES
    && item.wrapper.(retries := 0) == s.enqueued[item.ticket]
  }

  predicate PlaceIs(s: State, t: nat, p: Place) {
    t in s.place && s.place[t] == p
  }

  /** Everything handed over under the key of `item` came before it. */
  ghost predicate After(s: State, item: Item) {
    forall i | 0 <= i < |s.sent| && SameKey(s.sent[i], item) :: Before(s.sent[i], item)
  }

  ghost predicate QueueOk(s: State) {
    && s.serial.Keys == s.q.events.Keys
    && (forall k | k in s.q.events ::
          && KeyOf(s.q.events[k]) == k && Genuine(s, ItemAt(s, k)) && After(s, ItemAt(s, k))
          && PlaceIs(s, s.serial[k], Queued))
  }

  ghost predicate BatchOk(s: State) {
    && (forall i | 0 <= i < |s.batch| ::
          && Genuine(s, s.batch[i]) && After(s, s.batch[i]) && PlaceIs(s, s.batch[i].ticket, Sending)
          && (KeyOf(s.batch[i].wrapper) in s.serial ==> s.batch[i].ticket < s.serial[KeyOf(s.batch[i].wrapper)]))
    && (forall i, j | 0 <= i < j < |s.batch| :: !SameKey(s.batch[i], s.batch[j]))
  }

  /** Of what is to be retried, the last thing sent under its key is the event itself. */
  ghost predicate Latest(s: State, item: Item) {
    forall i | 0 <= i < |s.sent| && SameKey(s.sent[i], item) :: s.sent[i] == item || Before(s.sent[i], item)
  }

  ghost predicate FailedOk(s: State) {
    && (s.batch == [] || s.failed == [])
    && (forall i | 0 <= i < |s.failed| ::
          && Genuine(s, s.failed[i]) && Latest(s, s.failed[i]) && PlaceIs(s, s.failed[i].ticket, Retrying)
          && (KeyOf(s.failed[i].wrapper) in s.serial ==> s.failed[i].ticket < s.serial[KeyOf(s.failed[i].wrapper)]))
    && (forall i, j | 0 <= i < j < |s.failed| :: !SameKey(s.failed[i], s.failed[j]))
  }

  ghost predicate SentOk(s: State) {
    && (forall i | 0 <= i < |s.sent| :: Genuine(s, s.sent[i]))
    && (forall i, j | 0 <= i < j < |s.sent| && SameKey(s.sent[i], s.sent[j]) :: Before(s.sent[i], s.sent[j]))
  }

  /** What the client reported to have gone through. */
  function Reported(sent: seq<Item>, outcomes: seq<bool>): set<nat> {
    set i | 0 <= i < |sent| && i < |outcomes| && outcomes[i] :: sent[i].ticket
  }

  /** What went through is done with, and was not handed over again. */
  ghost predicate OutcomesOk(s: State) {
    && |s.outcomes| == |s.sent|
    && (forall i | 0 <= i < |s.sent| && s.outcomes[i] :: PlaceIs(s, s.sent[i].ticket, Over(Delivered)))
    && (forall i, j | 0 <= i < j < |s.sent| && s.outcomes[i] :: s.sent[i].ticket != s.sent[j].ticket)
  }

  /** The event was handed over once for each of its retries. */
  ghost predicate Tried(s: State, item: Item) {
    forall r | 0 <= r < item.wrapper.retries :: Item(item.wrapper.(retries := r), item.ticket) in s.sent
  }

  ghost predicate TriedOk(s: State) {
    && (forall k | k in s.q.events :: Tried(s, ItemAt(s, k)))
    && (forall i | 0 <= i < |s.batch| :: Tried(s, s.batch[i]))
    && (forall i | 0 <= i < |s.failed| :: Tried(s, s.failed[i]) && s.failed[i] in s.sent)
  }

  /** A ticket is where its place says. */
  ghost predicate Placed(s: State, t: nat)
    requires t < |s.enqueued|
  {
    && t in s.place
    && match s.place[t]
       case Queued => KeyOf(s.enqueued[t]) in s.serial && s.serial[KeyOf(s.enqueued[t])] == t
       case Sending => t in Tickets(s.batch)
       case Retrying => t in Tickets(s.failed)
       case Over(Replaced(n)) => t < n < |s.enqueued| && KeyOf(s.enqueued[n]) == KeyOf(s.enqueued[t])
       case Over(Superseded(n)) => t < n < |s.enqueued| && KeyOf(s.enqueued[n]) == KeyOf(s.enqueued[t])
       case Over(Delivered) => t in Reported(s.sent, s.outcomes)
       case Over(Blacklisted) => Tried(s, Item(s.enqueued[t].(retries := MAX_RETRIES), t))
  }

  ghost predicate PlacesOk(s: State) {
    && (forall t | t in s.place :: t < |s.enqueued|)
    && (forall t | 0 <= t < |s.enqueued| :: Placed(s, t))
  }

  ghost predicate CallsOk(s: State) {
    && (forall c | c in s.calls :: s.calls[c].retries == 0)
    && (forall t | 0 <= t < |s.enqueued| :: s.enqueued[t].retries == 0)
  }

  ghost predicate Inv(s: State) {
    QueueOk(s) && BatchOk(s) && FailedOk(s) && SentOk(s) && TriedOk(s) && PlacesOk(s) && CallsOk(s) && OutcomesOk(s)
  }

  predicate Possible(s: State, steps: seq<Step>)
    decreases |steps|
  {
    steps == [] || (Enabled(s, steps[0]) && Possible(Next(s, steps[0]), steps[1..]))
  }

  function Run(s: State, steps: seq<Step>): State
    requires Possible(s, steps)
    decreases |steps|
  {
    if steps == [] then s else Run(Next(s, steps[0]), steps[1..])
  }

  // ---------- Storing ----------

  /** Everything handed over is older than a ticket just drawn. */
  lemma StoreNew(s: State, w: Wrapper)
    requires SentOk(s) && w.retries == 0
    ensures var s', k := DoStore(s, w), KeyOf(w);
            Genuine(s', ItemAt(s', k)) && After(s', ItemAt(s', k)) && PlaceIs(s', s'.serial[k], Queued)
  {
    assert forall i | 0 <= i < |s.sent| :: Genuine(s, s.sent[i]);
  }

  lemma StoreOther(s: State, w: Wrapper, k: Key)
    requires QueueOk(s) && k in s.q.events && k != KeyOf(w)
    ensures var s' := DoStore(s, w);
            Genuine(s', ItemAt(s', k)) && After(s', ItemAt(s', k)) && PlaceIs(s', s'.serial[k], Queued)
  {
    assert ItemAt(DoStore(s, w), k) == ItemAt(s, k) && Genuine(s, ItemAt(s, k)) && After(s, ItemAt(s, k));
    if KeyOf(w) in s.serial {
      assert Genuine(s, ItemAt(s, KeyOf(w)));
    }
  }

  lemma StoreQueue(s: State, w: Wrapper)
    requires QueueOk(s) && SentOk(s) && w.retries == 0
    ensures QueueOk(DoStore(s, w))
  {
    var s' := DoStore(s, w);
    forall k | k in s'.q.events
      ensures Genuine(s', ItemAt(s', k)) && After(s', ItemAt(s', k)) && PlaceIs(s', s'.serial[k], Queued)
    {
      if k == KeyOf(w) {
        StoreNew(s, w);
      } else {
        StoreOther(s, w, k);
      }
    }
  }

  lemma StoreBatch(s: State, w: Wrapper)
    requires QueueOk(s) && BatchOk(s)
    ensures BatchOk(DoStore(s, w))
  {
    var s' := DoStore(s, w);
    forall i | 0 <= i < |s.batch|
      ensures Genuine(s', s.batch[i]) && After(s', s.batch[i]) && PlaceIs(s', s.batch[i].ticket, Sending)
    {
      assert Genuine(s, s.batch[i]) && After(s, s.batch[i]);
    }
  }

  lemma StoreFlight(s: State, w: Wrapper)
    requires QueueOk(s) && BatchOk(s) && FailedOk(s) && SentOk(s)
    ensures BatchOk(DoStore(s, w)) && FailedOk(DoStore(s, w)) && SentOk(DoStore(s, w))
  {
    var s' := DoStore(s, w);
    StoreBatch(s, w);
    forall i | 0 <= i < |s.failed|
      ensures Genuine(s', s.failed[i]) && Latest(s', s.failed[i]) && PlaceIs(s', s.failed[i].ticket, Retrying)
    {
      assert Genuine(s, s.failed[i]) && Latest(s, s.failed[i]);
    }
  }

  lemma StorePlaces(s: State, w: Wrapper)
    requires QueueOk(s) && PlacesOk(s)
    ensures PlacesOk(DoStore(s, w))
  {
    var s' := DoStore(s, w);
    forall t | 0 <= t < |s'.enqueued| ensures Placed(s', t) {
      if t < |s.enqueued| {
        assert Placed(s, t);
        if KeyOf(w) in s.serial && t == s.serial[KeyOf(w)] {
          assert Genuine(s, ItemAt(s, KeyOf(w)));
        }
      }
    }
  }

  lemma StoreTried(s: State, w: Wrapper)
    requires QueueOk(s) && TriedOk(s) && w.retries == 0
    ensures TriedOk(DoStore(s, w))
  {
    var s' := DoStore(s, w);
    forall k | k in s'.q.events ensures Tried(s', ItemAt(s', k)) {
      if k != KeyOf(w) {
        assert Tried(s, ItemAt(s, k));
      }
    }
    forall i | 0 <= i < |s.batch| ensures Tried(s', s.batch[i]) {
      assert Tried(s, s.batch[i]);
    }
    forall i | 0 <= i < |s.failed| ensures Tried(s', s.failed[i]) {
      assert Tried(s, s.failed[i]);
    }
  }

  // ---------- Draining ----------

  lemma DrainBatch(s: State, order: seq<Key>)
    requires Inv(s) && s.batch == [] && s.failed == [] && Order(s.q.events, order)
    ensures BatchOk(DoDrain(s, order)) && FailedOk(DoDrain(s, order)) && QueueOk(DoDrain(s, order))
  {
    var s' := DoDrain(s, order);
    forall i | 0 <= i < |order|
      ensures Genuine(s', s'.batch[i]) && After(s', s'.batch[i]) && PlaceIs(s', s'.batch[i].ticket, Sending)
    {
      assert order[i] in order;
      assert s'.batch[i] == ItemAt(s, order[i]) && After(s, ItemAt(s, order[i]));
      assert s'.batch[i].ticket in Tickets(s'.batch);
    }
    forall i, j | 0 <= i < j < |order| ensures !SameKey(s'.batch[i], s'.batch[j]) {
      assert order[i] in order && order[j] in order;
    }
  }

  lemma DrainPlaces(s: State, order: seq<Key>)
    requires Inv(s) && s.batch == [] && s.failed == [] && Order(s.q.events, order)
    ensures PlacesOk(DoDrain(s, order))
  {
    var s' := DoDrain(s, order);
    forall t | t in Tickets(s'.batch) ensures t < |s.enqueued| {
      var i :| 0 <= i < |order| && s'.batch[i].ticket == t;
      assert order[i] in order && Genuine(s, ItemAt(s, order[i]));
    }
    forall t | 0 <= t < |s'.enqueued| ensures Placed(s', t) {
      assert Placed(s, t);
      if s.place[t] == Queued {
        var k := KeyOf(s.enqueued[t]);
        var i :| 0 <= i < |order| && order[i] == k;
        assert s'.batch[i].ticket == t;
      }
    }
  }

  lemma DrainTried(s: State, order: seq<Key>)
    requires TriedOk(s) && s.batch == [] && s.failed == [] && Order(s.q.events, order)
    ensures TriedOk(DoDrain(s, order))
  {
    var s' := DoDrain(s, order);
    forall i | 0 <= i < |order| ensures Tried(s', s'.batch[i]) {
      assert order[i] in order && Tried(s, ItemAt(s, order[i]));
    }
  }

  // ---------- Sending ----------

  /** What is to be retried is part of what was sent. */
  ghost predicate Part(failed: seq<Item>, batch: seq<Item>) {
    && (forall i | 0 <= i < |failed| :: failed[i] in batch)
    && (forall i, j | 0 <= i < j < |failed| :: !SameKey(failed[i], failed[j]))
  }

  lemma PartGrows(before: seq<Item>, batch: seq<Item>, last: Item, taken: bool)
    requires Part(before, batch) && forall i | 0 <= i < |batch| :: !SameKey(batch[i], last)
    ensures Part(before + (if taken then [last] else []), batch + [last])
  {
    var after := before + if taken then [last] else [];
    forall i | 0 <= i < |before| ensures before[i] in batch + [last] && !SameKey(before[i], last) {
      assert before[i] in batch;
    }
    forall i | 0 <= i < |after| ensures after[i] in batch + [last] {
      if i < |before| {
        assert after[i] == before[i];
      } else {
        assert after[i] == last && (batch + [last])[|batch|] == last;
      }
    }
    forall i, j | 0 <= i < j < |after| ensures !SameKey(after[i], after[j]) {
      assert after[i] == before[i];
    }
  }

  lemma {:induction false} PickedPart(batch: seq<Item>, flags: seq<bool>)
    requires |flags| == |batch|
    requires forall i, j | 0 <= i < j < |batch| :: !SameKey(batch[i], batch[j])
    ensures Part(Picked(batch, flags), batch)
    decreases |batch|
  {
    if batch == [] {
    } else {
      var n := |batch| - 1;
      PickedPart(batch[..n], flags[..n]);
      PartGrows(Picked(batch[..n], flags[..n]), batch[..n], batch[n], flags[n]);
      assert batch[..n] + [batch[n]] == batch;
    }
  }

  lemma SendSent(s: State, failed: seq<Item>, oks: seq<bool>)
    requires SentOk(s) && BatchOk(s)
    ensures SentOk(DoSend(s, failed, oks))
  {
    var s' := DoSend(s, failed, oks);
    var n := |s.sent|;
    forall i | 0 <= i < |s'.sent| ensures Genuine(s', s'.sent[i]) {
      assert Genuine(s, s'.sent[i]);
    }
    forall i, j | 0 <= i < j < |s'.sent| ensures SameKey(s'.sent[i], s'.sent[j]) ==> Before(s'.sent[i], s'.sent[j]) {
      if n <= j {
        assert After(s, s.batch[j - n]);
        if n <= i {
          assert !SameKey(s.batch[i - n], s.batch[j - n]);
        }
      }
    }
  }

  lemma SendAfter(s: State, failed: seq<Item>, oks: seq<bool>, item: Item)
    requires After(s, item) && SerialOf(s, KeyOf(item.wrapper)) == item.ticket && KeyOf(item.wrapper) in s.serial
    requires forall i | 0 <= i < |s.batch| && KeyOf(s.batch[i].wrapper) in s.serial ::
               s.batch[i].ticket < s.serial[KeyOf(s.batch[i].wrapper)]
    ensures After(DoSend(s, failed, oks), item)
  {
    forall i | |s.sent| <= i < |s.sent + s.batch| && SameKey((s.sent + s.batch)[i], item)
      ensures Before((s.sent + s.batch)[i], item)
    {
      assert (s.sent + s.batch)[i] == s.batch[i - |s.sent|];
    }
  }

  lemma SendPlaceStays(s: State, failed: seq<Item>, oks: seq<bool>, t: nat)
    requires PlaceIs(s, t, Queued) && Part(failed, s.batch)
    requires forall i | 0 <= i < |s.batch| :: PlaceIs(s, s.batch[i].ticket, Sending)
    ensures PlaceIs(DoSend(s, failed, oks), t, Queued)
  {
    assert Tickets(failed) <= Tickets(s.batch);
  }

  lemma SendQueue(s: State, failed: seq<Item>, oks: seq<bool>)
    requires QueueOk(s) && BatchOk(s) && Part(failed, s.batch)
    ensures QueueOk(DoSend(s, failed, oks))
  {
    forall k | k in s.q.events
      ensures After(DoSend(s, failed, oks), ItemAt(s, k)) && PlaceIs(DoSend(s, failed, oks), s.serial[k], Queued)
    {
      SendAfter(s, failed, oks, ItemAt(s, k));
      SendPlaceStays(s, failed, oks, s.serial[k]);
    }
    forall k | k in s.q.events ensures Genuine(DoSend(s, failed, oks), ItemAt(s, k)) {
      assert Genuine(s, ItemAt(s, k));
    }
    QueueFrame(s, DoSend(s, failed, oks));
  }

  lemma QueueFrame(s: State, s': State)
    requires QueueOk(s) && s'.q == s.q && s'.serial == s.serial
    requires forall k | k in s.q.events ::
               Genuine(s', ItemAt(s, k)) && After(s', ItemAt(s, k)) && PlaceIs(s', s.serial[k], Queued)
    ensures QueueOk(s')
  {
    forall k | k in s'.q.events ensures ItemAt(s', k) == ItemAt(s, k) {
    }
  }

  /** Once sent, an item of the batch is the last thing sent under its key. */
  lemma SentLatest(s: State, failed: seq<Item>, oks: seq<bool>, item: Item)
    requires item in s.batch && After(s, item)
    requires forall i, j | 0 <= i < j < |s.batch| :: !SameKey(s.batch[i], s.batch[j])
    ensures Latest(DoSend(s, failed, oks), item)
  {
    var sent := s.sent + s.batch;
    var b :| 0 <= b < |s.batch| && s.batch[b] == item;
    forall j | |s.sent| <= j < |sent| && SameKey(sent[j], item) ensures sent[j] == item {
      assert sent[j] == s.batch[j - |s.sent|];
    }
  }

  lemma SendFailedItem(s: State, failed: seq<Item>, oks: seq<bool>, item: Item)
    requires BatchOk(s) && item in s.batch && item in failed
    ensures var s' := DoSend(s, failed, oks);
            && Genuine(s', item) && Latest(s', item) && PlaceIs(s', item.ticket, Retrying)
            && (KeyOf(item.wrapper) in s'.serial ==> item.ticket < s'.serial[KeyOf(item.wrapper)])
  {
    var b :| 0 <= b < |s.batch| && s.batch[b] == item;
    assert Genuine(s, s.batch[b]) && After(s, s.batch[b]);
    SentLatest(s, failed, oks, item);
    assert item.ticket in Tickets(failed);
  }

  lemma SendFailed(s: State, failed: seq<Item>, oks: seq<bool>)
    requires BatchOk(s) && Part(failed, s.batch)
    ensures FailedOk(DoSend(s, failed, oks)) && BatchOk(DoSend(s, failed, oks))
  {
    var s' := DoSend(s, failed, oks);
    forall i | 0 <= i < |failed|
      ensures Genuine(s', failed[i]) && Latest(s', failed[i]) && PlaceIs(s', failed[i].ticket, Retrying)
      ensures KeyOf(failed[i].wrapper) in s'.serial ==> failed[i].ticket < s'.serial[KeyOf(failed[i].wrapper)]
    {
      SendFailedItem(s, failed, oks, failed[i]);
    }
  }

  lemma TicketsAppend(a: seq<Item>, b: seq<Item>)
    ensures Tickets(a + b) == Tickets(a) + Tickets(b)
  {
    forall t | t in Tickets(a) ensures t in Tickets(a + b) {
      var i :| 0 <= i < |a| && a[i].ticket == t;
      assert (a + b)[i].ticket == t;
    }
    forall t | t in Tickets(b) ensures t in Tickets(a + b) {
      var i :| 0 <= i < |b| && b[i].ticket == t;
      assert (a + b)[|a| + i].ticket == t;
    }
  }

  lemma SendTried(s: State, failed: seq<Item>, oks: seq<bool>)
    requires TriedOk(s) && Part(failed, s.batch)
    ensures TriedOk(DoSend(s, failed, oks))
  {
    var s' := DoSend(s, failed, oks);
    forall i | 0 <= i < |failed| ensures Tried(s', failed[i]) && failed[i] in s'.sent {
      assert failed[i] in s.batch;
      var b :| 0 <= b < |s.batch| && s.batch[b] == failed[i];
      assert Tried(s, s.batch[b]);
    }
    forall k | k in s'.q.events ensures Tried(s', ItemAt(s', k)) {
      assert Tried(s, ItemAt(s, k));
    }
  }

  lemma ReportedAppend(a: seq<Item>, oa: seq<bool>, b: seq<Item>, ob: seq<bool>)
    requires |oa| == |a| && |ob| == |b|
    ensures Reported(a + b, oa + ob) == Reported(a, oa) + Reported(b, ob)
  {
    forall t | t in Reported(a, oa) ensures t in Reported(a + b, oa + ob) {
      var i :| 0 <= i < |a| && oa[i] && a[i].ticket == t;
      assert (a + b)[i].ticket == t && (oa + ob)[i];
    }
    forall t | t in Reported(b, ob) ensures t in Reported(a + b, oa + ob) {
      var i :| 0 <= i < |b| && ob[i] && b[i].ticket == t;
      assert (a + b)[|a| + i].ticket == t && (oa + ob)[|a| + i];
    }
  }

  /** What went through is what is not to be retried. */
  ghost predicate Honest(s: State, failed: seq<Item>, oks: seq<bool>) {
    |oks| == |s.batch| && forall i | 0 <= i < |s.batch| :: oks[i] <==> s.batch[i].ticket !in Tickets(failed)
  }

  lemma SendPlace(s: State, failed: seq<Item>, oks: seq<bool>, t: nat)
    requires s.batch != [] && s.failed == [] && t < |s.enqueued| && Placed(s, t)
    requires Tickets(failed) <= Tickets(s.batch) && Honest(s, failed, oks) && |s.outcomes| == |s.sent|
    ensures Placed(DoSend(s, failed, oks), t)
  {
    ReportedAppend(s.sent, s.outcomes, s.batch, oks);
    if t in Tickets(s.batch) && t !in Tickets(failed) {
      var i :| 0 <= i < |s.batch| && s.batch[i].ticket == t;
      assert oks[i] && t in Reported(s.batch, oks);
    }
  }

  lemma SendPlaces(s: State, failed: seq<Item>, oks: seq<bool>)
    requires BatchOk(s) && PlacesOk(s) && Part(failed, s.batch) && s.batch != [] && s.failed == []
    requires Honest(s, failed, oks) && |s.outcomes| == |s.sent|
    ensures PlacesOk(DoSend(s, failed, oks))
  {
    forall t | t in Tickets(s.batch) ensures t < |s.enqueued| {
      assert forall i | 0 <= i < |s.batch| :: Genuine(s, s.batch[i]);
    }
    assert Tickets(failed) <= Tickets(s.batch);
    forall t | 0 <= t < |s.enqueued| ensures Placed(DoSend(s, failed, oks), t) {
      SendPlace(s, failed, oks, t);
    }
  }

  /** The tickets of a batch are different. */
  lemma BatchTickets(s: State, i: nat, j: nat)
    requires BatchOk(s) && i < |s.batch| && j < |s.batch|
    ensures s.batch[i].ticket == s.batch[j].ticket <==> i == j
  {
    assert Genuine(s, s.batch[i]) && Genuine(s, s.batch[j]);
    SameTicketSameKey(s, s.batch[i], s.batch[j]);
    if i < j {
      assert !SameKey(s.batch[i], s.batch[j]);
    } else if j < i {
      assert !SameKey(s.batch[j], s.batch[i]);
    }
  }

  lemma SendOutcome(s: State, failed: seq<Item>, oks: seq<bool>, i: nat)
    requires OutcomesOk(s) && Tickets(failed) <= Tickets(s.batch) && Honest(s, failed, oks)
    requires forall t | t in Tickets(s.batch) :: PlaceIs(s, t, Sending)
    requires i < |s.sent + s.batch| && (s.outcomes + oks)[i]
    ensures PlaceIs(DoSend(s, failed, oks), (s.sent + s.batch)[i].ticket, Over(Delivered))
  {
    if |s.sent| <= i {
      assert (s.sent + s.batch)[i] == s.batch[i - |s.sent|] && oks[i - |s.sent|];
      assert s.batch[i - |s.sent|].ticket in Tickets(s.batch);
    } else {
      assert s.outcomes[i] && PlaceIs(s, s.sent[i].ticket, Over(Delivered));
    }
  }

  lemma SendOnce(s: State, oks: seq<bool>, i: nat, j: nat)
    requires BatchOk(s) && OutcomesOk(s) && |oks| == |s.batch|
    requires i < j < |s.sent + s.batch| && (s.outcomes + oks)[i]
    ensures (s.sent + s.batch)[i].ticket != (s.sent + s.batch)[j].ticket
  {
    var n := |s.sent|;
    if n <= i {
      BatchTickets(s, i - n, j - n);
    } else if n <= j {
      assert s.outcomes[i] && PlaceIs(s, s.sent[i].ticket, Over(Delivered));
      assert PlaceIs(s, s.batch[j - n].ticket, Sending);
    }
  }

  lemma SendOutcomes(s: State, failed: seq<Item>, oks: seq<bool>)
    requires BatchOk(s) && OutcomesOk(s) && Part(failed, s.batch) && Honest(s, failed, oks)
    ensures OutcomesOk(DoSend(s, failed, oks))
  {
    var s' := DoSend(s, failed, oks);
    assert Tickets(failed) <= Tickets(s.batch);
    forall i | 0 <= i < |s'.sent| && s'.outcomes[i] ensures PlaceIs(s', s'.sent[i].ticket, Over(Delivered)) {
      SendOutcome(s, failed, oks, i);
    }
    forall i, j | 0 <= i < j < |s'.sent| && s'.outcomes[i] ensures s'.sent[i].ticket != s'.sent[j].ticket {
      SendOnce(s, oks, i, j);
    }
  }

  lemma PickedTickets(s: State, flags: seq<bool>, i: nat)
    requires BatchOk(s) && |flags| == |s.batch| && i < |s.batch|
    ensures flags[i] <==> s.batch[i].ticket in Tickets(Picked(s.batch, flags))
  {
    var failed := Picked(s.batch, flags);
    PickedMeans(s.batch, flags);
    if flags[i] {
      assert s.batch[i] in failed;
      var k :| 0 <= k < |failed| && failed[k] == s.batch[i];
      assert failed[k].ticket in Tickets(failed);
    }
    if k :| 0 <= k < |failed| && failed[k].ticket == s.batch[i].ticket {
      assert failed[k] in failed;
      var b :| 0 <= b < |s.batch| && flags[b] && s.batch[b] == failed[k];
      BatchTickets(s, b, i);
    }
  }

  lemma RepliesHonest(s: State, reply: Reply)
    requires BatchOk(s) && Answers(reply, |s.batch|)
    ensures Part(FailedOf(s.batch, reply), s.batch)
    ensures Honest(s, FailedOf(s.batch, reply), OutcomesOf(reply, |s.batch|))
  {
    if reply.Failure? {
      forall i | 0 <= i < |s.batch| ensures s.batch[i].ticket in Tickets(s.batch) {
      }
    } else if reply.failed != [] {
      PickedPart(s.batch, reply.failed);
      forall i | 0 <= i < |s.batch|
        ensures reply.failed[i] <==> s.batch[i].ticket in Tickets(Picked(s.batch, reply.failed))
      {
        PickedTickets(s, reply.failed, i);
      }
    }
  }

  // ---------- Retrying ----------

  lemma RetryOther(s: State, k: Key)
    requires QueueOk(s) && FailedOk(s) && s.failed != [] && k in s.q.events
    ensures var s' := DoRetry(s);
            k in s'.q.events && ItemAt(s', k) == ItemAt(s, k) && Genuine(s', ItemAt(s, k)) && After(s', ItemAt(s, k))
            && PlaceIs(s', s'.serial[k], Queued)
  {
    assert Genuine(s, ItemAt(s, k)) && After(s, ItemAt(s, k)) && PlaceIs(s, s.serial[k], Queued);
    assert PlaceIs(s, s.failed[0].ticket, Retrying);
  }

  lemma RetryBack(s: State, k: Key)
    requires FailedOk(s) && s.failed != [] && k !in s.q.events && k in DoRetry(s).q.events
    ensures var s' := DoRetry(s);
            && KeyOf(s'.q.events[k]) == k && Genuine(s', ItemAt(s', k)) && After(s', ItemAt(s', k))
            && k in s'.serial && PlaceIs(s', s'.serial[k], Queued)
  {
    var s', item := DoRetry(s), s.failed[0];
    assert Genuine(s, item) && Latest(s, item);
    forall i | 0 <= i < |s.sent| && SameKey(s.sent[i], ItemAt(s', k)) ensures Before(s.sent[i], ItemAt(s', k)) {
      assert SameKey(s.sent[i], item);
    }
  }

  lemma RetryQueue(s: State)
    requires QueueOk(s) && FailedOk(s) && s.failed != []
    ensures QueueOk(DoRetry(s))
  {
    var s' := DoRetry(s);
    forall k | k in s'.q.events
      ensures && KeyOf(s'.q.events[k]) == k && Genuine(s', ItemAt(s', k)) && After(s', ItemAt(s', k))
              && k in s'.serial && PlaceIs(s', s'.serial[k], Queued)
    {
      if k in s.q.events {
        RetryOther(s, k);
      } else {
        RetryBack(s, k);
      }
    }
  }

  lemma RetryFailed(s: State)
    requires QueueOk(s) && FailedOk(s) && SentOk(s) && s.failed != []
    ensures FailedOk(DoRetry(s)) && BatchOk(DoRetry(s)) && SentOk(DoRetry(s))
  {
    var s' := DoRetry(s);
    forall i | 0 <= i < |s'.failed|
      ensures Genuine(s', s'.failed[i]) && Latest(s', s'.failed[i]) && PlaceIs(s', s'.failed[i].ticket, Retrying)
      ensures KeyOf(s'.failed[i].wrapper) in s'.serial ==> s'.failed[i].ticket < s'.serial[KeyOf(s'.failed[i].wrapper)]
    {
      RetryFailedItem(s, i + 1);
    }
  }

  lemma RetryFailedItem(s: State, i: nat)
    requires QueueOk(s) && FailedOk(s) && 0 < i < |s.failed|
    ensures var s', item := DoRetry(s), s.failed[i];
            && Genuine(s', item) && Latest(s', item) && PlaceIs(s', item.ticket, Retrying)
            && (KeyOf(item.wrapper) in s'.serial ==> item.ticket < s'.serial[KeyOf(item.wrapper)])
  {
    assert !SameKey(s.failed[0], s.failed[i]);
    assert Genuine(s, s.failed[i]) && Latest(s, s.failed[i]) && Genuine(s, s.failed[0]);
  }

  lemma RetryTried(s: State)
    requires TriedOk(s) && s.failed != [] && s.serial.Keys == s.q.events.Keys
    ensures TriedOk(DoRetry(s))
  {
    var s' := DoRetry(s);
    var item := s.failed[0];
    assert Tried(s, item);
    forall k | k in s'.q.events ensures Tried(s', ItemAt(s', k)) {
      if k in s.q.events {
        assert Tried(s, ItemAt(s, k));
      } else {
        assert ItemAt(s', k).wrapper.(retries := item.wrapper.retries) == item.wrapper;
      }
    }
  }

  lemma RetriedPlace(s: State)
    requires QueueOk(s) && s.failed != [] && Genuine(s, s.failed[0]) && Tried(s, s.failed[0]) && s.failed[0] in s.sent
    requires var item := s.failed[0]; KeyOf(item.wrapper) in s.serial ==> item.ticket < s.serial[KeyOf(item.wrapper)]
    ensures Placed(DoRetry(s), s.failed[0].ticket)
  {
    var item := s.failed[0];
    var k := KeyOf(item.wrapper);
    assert s.enqueued[item.ticket].(retries := item.wrapper.retries) == item.wrapper;
    if k in s.serial {
      assert Genuine(s, ItemAt(s, k)) && KeyOf(s.q.events[k]) == k;
    }
  }

  lemma OtherPlace(s: State, t: nat)
    requires s.serial.Keys == s.q.events.Keys && s.failed != [] && t < |s.enqueued| && Placed(s, t)
    requires t != s.failed[0].ticket
    requires s.place[t] == Retrying ==> t in Tickets(s.failed[1..])
    ensures Placed(DoRetry(s), t)
  {
  }

  lemma RetryPlaces(s: State)
    requires QueueOk(s) && FailedOk(s) && TriedOk(s) && PlacesOk(s) && s.failed != []
    ensures PlacesOk(DoRetry(s))
  {
    assert Genuine(s, s.failed[0]) && Tried(s, s.failed[0]);
    forall t | 0 <= t < |s.enqueued| ensures Placed(DoRetry(s), t) {
      assert Placed(s, t);
      if t == s.failed[0].ticket {
        RetriedPlace(s);
      } else {
        if t in Tickets(s.failed) {
          var i :| 0 <= i < |s.failed| && s.failed[i].ticket == t;
          assert s.failed[1..][i - 1].ticket == t;
        }
        OtherPlace(s, t);
      }
    }
  }

  // ---------- Every run ----------

  lemma StoreKeeps(s: State, call: nat)
    requires Inv(s) && call in s.calls
    ensures Inv(Next(s, Store(call)))
  {
    var w := s.calls[call];
    StoreQueue(s, w);
    StoreFlight(s, w);
    StorePlaces(s, w);
    StoreTried(s, w);
    OutcomesStay(s, Store(call));
    Unseen(DoStore(s, w), Next(s, Store(call)));
  }

  lemma DrainKeeps(s: State, order: seq<Key>)
    requires Inv(s) && Enabled(s, Drain(order))
    ensures Inv(Next(s, Drain(order)))
  {
    DrainBatch(s, order);
    DrainPlaces(s, order);
    DrainTried(s, order);
    OutcomesStay(s, Drain(order));
  }

  lemma SendKeeps(s: State, reply: Reply)
    requires Inv(s) && Enabled(s, Send(reply))
    ensures Inv(Next(s, Send(reply)))
  {
    var failed, oks := FailedOf(s.batch, reply), OutcomesOf(reply, |s.batch|);
    RepliesHonest(s, reply);
    SendQueue(s, failed, oks);
    SendSent(s, failed, oks);
    SendFailed(s, failed, oks);
    SendPlaces(s, failed, oks);
    SendTried(s, failed, oks);
    SendOutcomes(s, failed, oks);
  }

  lemma RetryKeeps(s: State)
    requires Inv(s) && s.failed != []
    ensures Inv(Next(s, Retry))
  {
    RetryQueue(s);
    RetryFailed(s);
    RetryTried(s);
    RetryPlaces(s);
    OutcomesStay(s, Retry);
  }

  /** Steps other than sending leave what went through alone. */
  lemma OutcomesStay(s: State, step: Step)
    requires QueueOk(s) && BatchOk(s) && FailedOk(s) && PlacesOk(s) && OutcomesOk(s) && Enabled(s, step) && !step.Send?
    ensures OutcomesOk(Next(s, step))
  {
    forall i | 0 <= i < |s.sent| && s.outcomes[i] ensures PlaceIs(Next(s, step), s.sent[i].ticket, Over(Delivered)) {
      DoneStays(s, step, s.sent[i].ticket);
    }
  }

  lemma UnseenPlaces(s: State, s': State)
    requires PlacesOk(s) && s' == s.(now := s'.now, calls := s'.calls)
    ensures PlacesOk(s')
  {
    forall t | 0 <= t < |s'.enqueued| ensures Placed(s', t) {
      assert Placed(s, t);
    }
  }

  lemma UnseenQueue(s: State, s': State)
    requires QueueOk(s) && TriedOk(s) && s' == s.(now := s'.now, calls := s'.calls)
    ensures QueueOk(s') && TriedOk(s')
  {
    forall k | k in s'.q.events ensures ItemAt(s', k) == ItemAt(s, k) {
    }
  }

  /** The clock and the calls under way are of no account to the rest. */
  lemma Unseen(s: State, s': State)
    requires QueueOk(s) && BatchOk(s) && FailedOk(s) && SentOk(s) && TriedOk(s) && PlacesOk(s) && CallsOk(s')
    requires OutcomesOk(s')
    requires s' == s.(now := s'.now, calls := s'.calls)
    ensures Inv(s')
  {
    UnseenPlaces(s, s');
    UnseenQueue(s, s');
  }

  lemma StepKeeps(s: State, step: Step)
    requires Inv(s) && Enabled(s, step)
    ensures Inv(Next(s, step))
  {
    match step
    case Enqueue(_, _, _) => Unseen(s, Next(s, step));
    case Store(call) => StoreKeeps(s, call);
    case Drain(order) => DrainKeeps(s, order);
    case Send(reply) => SendKeeps(s, reply);
    case Retry => RetryKeeps(s);
    case Tick(_) => Unseen(s, Next(s, step));
  }

  lemma {:induction false} RunKeeps(s: State, steps: seq<Step>)
    requires Inv(s) && Possible(s, steps)
    ensures Inv(Run(s, steps))
    decreases |steps|
  {
    if steps == [] {
    } else {
      StepKeeps(s, steps[0]);
      RunKeeps(Next(s, steps[0]), steps[1..]);
    }
  }

  /** For one key, what is handed to the client never goes back to an event enqueued earlier, and
      the same event only comes again with more retries behind it. */
  lemma NeverBackwards(steps: seq<Step>, i: nat, j: nat)
    requires Possible(Init(), steps) && i < j < |Run(Init(), steps).sent|
    requires var s := Run(Init(), steps); SameKey(s.sent[i], s.sent[j])
    ensures var s := Run(Init(), steps);
            && s.sent[i].ticket <= s.sent[j].ticket
            && (s.sent[i].ticket == s.sent[j].ticket ==> s.sent[i].wrapper.retries < s.sent[j].wrapper.retries)
  {
    RunKeeps(Init(), steps);
  }

  /** No event is handed to the client four times. */
  lemma SentAtMostThrice(steps: seq<Step>, i: nat, j: nat, k: nat, l: nat)
    requires Possible(Init(), steps) && i < j < k < l < |Run(Init(), steps).sent|
    ensures var sent := Run(Init(), steps).sent;
            !(sent[i].ticket == sent[j].ticket == sent[k].ticket == sent[l].ticket)
  {
    RunKeeps(Init(), steps);
    var s := Run(Init(), steps);
    assert Genuine(s, s.sent[i]) && Genuine(s, s.sent[j]) && Genuine(s, s.sent[k]) && Genuine(s, s.sent[l]);
    SameTicketSameKey(s, s.sent[i], s.sent[j]);
    SameTicketSameKey(s, s.sent[j], s.sent[k]);
    SameTicketSameKey(s, s.sent[k], s.sent[l]);
  }

  lemma SameTicketSameKey(s: State, a: Item, b: Item)
    requires Genuine(s, a) && Genuine(s, b)
    ensures a.ticket == b.ticket ==> SameKey(a, b)
  {
    assert KeyOf(a.wrapper) == KeyOf(a.wrapper.(retries := 0)) && KeyOf(b.wrapper) == KeyOf(b.wrapper.(retries := 0));
  }

  /** Every event enqueued is in exactly one place, and that is where it is found: waiting under
      its key, in the batch at the client, among those to retry, or done with. */
  lemma EveryEventAccounted(steps: seq<Step>, t: nat)
    requires Possible(Init(), steps) && t < |Run(Init(), steps).enqueued|
    ensures var s := Run(Init(), steps);
            && t in s.place
            && (s.place[t] == Queued <==> exists k | k in s.serial :: s.serial[k] == t)
            && (s.place[t] == Sending <==> t in Tickets(s.batch))
            && (s.place[t] == Retrying <==> t in Tickets(s.failed))
  {
    RunKeeps(Init(), steps);
    assert Placed(Run(Init(), steps), t);
  }

  /** An event done with went through when it was last handed over, or was handed over three times in
      vain, or gave way to a newer event of the same key; so the newest of its key never gives way. */
  lemma DoneWith(steps: seq<Step>, t: nat)
    requires Possible(Init(), steps) && t < |Run(Init(), steps).enqueued|
    requires var s := Run(Init(), steps); t in s.place && s.place[t].Over?
    ensures var s := Run(Init(), steps);
            match s.place[t].fate
            case Delivered =>
              exists i | 0 <= i < |s.sent| && s.sent[i].ticket == t ::
                |s.outcomes| == |s.sent| && s.outcomes[i] && forall j | i < j < |s.sent| :: s.sent[j].ticket != t
            case Blacklisted => forall r | 0 <= r < MAX_RETRIES :: Item(s.enqueued[t].(retries := r), t) in s.sent
            case Replaced(n) => t < n < |s.enqueued| && KeyOf(s.enqueued[n]) == KeyOf(s.enqueued[t])
            case Superseded(n) => t < n < |s.enqueued| && KeyOf(s.enqueued[n]) == KeyOf(s.enqueued[t])
  {
    RunKeeps(Init(), steps);
    var s := Run(Init(), steps);
    assert Placed(s, t);
    if s.place[t].fate.Blacklisted? {
      forall r | 0 <= r < MAX_RETRIES ensures Item(s.enqueued[t].(retries := r), t) in s.sent {
        assert s.enqueued[t].(retries := MAX_RETRIES).(retries := r) == s.enqueued[t].(retries := r);
      }
    }
  }

  lemma DrainedWereQueued(s: State, order: seq<Key>)
    requires QueueOk(s) && Order(s.q.events, order)
    ensures forall t | t in Tickets(ItemsOf(s, order)) :: PlaceIs(s, t, Queued)
  {
    forall t | t in Tickets(ItemsOf(s, order)) ensures PlaceIs(s, t, Queued) {
      var i :| 0 <= i < |order| && ItemsOf(s, order)[i].ticket == t;
      assert order[i] in order;
    }
  }

  lemma SentWereSending(s: State, reply: Reply)
    requires BatchOk(s) && Answers(reply, |s.batch|)
    ensures forall t | t in Tickets(s.batch) :: PlaceIs(s, t, Sending)
    ensures Tickets(FailedOf(s.batch, reply)) <= Tickets(s.batch)
  {
    if reply.Errors? && reply.failed != [] {
      PickedPart(s.batch, reply.failed);
    }
  }

  lemma DoneStays(s: State, step: Step, t: nat)
    requires QueueOk(s) && BatchOk(s) && FailedOk(s) && PlacesOk(s) && Enabled(s, step) && t in s.place
    requires s.place[t].Over?
    ensures PlaceIs(Next(s, step), t, s.place[t])
  {
    assert Placed(s, t);
    match step
    case Store(call) =>
      if KeyOf(s.calls[call]) in s.serial {
        assert PlaceIs(s, s.serial[KeyOf(s.calls[call])], Queued);
      }
    case Drain(order) => DrainedWereQueued(s, order);
    case Send(reply) => SentWereSending(s, reply);
    case Retry => assert PlaceIs(s, s.failed[0].ticket, Retrying);
    case _ =>
  }

  /** What became of an event never changes again. */
  lemma {:induction false} DoneForGood(s: State, steps: seq<Step>, t: nat)
    requires Inv(s) && Possible(s, steps) && t in s.place && s.place[t].Over?
    ensures PlaceIs(Run(s, steps), t, s.place[t])
    decreases |steps|
  {
    if steps == [] {
    } else {
      DoneStays(s, steps[0], t);
      StepKeeps(s, steps[0]);
      DoneForGood(Next(s, steps[0]), steps[1..], t);
    }
  }

  // ---------- The blacklist ----------

  /** An event given up has its token blacklisted for a quarter of an hour. */
  lemma GivenUpBlacklists(s: State)
    requires s.failed != [] && s.failed[0].wrapper.retries + 1 >= MAX_RETRIES
    ensures var s', token := Next(s, Retry), s.failed[0].wrapper.token;
            && token in s'.q.blacklist && s'.q.blacklist[token] == s.now + 15 * 60
            && s'.q.events == s.q.events
  {
  }

  /** The token is blacklisted at least until then. */
  predicate Listed(s: State, token: string, until: int) {
    token in s.q.blacklist && until <= s.q.blacklist[token]
  }

  lemma StaysListed(s: State, step: Step, token: string, until: int)
    requires Enabled(s, step) && Listed(s, token, until) && until <= s.now + BLACKLIST_TIMEOUT
    ensures Listed(Next(s, step), token, until) && s.now <= Next(s, step).now
  {
  }

  /** Until then, whatever happens, a call to Enqueue for the token gets nowhere. */
  lemma {:induction false} BlacklistLasts(s: State, steps: seq<Step>, token: string, until: int, call: nat,
                                          event: Event)
    requires Possible(s, steps) && Listed(s, token, until) && until <= s.now + BLACKLIST_TIMEOUT
    requires Run(s, steps).now < until && call !in Run(s, steps).calls
    ensures Next(Run(s, steps), Enqueue(call, token, event)) == Run(s, steps)
    decreases |steps|
  {
    if steps == [] {
    } else {
      StaysListed(s, steps[0], token, until);
      BlacklistLasts(Next(s, steps[0]), steps[1..], token, until, call, event);
    }
  }

  /** An event given up: for the next quarter of an hour, whatever else is enqueued, sent and retried,
      calls to Enqueue for its token get nowhere. */
  lemma GivenUpIsSkipped(s: State, steps: seq<Step>, call: nat, event: Event)
    requires s.failed != [] && s.failed[0].wrapper.retries + 1 >= MAX_RETRIES
    requires Possible(Next(s, Retry), steps)
    requires Run(Next(s, Retry), steps).now < s.now + 15 * 60 && call !in Run(Next(s, Retry), steps).calls
    ensures var end := Run(Next(s, Retry), steps);
            Next(end, Enqueue(call, s.failed[0].wrapper.token, event)) == end
  {
    GivenUpBlacklists(s);
    BlacklistLasts(Next(s, Retry), steps, s.failed[0].wrapper.token, s.now + BLACKLIST_TIMEOUT, call, event);
  }

  // ---------- The undisturbed pass ----------

  function Wrappers(items: seq<Item>): seq<Wrapper> {
    seq(|items|, i requires 0 <= i < |items| => items[i].wrapper)
  }

  lemma {:induction false} WrappersPicked(items: seq<Item>, flags: seq<bool>)
    requires |flags| == |items|
    ensures Wrappers(Picked(items, flags)) == Picked(Wrappers(items), flags)
    decreases |items|
  {
    if items == [] {
    } else {
      var n := |items| - 1;
      WrappersPicked(items[..n], flags[..n]);
      assert Wrappers(items)[..n] == Wrappers(items[..n]);
    }
  }

  function Repeat(n: nat): seq<Step> {
    seq(n, _ => Retry)
  }

  lemma RetryStep(s: State)
    requires s.failed != []
    ensures Next(s, Retry).q == RetryOne(s.q, s.failed[0].wrapper, s.now) && Next(s, Retry).now == s.now
    ensures Next(s, Retry).failed == s.failed[1..]
    ensures Wrappers(s.failed)[0] == s.failed[0].wrapper && Wrappers(s.failed)[1..] == Wrappers(s.failed[1..])
  {
  }

  lemma {:induction false} RetriesRun(s: State)
    ensures Possible(s, Repeat(|s.failed|))
    ensures Run(s, Repeat(|s.failed|)).failed == []
    ensures Run(s, Repeat(|s.failed|)).q == RetryAll(s.q, Wrappers(s.failed), s.now)
    decreases |s.failed|
  {
    if s.failed == [] {
    } else {
      RetryStep(s);
      RetriesRun(Next(s, Retry));
      assert Repeat(|s.failed|)[1..] == Repeat(|s.failed| - 1);
    }
  }

  lemma SendLeaves(s: State, reply: Reply)
    requires s.batch != [] && Answers(reply, |s.batch|)
    ensures var s' := Next(s, Send(reply));
            s'.q == s.q && s'.now == s.now && s'.batch == [] && s'.failed == FailedOf(s.batch, reply)
  {
  }

  lemma DrainLeaves(s: State, order: seq<Key>)
    requires s.batch == [] && s.failed == [] && Order(s.q.events, order)
    ensures var s' := Next(s, Drain(order));
            s'.q == s.q.(events := map[]) && s'.now == s.now && s'.batch == ItemsOf(s, order)
  {
  }

  lemma FailedWrappers(items: seq<Item>, reply: Reply)
    requires Answers(reply, |items|)
    ensures Wrappers(FailedOf(items, reply)) == FailedOf(Wrappers(items), reply)
  {
    if reply.Errors? && reply.failed != [] {
      WrappersPicked(items, reply.failed);
    }
  }

  lemma RunStep(s: State, step: Step, rest: seq<Step>)
    requires Enabled(s, step) && Possible(Next(s, step), rest)
    ensures Possible(s, [step] + rest) && Run(s, [step] + rest) == Run(Next(s, step), rest)
  {
    assert ([step] + rest)[1..] == rest;
  }

  function Undisturbed(order: seq<Key>, reply: Reply, retries: nat): seq<Step> {
    [Drain(order)] + ([Send(reply)] + Repeat(retries))
  }

  lemma UndisturbedRuns(s: State, order: seq<Key>, reply: Reply, retries: nat)
    requires Enabled(s, Drain(order)) && Enabled(Next(s, Drain(order)), Send(reply))
    requires Possible(Next(Next(s, Drain(order)), Send(reply)), Repeat(retries))
    ensures Possible(s, Undisturbed(order, reply, retries))
    ensures Run(s, Undisturbed(order, reply, retries)) == Run(Next(Next(s, Drain(order)), Send(reply)), Repeat(retries))
  {
    RunStep(Next(s, Drain(order)), Send(reply), Repeat(retries));
    RunStep(s, Drain(order), [Send(reply)] + Repeat(retries));
  }

  lemma SentBack(s: State, order: seq<Key>, reply: Reply)
    requires s.batch == [] && s.failed == [] && Order(s.q.events, order) && order != [] && Answers(reply, |order|)
    ensures var s2 := Next(Next(s, Drain(order)), Send(reply));
            && s2.q == s.q.(events := map[]) && s2.now == s.now && s2.batch == []
            && s2.failed == FailedOf(ItemsOf(s, order), reply)
            && Wrappers(s2.failed) == FailedOf(Batch(s.q.events, order), reply)
  {
    DrainLeaves(s, order);
    SendLeaves(Next(s, Drain(order)), reply);
    FailedWrappers(ItemsOf(s, order), reply);
    assert Wrappers(ItemsOf(s, order)) == Batch(s.q.events, order);
  }

  lemma RetriesDone(s: State)
    requires s.batch == []
    ensures Possible(s, Repeat(|s.failed|))
    ensures var s' := Run(s, Repeat(|s.failed|));
            s'.q == RetryAll(s.q, Wrappers(s.failed), s.now) && s'.batch == s'.failed == []
  {
    RetriesRun(s);
    RetriesKeepBatch(s, Repeat(|s.failed|));
  }

  /** Left alone, draining, sending and retrying one by one amount to one pass. */
  lemma UndisturbedIsPass(s: State, order: seq<Key>, reply: Reply)
    requires s.batch == [] && s.failed == [] && Order(s.q.events, order) && order != [] && Answers(reply, |order|)
    ensures var steps := Undisturbed(order, reply, |FailedOf(ItemsOf(s, order), reply)|);
            && Possible(s, steps)
            && Run(s, steps).q == Pass(s.q, order, reply, s.now)
            && Run(s, steps).batch == Run(s, steps).failed == []
  {
    var s2 := Next(Next(s, Drain(order)), Send(reply));
    DrainLeaves(s, order);
    SentBack(s, order, reply);
    RetriesDone(s2);
    UndisturbedRuns(s, order, reply, |s2.failed|);
  }

  lemma {:induction false} RetriesKeepBatch(s: State, steps: seq<Step>)
    requires Possible(s, steps) && forall i | 0 <= i < |steps| :: steps[i] == Retry
    ensures Run(s, steps).batch == s.batch
    decreases |steps|
  {
    if steps == [] {
    } else {
      RetriesKeepBatch(Next(s, steps[0]), steps[1..]);
    }
  }

  // ---------- What the client is handed ----------

  datatype Asked = Nothing | Push(token: string, event: Event)

  /** What the call to Enqueue named `call` was last asked to push. */
  function AskedBy(steps: seq<Step>, call: nat): Asked
    decreases |steps|
  {
    if steps == [] then Nothing
    else
      var last := steps[|steps| - 1];
      if last.Enqueue? && last.call == call then Push(last.token, last.event) else AskedBy(steps[..|steps| - 1], call)
  }

  /** What was asked of the calls that got to store their events, in that order: one for each ticket. */
  function Tape(steps: seq<Step>): seq<Asked>
    decreases |steps|
  {
    if steps == [] then []
    else
      var before, last := steps[..|steps| - 1], steps[|steps| - 1];
      Tape(before) + if last.Store? then [AskedBy(before, last.call)] else []
  }

  lemma {:induction false} RunSplit(s: State, a: seq<Step>, last: Step)
    ensures Possible(s, a + [last]) <==> Possible(s, a) && Enabled(Run(s, a), last)
    ensures Possible(s, a + [last]) ==> Run(s, a + [last]) == Next(Run(s, a), last)
    decreases |a|
  {
    if a == [] {
    } else {
      assert (a + [last])[1..] == a[1..] + [last];
      if Enabled(s, a[0]) {
        RunSplit(Next(s, a[0]), a[1..], last);
      }
    }
  }

  predicate Fits(w: Wrapper, asked: Asked) {
    asked == Push(w.token, w.event) && w.retries == 0
  }

  ghost predicate OnTape(s: State, steps: seq<Step>) {
    && |s.enqueued| == |Tape(steps)|
    && (forall t | 0 <= t < |s.enqueued| :: Fits(s.enqueued[t], Tape(steps)[t]))
    && (forall c | c in s.calls :: Fits(s.calls[c], AskedBy(steps, c)))
  }

  lemma TapeStep(s: State, steps: seq<Step>, last: Step)
    requires OnTape(s, steps) && Enabled(s, last)
    ensures OnTape(Next(s, last), steps + [last])
  {
    assert (steps + [last])[..|steps|] == steps;
  }

  lemma {:induction false} RunOnTape(steps: seq<Step>)
    requires Possible(Init(), steps)
    ensures OnTape(Run(Init(), steps), steps)
    decreases |steps|
  {
    if steps == [] {
    } else {
      var n := |steps| - 1;
      assert steps == steps[..n] + [steps[n]];
      RunSplit(Init(), steps[..n], steps[n]);
      RunOnTape(steps[..n]);
      TapeStep(Run(Init(), steps[..n]), steps[..n], steps[n]);
    }
  }

  /** Whatever is handed to the client is what some call to Enqueue was asked to push, token and event with
      all its data: the call that drew the ticket. */
  lemma HandedAsAsked(steps: seq<Step>, i: nat)
    requires Possible(Init(), steps) && i < |Run(Init(), steps).sent|
    ensures var item := Run(Init(), steps).sent[i];
            && item.ticket < |Tape(steps)|
            && Tape(steps)[item.ticket] == Push(item.wrapper.token, item.wrapper.event)
  {
    RunKeeps(Init(), steps);
    RunOnTape(steps);
    var s := Run(Init(), steps);
    assert Genuine(s, s.sent[i]);
    assert Fits(s.enqueued[s.sent[i].ticket], Tape(steps)[s.sent[i].ticket]);
  }

  // ---------- Exactly when Enqueue is heard ----------

  /** When events of the token were given up in the run, after three tries each. */
  function GiveUps(s: State, steps: seq<Step>, token: string): seq<int>
    requires Possible(s, steps)
    decreases |steps|
  {
    if steps == [] then []
    else
      (if steps[0].Retry? && s.failed[0].wrapper.token == token && s.failed[0].wrapper.retries + 1 >= 3 then [s.now]
       else [])
      + GiveUps(Next(s, steps[0]), steps[1..], token)
  }

  lemma BlacklistStep(s: State, step: Step, token: string)
    requires Enabled(s, step)
    ensures var b, b' := s.q.blacklist, Next(s, step).q.blacklist;
            if step.Retry? && s.failed[0].wrapper.token == token && s.failed[0].wrapper.retries + 1 >= 3 then
              token in b' && b'[token] == s.now + 15 * 60
            else (token in b' <==> token in b) && (token in b ==> b'[token] == b[token])
  {
  }

  lemma {:induction false} BlacklistIs(s: State, steps: seq<Step>, token: string)
    requires Possible(s, steps)
    ensures var g, b := GiveUps(s, steps, token), Run(s, steps).q.blacklist;
            if g != [] then token in b && b[token] == g[|g| - 1] + 15 * 60
            else (token in b <==> token in s.q.blacklist) && (token in b ==> b[token] == s.q.blacklist[token])
    decreases |steps|
  {
    if steps == [] {
    } else {
      BlacklistStep(s, steps[0], token);
      BlacklistIs(Next(s, steps[0]), steps[1..], token);
    }
  }

  /** A call to Enqueue gets nowhere if and only if an event of its token was given up less than a quarter
      of an hour ago; in all other cases it stores its event, which takes the entry of its key. */
  lemma EnqueueHeardIff(steps: seq<Step>, call: nat, token: string, event: Event)
    requires Possible(Init(), steps) && call !in Run(Init(), steps).calls
    ensures var s, g := Run(Init(), steps), GiveUps(Init(), steps, token);
            var s1 := Next(s, Enqueue(call, token, event));
            if g != [] && s.now < g[|g| - 1] + 15 * 60 then s1 == s
            else
              && Enabled(s1, Store(call)) && s1.q == s.q
              && Next(s1, Store(call)).q ==
                 s.q.(events := s.q.events[KeyOf(Wrapper(token, event, 0)) := Wrapper(token, event, 0)])
  {
    BlacklistIs(Init(), steps, token);
  }
}
