/** The push queue: events waiting in a cache under one key each, drained, sent and retried. */
module PushModel {

  type Key = string

  datatype Event = Event(kind: string, data: map<string, string>)

  datatype Message = Message(token: string, event: Event)

  datatype Wrapper = Wrapper(token: string, event: Event, retries: nat)

  /** `blacklist` holds until when a token is blacklisted. */
  datatype Queue = Queue(events: map<Key, Wrapper>, blacklist: map<string, int>)

  /** What the client makes of a batch: an error for all of it, or one outcome for each message, or
      nothing at all when every message went through. */
  datatype Reply = Failure | Errors(failed: seq<bool>)

  const MAX_RETRIES: nat := 3
  const BLACKLIST_TIMEOUT: int := 15 * 60

  function KeyOf(w: Wrapper): Key {
    w.token + ":" + w.event.kind
  }

  predicate Blacklisted(q: Queue, token: string, now: int) {
    token in q.blacklist && now < q.blacklist[token]
  }

  function Put(q: Queue, w: Wrapper): Queue {
    q.(events := q.events[KeyOf(w) := w])
  }

  function RetryOne(q: Queue, w: Wrapper, now: int): Queue {
    var again := w.(retries := w.retries + 1);
    if again.retries >= MAX_RETRIES then q.(blacklist := q.blacklist[w.token := now + BLACKLIST_TIMEOUT])
    else if KeyOf(w) in q.events then q
    else Put(q, again)
  }

  function RetryAll(q: Queue, failed: seq<Wrapper>, now: int): Queue
    decreases |failed|
  {
    if failed == [] then q else RetryAll(RetryOne(q, failed[0], now), failed[1..], now)
  }

  /** The contract of the client. */
  predicate Answers(reply: Reply, size: nat) {
    reply.Failure? || reply.failed == [] || |reply.failed| == size
  }

  function Picked<T>(items: seq<T>, flags: seq<bool>): seq<T>
    requires |flags| == |items|
    decreases |items|
  {
    if items == [] then []
    else Picked(items[..|items| - 1], flags[..|items| - 1]) + (if flags[|items| - 1] then [items[|items| - 1]] else [])
  }

  function FailedOf<T>(items: seq<T>, reply: Reply): seq<T>
    requires Answers(reply, |items|)
  {
    if reply.Failure? then items
    else if reply.failed == [] then []
    else Picked(items, reply.failed)
  }

  /** An order in which the entries may be drained. */
  predicate Order(events: map<Key, Wrapper>, order: seq<Key>) {
    && (forall k | k in order :: k in events) && (forall k | k in events :: k in order)
    && (forall i, j | 0 <= i < j < |order| :: order[i] != order[j])
  }

  function Batch(events: map<Key, Wrapper>, order: seq<Key>): seq<Wrapper>
    requires forall k | k in order :: k in events
  {
    seq(|order|, i requires 0 <= i < |order| => events[order[i]])
  }

  /** One undisturbed pass of the loop. */
  function Pass(q: Queue, order: seq<Key>, reply: Reply, now: int): Queue
    requires Order(q.events, order) && Answers(reply, |order|)
  {
    RetryAll(q.(events := map[]), FailedOf(Batch(q.events, order), reply), now)
  }

  // ---------- Keys ----------

  lemma LongerTokenDiffers(a: Wrapper, b: Wrapper)
    requires |a.token| < |b.token| && ':' !in a.event.kind
    ensures KeyOf(a) != KeyOf(b)
  {
    if |KeyOf(a)| == |KeyOf(b)| {
      assert KeyOf(a)[|b.token|] == a.event.kind[|b.token| - |a.token| - 1];
      assert KeyOf(b)[|b.token|] == ':';
    }
  }

  /** As long as no event type contains a colon, two events share an entry exactly when they are
      of the same type and for the same token, whatever the tokens contain. */
  lemma SameKeyIff(a: Wrapper, b: Wrapper)
    requires ':' !in a.event.kind && ':' !in b.event.kind
    ensures KeyOf(a) == KeyOf(b) <==> a.token == b.token && a.event.kind == b.event.kind
  {
    if |a.token| < |b.token| {
      LongerTokenDiffers(a, b);
    } else if |b.token| < |a.token| {
      LongerTokenDiffers(b, a);
    } else {
      assert KeyOf(a)[..|a.token|] == a.token && KeyOf(a)[|a.token| + 1..] == a.event.kind;
      assert KeyOf(b)[..|b.token|] == b.token && KeyOf(b)[|b.token| + 1..] == b.event.kind;
    }
  }

  lemma {:induction false} PickedHas<T>(items: seq<T>, flags: seq<bool>, i: nat)
    requires |flags| == |items| && i < |items| && flags[i]
    ensures items[i] in Picked(items, flags)
    decreases |items|
  {
    var n := |items| - 1;
    if i == n {
    } else {
      assert items[..n][i] == items[i] && flags[..n][i];
      PickedHas(items[..n], flags[..n], i);
    }
  }

  lemma {:induction false} PickedFrom<T>(items: seq<T>, flags: seq<bool>, x: T) returns (i: nat)
    requires |flags| == |items| && x in Picked(items, flags)
    ensures i < |items| && flags[i] && items[i] == x
    decreases |items|
  {
    var n := |items| - 1;
    if x in Picked(items[..n], flags[..n]) {
      i := PickedFrom(items[..n], flags[..n], x);
    } else {
      i := n;
    }
  }

  /** What is picked are the items flagged. */
  lemma PickedMeans<T>(items: seq<T>, flags: seq<bool>)
    requires |flags| == |items|
    ensures forall i | 0 <= i < |items| && flags[i] :: items[i] in Picked(items, flags)
    ensures forall x | x in Picked(items, flags) :: exists i | 0 <= i < |items| :: flags[i] && items[i] == x
  {
    forall i | 0 <= i < |items| && flags[i] ensures items[i] in Picked(items, flags) {
      PickedHas(items, flags, i);
    }
    forall x | x in Picked(items, flags) ensures exists i | 0 <= i < |items| :: flags[i] && items[i] == x {
      var i := PickedFrom(items, flags, x);
    }
  }

  // ---------- The service ----------

  class Service {
    var queue: Queue

    constructor ()
      ensures queue == Queue(map[], map[])
    {
      queue := Queue(map[], map[]);
    }

    /** A blacklisted token is skipped; otherwise the newest event takes the entry. */
    method Enqueue(token: string, event: Event, now: int)
      modifies this
      ensures queue ==
              if Blacklisted(old(queue), token, now) then old(queue) else Put(old(queue), Wrapper(token, event, 0))
    {
      if Blacklisted(queue, token, now) {
        return;
      }
      queue := Put(queue, Wrapper(token, event, 0));
    }

    /** Takes everything out, in no particular order. */
    method Drain() returns (order: seq<Key>, batch: seq<Wrapper>)
      modifies this
      ensures Order(old(queue).events, order) && batch == Batch(old(queue).events, order)
      ensures queue == old(queue).(events := map[])
    {
      order, batch := [], [];
      var left := queue.events.Keys;
      while left != {}
        invariant left <= queue.events.Keys && queue == old(queue)
        invariant forall k :: k in order <==> k in queue.events && k !in left
        invariant forall i, j | 0 <= i < j < |order| :: order[i] != order[j]
        invariant |batch| == |order| && forall i | 0 <= i < |order| :: batch[i] == queue.events[order[i]]
        decreases |left|
      {
        var k :| k in left;
        order, batch := order + [k], batch + [queue.events[k]];
        left := left - {k};
      }
      queue := queue.(events := map[]);
    }

    method Retry(failed: seq<Wrapper>, now: int)
      modifies this
      ensures queue == RetryAll(old(queue), failed, now)
    {
      var i := 0;
      while i < |failed|
        invariant 0 <= i <= |failed|
        invariant RetryAll(old(queue), failed, now) == RetryAll(queue, failed[i..], now)
      {
        var w := failed[i].(retries := failed[i].retries + 1);
        if w.retries >= MAX_RETRIES {
          queue := queue.(blacklist := queue.blacklist[w.token := now + BLACKLIST_TIMEOUT]);
        } else if KeyOf(w) !in queue.events {
          queue := Put(queue, w);
        }
        assert failed[i..][1..] == failed[i + 1..];
        i := i + 1;
      }
    }

    /** Drains the queue, sends what was in it and puts back what did not go through.  The client is handed
        the token and the event of every entry. */
    method SendAll(client: seq<Message> -> Reply, now: int) returns (order: seq<Key>, messages: seq<Message>)
      requires forall messages :: Answers(client(messages), |messages|)
      modifies this
      ensures Order(old(queue).events, order) && |messages| == |order|
      ensures forall i | 0 <= i < |order| ::
                && messages[i].token == old(queue).events[order[i]].token
                && messages[i].event == old(queue).events[order[i]].event
      ensures queue == Pass(old(queue), order, client(messages), now)
    {
      var batch;
      order, batch := Drain();
      messages := ToMessages(batch);
      if messages == [] {
        assert order == [] && batch == [];
        return;
      }
      var reply := client(messages);
      if reply.Failure? {
        Retry(batch, now);
        return;
      }
      if reply.failed == [] {
        return;
      }
      var failed := Filter(batch, reply.failed);
      Retry(failed, now);
    }
  }

  method ToMessages(batch: seq<Wrapper>) returns (messages: seq<Message>)
    ensures |messages| == |batch|
    ensures forall i | 0 <= i < |batch| :: messages[i].token == batch[i].token && messages[i].event == batch[i].event
  {
    messages := [];
    for n := 0 to |batch|
      invariant |messages| == n
      invariant forall i | 0 <= i < n :: messages[i].token == batch[i].token && messages[i].event == batch[i].event
    {
      messages := messages + [Message(batch[n].token, batch[n].event)];
    }
  }

  method Filter(batch: seq<Wrapper>, flags: seq<bool>) returns (failed: seq<Wrapper>)
    requires |flags| == |batch|
    ensures failed == Picked(batch, flags)
  {
    failed := [];
    for n := 0 to |batch|
      invariant failed == Picked(batch[..n], flags[..n])
    {
      assert batch[..n + 1][..n] == batch[..n] && flags[..n + 1][..n] == flags[..n];
      if flags[n] {
        failed := failed + [batch[n]];
      }
    }
    assert batch[..|batch|] == batch && flags[..|batch|] == flags;
  }

  // ---------- The queue empties ----------

  /** Entries under their own keys, sent fewer than three times. */
  ghost predicate Tidy(events: map<Key, Wrapper>) {
    forall k | k in events :: KeyOf(events[k]) == k && events[k].retries < MAX_RETRIES
  }

  function Below(events: map<Key, Wrapper>, n: nat): set<Key> {
    set k | k in events && events[k].retries < n
  }

  /** The sum of 3 - retries over the entries, counted level by level. */
  function Weight(events: map<Key, Wrapper>): nat {
    |Below(events, 1)| + |Below(events, 2)| + |Below(events, 3)|
  }

  function WeightOf(w: Wrapper): nat {
    if w.retries < MAX_RETRIES then MAX_RETRIES - w.retries else 0
  }

  function Sum(ws: seq<Wrapper>): nat
    decreases |ws|
  {
    if ws == [] then 0 else WeightOf(ws[0]) + Sum(ws[1..])
  }

  lemma BelowAdd(events: map<Key, Wrapper>, k: Key, w: Wrapper, n: nat)
    requires k !in events
    ensures |Below(events[k := w], n)| == |Below(events, n)| + if w.retries < n then 1 else 0
  {
    assert Below(events[k := w], n) == Below(events, n) + if w.retries < n then {k} else {};
  }

  lemma WeightAdd(events: map<Key, Wrapper>, k: Key, w: Wrapper)
    requires k !in events
    ensures Weight(events[k := w]) == Weight(events) + WeightOf(w)
  {
    BelowAdd(events, k, w, 1);
    BelowAdd(events, k, w, 2);
    BelowAdd(events, k, w, 3);
  }

  lemma WeightRemove(events: map<Key, Wrapper>, k: Key)
    requires k in events
    ensures Weight(events) == Weight(events - {k}) + WeightOf(events[k]) && |events| == |events - {k}| + 1
  {
    assert (events - {k})[k := events[k]] == events;
    WeightAdd(events - {k}, k, events[k]);
  }

  lemma OrderTail(events: map<Key, Wrapper>, order: seq<Key>)
    requires Order(events, order) && order != []
    ensures Order(events - {order[0]}, order[1..])
    ensures Batch(events, order)[1..] == Batch(events - {order[0]}, order[1..])
  {
    var k, rest := order[0], order[1..];
    assert forall i | 0 <= i < |rest| :: rest[i] == order[i + 1] && rest[i] != k;
    forall x | x in events - {k} ensures x in rest {
      var i :| 0 <= i < |order| && order[i] == x;
      assert rest[i - 1] == x;
    }
  }

  lemma {:induction false} WeightIsSum(events: map<Key, Wrapper>, order: seq<Key>)
    requires Order(events, order)
    ensures Weight(events) == Sum(Batch(events, order)) && |events| == |order|
    decreases |order|
  {
    if order == [] {
      assert events == map[];
    } else {
      OrderTail(events, order);
      assert order[0] in order;
      WeightRemove(events, order[0]);
      WeightIsSum(events - {order[0]}, order[1..]);
    }
  }

  lemma SumAppend(a: seq<Wrapper>, w: Wrapper)
    ensures Sum(a + [w]) == Sum(a) + WeightOf(w)
    decreases |a|
  {
    if a == [] {
    } else {
      assert (a + [w])[1..] == a[1..] + [w];
      SumAppend(a[1..], w);
    }
  }

  /** What is dropped was worth at least one each. */
  lemma {:induction false} PickedSum(ws: seq<Wrapper>, flags: seq<bool>)
    requires |flags| == |ws| && forall w | w in ws :: w.retries < MAX_RETRIES
    ensures Sum(Picked(ws, flags)) + |ws| <= Sum(ws) + |Picked(ws, flags)|
    decreases |ws|
  {
    if ws == [] {
    } else {
      var n := |ws| - 1;
      PickedSum(ws[..n], flags[..n]);
      SumAppend(ws[..n], ws[n]);
      SumAppend(Picked(ws[..n], flags[..n]), ws[n]);
      assert ws == ws[..n] + [ws[n]] && ws[n] in ws;
      assert Picked(ws[..n], flags[..n]) + [] == Picked(ws[..n], flags[..n]);
    }
  }

  lemma {:induction false} RetryAllFalls(q: Queue, failed: seq<Wrapper>, now: int)
    requires forall w | w in failed :: w.retries < MAX_RETRIES
    requires Tidy(q.events)
    ensures Tidy(RetryAll(q, failed, now).events)
    ensures Weight(RetryAll(q, failed, now).events) + |failed| <= Weight(q.events) + Sum(failed)
    decreases |failed|
  {
    if failed == [] {
    } else {
      var w := failed[0];
      if w.retries + 1 < MAX_RETRIES && KeyOf(w) !in q.events {
        WeightAdd(q.events, KeyOf(w), w.(retries := w.retries + 1));
      }
      RetryAllFalls(RetryOne(q, w, now), failed[1..], now);
    }
  }

  lemma NonePicked<T>(items: seq<T>, flags: seq<bool>)
    requires |flags| == |items| && forall i | 0 <= i < |flags| :: !flags[i]
    ensures Picked(items, flags) == []
    decreases |items|
  {
    if items == [] {
    } else {
      NonePicked(items[..|items| - 1], flags[..|items| - 1]);
    }
  }

  /** What is not to be retried takes its weight out of the queue. */
  lemma FailedSum(batch: seq<Wrapper>, reply: Reply)
    requires Answers(reply, |batch|) && forall w | w in batch :: w.retries < MAX_RETRIES
    ensures Sum(FailedOf(batch, reply)) + |batch| <= Sum(batch) + |FailedOf(batch, reply)|
    ensures forall w | w in FailedOf(batch, reply) :: w.retries < MAX_RETRIES
  {
    if reply.Errors? && reply.failed != [] {
      PickedSum(batch, reply.failed);
      PickedMeans(batch, reply.failed);
    } else if reply.Errors? {
      PickedSum(batch, seq(|batch|, _ => false));
      NonePicked(batch, seq(|batch|, _ => false));
    }
  }

  /** With nothing new enqueued, a pass lowers the weight of the queue by at least the number of
      entries it had, whatever the client answers. */
  lemma PassFalls(q: Queue, order: seq<Key>, reply: Reply, now: int)
    requires Tidy(q.events) && Order(q.events, order) && Answers(reply, |order|)
    ensures Tidy(Pass(q, order, reply, now).events)
    ensures Weight(Pass(q, order, reply, now).events) + |q.events| <= Weight(q.events)
  {
    var batch := Batch(q.events, order);
    WeightIsSum(q.events, order);
    FailedSum(batch, reply);
    assert Weight(map[]) == 0;
    RetryAllFalls(q.(events := map[]), FailedOf(batch, reply), now);
  }

  // ---------- What a pass makes of each entry ----------

  /** What the client made of the i-th message. */
  predicate WentThrough(reply: Reply, i: nat) {
    reply.Errors? && (i < |reply.failed| ==> !reply.failed[i])
  }

  ghost predicate OwnKeys(ws: seq<Wrapper>) {
    forall i, j | 0 <= i < j < |ws| :: KeyOf(ws[i]) != KeyOf(ws[j])
  }

  /** An entry that is there is not overwritten by a retry. */
  lemma {:induction false} RetryAllSpares(q: Queue, ws: seq<Wrapper>, now: int, k: Key)
    requires k in q.events || forall j | 0 <= j < |ws| :: KeyOf(ws[j]) != k
    ensures k in RetryAll(q, ws, now).events <==> k in q.events
    ensures k in q.events ==> RetryAll(q, ws, now).events[k] == q.events[k]
    decreases |ws|
  {
    if ws == [] {
    } else {
      assert forall j | 0 <= j < |ws[1..]| :: ws[1..][j] == ws[j + 1];
      RetryAllSpares(RetryOne(q, ws[0], now), ws[1..], now, k);
    }
  }

  lemma {:induction false} RetryAllPuts(q: Queue, ws: seq<Wrapper>, now: int, j: nat)
    requires OwnKeys(ws) && j < |ws| && KeyOf(ws[j]) !in q.events
    ensures var k, q' := KeyOf(ws[j]), RetryAll(q, ws, now);
            if ws[j].retries + 1 < 3 then k in q'.events && q'.events[k] == ws[j].(retries := ws[j].retries + 1)
            else k !in q'.events
    decreases |ws|
  {
    var k := KeyOf(ws[j]);
    assert forall i | 0 <= i < |ws[1..]| :: ws[1..][i] == ws[i + 1];
    if j == 0 {
      RetryAllSpares(RetryOne(q, ws[0], now), ws[1..], now, k);
    } else {
      assert KeyOf(ws[0]) != k;
      RetryAllPuts(RetryOne(q, ws[0], now), ws[1..], now, j - 1);
    }
  }

  /** Of these entries, one of the token has been tried for the third time. */
  ghost predicate GivesUp(ws: seq<Wrapper>, token: string) {
    exists j | 0 <= j < |ws| :: ws[j].token == token && ws[j].retries + 1 >= 3
  }

  lemma {:induction false} RetryAllBlacklist(q: Queue, ws: seq<Wrapper>, now: int, token: string)
    ensures var q' := RetryAll(q, ws, now);
            if GivesUp(ws, token) then token in q'.blacklist && q'.blacklist[token] == now + 15 * 60
            else (token in q'.blacklist <==> token in q.blacklist)
                 && (token in q.blacklist ==> q'.blacklist[token] == q.blacklist[token])
    decreases |ws|
  {
    if ws == [] {
    } else {
      RetryAllBlacklist(RetryOne(q, ws[0], now), ws[1..], now, token);
      assert GivesUp(ws, token) <==> (ws[0].token == token && ws[0].retries + 1 >= 3) || GivesUp(ws[1..], token) by {
        if j :| 0 <= j < |ws[1..]| && ws[1..][j].token == token && ws[1..][j].retries + 1 >= 3 {
          assert ws[j + 1] == ws[1..][j];
        }
        if j :| 0 < j < |ws| && ws[j].token == token && ws[j].retries + 1 >= 3 {
          assert ws[1..][j - 1] == ws[j];
        }
      }
    }
  }

  lemma {:induction false} PickedOwnKeys(ws: seq<Wrapper>, flags: seq<bool>)
    requires |flags| == |ws| && OwnKeys(ws)
    ensures OwnKeys(Picked(ws, flags))
    decreases |ws|
  {
    if ws == [] {
    } else {
      var n := |ws| - 1;
      PickedOwnKeys(ws[..n], flags[..n]);
      PickedMeans(ws[..n], flags[..n]);
      forall x | x in Picked(ws[..n], flags[..n]) ensures KeyOf(x) != KeyOf(ws[n]) {
        var i :| 0 <= i < n && flags[..n][i] && ws[..n][i] == x;
        assert ws[i] == x;
      }
    }
  }

  /** What is to be retried is what did not go through. */
  lemma FailedMeans(batch: seq<Wrapper>, reply: Reply)
    requires Answers(reply, |batch|) && OwnKeys(batch)
    ensures OwnKeys(FailedOf(batch, reply))
    ensures forall i | 0 <= i < |batch| :: batch[i] in FailedOf(batch, reply) <==> !WentThrough(reply, i)
    ensures forall w | w in FailedOf(batch, reply) :: w in batch
  {
    if reply.Errors? && reply.failed != [] {
      PickedOwnKeys(batch, reply.failed);
      PickedMeans(batch, reply.failed);
      forall i | 0 <= i < |batch| && batch[i] in Picked(batch, reply.failed) ensures reply.failed[i] {
        var j :| 0 <= j < |batch| && reply.failed[j] && batch[j] == batch[i];
        assert KeyOf(batch[i]) == KeyOf(batch[j]);
      }
    }
  }

  lemma BatchOwnKeys(events: map<Key, Wrapper>, order: seq<Key>)
    requires Tidy(events) && Order(events, order)
    ensures OwnKeys(Batch(events, order))
    ensures forall i | 0 <= i < |order| :: KeyOf(Batch(events, order)[i]) == order[i]
  {
    forall i | 0 <= i < |order| ensures KeyOf(Batch(events, order)[i]) == order[i] {
      assert order[i] in order;
    }
  }

  /** After a pass an entry is still there if and only if it did not go through and was not tried for the
      third time, with one retry more and otherwise as it was; there are no others. */
  lemma PassEntries(q: Queue, order: seq<Key>, reply: Reply, now: int)
    requires Tidy(q.events) && Order(q.events, order) && Answers(reply, |order|)
    ensures var q' := Pass(q, order, reply, now);
            && q'.events.Keys <= q.events.Keys
            && forall i | 0 <= i < |order| ::
                 var w := q.events[order[i]];
                 if WentThrough(reply, i) || w.retries + 1 >= 3 then order[i] !in q'.events
                 else order[i] in q'.events && q'.events[order[i]] == w.(retries := w.retries + 1)
  {
    var batch, q1 := Batch(q.events, order), q.(events := map[]);
    var failed, q' := FailedOf(batch, reply), Pass(q, order, reply, now);
    BatchOwnKeys(q.events, order);
    FailedMeans(batch, reply);
    forall i | 0 <= i < |order|
      ensures var w := q.events[order[i]];
              if WentThrough(reply, i) || w.retries + 1 >= 3 then order[i] !in q'.events
              else order[i] in q'.events && q'.events[order[i]] == w.(retries := w.retries + 1)
    {
      PassEntry(q1, batch, failed, now, i);
    }
    forall k | k !in q.events ensures k !in q'.events {
      forall j | 0 <= j < |failed| ensures KeyOf(failed[j]) != k {
        assert failed[j] in batch;
      }
      RetryAllSpares(q1, failed, now, k);
    }
  }

  lemma PassEntry(q: Queue, batch: seq<Wrapper>, failed: seq<Wrapper>, now: int, i: nat)
    requires OwnKeys(batch) && OwnKeys(failed) && i < |batch| && q.events == map[]
    requires forall w | w in failed :: w in batch
    ensures var k, q' := KeyOf(batch[i]), RetryAll(q, failed, now);
            if batch[i] !in failed || batch[i].retries + 1 >= 3 then k !in q'.events
            else k in q'.events && q'.events[k] == batch[i].(retries := batch[i].retries + 1)
  {
    if batch[i] in failed {
      var j :| 0 <= j < |failed| && failed[j] == batch[i];
      RetryAllPuts(q, failed, now, j);
    } else {
      forall j | 0 <= j < |failed| ensures KeyOf(failed[j]) != KeyOf(batch[i]) {
        assert failed[j] in batch;
        var m :| 0 <= m < |batch| && batch[m] == failed[j];
      }
      RetryAllSpares(q, failed, now, KeyOf(batch[i]));
    }
  }

  /** One of the entries of the token did not go through at its third try. */
  ghost predicate Exhausted(batch: seq<Wrapper>, reply: Reply, token: string) {
    exists i | 0 <= i < |batch| :: !WentThrough(reply, i) && batch[i].token == token && batch[i].retries + 1 >= 3
  }

  lemma ExhaustedGivesUp(batch: seq<Wrapper>, reply: Reply, token: string)
    requires Answers(reply, |batch|) && OwnKeys(batch)
    ensures GivesUp(FailedOf(batch, reply), token) <==> Exhausted(batch, reply, token)
  {
    var failed := FailedOf(batch, reply);
    FailedMeans(batch, reply);
    if GivesUp(failed, token) {
      var j :| 0 <= j < |failed| && failed[j].token == token && failed[j].retries + 1 >= 3;
      assert failed[j] in batch;
      var i :| 0 <= i < |batch| && batch[i] == failed[j];
      assert !WentThrough(reply, i);
    }
    if Exhausted(batch, reply, token) {
      var i :| 0 <= i < |batch| && !WentThrough(reply, i) && batch[i].token == token && batch[i].retries + 1 >= 3;
      var j :| 0 <= j < |failed| && failed[j] == batch[i];
    }
  }

  /** A pass blacklists, for a quarter of an hour, exactly the tokens of entries that did not go through at
      their third try. */
  lemma PassBlacklist(q: Queue, order: seq<Key>, reply: Reply, now: int, token: string)
    requires Tidy(q.events) && Order(q.events, order) && Answers(reply, |order|)
    ensures var q' := Pass(q, order, reply, now);
            if Exhausted(Batch(q.events, order), reply, token) then
              token in q'.blacklist && q'.blacklist[token] == now + 15 * 60
            else (token in q'.blacklist <==> token in q.blacklist)
                 && (token in q.blacklist ==> q'.blacklist[token] == q.blacklist[token])
  {
    var batch, q1 := Batch(q.events, order), q.(events := map[]);
    BatchOwnKeys(q.events, order);
    ExhaustedGivesUp(batch, reply, token);
    RetryAllBlacklist(q1, FailedOf(batch, reply), now, token);
  }

  ghost predicate SentAtLeast(events: map<Key, Wrapper>, n: nat) {
    forall k | k in events :: n <= events[k].retries
  }

  lemma {:induction false} RetryAllAges(q: Queue, failed: seq<Wrapper>, n: nat, now: int)
    requires forall w | w in failed :: n <= w.retries
    requires SentAtLeast(q.events, n + 1)
    ensures SentAtLeast(RetryAll(q, failed, now).events, n + 1)
    decreases |failed|
  {
    if failed == [] {
    } else {
      RetryAllAges(RetryOne(q, failed[0], now), failed[1..], n, now);
    }
  }

  lemma PassAges(q: Queue, order: seq<Key>, reply: Reply, n: nat, now: int)
    requires Tidy(q.events) && SentAtLeast(q.events, n) && Order(q.events, order) && Answers(reply, |order|)
    ensures SentAtLeast(Pass(q, order, reply, now).events, n + 1)
  {
    var batch := Batch(q.events, order);
    if reply.Errors? && reply.failed != [] {
      PickedMeans(batch, reply.failed);
    }
    RetryAllAges(q.(events := map[]), FailedOf(batch, reply), n, now);
  }

  /** Passes one after the other, nothing being enqueued. */
  datatype Turn = Turn(order: seq<Key>, reply: Reply, now: int)

  predicate Fitting(q: Queue, turns: seq<Turn>)
    decreases |turns|
  {
    turns == [] ||
    (&& Order(q.events, turns[0].order) && Answers(turns[0].reply, |turns[0].order|)
     && Fitting(Pass(q, turns[0].order, turns[0].reply, turns[0].now), turns[1..]))
  }

  function Passes(q: Queue, turns: seq<Turn>): Queue
    requires Fitting(q, turns)
    decreases |turns|
  {
    if turns == [] then q else Passes(Pass(q, turns[0].order, turns[0].reply, turns[0].now), turns[1..])
  }

  lemma {:induction false} PassesAge(q: Queue, turns: seq<Turn>, n: nat)
    requires Tidy(q.events) && SentAtLeast(q.events, n) && Fitting(q, turns)
    ensures Tidy(Passes(q, turns).events) && SentAtLeast(Passes(q, turns).events, n + |turns|)
    decreases |turns|
  {
    if turns == [] {
    } else {
      PassFalls(q, turns[0].order, turns[0].reply, turns[0].now);
      PassAges(q, turns[0].order, turns[0].reply, n, turns[0].now);
      PassesAge(Pass(q, turns[0].order, turns[0].reply, turns[0].now), turns[1..], n + 1);
    }
  }

  /** After three passes nothing is left, even if the client fails every time. */
  lemma ThreePassesEmpty(q: Queue, turns: seq<Turn>)
    requires Tidy(q.events) && Fitting(q, turns) && |turns| >= 3
    ensures Passes(q, turns).events == map[]
  {
    PassesAge(q, turns, 0);
  }
}
