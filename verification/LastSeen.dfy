/** When each device was last seen: kept in a cache, written to the table in chunks. */
module LastSeen {

  type Id = string

  /** Milliseconds. */
  type Times = map<Id, nat>

  datatype Entry = Entry(id: Id, time: nat)

  const CHUNK_SIZE: nat := 500

  function Max(a: nat, b: nat): (m: nat)
    ensures a <= m && b <= m && (m == a || m == b)
  {
    if a < b then b else a
  }

  /** The cache keeps whole seconds. */
  function WholeSeconds(time: nat): (seconds: nat)
    ensures seconds % 1000 == 0 && seconds <= time < seconds + 1000
  {
    time / 1000 * 1000
  }

  /** Every device of the batch is seen at least when the batch says; the others, and ids that are
      no device, are left alone. */
  function Raise(devices: Times, batch: Times): Times {
    map id | id in devices :: if id in batch then Max(devices[id], batch[id]) else devices[id]
  }

  // ---------- Chunks ----------

  function Ids(chunk: seq<Entry>): set<Id> {
    set i | 0 <= i < |chunk| :: chunk[i].id
  }

  /** The first WHEN with the id decides. */
  function CaseOf(chunk: seq<Entry>, id: Id, lastSeen: nat): nat
    requires id in Ids(chunk)
    decreases |chunk|
  {
    if chunk[0].id == id then Max(lastSeen, chunk[0].time)
    else
      assert id in Ids(chunk[1..]) by {
        var i :| 0 <= i < |chunk| && chunk[i].id == id;
        assert chunk[1..][i - 1].id == id;
      }
      CaseOf(chunk[1..], id, lastSeen)
  }

  /** UPDATE ... SET last_seen = CASE id WHEN ... END WHERE id IN (...) */
  function Updated(devices: Times, chunk: seq<Entry>): Times {
    map id | id in devices :: if id in Ids(chunk) then CaseOf(chunk, id, devices[id]) else devices[id]
  }

  ghost predicate Distinct(entries: seq<Entry>) {
    forall i, j | 0 <= i < j < |entries| :: entries[i].id != entries[j].id
  }

  /** Each entry of the batch once, in some order. */
  ghost predicate Lists(entries: seq<Entry>, batch: Times) {
    && Distinct(entries) && Ids(entries) == batch.Keys
    && forall i | 0 <= i < |entries| :: entries[i].id in batch && batch[entries[i].id] == entries[i].time
  }

  function Batch(entries: seq<Entry>): Times
    decreases |entries|
  {
    if entries == [] then map[]
    else Batch(entries[..|entries| - 1])[entries[|entries| - 1].id := entries[|entries| - 1].time]
  }

  lemma {:induction false} CaseAt(chunk: seq<Entry>, i: nat, lastSeen: nat)
    requires Distinct(chunk) && i < |chunk| && chunk[i].id in Ids(chunk)
    ensures CaseOf(chunk, chunk[i].id, lastSeen) == Max(lastSeen, chunk[i].time)
    decreases |chunk|
  {
    if i > 0 {
      assert chunk[1..][i - 1] == chunk[i];
      assert chunk[i].id in Ids(chunk[1..]);
      CaseAt(chunk[1..], i - 1, lastSeen);
    }
  }

  lemma {:induction false} BatchKeys(entries: seq<Entry>)
    ensures Batch(entries).Keys == Ids(entries)
    decreases |entries|
  {
    if entries == [] {
    } else {
      var n := |entries| - 1;
      BatchKeys(entries[..n]);
      assert Ids(entries) == Ids(entries[..n]) + {entries[n].id} by {
        forall id | id in Ids(entries[..n]) ensures id in Ids(entries) {
          var i :| 0 <= i < n && entries[..n][i].id == id;
          assert entries[i].id == id;
        }
        assert entries[n].id in Ids(entries);
        forall id | id in Ids(entries) && id != entries[n].id ensures id in Ids(entries[..n]) {
          var i :| 0 <= i < |entries| && entries[i].id == id;
          assert entries[..n][i].id == id;
        }
      }
    }
  }

  lemma {:induction false} BatchAt(entries: seq<Entry>, i: nat)
    requires Distinct(entries) && i < |entries|
    ensures entries[i].id in Batch(entries) && Batch(entries)[entries[i].id] == entries[i].time
    decreases |entries|
  {
    var n := |entries| - 1;
    if i < n {
      assert entries[..n][i] == entries[i];
      BatchAt(entries[..n], i);
    }
  }

  lemma BatchOfListing(entries: seq<Entry>, batch: Times)
    requires Lists(entries, batch)
    ensures Batch(entries) == batch
  {
    BatchKeys(entries);
    forall id | id in batch ensures Batch(entries)[id] == batch[id] {
      var i :| 0 <= i < |entries| && entries[i].id == id;
      BatchAt(entries, i);
    }
  }

  /** One chunk is one pointwise maximum. */
  lemma UpdatedIsRaise(devices: Times, chunk: seq<Entry>)
    requires Distinct(chunk)
    ensures Updated(devices, chunk) == Raise(devices, Batch(chunk))
  {
    BatchKeys(chunk);
    forall id | id in devices && id in Ids(chunk)
      ensures CaseOf(chunk, id, devices[id]) == Max(devices[id], Batch(chunk)[id])
    {
      var i :| 0 <= i < |chunk| && chunk[i].id == id;
      CaseAt(chunk, i, devices[id]);
      BatchAt(chunk, i);
    }
  }

  lemma BatchAppend(entries: seq<Entry>, last: Entry)
    ensures Batch(entries + [last]) == Batch(entries)[last.id := last.time]
  {
    assert (entries + [last])[..|entries|] == entries;
  }

  lemma PutLast(a: Times, b: Times, last: Entry)
    ensures (a + b)[last.id := last.time] == a + b[last.id := last.time]
  {
  }

  lemma {:induction false} BatchConcat(a: seq<Entry>, b: seq<Entry>)
    ensures Batch(a + b) == Batch(a) + Batch(b)
    decreases |b|
  {
    if b == [] {
      assert a + b == a;
    } else {
      var n := |b| - 1;
      BatchConcat(a, b[..n]);
      BatchAppend(a + b[..n], b[n]);
      PutLast(Batch(a), Batch(b[..n]), b[n]);
      assert a + b == a + b[..n] + [b[n]];
    }
  }

  lemma BatchSplit(entries: seq<Entry>, i: nat)
    requires i <= |entries|
    ensures Batch(entries) == Batch(entries[..i]) + Batch(entries[i..])
  {
    BatchConcat(entries[..i], entries[i..]);
    assert entries[..i] + entries[i..] == entries;
  }

  lemma HalvesApart(entries: seq<Entry>, i: nat)
    requires Distinct(entries) && i <= |entries|
    ensures Ids(entries[..i]) !! Ids(entries[i..])
  {
  }

  lemma RaiseDisjoint(devices: Times, a: Times, b: Times)
    requires a.Keys !! b.Keys
    ensures Raise(Raise(devices, a), b) == Raise(devices, a + b)
  {
  }

  /** Raising by the entries so far and then by a chunk of further ids is raising by all of them. */
  lemma RaiseTwice(devices: Times, entries: seq<Entry>, i: nat, j: nat)
    requires Distinct(entries) && i <= j <= |entries|
    ensures Raise(Raise(devices, Batch(entries[..i])), Batch(entries[i..j])) == Raise(devices, Batch(entries[..j]))
  {
    var part := entries[..j];
    assert part[..i] == entries[..i] && part[i..] == entries[i..j];
    BatchSplit(part, i);
    HalvesApart(part, i);
    BatchKeys(part[..i]);
    BatchKeys(part[i..]);
    RaiseDisjoint(devices, Batch(part[..i]), Batch(part[i..]));
  }

  class Repository {
    var devices: Times

    constructor (devices: Times)
      ensures this.devices == devices
    {
      this.devices := devices;
    }

    /** One statement for the whole chunk. */
    method WriteChunk(chunk: seq<Entry>)
      requires Distinct(chunk)
      modifies this
      ensures devices == Raise(old(devices), Batch(chunk))
    {
      UpdatedIsRaise(devices, chunk);
      devices := Updated(devices, chunk);
    }

    /** Writes the next chunk of a listing of which the first `i` entries have been written. */
    method WriteNext(entries: seq<Entry>, i: nat, end: nat, ghost start: Times)
      requires Distinct(entries) && i <= end <= |entries| && devices == Raise(start, Batch(entries[..i]))
      modifies this
      ensures devices == Raise(start, Batch(entries[..end]))
    {
      WriteChunk(entries[i..end]);
      RaiseTwice(start, entries, i, end);
    }

    /** `broken` is the number of the chunk whose statement fails, if one does.  What was written
        is the batch, or on failure the chunks before the broken one. */
    method SetLastSeenBatch(batch: Times, broken: int) returns (ok: bool, ghost done: Times)
      modifies this
      ensures devices == Raise(old(devices), done)
      ensures forall id | id in done :: id in batch && done[id] == batch[id]
      ensures ok ==> done == batch
      ensures !ok <==> 0 <= broken * 500 < |batch|
      ensures !ok ==> |done| == broken * 500
    {
      var entries := Entries(batch);
      BatchOfListing(entries, batch);
      var i, chunks := 0, 0;
      ghost var written := 0;
      while i < |entries|
        invariant i == chunks * CHUNK_SIZE && written == if i < |entries| then i else |entries|
        invariant devices == Raise(old(devices), Batch(entries[..written]))
        invariant 0 <= broken ==> chunks <= broken
        decreases |entries| - i
      {
        var end := if i + CHUNK_SIZE < |entries| then i + CHUNK_SIZE else |entries|;
        if chunks == broken {
          ListingPrefix(entries, batch, i);
          return false, Batch(entries[..i]);
        }
        WriteNext(entries, i, end, old(devices));
        i, chunks, written := i + CHUNK_SIZE, chunks + 1, end;
      }
      assert entries[..|entries|] == entries;
      return true, batch;
    }
  }

  lemma ListingPrefix(entries: seq<Entry>, batch: Times, i: nat)
    requires Lists(entries, batch) && i <= |entries|
    ensures |Batch(entries[..i])| == i
    ensures forall id | id in Batch(entries[..i]) :: id in batch && Batch(entries[..i])[id] == batch[id]
  {
    BatchKeys(entries[..i]);
    forall id | id in Batch(entries[..i]) ensures id in batch && Batch(entries[..i])[id] == batch[id] {
      var k :| 0 <= k < i && entries[..i][k].id == id;
      BatchAt(entries[..i], k);
    }
    BatchSize(entries[..i]);
  }

  lemma {:induction false} BatchSize(entries: seq<Entry>)
    requires Distinct(entries)
    ensures |Batch(entries)| == |entries|
    decreases |entries|
  {
    if entries == [] {
    } else {
      BatchSize(entries[..|entries| - 1]);
      BatchKeys(entries[..|entries| - 1]);
      assert entries[|entries| - 1].id !in Batch(entries[..|entries| - 1]);
    }
  }

  method Entries(batch: Times) returns (entries: seq<Entry>)
    ensures Lists(entries, batch) && |entries| == |batch|
  {
    entries := [];
    var left := batch.Keys;
    while left != {}
      invariant left <= batch.Keys && |entries| + |left| == |batch|
      invariant forall i | 0 <= i < |entries| ::
                  entries[i].id in batch && entries[i].id !in left && batch[entries[i].id] == entries[i].time
      invariant forall id | id in batch && id !in left :: exists i | 0 <= i < |entries| :: entries[i].id == id
      invariant Distinct(entries)
      decreases |left|
    {
      var id :| id in left;
      ghost var before := entries;
      entries, left := entries + [Entry(id, batch[id])], left - {id};
      forall x | x in batch && x !in left ensures exists i | 0 <= i < |entries| :: entries[i].id == x {
        if x == id {
          assert entries[|before|].id == x;
        } else {
          var i :| 0 <= i < |before| && before[i].id == x;
          assert entries[i].id == x;
        }
      }
    }
  }

  // ---------- The online service ----------

  class Online {
    const repository: Repository
    var cache: Times

    constructor (repository: Repository)
      ensures this.repository == repository && cache == map[]
    {
      this.repository := repository;
      cache := map[];
    }

    method SetOnline(id: Id, now: nat)
      modifies this
      ensures cache == old(cache)[id := WholeSeconds(now)]
    {
      cache := cache[id := WholeSeconds(now)];
    }

    /** What was drained is gone from the cache even if it could not be written.  It fails if and only if there
        are entries for the broken chunk, and then has written the chunks before that one. */
    method Persist(broken: int) returns (ok: bool, ghost done: Times)
      modifies this, repository
      ensures cache == map[]
      ensures repository.devices == Raise(old(repository.devices), done)
      ensures forall id | id in done :: id in old(cache) && done[id] == old(cache)[id]
      ensures ok ==> done == old(cache)
      ensures !ok <==> 0 <= broken * 500 < |old(cache)|
      ensures !ok ==> |done| == broken * 500
    {
      var items := cache;
      cache := map[];
      if |items| == 0 {
        assert items == map[];
        return true, map[];
      }
      ok, done := repository.SetLastSeenBatch(items, broken);
    }
  }

  // ---------- Over time ----------

  /** A device is taken as seen when it is added.  `written` is what a failing persist got done. */
  datatype Step =
    | SetOnline(id: Id, now: nat)
    | Persist(ok: bool, written: Times)
    | AddDevice(id: Id, now: nat)
    | RemoveDevice(id: Id)

  datatype State = State(devices: Times, cache: Times)

  predicate Enabled(s: State, step: Step) {
    match step
    case Persist(ok, written) =>
      (forall id | id in written :: id in s.cache && written[id] == s.cache[id]) && (ok ==> written == s.cache)
    case AddDevice(id, _) => id !in s.devices
    case _ => true
  }

  function Next(s: State, step: Step): State {
    match step
    case SetOnline(id, now) => s.(cache := s.cache[id := WholeSeconds(now)])
    case Persist(_, written) => State(Raise(s.devices, written), map[])
    case AddDevice(id, now) => s.(devices := s.devices[id := now])
    case RemoveDevice(id) => s.(devices := s.devices - {id})
  }

  predicate Possible(s: State, steps: seq<Step>)
    decreases |steps|
  {
    steps == [] || (Enabled(s, steps[0]) && Possible(Next(s, steps[0]), steps[1..]))
  }

  function Run(s: State, steps: seq<Step>): State
    decreases |steps|
  {
    if steps == [] then s else Run(Next(s, steps[0]), steps[1..])
  }

  /** The device was added after it was last removed, or was there at the start and not removed. */
  predicate There(steps: seq<Step>, id: Id, atStart: bool)
    decreases |steps|
  {
    if steps == [] then atStart
    else
      var last := steps[|steps| - 1];
      match last
      case AddDevice(x, _) => x == id || There(steps[..|steps| - 1], id, atStart)
      case RemoveDevice(x) => x != id && There(steps[..|steps| - 1], id, atStart)
      case _ => There(steps[..|steps| - 1], id, atStart)
  }

  /** Setting online and persisting neither add devices nor remove any; a device just added has the time it was
      added at. */
  lemma {:induction false} DevicesThere(s: State, steps: seq<Step>, id: Id)
    ensures id in Run(s, steps).devices <==> There(steps, id, id in s.devices)
    ensures forall now | steps != [] && steps[|steps| - 1] == AddDevice(id, now) :: Run(s, steps).devices[id] == now
    decreases |steps|
  {
    if steps == [] {
    } else {
      var n := |steps| - 1;
      assert steps == steps[..n] + [steps[n]];
      RunSplit(s, steps[..n], steps[n]);
      DevicesThere(s, steps[..n], id);
    }
  }

  /** As long as a device is there, it never looks last seen earlier than before. */
  lemma {:induction false} NeverBackInTime(s: State, steps: seq<Step>, id: Id)
    requires id in s.devices && Possible(s, steps) && forall k | 0 <= k < |steps| :: steps[k] != RemoveDevice(id)
    ensures id in Run(s, steps).devices && s.devices[id] <= Run(s, steps).devices[id]
    decreases |steps|
  {
    if steps == [] {
    } else {
      NeverBackInTime(Next(s, steps[0]), steps[1..], id);
    }
  }

  /** The latest time a device was set online in these steps, in whole seconds, or 0. */
  function Latest(steps: seq<Step>, id: Id): nat
    decreases |steps|
  {
    if steps == [] then 0
    else
      var before := Latest(steps[..|steps| - 1], id);
      var last := steps[|steps| - 1];
      if last.SetOnline? && last.id == id then Max(before, WholeSeconds(last.now)) else before
  }

  lemma LatestAppend(steps: seq<Step>, last: Step, id: Id)
    ensures Latest(steps + [last], id) ==
            if last.SetOnline? && last.id == id then Max(Latest(steps, id), WholeSeconds(last.now))
            else Latest(steps, id)
  {
    assert (steps + [last])[..|steps|] == steps;
  }

  /** The clock does not go back between two calls for the device. */
  ghost predicate Ordered(steps: seq<Step>, id: Id) {
    forall i, j | 0 <= i < j < |steps| && steps[i].SetOnline? && steps[j].SetOnline?
                  && steps[i].id == steps[j].id == id ::
      steps[i].now <= steps[j].now
  }

  predicate AllWritten(steps: seq<Step>) {
    forall k | 0 <= k < |steps| && steps[k].Persist? :: steps[k].ok
  }

  lemma {:induction false} RunSplit(s: State, a: seq<Step>, last: Step)
    ensures Run(s, a + [last]) == Next(Run(s, a), last)
    ensures Possible(s, a + [last]) <==> Possible(s, a) && Enabled(Run(s, a), last)
    decreases |a|
  {
    if a == [] {
    } else {
      assert (a + [last])[1..] == a[1..] + [last];
      RunSplit(Next(s, a[0]), a[1..], last);
    }
  }

  lemma {:induction false} LatestBelow(steps: seq<Step>, id: Id, now: nat)
    requires forall k | 0 <= k < |steps| && steps[k].SetOnline? && steps[k].id == id :: steps[k].now <= now
    ensures Latest(steps, id) <= WholeSeconds(now)
    decreases |steps|
  {
    if steps == [] {
    } else {
      LatestBelow(steps[..|steps| - 1], id, now);
    }
  }

  /** While every persist succeeds, the table and the cache together know the latest time: the
      table alone does whenever the cache has nothing for the device. */
  lemma {:induction false} Tracked(s: State, steps: seq<Step>, id: Id)
    requires id in s.devices && s.cache == map[] && Possible(s, steps) && AllWritten(steps) && Ordered(steps, id)
    requires forall k | 0 <= k < |steps| :: steps[k] != RemoveDevice(id)
    ensures var s' := Run(s, steps);
            && id in s'.devices
            && Max(s.devices[id], Latest(steps, id)) == Max(s'.devices[id], if id in s'.cache then s'.cache[id] else 0)
    decreases |steps|
  {
    if steps == [] {
    } else {
      var n := |steps| - 1;
      assert steps == steps[..n] + [steps[n]];
      RunSplit(s, steps[..n], steps[n]);
      assert Ordered(steps[..n], id);
      Tracked(s, steps[..n], id);
      if steps[n].SetOnline? && steps[n].id == id {
        LatestBelow(steps[..n], id, steps[n].now);
        CacheBelow(s, steps[..n], id, steps[n].now);
      }
      LatestAppend(steps[..n], steps[n], id);
      TrackedStep(s.devices[id], Run(s, steps[..n]), steps[n], id, Latest(steps[..n], id));
    }
  }

  /** One more step: what is known moves to the cache, or from the cache to the table. */
  lemma TrackedStep(start: nat, s: State, step: Step, id: Id, latest: nat)
    requires id in s.devices && Enabled(s, step) && step != RemoveDevice(id) && (step.Persist? ==> step.ok)
    requires Max(start, latest) == Max(s.devices[id], if id in s.cache then s.cache[id] else 0)
    requires step.SetOnline? && step.id == id ==>
               latest <= WholeSeconds(step.now) && (id in s.cache ==> s.cache[id] <= WholeSeconds(step.now))
    ensures var s' := Next(s, step);
            && id in s'.devices
            && Max(start, if step.SetOnline? && step.id == id then Max(latest, WholeSeconds(step.now)) else latest) ==
               Max(s'.devices[id], if id in s'.cache then s'.cache[id] else 0)
  {
  }

  lemma {:induction false} CacheBelow(s: State, steps: seq<Step>, id: Id, now: nat)
    requires Possible(s, steps) && (id in s.cache ==> s.cache[id] <= WholeSeconds(now))
    requires forall k | 0 <= k < |steps| && steps[k].SetOnline? && steps[k].id == id :: steps[k].now <= now
    ensures var s' := Run(s, steps); id in s'.cache ==> s'.cache[id] <= WholeSeconds(now)
    decreases |steps|
  {
    if steps == [] {
    } else {
      CacheBelow(Next(s, steps[0]), steps[1..], id, now);
    }
  }

  /** Right after a persist, with every persist so far successful, the table has exactly the latest
      of the time it started with and the times the device was set online. */
  lemma PersistCatchesUp(s: State, steps: seq<Step>, id: Id)
    requires id in s.devices && s.cache == map[] && Possible(s, steps) && AllWritten(steps) && Ordered(steps, id)
    requires forall k | 0 <= k < |steps| :: steps[k] != RemoveDevice(id)
    requires steps != [] && steps[|steps| - 1].Persist?
    ensures id in Run(s, steps).devices
    ensures Run(s, steps).devices[id] == Max(s.devices[id], Latest(steps, id))
  {
    var n := |steps| - 1;
    assert steps == steps[..n] + [steps[n]];
    RunSplit(s, steps[..n], steps[n]);
    Tracked(s, steps, id);
  }

  // ---------- Exactly when the table has caught up ----------

  /** Some persist wrote `time` for the device, whether it failed elsewhere or not. */
  ghost predicate Wrote(steps: seq<Step>, id: Id, time: nat) {
    exists k | 0 <= k < |steps| :: steps[k].Persist? && id in steps[k].written && steps[k].written[id] == time
  }

  /** The latest time that was written for the device, or 0. */
  function LatestWritten(steps: seq<Step>, id: Id): nat
    decreases |steps|
  {
    if steps == [] then 0
    else
      var before := LatestWritten(steps[..|steps| - 1], id);
      var last := steps[|steps| - 1];
      if last.Persist? && id in last.written then Max(before, last.written[id]) else before
  }

  lemma {:induction false} LatestWrittenWas(steps: seq<Step>, id: Id)
    ensures LatestWritten(steps, id) == 0 || Wrote(steps, id, LatestWritten(steps, id))
    ensures forall k | 0 <= k < |steps| && steps[k].Persist? && id in steps[k].written ::
              steps[k].written[id] <= LatestWritten(steps, id)
    decreases |steps|
  {
    if steps == [] {
    } else {
      var n := |steps| - 1;
      LatestWrittenWas(steps[..n], id);
      if Wrote(steps[..n], id, LatestWritten(steps, id)) {
        var k :| 0 <= k < n && steps[..n][k].Persist? && id in steps[..n][k].written
                 && steps[..n][k].written[id] == LatestWritten(steps, id);
        assert steps[k] == steps[..n][k];
      }
    }
  }

  /** The table holds the latest of what it started with and what was written, and neither that nor
      what waits in the cache is later than the device was ever set online. */
  lemma {:induction false} TableIsWritten(s: State, steps: seq<Step>, id: Id)
    requires id in s.devices && id !in s.cache && Possible(s, steps)
    requires forall k | 0 <= k < |steps| :: steps[k] != RemoveDevice(id)
    ensures var s' := Run(s, steps);
            && id in s'.devices && s'.devices[id] == Max(s.devices[id], LatestWritten(steps, id))
            && LatestWritten(steps, id) <= Latest(steps, id)
            && (id in s'.cache ==> s'.cache[id] <= Latest(steps, id))
    decreases |steps|
  {
    if steps == [] {
    } else {
      var n := |steps| - 1;
      assert steps == steps[..n] + [steps[n]];
      RunSplit(s, steps[..n], steps[n]);
      TableIsWritten(s, steps[..n], id);
    }
  }

  /** In every history, with persists that fail and in any order of times: the table has caught up with
      a device if and only if it had already started there or some persist wrote that very time. */
  lemma CaughtUpIff(s: State, steps: seq<Step>, id: Id)
    requires id in s.devices && id !in s.cache && Possible(s, steps)
    requires forall k | 0 <= k < |steps| :: steps[k] != RemoveDevice(id)
    ensures id in Run(s, steps).devices
    ensures Run(s, steps).devices[id] == Max(s.devices[id], Latest(steps, id)) <==>
            Latest(steps, id) <= s.devices[id] || Wrote(steps, id, Latest(steps, id))
  {
    TableIsWritten(s, steps, id);
    LatestWrittenWas(steps, id);
    if Wrote(steps, id, Latest(steps, id)) {
      assert Latest(steps, id) <= LatestWritten(steps, id);
    }
  }

  /** A device that is set online, and then a persist that fails before one that succeeds. */
  function FailingSteps(id: Id, online: nat): seq<Step> {
    [SetOnline(id, online)] + [Persist(false, map[])] + [Persist(true, map[])]
  }

  lemma FailingLatest(id: Id, online: nat)
    ensures Latest(FailingSteps(id, online), id) == WholeSeconds(online)
  {
    var a := [SetOnline(id, online)];
    var b := a + [Persist(false, map[])];
    LatestAppend([], SetOnline(id, online), id);
    assert [] + [SetOnline(id, online)] == a;
    LatestAppend(a, Persist(false, map[]), id);
    LatestAppend(b, Persist(true, map[]), id);
  }

  lemma NothingRaised(devices: Times)
    ensures Raise(devices, map[]) == devices
  {
  }

  /** A persist that fails loses what it had drained: the next one does not make up for it. */
  lemma FailedPersistForgets(id: Id, added: nat, online: nat)
    requires added < WholeSeconds(online)
    ensures var s, steps := State(map[id := added], map[]), FailingSteps(id, online);
            && Possible(s, steps) && Run(s, steps).devices == map[id := added] && added < Latest(steps, id)
  {
    var s, a := State(map[id := added], map[]), [SetOnline(id, online)];
    var b := a + [Persist(false, map[])];
    FailingLatest(id, online);
    NothingRaised(s.devices);
    RunSplit(s, [], SetOnline(id, online));
    assert [] + [SetOnline(id, online)] == a;
    RunSplit(s, a, Persist(false, map[]));
    RunSplit(s, b, Persist(true, map[]));
  }
}
