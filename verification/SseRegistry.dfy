/** The registry of server-sent-event connections: who is connected for each device, in order, and
    how often each connection's close signal was closed. */
module SseRegistry {

  type ConnId = string

  datatype Registry = Registry(connections: map<string, seq<ConnId>>, closes: map<ConnId, nat>)

  function Closes(r: Registry, id: ConnId): nat {
    if id in r.closes then r.closes[id] else 0
  }

  function CloseOne(closes: map<ConnId, nat>, id: ConnId): map<ConnId, nat> {
    closes[id := (if id in closes then closes[id] else 0) + 1]
  }

  function Of(r: Registry, device: string): seq<ConnId> {
    if device in r.connections then r.connections[device] else []
  }

  function Listed(r: Registry): set<ConnId> {
    set device, i | device in r.connections && 0 <= i < |r.connections[device]| :: r.connections[device][i]
  }

  /** No device with an empty list, and nobody listed twice. */
  ghost predicate WellFormed(r: Registry) {
    && (forall d | d in r.connections :: r.connections[d] != [] && Distinct(r.connections[d]))
    && (forall d, e | d in r.connections && e in r.connections && d != e :: Apart(r.connections[d], r.connections[e]))
  }

  ghost predicate Distinct(ids: seq<ConnId>) {
    forall i, j | 0 <= i < j < |ids| :: ids[i] != ids[j]
  }

  ghost predicate Apart(a: seq<ConnId>, b: seq<ConnId>) {
    forall i, j | 0 <= i < |a| && 0 <= j < |b| :: a[i] != b[j]
  }

  function Added(r: Registry, device: string, id: ConnId): Registry {
    r.(connections := r.connections[device := Of(r, device) + [id]])
  }

  /** Without the first occurrence of `id`. */
  function Without(ids: seq<ConnId>, id: ConnId): seq<ConnId>
    decreases |ids|
  {
    if ids == [] then [] else if ids[0] == id then ids[1..] else [ids[0]] + Without(ids[1..], id)
  }

  function Removed(r: Registry, device: string, id: ConnId): Registry {
    if device !in r.connections then r
    else
      var left := Without(r.connections[device], id);
      Registry(if left == [] then r.connections - {device} else r.connections[device := left],
               if id in r.connections[device] then CloseOne(r.closes, id) else r.closes)
  }

  function Cleared(r: Registry): Registry {
    Registry(map[], map id | id in r.closes.Keys + Listed(r) :: Closes(r, id) + if id in Listed(r) then 1 else 0)
  }

  /** Removal drops exactly the one element and keeps the others in order. */
  lemma {:induction false} WithoutCuts(ids: seq<ConnId>, id: ConnId, i: nat)
    requires i < |ids| && ids[i] == id && id !in ids[..i]
    ensures Without(ids, id) == ids[..i] + ids[i + 1..]
    decreases i
  {
    if i == 0 {
    } else {
      assert ids[0] == ids[..i][0];
      assert ids[1..][..i - 1] == ids[..i][1..];
      WithoutCuts(ids[1..], id, i - 1);
    }
  }

  lemma {:induction false} WithoutNone(ids: seq<ConnId>, id: ConnId)
    requires id !in ids
    ensures Without(ids, id) == ids
    decreases |ids|
  {
    if ids == [] {
    } else {
      WithoutNone(ids[1..], id);
    }
  }

  /** The shift that removal performs on the memory of a list of `n` ids: those behind the i-th move up
      by one, and the place that is left over keeps what it held. */
  method CutInPlace(a: array<ConnId>, n: nat, i: nat)
    requires i < n <= a.Length && a[i] !in a[..i]
    modifies a
    ensures a[..n - 1] == Without(old(a[..n]), old(a[i]))
    ensures a[n - 1..] == old(a[n - 1..])
  {
    ghost var was, id := a[..n], a[i];
    assert was[..i] == a[..i];
    WithoutCuts(was, id, i);
    var j := i;
    while j < n - 1
      invariant i <= j <= n - 1
      invariant forall x | 0 <= x < a.Length :: a[x] == if i <= x < j then old(a[x + 1]) else old(a[x])
    {
      a[j] := a[j + 1];
      j := j + 1;
    }
    assert a[..n - 1] == was[..i] + was[i + 1..];
  }

  class Service {
    var registry: Registry

    constructor ()
      ensures registry == Registry(map[], map[])
    {
      registry := Registry(map[], map[]);
    }

    method RegisterConnection(device: string, id: ConnId)
      modifies this
      ensures registry == Added(old(registry), device, id)
    {
      if device !in registry.connections {
        registry := registry.(connections := registry.connections[device := []]);
      }
      registry := registry.(connections := registry.connections[device := registry.connections[device] + [id]]);
    }

    method RemoveConnection(device: string, id: ConnId)
      modifies this
      ensures registry == Removed(old(registry), device, id)
    {
      if device in registry.connections {
        var connections := registry.connections[device];
        var i := 0;
        while i < |connections| && connections[i] != id
          invariant 0 <= i <= |connections| && id !in connections[..i]
        {
          i := i + 1;
        }
        if i < |connections| {
          WithoutCuts(connections, id, i);
          registry := Registry(registry.connections[device := connections[..i] + connections[i + 1..]],
                               CloseOne(registry.closes, id));
        } else {
          WithoutNone(connections, id);
        }
        if registry.connections[device] == [] {
          registry := registry.(connections := registry.connections - {device});
        }
        assert registry.connections.Keys == old(Removed(registry, device, id)).connections.Keys;
      }
    }

    method CloseSignals(ids: seq<ConnId>)
      requires Distinct(ids)
      modifies this
      ensures registry.connections == old(registry).connections
      ensures forall id :: Closes(registry, id) == Closes(old(registry), id) + if id in ids then 1 else 0
    {
      for i := 0 to |ids|
        invariant registry.connections == old(registry).connections
        invariant forall id :: Closes(registry, id) == Closes(old(registry), id) + if id in ids[..i] then 1 else 0
      {
        registry := registry.(closes := CloseOne(registry.closes, ids[i]));
      }
      assert ids[..|ids|] == ids;
    }

    /** Closes the signals of one device and forgets it. */
    method CloseDevice(device: string)
      requires device in registry.connections && Distinct(registry.connections[device])
      modifies this
      ensures registry.connections == old(registry).connections - {device}
      ensures forall id :: Closes(registry, id) ==
                           Closes(old(registry), id) + if id in old(registry).connections[device] then 1 else 0
    {
      CloseSignals(registry.connections[device]);
      registry := registry.(connections := registry.connections - {device});
    }

    /** Closes the signal of every connection, in no particular order of devices. */
    method CloseAll()
      requires WellFormed(registry)
      modifies this
      ensures registry.connections == map[]
      ensures forall id :: Closes(registry, id) == Closes(Cleared(old(registry)), id)
    {
      var r := registry;
      while registry.connections != map[]
        invariant forall d | d in registry.connections ::
                  d in r.connections && registry.connections[d] == r.connections[d]
        invariant forall id :: Closes(registry, id) ==
                               Closes(r, id) + if id in Listed(r) && id !in Listed(registry) then 1 else 0
        decreases |registry.connections|
      {
        var device :| device in registry.connections;
        var before := registry;
        CloseDevice(device);
        ListedWithout(r, before, registry, device);
      }
    }
  }

  /** Taking one device out of a part `p` of a well-formed registry takes out its own ids only. */
  lemma ListedWithout(r: Registry, p: Registry, p': Registry, device: string)
    requires WellFormed(r) && device in p.connections && p'.connections == p.connections - {device}
    requires forall d | d in p.connections :: d in r.connections && p.connections[d] == r.connections[d]
    ensures forall id :: id in Listed(p) <==> id in Listed(p') || id in p.connections[device]
    ensures forall id | id in p.connections[device] :: id !in Listed(p') && id in Listed(r)
  {
    forall id | id in p.connections[device] ensures id !in Listed(p') && id in Listed(r) && id in Listed(p) {
      var i :| 0 <= i < |p.connections[device]| && p.connections[device][i] == id;
      assert r.connections[device][i] == id;
      forall e | e in p'.connections ensures id !in p'.connections[e] {
        assert Apart(r.connections[device], r.connections[e]);
      }
    }
    forall id | id in Listed(p) && id !in p.connections[device] ensures id in Listed(p') {
      var e, j :| e in p.connections && 0 <= j < |p.connections[e]| && p.connections[e][j] == id;
      assert p'.connections[e][j] == id;
    }
    forall id | id in Listed(p') ensures id in Listed(p) {
      var e, j :| e in p'.connections && 0 <= j < |p'.connections[e]| && p'.connections[e][j] == id;
      assert p.connections[e][j] == id;
    }
  }
}
