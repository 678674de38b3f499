/** Filtering and merging as the code performs them: loops over the fields of the rule tree
    in whatever order the map yields them, the merge writing its first argument in place.
  */
module SettingsTree {
  import opened SettingsSpec

  // ---------- Filtering builds a new tree ----------

  method FilterMap(m: Fields, r: Rules) returns (res: Result)
    ensures res.Ok? <==> Fits(m, r)
    ensures res.Ok? ==> res.fields == Filter(m, r)
    ensures res.InvalidField? ==> Offends(m, r, res.field)
    decreases r
  {
    var result: Fields := map[];
    var todo := r.rules.Keys;
    while todo != {}
      invariant todo <= r.rules.Keys
      invariant forall f | f in result :: f in m && Sets(m, r, f) && f !in todo
      invariant forall f | f in m && Sets(m, r, f) && f !in todo :: f in result && result[f] == Filter(m, r)[f]
      invariant FitsBut(m, r, todo)
      decreases |todo|
    {
      var field :| field in todo;
      todo := todo - {field};
      if r.rules[field].Section? {
        if field in m && m[field].Object? {
          var sub := FilterMap(m[field].fields, r.rules[field]);
          if sub.InvalidField? {
            OffenceIsMisfit(m[field].fields, r.rules[field], sub.field);
            return sub;
          }
          result := result[field := Object(sub.fields)];
        } else if field !in m || m[field] == Null {
        } else {
          return InvalidField(field);
        }
      } else if field in m {
        result := result[field := m[field]];
      }
    }
    assert result == Filter(m, r);
    return Ok(result);
  }

  /** The tree fits the rules, the sections in `todo` aside. */
  predicate FitsBut(p: Fields, r: Rules, todo: set<string>) {
    forall f | f in p && f in r.rules && f !in todo && r.rules[f].Section? && p[f] != Null ::
      p[f].Object? && Fits(p[f].fields, r.rules[f])
  }


  // ---------- Mutable trees ----------

  /** A value held by a mutable map: an address leads to another mutable map. */
  datatype Value = Nil | Scalar(text: string) | Ref(addr: nat)

  type Store = seq<map<string, Value>>

  /** In store `h`, `v` stands for the JSON value `j`, and no map is reached twice. */
  ghost predicate Tree(h: Store, v: Value, j: Json)
    decreases j, 1
  {
    match v
    case Nil => j == Null
    case Scalar(text) => j == Atom(text)
    case Ref(a) => j.Object? && a < |h| && h[a].Keys == j.fields.Keys && Branches(h, a, j)
  }

  ghost predicate Branches(h: Store, a: nat, j: Json)
    requires j.Object? && a < |h| && h[a].Keys == j.fields.Keys
    decreases j, 0
  {
    && (forall f | f in j.fields :: Tree(h, h[a][f], j.fields[f]) && a !in Foot(h, h[a][f], j.fields[f]))
    && (forall f, g | f in j.fields && g in j.fields && f != g ::
          Foot(h, h[a][f], j.fields[f]) !! Foot(h, h[a][g], j.fields[g]))
  }

  /** The addresses of the maps a value reaches. */
  ghost function Foot(h: Store, v: Value, j: Json): set<nat>
    decreases j
  {
    if v.Ref? && j.Object? && v.addr < |h| && h[v.addr].Keys == j.fields.Keys then
      {v.addr} + (set f, x | f in j.fields && x in Foot(h, h[v.addr][f], j.fields[f]) :: x)
    else {}
  }

  lemma FieldsOf(h: Store, a: nat, t: Fields, f: string)
    requires Tree(h, Ref(a), Object(t))
    ensures f in h[a] <==> f in t
    ensures f in t ==> (h[a][f].Ref? <==> t[f].Object?) && (h[a][f].Nil? <==> t[f].Null?)
  {
    if f in t {
      assert Branches(h, a, Object(t)) && f in Object(t).fields;
    }
  }

  lemma {:induction false} FootBounded(h: Store, v: Value, j: Json)
    ensures forall x | x in Foot(h, v, j) :: x < |h|
    decreases j
  {
    if v.Ref? && j.Object? && v.addr < |h| && h[v.addr].Keys == j.fields.Keys {
      forall f | f in j.fields
        ensures forall x | x in Foot(h, h[v.addr][f], j.fields[f]) :: x < |h|
      {
        FootBounded(h, h[v.addr][f], j.fields[f]);
      }
    }
  }

  /** A tree none of whose maps was written is the same tree. */
  lemma {:induction false} Framed(h: Store, h': Store, v: Value, j: Json)
    requires Tree(h, v, j)
    requires |h| <= |h'| && forall x | x in Foot(h, v, j) && x < |h| :: h'[x] == h[x]
    ensures Tree(h', v, j) && Foot(h', v, j) == Foot(h, v, j)
    decreases j
  {
    if v.Ref? {
      forall f | f in j.fields
        ensures Tree(h', h[v.addr][f], j.fields[f])
        ensures Foot(h', h[v.addr][f], j.fields[f]) == Foot(h, h[v.addr][f], j.fields[f])
      {
        Framed(h, h', h[v.addr][f], j.fields[f]);
      }
    }
  }

  // ---------- Merging writes a tree in place ----------

  /** The merge of tree `p` into tree `s`, done except at the fields in `todo`. */
  ghost predicate Halfway(t: Fields, s: Fields, p: Fields, r: Rules, todo: set<string>) {
    && (forall f :: f in t <==> f in s || (f !in todo && Sets(p, r, f)))
    && (forall f | f in t :: t[f] == if f !in todo && Sets(p, r, f) then Overlay(s, p, r)[f] else s[f])
  }

  lemma HalfwayBegins(s: Fields, p: Fields, r: Rules)
    ensures Halfway(s, s, p, r, r.rules.Keys)
  {
  }

  lemma HalfwayEnds(t: Fields, s: Fields, p: Fields, r: Rules)
    requires Halfway(t, s, p, r, {})
    ensures t == Overlay(s, p, r)
  {
  }

  lemma HalfwaySkips(t: Fields, s: Fields, p: Fields, r: Rules, todo: set<string>, f: string)
    requires Halfway(t, s, p, r, todo) && !Sets(p, r, f)
    ensures Halfway(t, s, p, r, todo - {f})
  {
  }

  lemma HalfwayWrites(t: Fields, s: Fields, p: Fields, r: Rules, todo: set<string>, f: string)
    requires Halfway(t, s, p, r, todo) && Sets(p, r, f)
    ensures f in Overlay(s, p, r)
    ensures Halfway(t[f := Overlay(s, p, r)[f]], s, p, r, todo - {f})
  {
  }

  /** The map at `a` reads as `t` except perhaps at field `f`. */
  ghost predicate TreeBut(h: Store, a: nat, t: Fields, f: string) {
    && a < |h| && h[a].Keys == t.Keys
    && (forall g | g in t && g != f :: Tree(h, h[a][g], t[g]) && a !in Foot(h, h[a][g], t[g]))
    && (forall g, k | g in t && k in t && g != f && k != f && g != k ::
          Foot(h, h[a][g], t[g]) !! Foot(h, h[a][k], t[k]))
  }

  /** Writing one field changes that field of the tree and nothing else. */
  lemma PutField(h: Store, a: nat, t: Fields, f: string, v: Value, j: Json)
    requires TreeBut(h, a, t, f)
    requires Tree(h, v, j) && a !in Foot(h, v, j)
    requires forall g | g in t && g != f :: Foot(h, h[a][g], t[g]) !! Foot(h, v, j)
    ensures var h' := h[a := h[a][f := v]];
            && Tree(h', Ref(a), Object(t[f := j])) && Foot(h', v, j) == Foot(h, v, j)
            && forall g | g in t && g != f :: Foot(h', h[a][g], t[g]) == Foot(h, h[a][g], t[g])
  {
    var h' := h[a := h[a][f := v]];
    Framed(h, h', v, j);
    forall g | g in t && g != f
      ensures Tree(h', h[a][g], t[g]) && Foot(h', h[a][g], t[g]) == Foot(h, h[a][g], t[g])
    {
      Framed(h, h', h[a][g], t[g]);
    }
  }

  /** The patch is a tree at `a2`, apart from the maps in `mine`, all older than address `n`. */
  ghost predicate Patch(h: Store, a2: nat, p: Fields, mine: set<nat>, n: nat) {
    && Tree(h, Ref(a2), Object(p)) && n <= |h|
    && mine !! Foot(h, Ref(a2), Object(p))
    && (forall x | x in mine :: x < n)
    && (forall x | x in Foot(h, Ref(a2), Object(p)) :: x < n)
  }

  /** What field `f` of the merged tree may reach: `mine`, maps made during the merge and, once
      the field is done, the patch's value of that field. */
  ghost predicate MayReach(h: Store, a2: nat, p: Fields, mine: set<nat>, n: nat, todo: set<string>, f: string, x: nat)
    requires Patch(h, a2, p, mine, n)
  {
    x in mine || x >= n || (f !in todo && f in p && x in Foot(h, h[a2][f], p[f]))
  }

  lemma PatchFramed(h: Store, h': Store, a2: nat, p: Fields, mine: set<nat>, n: nat)
    requires Patch(h, a2, p, mine, n) && |h| <= |h'|
    requires forall x | x in Foot(h, Ref(a2), Object(p)) :: h'[x] == h[x]
    ensures Patch(h', a2, p, mine, n) && h'[a2] == h[a2]
    ensures forall f | f in p :: Foot(h', h[a2][f], p[f]) == Foot(h, h[a2][f], p[f])
    ensures forall todo, f, x :: MayReach(h', a2, p, mine, n, todo, f, x) <==> MayReach(h, a2, p, mine, n, todo, f, x)
  {
    Framed(h, h', Ref(a2), Object(p));
    assert Branches(h, a2, Object(p));
    assert h'[a2] == h[a2];
    forall f | f in p
      ensures Foot(h', h[a2][f], p[f]) == Foot(h, h[a2][f], p[f])
    {
      assert f in Object(p).fields;
      Framed(h, h', h[a2][f], p[f]);
    }
  }

  ghost predicate Apart(h: Store, a1: nat, t: Fields, a2: nat, p: Fields, mine: set<nat>, n: nat, todo: set<string>) {
    && Tree(h, Ref(a1), Object(t)) && a1 in mine && Patch(h, a2, p, mine, n)
    && (forall f, x | f in t && x in Foot(h, h[a1][f], t[f]) :: MayReach(h, a2, p, mine, n, todo, f, x))
  }

  /** Fields of the patch other than `f` reach nothing that field `f` of the patch reaches. */
  lemma OthersApart(h: Store, a1: nat, t: Fields, a2: nat, p: Fields, mine: set<nat>, n: nat,
                    todo: set<string>, f: string)
    requires Apart(h, a1, t, a2, p, mine, n, todo) && f in todo && f in p
    ensures forall g | g in t :: Foot(h, h[a1][g], t[g]) !! Foot(h, h[a2][f], p[f])
  {
    assert Branches(h, a2, Object(p)) && f in Object(p).fields;
    assert Foot(h, h[a2][f], p[f]) <= Foot(h, Ref(a2), Object(p));
    assert forall g | g in p && g != f :: g in Object(p).fields && Foot(h, h[a2][g], p[g]) !! Foot(h, h[a2][f], p[f]);
    forall g, x | g in t && x in Foot(h, h[a1][g], t[g])
      ensures x !in Foot(h, h[a2][f], p[f])
    {
      assert MayReach(h, a2, p, mine, n, todo, g, x);
    }
  }

  /** Writing field `f` of a half-merged tree, with a value that reaches only what it may. */
  lemma ApartWrites(h: Store, a1: nat, t: Fields, a2: nat, p: Fields, mine: set<nat>, n: nat, todo: set<string>,
                    f: string, v: Value, j: Json)
    requires TreeBut(h, a1, t, f) && a1 in mine && Patch(h, a2, p, mine, n)
    requires forall g, x | g in t && g != f && x in Foot(h, h[a1][g], t[g]) :: MayReach(h, a2, p, mine, n, todo, g, x)
    requires Tree(h, v, j) && a1 !in Foot(h, v, j)
    requires forall x | x in Foot(h, v, j) :: MayReach(h, a2, p, mine, n, {}, f, x)
    requires forall g | g in t && g != f :: Foot(h, h[a1][g], t[g]) !! Foot(h, v, j)
    ensures Apart(h[a1 := h[a1][f := v]], a1, t[f := j], a2, p, mine, n, todo - {f})
  {
    var h', t' := h[a1 := h[a1][f := v]], t[f := j];
    PutField(h, a1, t, f, v, j);
    PatchFramed(h, h', a2, p, mine, n);
    forall g, x | g in t' && x in Foot(h', h'[a1][g], t'[g])
      ensures MayReach(h', a2, p, mine, n, todo - {f}, g, x)
    {
      if g == f {
        assert MayReach(h, a2, p, mine, n, {}, f, x);
      } else {
        assert MayReach(h, a2, p, mine, n, todo, g, x);
        assert MayReach(h, a2, p, mine, n, todo - {f}, g, x);
      }
    }
  }

  lemma ApartReach(h: Store, a1: nat, t: Fields, a2: nat, p: Fields, mine: set<nat>, n: nat, todo: set<string>)
    requires Apart(h, a1, t, a2, p, mine, n, todo)
    ensures forall x | x in Foot(h, Ref(a1), Object(t)) :: x in mine || x >= n || x in Foot(h, Ref(a2), Object(p))
  {
    forall x | x in Foot(h, Ref(a1), Object(t)) && x != a1
      ensures x in mine || x >= n || x in Foot(h, Ref(a2), Object(p))
    {
      var f :| f in t && x in Foot(h, h[a1][f], t[f]);
      assert MayReach(h, a2, p, mine, n, todo, f, x);
    }
  }

  /** The map at `target` reads as `s` and is where field `f` of the patch may be merged. */
  ghost predicate Targeted(h: Store, a1: nat, t: Fields, a2: nat, p: Fields, mine: set<nat>, n: nat, todo: set<string>,
                           f: string, target: nat, s: Fields) {
    && Apart(h, a1, t, a2, p, mine, n, todo)
    && Tree(h, Ref(target), Object(s)) && a1 !in Foot(h, Ref(target), Object(s))
    && (forall x | x in Foot(h, Ref(target), Object(s)) :: x in mine || x >= n)
    && (forall g | g in t && g != f :: Foot(h, h[a1][g], t[g]) !! Foot(h, Ref(target), Object(s)))
  }

  lemma TargetExisting(h: Store, a1: nat, t: Fields, a2: nat, p: Fields, mine: set<nat>, n: nat,
                       todo: set<string>, f: string)
    requires Apart(h, a1, t, a2, p, mine, n, todo) && f in todo && f in t && t[f].Object?
    ensures h[a1][f].Ref? && Targeted(h, a1, t, a2, p, mine, n, todo, f, h[a1][f].addr, t[f].fields)
  {
    assert Branches(h, a1, Object(t)) && f in Object(t).fields;
    forall x | x in Foot(h, h[a1][f], t[f])
      ensures x in mine || x >= n
    {
      assert MayReach(h, a2, p, mine, n, todo, f, x);
    }
  }

  /** A new empty map at the end of the store changes no tree and is reached by none. */
  lemma NewMapFrames(h: Store, a1: nat, t: Fields)
    requires Tree(h, Ref(a1), Object(t))
    ensures var h' := h + [map[]];
            && Tree(h', Ref(a1), Object(t)) && Foot(h', Ref(a1), Object(t)) == Foot(h, Ref(a1), Object(t))
            && (forall g | g in t :: Foot(h', h'[a1][g], t[g]) == Foot(h, h[a1][g], t[g]))
            && (forall g | g in t :: |h| !in Foot(h', h'[a1][g], t[g]))
  {
    var h' := h + [map[]];
    Framed(h, h', Ref(a1), Object(t));
    FootBounded(h, Ref(a1), Object(t));
    assert Branches(h, a1, Object(t));
    forall g | g in t
      ensures Foot(h', h'[a1][g], t[g]) == Foot(h, h[a1][g], t[g]) && |h| !in Foot(h, h[a1][g], t[g])
    {
      assert g in Object(t).fields;
      Framed(h, h', h[a1][g], t[g]);
      FootBounded(h, h[a1][g], t[g]);
    }
  }

  lemma NewMapApart(h: Store, a1: nat, t: Fields, a2: nat, p: Fields, mine: set<nat>, n: nat, todo: set<string>)
    requires Apart(h, a1, t, a2, p, mine, n, todo)
    ensures Apart(h + [map[]], a1, t, a2, p, mine, n, todo)
  {
    NewMapFrames(h, a1, t);
    PatchFramed(h, h + [map[]], a2, p, mine, n);
  }

  lemma NewMapTree(h: Store)
    ensures Tree(h + [map[]], Ref(|h|), Object(map[])) && Foot(h + [map[]], Ref(|h|), Object(map[])) == {|h|}
  {
  }

  lemma TargetNew(h: Store, a1: nat, t: Fields, a2: nat, p: Fields, mine: set<nat>, n: nat, todo: set<string>,
                  f: string)
    requires Apart(h, a1, t, a2, p, mine, n, todo)
    ensures Targeted(h + [map[]], a1, t, a2, p, mine, n, todo, f, |h|, map[])
  {
    NewMapApart(h, a1, t, a2, p, mine, n, todo);
    NewMapFrames(h, a1, t);
    NewMapTree(h);
  }

  /** Two separate trees: the target and the patch's value of field `f`. */
  lemma TargetApart(h: Store, a1: nat, t: Fields, a2: nat, p: Fields, mine: set<nat>, n: nat, todo: set<string>,
                    f: string, target: nat, s: Fields)
    requires Targeted(h, a1, t, a2, p, mine, n, todo, f, target, s) && f in p && p[f].Object?
    ensures f in h[a2] && h[a2][f].Ref? && Tree(h, h[a2][f], Object(p[f].fields))
    ensures Foot(h, Ref(target), Object(s)) !! Foot(h, h[a2][f], Object(p[f].fields))
  {
    assert Branches(h, a2, Object(p)) && f in Object(p).fields;
    assert p[f] == Object(p[f].fields);
    assert Foot(h, h[a2][f], p[f]) <= Foot(h, Ref(a2), Object(p));
  }

  /** Whatever a merge did to the target, and whatever map `w` then takes the place of the one at
      `a1`: the patch is as it was, and of the old maps only `mine` were written. */
  lemma TargetSpoilt(h: Store, h': Store, a1: nat, t: Fields, a2: nat, p: Fields, mine: set<nat>, n: nat,
                     todo: set<string>,
                     f: string, target: nat, s: Fields, w: map<string, Value>)
    requires Targeted(h, a1, t, a2, p, mine, n, todo, f, target, s)
    requires |h| <= |h'| && forall x | 0 <= x < |h| && x !in Foot(h, Ref(target), Object(s)) :: h'[x] == h[x]
    ensures forall x | 0 <= x < n && x !in mine :: h'[x] == h[x]
    ensures a1 < |h'| && Foot(h'[a1 := w], Ref(a2), Object(p)) == Foot(h, Ref(a2), Object(p))
  {
    PatchFramed(h, h'[a1 := w], a2, p, mine, n);
  }

  /** Merging into the target wrote no other part of the half-merged tree nor of the patch. */
  lemma TargetMerged(h: Store, h': Store, a1: nat, t: Fields, a2: nat, p: Fields, mine: set<nat>, n: nat,
                     todo: set<string>,
                     f: string, target: nat, s: Fields, s': Fields)
    requires Targeted(h, a1, t, a2, p, mine, n, todo, f, target, s) && f in todo && f in p
    requires |h| <= |h'| && forall x | 0 <= x < |h| && x !in Foot(h, Ref(target), Object(s)) :: h'[x] == h[x]
    requires Tree(h', Ref(target), Object(s'))
    requires forall x | x in Foot(h', Ref(target), Object(s')) ::
               x in Foot(h, Ref(target), Object(s)) || x in Foot(h, h[a2][f], p[f]) || x >= |h|
    ensures forall x | 0 <= x < n && x !in mine :: h'[x] == h[x]
    ensures Foot(h'[a1 := h'[a1][f := Ref(target)]], Ref(a2), Object(p)) == Foot(h, Ref(a2), Object(p))
    ensures Apart(h'[a1 := h'[a1][f := Ref(target)]], a1, t[f := Object(s')], a2, p, mine, n, todo - {f})
  {
    TargetSpoilt(h, h', a1, t, a2, p, mine, n, todo, f, target, s, h'[a1][f := Ref(target)]);
    PatchFramed(h, h', a2, p, mine, n);
    OthersApart(h, a1, t, a2, p, mine, n, todo, f);
    assert Branches(h, a1, Object(t));
    forall g | g in t && g != f
      ensures Tree(h', h[a1][g], t[g]) && Foot(h', h[a1][g], t[g]) == Foot(h, h[a1][g], t[g])
      ensures Foot(h', h[a1][g], t[g]) !! Foot(h', Ref(target), Object(s'))
    {
      assert g in Object(t).fields;
      Framed(h, h', h[a1][g], t[g]);
      FootBounded(h, h[a1][g], t[g]);
    }
    forall g, x | g in t && g != f && x in Foot(h', h[a1][g], t[g])
      ensures MayReach(h', a2, p, mine, n, todo, g, x)
    {
      assert MayReach(h, a2, p, mine, n, todo, g, x);
    }
    ApartWrites(h', a1, t, a2, p, mine, n, todo, f, Ref(target), Object(s'));
  }

  /** Since store `h0` only new maps were written, and `v` reads as `j` among them. */
  ghost predicate Built(h0: Store, h: Store, v: Value, j: Json) {
    && |h0| <= |h| && (forall x | 0 <= x < |h0| :: h[x] == h0[x])
    && Tree(h, v, j) && (forall x | x in Foot(h, v, j) :: x >= |h0|)
  }

  /** A newly built value becomes a field of a map under construction. */
  lemma BuiltField(h0: Store, h: Store, h': Store, a: nat, t: Fields, f: string, v: Value, j: Json)
    requires Built(h0, h, Ref(a), Object(t)) && f !in t
    requires Built(h, h', v, j)
    ensures Built(h0, h'[a := h'[a][f := v]], Ref(a), Object(t[f := j]))
  {
    FootBounded(h, Ref(a), Object(t));
    Framed(h, h', Ref(a), Object(t));
    assert Branches(h, a, Object(t)) && Branches(h', a, Object(t));
    forall g | g in t
      ensures Tree(h', h'[a][g], t[g]) && a !in Foot(h', h'[a][g], t[g])
      ensures Foot(h', h'[a][g], t[g]) <= Foot(h', Ref(a), Object(t))
    {
      assert g in Object(t).fields;
    }
    PutField(h', a, t, f, v, j);
  }

  /** The program's mutable maps. */
  class Arena {
    var store: Store

    constructor ()
      ensures store == []
    {
      store := [];
    }

    method New() returns (a: nat)
      modifies this
      ensures a == |old(store)| && store == old(store) + [map[]]
    {
      a := |store|;
      store := store + [map[]];
    }

    /** Builds the mutable maps for a JSON value, as decoding its text does; nothing is shared. */
    method Decode(j: Json) returns (v: Value)
      modifies this
      ensures Built(old(store), store, v, j)
      decreases j, 1
    {
      match j
      case Null => return Nil;
      case Atom(text) => return Scalar(text);
      case Object(fields) =>
        var a := New();
        ghost var t: Fields := map[];
        var todo := fields.Keys;
        assert Built(old(store), store, Ref(a), Object(t));
        while todo != {}
          invariant todo <= fields.Keys
          invariant t == map f | f in fields && f !in todo :: fields[f]
          invariant Built(old(store), store, Ref(a), Object(t))
          decreases |todo|
        {
          var field :| field in todo;
          DecodeField(j, field, a, t, old(store));
          t := t[field := fields[field]];
          todo := todo - {field};
        }
        assert t == fields;
        return Ref(a);
    }

    method DecodeField(j: Json, field: string, a: nat, ghost t: Fields, ghost h0: Store)
      requires j.Object? && field in j.fields && field !in t
      requires Built(h0, store, Ref(a), Object(t))
      modifies this
      ensures Built(h0, store, Ref(a), Object(t[field := j.fields[field]]))
      decreases j, 0
    {
      ghost var h := store;
      var w := Decode(j.fields[field]);
      BuiltField(h0, h, store, a, t, field, w, j.fields[field]);
      store := store[a := store[a][field := w]];
    }

    /** Reads a value back. */
    method Encode(v: Value, ghost j: Json) returns (r: Json)
      requires Tree(store, v, j)
      ensures r == j
      decreases j
    {
      match v
      case Nil => return Null;
      case Scalar(text) => return Atom(text);
      case Ref(a) =>
        var fields: Fields := map[];
        var todo := store[a].Keys;
        while todo != {}
          invariant todo <= store[a].Keys == j.fields.Keys
          invariant fields.Keys == j.fields.Keys - todo && forall f | f in fields :: fields[f] == j.fields[f]
          decreases |todo|
        {
          var field :| field in todo;
          assert Branches(store, a, j);
          var w := Encode(store[a][field], j.fields[field]);
          fields := fields[field := w];
          todo := todo - {field};
        }
        assert fields == j.fields;
        return Object(fields);
    }

    /** Merges the map at `a2` into the map at `a1` in place, field by field in an order nobody
        chooses.  `s` and `p` are the trees the two maps stand for.  Nothing is written but the
        maps of the first tree; a failed merge may leave those half written. */
    method AppendMap(a1: nat, a2: nat, r: Rules, ghost s: Fields, ghost p: Fields) returns (res: Status)
      requires Tree(store, Ref(a1), Object(s)) && Tree(store, Ref(a2), Object(p))
      requires Foot(store, Ref(a1), Object(s)) !! Foot(store, Ref(a2), Object(p))
      modifies this
      ensures |old(store)| <= |store|
      ensures forall x | 0 <= x < |old(store)| && x !in Foot(old(store), Ref(a1), Object(s)) ::
              store[x] == old(store)[x]
      ensures res.Merged? <==> Fits(p, r)
      ensures res.Rejected? ==> Offends(p, r, res.field)
      ensures res.Merged? ==> Tree(store, Ref(a1), Object(Overlay(s, p, r)))
      ensures res.Merged? ==> forall x | x in Foot(store, Ref(a1), Object(Overlay(s, p, r))) ::
                x in Foot(old(store), Ref(a1), Object(s)) || x in Foot(old(store), Ref(a2),
                  Object(p)) || x >= |old(store)|
      decreases r, 2
    {
      ghost var n, mine, t := |store|, Foot(store, Ref(a1), Object(s)), s;
      FootBounded(store, Ref(a1), Object(s));
      FootBounded(store, Ref(a2), Object(p));
      var todo := r.rules.Keys;
      HalfwayBegins(s, p, r);
      while todo != {}
        invariant todo <= r.rules.Keys
        invariant Apart(store, a1, t, a2, p, mine, n, todo)
        invariant forall x | 0 <= x < n && x !in mine :: store[x] == old(store)[x]
        invariant Foot(store, Ref(a2), Object(p)) == Foot(old(store), Ref(a2), Object(p))
        invariant Halfway(t, s, p, r, todo)
        invariant FitsBut(p, r, todo)
        decreases |todo|
      {
        var field :| field in todo;
        res, t := MergeField(a1, a2, r, field, t, s, p, mine, n, todo);
        if res.Rejected? {
          OffenceIsMisfit(p, r, res.field);
          return;
        }
        todo := todo - {field};
      }
      HalfwayEnds(t, s, p, r);
      ApartReach(store, a1, t, a2, p, mine, n, {});
      return Merged;
    }

    method MergeField(a1: nat, a2: nat, r: Rules, field: string,
                      ghost t: Fields, ghost s: Fields, ghost p: Fields, ghost mine: set<nat>, ghost n: nat,
                        ghost todo: set<string>)
      returns (res: Status, ghost t': Fields)
      requires Apart(store, a1, t, a2, p, mine, n, todo) && Halfway(t, s, p, r, todo) && FitsBut(p, r, todo)
      requires field in todo && field in r.rules
      modifies this
      ensures |old(store)| <= |store|
      ensures forall x | 0 <= x < n && x !in mine :: store[x] == old(store)[x]
      ensures Foot(store, Ref(a2), Object(p)) == Foot(old(store), Ref(a2), Object(p))
      ensures res.Rejected? ==> Offends(p, r, res.field)
      ensures res.Merged? ==> Apart(store, a1, t', a2, p, mine, n, todo - {field})
      ensures res.Merged? ==> Halfway(t', s, p, r, todo - {field}) && FitsBut(p, r, todo - {field})
      decreases r, 1
    {
      FieldsOf(store, a2, p, field);
      t' := t;
      res := Merged;
      if r.rules[field].Leaf? {
        if field in store[a2] {
          HalfwayWrites(t, s, p, r, todo, field);
          MergeLeaf(a1, a2, field, t, p, mine, n, todo);
          t' := t[field := p[field]];
          return;
        }
      } else if field in store[a2] && store[a2][field].Ref? {
        HalfwayWrites(t, s, p, r, todo, field);
        res := MergeSection(a1, a2, r, field, t, p, mine, n, todo);
        t' := t[field := Object(Overlay(SectionOf(t, field), p[field].fields, r.rules[field]))];
        return;
      } else if field !in store[a2] || store[a2][field].Nil? {
      } else {
        return Rejected(field), t;
      }
      HalfwaySkips(t, s, p, r, todo, field);
    }

    /** Copies one field of the patch; whatever it leads to is now shared with the patch. */
    method MergeLeaf(a1: nat, a2: nat, f: string,
                     ghost t: Fields, ghost p: Fields, ghost mine: set<nat>, ghost n: nat, ghost todo: set<string>)
      requires Apart(store, a1, t, a2, p, mine, n, todo) && f in todo && f in p
      modifies this
      ensures a1 < |old(store)| && a2 < |old(store)| && f in old(store)[a2]
      ensures store == old(store)[a1 := old(store)[a1][f := old(store)[a2][f]]]
      ensures Apart(store, a1, t[f := p[f]], a2, p, mine, n, todo - {f})
      ensures Foot(store, Ref(a2), Object(p)) == Foot(old(store), Ref(a2), Object(p))
    {
      ghost var h := store;
      OthersApart(h, a1, t, a2, p, mine, n, todo, f);
      assert Branches(h, a2, Object(p)) && Branches(h, a1, Object(t));
      ApartWrites(h, a1, t, a2, p, mine, n, todo, f, h[a2][f], p[f]);
      store := store[a1 := store[a1][f := store[a2][f]]];
      Framed(h, store, Ref(a2), Object(p));
    }

    /** The map that field `f` of the patch is merged into: the section there is, or a new one. */
    method TargetOf(a1: nat, a2: nat, f: string,
                    ghost t: Fields, ghost p: Fields, ghost mine: set<nat>, ghost n: nat, ghost todo: set<string>)
      returns (target: nat)
      requires Apart(store, a1, t, a2, p, mine, n, todo) && f in todo
      modifies this
      ensures store == old(store) || store == old(store) + [map[]]
      ensures Targeted(store, a1, t, a2, p, mine, n, todo, f, target, SectionOf(t, f))
      ensures Foot(store, Ref(a2), Object(p)) == Foot(old(store), Ref(a2), Object(p))
    {
      ghost var h := store;
      FieldsOf(store, a1, t, f);
      if f in store[a1] && store[a1][f].Ref? {
        TargetExisting(h, a1, t, a2, p, mine, n, todo, f);
        target := store[a1][f].addr;
      } else {
        TargetNew(h, a1, t, a2, p, mine, n, todo, f);
        target := New();
        PatchFramed(h, store, a2, p, mine, n);
      }
    }

    /** Merges one section of the patch into the section of the same name, made empty if missing. */
    method MergeSection(a1: nat, a2: nat, r: Rules, f: string,
                        ghost t: Fields, ghost p: Fields, ghost mine: set<nat>, ghost n: nat, ghost todo: set<string>)
      returns (res: Status)
      requires Apart(store, a1, t, a2, p, mine, n, todo)
      requires f in todo && f in r.rules && r.rules[f].Section? && f in p && p[f].Object?
      modifies this
      ensures |old(store)| <= |store|
      ensures forall x | 0 <= x < n && x !in mine :: store[x] == old(store)[x]
      ensures Foot(store, Ref(a2), Object(p)) == Foot(old(store), Ref(a2), Object(p))
      ensures res.Merged? <==> Fits(p[f].fields, r.rules[f])
      ensures res.Rejected? ==> Offends(p[f].fields, r.rules[f], res.field)
      ensures res.Merged? ==>
                Apart(store, a1, t[f := Object(Overlay(SectionOf(t, f), p[f].fields, r.rules[f]))], a2, p, mine, n,
                  todo - {f})
      decreases r, 0
    {
      ghost var section := SectionOf(t, f);
      var target := TargetOf(a1, a2, f, t, p, mine, n, todo);
      ghost var h := store;
      TargetApart(h, a1, t, a2, p, mine, n, todo, f, target, section);
      res := AppendMap(target, store[a2][f].addr, r.rules[f], section, p[f].fields);
      if res.Rejected? {
        TargetSpoilt(h, store, a1, t, a2, p, mine, n, todo, f, target, section, store[a1][f := Nil]);
        store := store[a1 := store[a1][f := Nil]];
      } else {
        TargetMerged(h, store, a1, t, a2, p, mine, n, todo, f, target, section, Overlay(section, p[f].fields,
          r.rules[f]));
        store := store[a1 := store[a1][f := Ref(target)]];
      }
    }
  }
}
