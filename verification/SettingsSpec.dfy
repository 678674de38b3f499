/** What filtering and merging of per-user settings compute, as functions on JSON trees.

    A rule tree lists the fields a settings tree may hold.  A string rule is a leaf: the
    field is copied whatever it holds, null included.  A map rule is a section: the field
    must hold an object, and null or absence means "nothing said here".
  */
module SettingsSpec {

  datatype Json = Null | Atom(text: string) | Object(fields: Fields)
  type Fields = map<string, Json>

  datatype Rule = Leaf | Section(rules: map<string, Rule>)
  type Rules = r: Rule | r.Section? witness Section(map[])

  datatype Result = Ok(fields: Fields) | InvalidField(field: string)
  datatype Status = Merged | Rejected(field: string)

  /** A value under a section that is neither missing, null nor an object is an error. */
  predicate Fits(m: Fields, r: Rules)
    decreases r
  {
    forall f | f in r.rules && f in m && r.rules[f].Section? && m[f] != Null ::
      m[f].Object? && Fits(m[f].fields, r.rules[f])
  }

  /** `field` names a section, at some depth of `r`, where `m` holds something else. */
  predicate Offends(m: Fields, r: Rules, field: string)
    decreases r
  {
    || (field in r.rules && field in m && r.rules[field].Section? && m[field].Atom?)
    || (exists f | f in r.rules && f in m && r.rules[f].Section? && m[f].Object? ::
          Offends(m[f].fields, r.rules[f], field))
  }

  lemma {:induction false} OffenceIsMisfit(m: Fields, r: Rules, field: string)
    requires Offends(m, r, field)
    ensures !Fits(m, r)
    decreases r
  {
    if !(field in r.rules && field in m && r.rules[field].Section? && m[field].Atom?) {
      var f :| f in r.rules && f in m && r.rules[f].Section? && m[f].Object? &&
               Offends(m[f].fields, r.rules[f], field);
      OffenceIsMisfit(m[f].fields, r.rules[f], field);
    }
  }

  /** The patch `m` says something about field `f`. */
  predicate Sets(m: Fields, r: Rules, f: string) {
    f in r.rules && f in m && (r.rules[f].Leaf? || m[f].Object?)
  }

  function Filter(m: Fields, r: Rules): Fields
    decreases r
  {
    map f | f in m && Sets(m, r, f) ::
      if r.rules[f].Leaf? then m[f] else Object(Filter(m[f].fields, r.rules[f]))
  }

  /** The section that a patch of field `f` is merged into. */
  function SectionOf(m: Fields, f: string): Fields {
    if f in m && m[f].Object? then m[f].fields else map[]
  }

  function Overlay(m1: Fields, m2: Fields, r: Rules): Fields
    decreases r
  {
    map f | f in m1.Keys + m2.Keys && (f in m1 || Sets(m2, r, f)) ::
      if Sets(m2, r, f) then
        if r.rules[f].Leaf? then m2[f]
        else Object(Overlay(SectionOf(m1, f), m2[f].fields, r.rules[f]))
      else m1[f]
  }

  /** Everything in the tree is named by the rules, and sections hold objects. */
  predicate Conforms(m: Fields, r: Rules)
    decreases r
  {
    forall f | f in m ::
      && f in r.rules
      && (r.rules[f].Section? ==> m[f].Object? && Conforms(m[f].fields, r.rules[f]))
  }

  // ---------- Filtering ----------

  lemma {:induction false} FilterConforms(m: Fields, r: Rules)
    ensures Conforms(Filter(m, r), r)
    decreases r
  {
    forall f | f in m && Sets(m, r, f) && r.rules[f].Section?
      ensures Conforms(Filter(m[f].fields, r.rules[f]), r.rules[f])
    {
      FilterConforms(m[f].fields, r.rules[f]);
    }
  }

  lemma {:induction false} ConformingFits(m: Fields, r: Rules)
    requires Conforms(m, r)
    ensures Fits(m, r)
    decreases r
  {
    forall f | f in r.rules && f in m && r.rules[f].Section? && m[f] != Null
      ensures m[f].Object? && Fits(m[f].fields, r.rules[f])
    {
      ConformingFits(m[f].fields, r.rules[f]);
    }
  }

  /** Filtering keeps a tree exactly when the tree conforms. */
  lemma {:induction false} FilterFixes(m: Fields, r: Rules)
    ensures Filter(m, r) == m <==> Conforms(m, r)
    decreases r
  {
    if Conforms(m, r) {
      forall f | f in m
        ensures f in Filter(m, r) && Filter(m, r)[f] == m[f]
      {
        if r.rules[f].Section? {
          FilterFixes(m[f].fields, r.rules[f]);
        }
      }
    } else {
      FilterConforms(m, r);
    }
  }

  lemma FilterIdempotent(m: Fields, r: Rules)
    ensures Fits(Filter(m, r), r)
    ensures Filter(Filter(m, r), r) == Filter(m, r)
  {
    FilterConforms(m, r);
    ConformingFits(Filter(m, r), r);
    FilterFixes(Filter(m, r), r);
  }

  /** `small` names only fields that `large` names, with the same kind at every depth. */
  predicate SubRules(small: Rules, large: Rules)
    decreases small
  {
    forall f | f in small.rules ::
      && f in large.rules
      && small.rules[f].Section? == large.rules[f].Section?
      && (small.rules[f].Section? ==> SubRules(small.rules[f], large.rules[f]))
  }

  lemma {:induction false} FilterTwice(m: Fields, small: Rules, large: Rules)
    requires SubRules(small, large)
    ensures Filter(Filter(m, large), small) == Filter(m, small)
    ensures Fits(m, large) ==> Fits(m, small)
    decreases large
  {
    var inner, outer := Filter(Filter(m, large), small), Filter(m, small);
    forall f | f in m && f in small.rules && small.rules[f].Section? && m[f].Object?
      ensures Filter(Filter(m[f].fields, large.rules[f]), small.rules[f]) == Filter(m[f].fields, small.rules[f])
      ensures Fits(m[f].fields, large.rules[f]) ==> Fits(m[f].fields, small.rules[f])
    {
      FilterTwice(m[f].fields, small.rules[f], large.rules[f]);
    }
    assert inner.Keys == outer.Keys;
  }

  // ---------- Merging ----------

  lemma {:induction false} OverlayOnNothing(m: Fields, r: Rules)
    ensures Overlay(map[], m, r) == Filter(m, r)
    decreases r
  {
    forall f | f in m && Sets(m, r, f) && r.rules[f].Section?
      ensures Overlay(map[], m[f].fields, r.rules[f]) == Filter(m[f].fields, r.rules[f])
    {
      OverlayOnNothing(m[f].fields, r.rules[f]);
    }
    assert Overlay(map[], m, r).Keys == Filter(m, r).Keys;
  }

  /** Merging a patch and merging what the filter leaves of it are the same. */
  lemma {:induction false} OverlayOfFiltered(s: Fields, p: Fields, r: Rules)
    ensures Overlay(s, Filter(p, r), r) == Overlay(s, p, r)
    decreases r
  {
    var q := Filter(p, r);
    forall f | f in p && Sets(p, r, f) && r.rules[f].Section?
      ensures Overlay(SectionOf(s, f), Filter(p[f].fields, r.rules[f]), r.rules[f]) ==
              Overlay(SectionOf(s, f), p[f].fields, r.rules[f])
    {
      OverlayOfFiltered(SectionOf(s, f), p[f].fields, r.rules[f]);
    }
    assert forall f :: Sets(q, r, f) <==> Sets(p, r, f);
    assert Overlay(s, q, r).Keys == Overlay(s, p, r).Keys;
  }

  lemma {:induction false} OverlayConforms(s: Fields, p: Fields, r: Rules)
    requires Conforms(s, r)
    ensures Conforms(Overlay(s, p, r), r)
    decreases r
  {
    forall f | Sets(p, r, f) && r.rules[f].Section?
      ensures Conforms(Overlay(SectionOf(s, f), p[f].fields, r.rules[f]), r.rules[f])
    {
      OverlayConforms(SectionOf(s, f), p[f].fields, r.rules[f]);
    }
  }

  /** Applying `p` and then `q` is applying the merge of `p` and `q` once. */
  lemma {:induction false} OverlayAssociative(s: Fields, p: Fields, q: Fields, r: Rules)
    requires Fits(p, r) && Fits(q, r)
    ensures Overlay(Overlay(s, p, r), q, r) == Overlay(s, Overlay(p, q, r), r)
    ensures Fits(Overlay(p, q, r), r)
    decreases r, 1
  {
    var left, right := Overlay(Overlay(s, p, r), q, r), Overlay(s, Overlay(p, q, r), r);
    forall f
      ensures f in left <==> f in right
      ensures f in left ==> left[f] == right[f]
    {
      if f in r.rules && r.rules[f].Section? && (Sets(p, r, f) || Sets(q, r, f)) {
        AssociativeAtSection(s, p, q, r, f);
      } else {
        AssociativeElsewhere(s, p, q, r, f);
      }
    }
    assert left == right;
    forall f | f in r.rules && f in Overlay(p, q, r) && r.rules[f].Section? && Overlay(p, q, r)[f] != Null
      ensures Overlay(p, q, r)[f].Object? && Fits(Overlay(p, q, r)[f].fields, r.rules[f])
    {
      SetsInMerge(p, q, r, f);
      AssociativeAtSection(s, p, q, r, f);
    }
  }

  lemma AssociativeElsewhere(s: Fields, p: Fields, q: Fields, r: Rules, f: string)
    requires !(f in r.rules && r.rules[f].Section? && (Sets(p, r, f) || Sets(q, r, f)))
    ensures f in Overlay(Overlay(s, p, r), q, r) <==> f in Overlay(s, Overlay(p, q, r), r)
    ensures f in Overlay(s, Overlay(p, q, r), r) ==>
            Overlay(Overlay(s, p, r), q, r)[f] == Overlay(s, Overlay(p, q, r), r)[f]
  {
  }

  lemma SetsInMerge(p: Fields, q: Fields, r: Rules, f: string)
    ensures Sets(Overlay(p, q, r), r, f) <==> Sets(p, r, f) || Sets(q, r, f)
  {
  }

  /** What a merge holds at a section: the merge of the sections if the patch has one. */
  lemma SectionInMerge(s: Fields, p: Fields, r: Rules, f: string)
    requires f in r.rules && r.rules[f].Section?
    ensures Sets(p, r, f) ==>
              && f in Overlay(s, p, r)
              && Overlay(s, p, r)[f] == Object(Overlay(SectionOf(s, f), p[f].fields, r.rules[f]))
    ensures !Sets(p, r, f) ==>
              && (f in Overlay(s, p, r) <==> f in s)
              && SectionOf(Overlay(s, p, r), f) == SectionOf(s, f)
              && (f in s ==> Overlay(s, p, r)[f] == s[f])
  {
  }

  lemma {:induction false} AssociativeAtSection(s: Fields, p: Fields, q: Fields, r: Rules, f: string)
    requires Fits(p, r) && Fits(q, r)
    requires f in r.rules && r.rules[f].Section?
    requires Sets(p, r, f) || Sets(q, r, f)
    ensures Sets(Overlay(p, q, r), r, f)
    ensures f in Overlay(Overlay(s, p, r), q, r) && f in Overlay(s, Overlay(p, q, r), r)
    ensures Overlay(Overlay(s, p, r), q, r)[f] == Overlay(s, Overlay(p, q, r), r)[f]
    ensures Fits(Overlay(p, q, r)[f].fields, r.rules[f])
    decreases r, 0
  {
    var rule: Rules := r.rules[f];
    var sp, pq := Overlay(s, p, r), Overlay(p, q, r);
    var sf := SectionOf(s, f);
    SetsInMerge(p, q, r, f);
    SectionInMerge(s, p, r, f);
    SectionInMerge(p, q, r, f);
    SectionInMerge(sp, q, r, f);
    SectionInMerge(s, pq, r, f);
    if !Sets(q, r, f) {
      assert Fits(p[f].fields, rule);
    } else if Sets(p, r, f) {
      assert Fits(p[f].fields, rule) && Fits(q[f].fields, rule);
      OverlayAssociative(sf, p[f].fields, q[f].fields, rule);
    } else {
      OverlayOnNothing(q[f].fields, rule);
      OverlayOfFiltered(sf, q[f].fields, rule);
      FilterIdempotent(q[f].fields, rule);
      assert SectionOf(p, f) == map[];
    }
  }

  lemma {:induction false} OverlayIdempotent(s: Fields, p: Fields, r: Rules)
    ensures Overlay(Overlay(s, p, r), p, r) == Overlay(s, p, r)
    decreases r
  {
    var once := Overlay(s, p, r);
    forall f | f in once && Sets(p, r, f) && r.rules[f].Section?
      ensures Overlay(SectionOf(once, f), p[f].fields, r.rules[f]) == once[f].fields
    {
      OverlayIdempotent(SectionOf(s, f), p[f].fields, r.rules[f]);
    }
    assert Overlay(once, p, r).Keys == once.Keys;
  }

  // ---------- Path by path ----------

  function Lookup(m: Fields, path: seq<string>): (v: seq<Json>)
    requires path != []
    ensures |v| <= 1
    decreases path
  {
    if path[0] !in m then []
    else if |path| == 1 then [m[path[0]]]
    else if m[path[0]].Object? then Lookup(m[path[0]].fields, path[1..])
    else []
  }

  /** `path` leads to a leaf of the rule tree. */
  predicate LeafPath(r: Rules, path: seq<string>)
    decreases path
  {
    && path != []
    && path[0] in r.rules
    && (if |path| == 1 then r.rules[path[0]].Leaf?
        else r.rules[path[0]].Section? && LeafPath(r.rules[path[0]], path[1..]))
  }

  /** At every leaf the rules name, the merge holds the patch's value if it has one, else the old one. */
  lemma {:induction false} OverlayByPath(s: Fields, p: Fields, r: Rules, path: seq<string>)
    requires Fits(p, r) && LeafPath(r, path)
    ensures Lookup(Overlay(s, p, r), path) ==
            if Lookup(p, path) != [] then Lookup(p, path) else Lookup(s, path)
    decreases path
  {
    var f := path[0];
    if |path| > 1 && Sets(p, r, f) {
      OverlayByPath(SectionOf(s, f), p[f].fields, r.rules[f], path[1..]);
      assert SectionOf(s, f) == map[] || (f in s && s[f] == Object(SectionOf(s, f)));
    }
  }

  /** What no rule names is left as it was. */
  lemma OverlayElsewhere(s: Fields, p: Fields, r: Rules, f: string)
    requires f !in r.rules
    ensures f in Overlay(s, p, r) <==> f in s
    ensures f in s ==> Overlay(s, p, r)[f] == s[f]
  {
  }

  /** A filtered tree holds the original's value at leaves the rules name and nothing else. */
  lemma {:induction false} FilterByPath(m: Fields, r: Rules, path: seq<string>)
    requires LeafPath(r, path)
    ensures Lookup(Filter(m, r), path) == Lookup(m, path)
    decreases path
  {
    var f := path[0];
    if |path| > 1 && Sets(m, r, f) {
      FilterByPath(m[f].fields, r.rules[f], path[1..]);
    }
  }

  /** `path` leads to a section of the rule tree. */
  predicate SectionPath(r: Rules, path: seq<string>)
    decreases path
  {
    && path != []
    && path[0] in r.rules && r.rules[path[0]].Section?
    && (|path| == 1 || SectionPath(r.rules[path[0]], path[1..]))
  }

  lemma {:induction false} FittingSection(m: Fields, r: Rules, path: seq<string>)
    requires Fits(m, r) && SectionPath(r, path) && Lookup(m, path) != []
    ensures !Lookup(m, path)[0].Atom?
    decreases path
  {
    if |path| > 1 {
      FittingSection(m[path[0]].fields, r.rules[path[0]], path[1..]);
    }
  }

  lemma {:induction false} MisfitSection(m: Fields, r: Rules) returns (path: seq<string>)
    requires !Fits(m, r)
    ensures SectionPath(r, path) && Lookup(m, path) != [] && Lookup(m, path)[0].Atom?
    decreases r
  {
    var f :| f in r.rules && f in m && r.rules[f].Section? && m[f] != Null
             && !(m[f].Object? && Fits(m[f].fields, r.rules[f]));
    if m[f].Object? {
      var rest := MisfitSection(m[f].fields, r.rules[f]);
      path := [f] + rest;
      assert path[1..] == rest;
    } else {
      path := [f];
    }
  }

  /** A tree fits the rules if and only if at no depth it has a plain value where they name a section. */
  lemma FitsByPath(m: Fields, r: Rules)
    ensures Fits(m, r) <==>
            forall path | SectionPath(r, path) && Lookup(m, path) != [] :: !Lookup(m, path)[0].Atom?
  {
    if Fits(m, r) {
      forall path | SectionPath(r, path) && Lookup(m, path) != [] ensures !Lookup(m, path)[0].Atom? {
        FittingSection(m, r, path);
      }
    } else {
      var path := MisfitSection(m, r);
    }
  }
}
