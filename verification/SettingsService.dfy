/** Stored settings of every user, changed by PUT and PATCH and read in full or publicly. */
module SettingsService {
  import opened SettingsSpec
  import opened SettingsTree
  import SettingsRules

  type Rows = map<string, Fields>

  function Stored(rows: Rows, user: string): Fields {
    if user in rows then rows[user] else map[]
  }

  /** A request to change one user's settings; one that does not fit the rules changes nothing. */
  datatype Op = Patch(user: string, settings: Fields) | Put(user: string, settings: Fields)

  function Step(r: Rules, rows: Rows, op: Op): Rows {
    if !Fits(op.settings, r) then rows
    else match op
      case Patch(user, p) => rows[user := Overlay(Stored(rows, user), Filter(p, r), r)]
      case Put(user, p) => rows[user := Filter(p, r)]
  }

  function Run(r: Rules, rows: Rows, ops: seq<Op>): Rows
    decreases |ops|
  {
    if ops == [] then rows else Run(r, Step(r, rows, ops[0]), ops[1..])
  }

  ghost predicate AllConform(r: Rules, rows: Rows) {
    forall user | user in rows :: Conforms(rows[user], r)
  }

  lemma StepConforms(r: Rules, rows: Rows, op: Op)
    requires AllConform(r, rows)
    ensures AllConform(r, Step(r, rows, op))
  {
    FilterConforms(op.settings, r);
    OverlayConforms(Stored(rows, op.user), Filter(op.settings, r), r);
  }

  /** Whatever was asked, what is stored conforms to the rules. */
  lemma {:induction false} RunConforms(r: Rules, rows: Rows, ops: seq<Op>)
    requires AllConform(r, rows)
    ensures AllConform(r, Run(r, rows, ops))
    decreases |ops|
  {
    if ops == [] {
    } else {
      StepConforms(r, rows, ops[0]);
      RunConforms(r, Step(r, rows, ops[0]), ops[1..]);
    }
  }

  // ---------- A whole history is one request ----------

  /** What some history of requests amounts to for one user. */
  datatype Effect = Untouched | Merging(patch: Fields) | Replacing(tree: Fields)

  function EffectOf(r: Rules, op: Op, user: string): Effect {
    if op.user != user || !Fits(op.settings, r) then Untouched
    else if op.Patch? then Merging(Filter(op.settings, r))
    else Replacing(Filter(op.settings, r))
  }

  /** `first` and then `second`: a patch on a patch is their merge. */
  function Then(r: Rules, first: Effect, second: Effect): Effect {
    match second
    case Untouched => first
    case Replacing(_) => second
    case Merging(q) =>
      match first
      case Untouched => second
      case Merging(p) => Merging(Overlay(p, q, r))
      case Replacing(t) => Replacing(Overlay(t, q, r))
  }

  /** The requests of a history composed from the last to the first, whatever is stored. */
  function Summary(r: Rules, ops: seq<Op>, user: string): Effect
    decreases |ops|
  {
    if ops == [] then Untouched else Then(r, EffectOf(r, ops[0], user), Summary(r, ops[1..], user))
  }

  function Apply(r: Rules, e: Effect, stored: Fields): Fields {
    match e
    case Untouched => stored
    case Merging(p) => Overlay(stored, p, r)
    case Replacing(t) => t
  }

  ghost predicate Clean(r: Rules, e: Effect) {
    && (e.Merging? ==> Conforms(e.patch, r))
    && (e.Replacing? ==> Conforms(e.tree, r))
  }

  lemma ThenApplies(r: Rules, first: Effect, second: Effect, stored: Fields)
    requires Clean(r, first) && Clean(r, second)
    ensures Clean(r, Then(r, first, second))
    ensures Apply(r, Then(r, first, second), stored) == Apply(r, second, Apply(r, first, stored))
  {
    if second.Merging? && !first.Untouched? {
      ConformingFits(second.patch, r);
      if first.Merging? {
        ConformingFits(first.patch, r);
        OverlayAssociative(stored, first.patch, second.patch, r);
        OverlayConforms(first.patch, second.patch, r);
      } else {
        OverlayConforms(first.tree, second.patch, r);
      }
    }
  }

  /** However long the history, one request does the same: a PATCH with the merge of the patches,
      or a PUT of the last replacement with the later patches merged in. */
  lemma {:induction false} HistoryIsOneRequest(r: Rules, rows: Rows, ops: seq<Op>, user: string)
    ensures Clean(r, Summary(r, ops, user))
    ensures Stored(Run(r, rows, ops), user) == Apply(r, Summary(r, ops, user), Stored(rows, user))
    decreases |ops|
  {
    if ops == [] {
    } else {
      var op := ops[0];
      FilterConforms(op.settings, r);
      HistoryIsOneRequest(r, Step(r, rows, op), ops[1..], user);
      ThenApplies(r, EffectOf(r, op, user), Summary(r, ops[1..], user), Stored(rows, user));
    }
  }

  // ---------- Leaf by leaf ----------

  /** What the requests of a history leave at one leaf of one user: a replacement sets it to what it holds there, if
      anything; a patch only if it holds something there; one that does not fit the rules, or is another user's,
      does nothing. */
  function LeafAfter(r: Rules, ops: seq<Op>, user: string, path: seq<string>, before: seq<Json>): seq<Json>
    requires path != []
    decreases |ops|
  {
    if ops == [] then before
    else
      var op := ops[0];
      var after :=
        if op.user != user || !Fits(op.settings, r) then before
        else if op.Put? || Lookup(op.settings, path) != [] then Lookup(op.settings, path)
        else before;
      LeafAfter(r, ops[1..], user, path, after)
  }

  /** So it is stored, after any history, at every leaf the rules name. */
  lemma {:induction false} LeafIsStored(r: Rules, rows: Rows, ops: seq<Op>, user: string, path: seq<string>)
    requires LeafPath(r, path)
    ensures Lookup(Stored(Run(r, rows, ops), user), path) ==
            LeafAfter(r, ops, user, path, Lookup(Stored(rows, user), path))
    decreases |ops|
  {
    if ops == [] {
    } else {
      var op := ops[0];
      FilterIdempotent(op.settings, r);
      FilterByPath(op.settings, r, path);
      OverlayByPath(Stored(rows, user), Filter(op.settings, r), r, path);
      LeafIsStored(r, Step(r, rows, op), ops[1..], user, path);
    }
  }

  // ---------- The public view ----------

  /** The public view of stored settings always exists and shows each public leaf as stored. */
  lemma PublicView(r: Rules, public: Rules, stored: Fields, path: seq<string>)
    requires SubRules(public, r) && Conforms(stored, r)
    ensures Fits(stored, public)
    ensures LeafPath(public, path) ==> Lookup(Filter(stored, public), path) == Lookup(stored, path)
  {
    ConformingFits(stored, r);
    FilterTwice(stored, public, r);
    if LeafPath(public, path) {
      FilterByPath(stored, public, path);
    }
  }

  /** A leaf that the public rules of a section do not name is never shown. */
  lemma HiddenLeaf(public: Rules, stored: Fields, section: string, leaf: string)
    requires section in public.rules && public.rules[section].Section?
    requires leaf !in public.rules[section].rules
    ensures Lookup(Filter(stored, public), [section, leaf]) == []
  {
    var shown := Filter(stored, public);
    if section in shown {
      assert shown[section] == Object(Filter(stored[section].fields, public.rules[section]));
      assert leaf !in shown[section].fields;
      assert Lookup(shown[section].fields, [leaf]) == [];
      assert [section, leaf][1..] == [leaf];
    }
  }

  class Service {
    const rules: Rules
    const rulesPublic: Rules
    var rows: Rows

    ghost predicate Valid()
      reads this
    {
      SubRules(rulesPublic, rules) && AllConform(rules, rows)
    }

    constructor ()
      ensures Valid() && rows == map[]
      ensures rules == SettingsRules.RULES && rulesPublic == SettingsRules.RULES_PUBLIC
    {
      SettingsRules.PublicRulesAreRules();
      rules := SettingsRules.RULES;
      rulesPublic := SettingsRules.RULES_PUBLIC;
      rows := map[];
    }

    method GetSettings(user: string, public: bool) returns (res: Result)
      requires Valid()
      ensures res == Ok(if public then Filter(Stored(rows, user), rulesPublic) else Stored(rows, user))
    {
      var settings := Stored(rows, user);
      if !public {
        return Ok(settings);
      }
      res := ShowPublic(settings);
    }

    method ShowPublic(stored: Fields) returns (res: Result)
      requires SubRules(rulesPublic, rules) && Conforms(stored, rules)
      ensures res == Ok(Filter(stored, rulesPublic))
    {
      PublicView(rules, rulesPublic, stored, []);
      res := FilterMap(stored, rulesPublic);
    }

    method UpdateSettings(user: string, settings: Fields) returns (res: Result)
      requires Valid()
      modifies this
      ensures Valid() && rows == Step(rules, old(rows), Patch(user, settings))
      ensures res.Ok? <==> Fits(settings, rules)
      ensures res.Ok? ==> res.fields == Filter(Stored(rows, user), rulesPublic)
    {
      StepConforms(rules, rows, Patch(user, settings));
      res := FilterMap(settings, rules);
      if res.Ok? {
        FilterIdempotent(settings, rules);
        var updated := MergeRow(user, res.fields);
        assert rows == Step(rules, old(rows), Patch(user, settings)) && Stored(rows, user) == updated;
        res := ShowPublic(updated);
      }
    }

    /** The repository's transaction: read the row, merge the patch into it in place, write it back. */
    method MergeRow(user: string, patch: Fields) returns (updated: Fields)
      requires Fits(patch, rules)
      modifies this
      ensures updated == Overlay(Stored(old(rows), user), patch, rules)
      ensures rows == old(rows)[user := updated]
    {
      var arena := new Arena();
      ghost var source := Stored(rows, user);
      var row := arena.Decode(Object(Stored(rows, user)));
      ghost var h := arena.store;
      var change := arena.Decode(Object(patch));
      Framed(h, arena.store, row, Object(source));
      FootBounded(h, row, Object(source));
      var status := arena.AppendMap(row.addr, change.addr, rules, source, patch);
      var merged := arena.Encode(row, Object(Overlay(source, patch, rules)));
      updated := merged.fields;
      rows := rows[user := updated];
    }

    method ReplaceSettings(user: string, settings: Fields) returns (res: Result)
      requires Valid()
      modifies this
      ensures Valid() && rows == Step(rules, old(rows), Put(user, settings))
      ensures res.Ok? <==> Fits(settings, rules)
      ensures res.Ok? ==> res.fields == Filter(Stored(rows, user), rulesPublic)
    {
      StepConforms(rules, rows, Put(user, settings));
      res := FilterMap(settings, rules);
      if res.Ok? {
        rows := rows[user := res.fields];
        assert rows == Step(rules, old(rows), Put(user, settings)) && Stored(rows, user) == res.fields;
        res := ShowPublic(res.fields);
      }
    }
  }
}
