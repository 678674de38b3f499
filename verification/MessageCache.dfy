/** The cache in front of the table of messages, and why it may be trusted. */
module MessageCache {
  import opened Options
  import opened MessageModel
  import opened MessageCalls

  /** A message as it is shown: after a report, its recipients and history are those reported. */
  datatype View = View(ext: string, device: string, status: Status, hashed: bool, encrypted: bool, content: string,
                       recipients: seq<Recipient>, history: map<Status, int>)

  /** An entry without a view says that there is no such message. */
  type Cache = map<string, Option<View>>

  /** `queue` are the messages waiting for the hashing worker. */
  datatype World = World(store: Store, cache: Cache, queue: set<nat>)

  datatype Action =
    | Do(call: Call)
    | GetState(user: string, ext: string)
    | Process
    | Expire(key: string)

  datatype Result = Ok(view: View) | Err(error: Error) | Done

  function KeyOf(user: string, ext: string): string {
    user + ":" + ext
  }

  function ViewOf(m: Message): View {
    View(m.ext, m.device, m.status, m.hashed, m.encrypted, m.content, m.recipients, m.history)
  }

  ghost function Lookup(w: World, user: string, ext: string): (World, Result) {
    var key := KeyOf(user, ext);
    if key in w.cache then (w, if w.cache[key].None? then Err(NotFound) else Ok(w.cache[key].value))
    else
      var error := FindError(w.store.rows, ext, user, "");
      if error == NotFound then (w.(cache := w.cache[key := None]), Err(NotFound))
      else if error != NoError then (w, Err(error))
      else
        var view := ViewOf(w.store.rows[Find(w.store.rows, ext, user, "")]);
        (w.(cache := w.cache[key := Some(view)]), Ok(view))
  }

  ghost function Act(env: Env, w: World, action: Action): (World, Result) {
    match action
    case Do(call) =>
      var error := CallError(env, w.store, call);
      if error != NoError then (w, Err(error)) else Success(env, w, call)
    case GetState(user, ext) => Lookup(w, user, ext)
    case Process =>
      if w.queue == {} then (w, Done)
      else (w.(store := Step(env, w.store, Hash(w.queue)), queue := {}), Done)
    case Expire(key) => (w.(cache := w.cache - {key}), Done)
  }

  ghost function Success(env: Env, w: World, call: Call): (World, Result)
    requires CallError(env, w.store, call) == NoError
  {
    var store := Step(env, w.store, call);
    match call
    case Enqueue(device, _, _, _, _, _, _, _) =>
      var view := ViewOf(store.rows[w.store.next]);
      (w.(store := store, cache := w.cache[KeyOf(env.owner(device), ExtOf(call)) := Some(view)]), Ok(view))
    case Report(device, ext, status, states, reports) =>
      var id := Find(w.store.rows, ext, "", device);
      var m := w.store.rows[id];
      var view := ViewOf(m.(status := Demote(status), history := states,
                            recipients := AllReported(env, m.hashed, reports)));
      (w.(store := store, cache := w.cache[KeyOf(env.owner(device), m.ext) := Some(view)], queue := w.queue + {id}),
       Done)
    case Cancel(user, ext) =>
      Lookup(w.(store := store, cache := w.cache - {KeyOf(user, ext)}), user, ext)
    case _ => (w.(store := store), Done)
  }

  // ---------- The cache tells the truth ----------

  /** Names that can be told apart in a key, and are not mistaken for "any". */
  predicate Plain(user: string) {
    user != "" && ':' !in user
  }

  lemma LongerUserDiffers(user: string, ext: string, longer: string, other: string)
    requires |user| < |longer| && ':' !in longer
    ensures KeyOf(user, ext) != KeyOf(longer, other)
  {
    assert KeyOf(user, ext)[|user|] == ':';
    assert KeyOf(longer, other)[|user|] == longer[|user|];
  }

  /** Two messages share an entry only if they are the same message of the same user. */
  lemma KeysApart(user: string, ext: string, user': string, ext': string)
    requires ':' !in user && ':' !in user'
    ensures KeyOf(user, ext) == KeyOf(user', ext') <==> user == user' && ext == ext'
  {
    if |user| < |user'| {
      LongerUserDiffers(user, ext, user', ext');
    } else if |user'| < |user| {
      LongerUserDiffers(user', ext', user, ext);
    } else {
      assert KeyOf(user, ext)[..|user|] == user && KeyOf(user, ext)[|user| + 1..] == ext;
      assert KeyOf(user', ext')[..|user|] == user' && KeyOf(user', ext')[|user| + 1..] == ext';
    }
  }

  predicate Is(m: Message, user: string, ext: string) {
    m.user == user && m.ext == ext
  }

  /** An entry agrees with the table on whether there is a message, on its state and its device. */
  ghost predicate Agrees(rows: map<nat, Message>, user: string, ext: string, entry: Option<View>) {
    if entry.None? then forall id | id in rows :: !Is(rows[id], user, ext)
    else exists id | id in rows && Is(rows[id], user, ext) ::
           rows[id].status == entry.value.status && rows[id].device == entry.value.device
  }

  ghost predicate RowsOk(env: Env, s: Store) {
    && (forall id | id in s.rows :: && id < s.next && s.rows[id].user == env.owner(s.rows[id].device)
                                    && Plain(s.rows[id].user) && s.rows[id].ext != "" && s.rows[id].device != "")
    && (forall x, y | x in s.rows && y in s.rows && Is(s.rows[x], s.rows[y].user, s.rows[y].ext) :: x == y)
  }

  ghost predicate CacheOk(w: World) {
    forall user, ext | Plain(user) && ext != "" && KeyOf(user, ext) in w.cache ::
      Agrees(w.store.rows, user, ext, w.cache[KeyOf(user, ext)])
  }

  ghost predicate Inv(env: Env, w: World) {
    RowsOk(env, w.store) && CacheOk(w)
  }

  /** A user has a message id on one device only, devices and users have names, and no message is
      deleted. */
  ghost predicate Proper(env: Env, s: Store, action: Action) {
    match action
    case Do(Enqueue(device, ext, newId, numbers, content, encrypted, skipCheck, now)) =>
      var id := if ext == "" then newId else ext;
      && id != "" && device != "" && Plain(env.owner(device))
      && forall x | x in s.rows && Is(s.rows[x], env.owner(device), id) :: s.rows[x].device == device
    case Do(Cancel(user, ext)) => Plain(user) && ext != ""
    case Do(Report(device, _, _, _, _)) => device != ""
    case Do(Hash(_)) => true
    case Do(Cleanup(_)) => false
    case GetState(user, ext) => Plain(user) && ext != ""
    case Process => true
    case Expire(_) => true
  }

  lemma FindIs(s: Store, user: string, ext: string)
    requires user != "" && ext != ""
    ensures FindError(s.rows, ext, user, "") == NotFound <==> forall id | id in s.rows :: !Is(s.rows[id], user, ext)
    ensures forall id | id in s.rows && Is(s.rows[id], user, ext) :: id in Selected(s.rows, ext, user, "")
  {
    var ids := Selected(s.rows, ext, user, "");
    if ids == {} {
      forall id | id in s.rows ensures !Is(s.rows[id], user, ext) {
        assert id !in ids;
      }
    } else {
      var id :| id in ids;
      assert Is(s.rows[id], user, ext);
      assert |ids - {id}| == |ids| - 1;
    }
  }

  lemma AtMostOne(env: Env, s: Store, user: string, ext: string)
    requires RowsOk(env, s) && user != "" && ext != ""
    ensures FindError(s.rows, ext, user, "") != MultipleFound
  {
    var ids := Selected(s.rows, ext, user, "");
    if |ids| > 1 {
      var x :| x in ids;
      assert |ids - {x}| > 0;
      var y :| y in ids - {x};
      assert Is(s.rows[x], s.rows[y].user, s.rows[y].ext);
    }
  }

  lemma LookupKeeps(env: Env, w: World, user: string, ext: string)
    requires Inv(env, w) && Plain(user) && ext != ""
    ensures Inv(env, Lookup(w, user, ext).0)
  {
    FindIs(w.store, user, ext);
    forall u, e | Plain(u) && e != "" && KeyOf(u, e) == KeyOf(user, ext) ensures u == user && e == ext {
      KeysApart(u, e, user, ext);
    }
  }

  /** What a step may do to the rows of other messages without the cache noticing. */
  ghost predicate SameFor(rows: map<nat, Message>, rows': map<nat, Message>, user: string, ext: string) {
    && (forall id | id in rows && Is(rows[id], user, ext) ::
          && id in rows' && Is(rows'[id], user, ext)
          && rows'[id].status == rows[id].status && rows'[id].device == rows[id].device)
    && (forall id | id in rows' && Is(rows'[id], user, ext) :: id in rows && Is(rows[id], user, ext))
  }

  lemma AgreesStill(rows: map<nat, Message>, rows': map<nat, Message>, user: string, ext: string, entry: Option<View>)
    requires Agrees(rows, user, ext, entry) && SameFor(rows, rows', user, ext)
    ensures Agrees(rows', user, ext, entry)
  {
    if entry.Some? {
      var id :| && id in rows && Is(rows[id], user, ext)
                && rows[id].status == entry.value.status && rows[id].device == entry.value.device;
      assert id in rows' && Is(rows'[id], user, ext);
    }
  }

  /** A step that touches one message, and puts what it did in that message's entry or takes the
      entry out. */
  lemma OneTouched(env: Env, w: World, w': World, user: string, ext: string)
    requires Inv(env, w) && RowsOk(env, w'.store) && Plain(user) && ext != ""
    requires forall u, e | Plain(u) && e != "" && (u != user || e != ext) :: SameFor(w.store.rows, w'.store.rows, u, e)
    requires w'.cache - {KeyOf(user, ext)} == w.cache - {KeyOf(user, ext)}
    requires KeyOf(user, ext) in w'.cache ==> Agrees(w'.store.rows, user, ext, w'.cache[KeyOf(user, ext)])
    ensures Inv(env, w')
  {
    var key := KeyOf(user, ext);
    forall u, e | Plain(u) && e != "" && KeyOf(u, e) in w'.cache
      ensures Agrees(w'.store.rows, u, e, w'.cache[KeyOf(u, e)])
    {
      if u != user || e != ext {
        if KeyOf(u, e) == key {
          KeysApart(u, e, user, ext);
        }
        assert KeyOf(u, e) in w'.cache - {key};
        assert w'.cache[KeyOf(u, e)] == (w'.cache - {key})[KeyOf(u, e)];
        AgreesStill(w.store.rows, w'.store.rows, u, e, w.cache[KeyOf(u, e)]);
      }
    }
  }

  lemma EnqueueRows(env: Env, s: Store, m: Message)
    requires RowsOk(env, s) && m.user == env.owner(m.device) && Plain(m.user) && m.ext != "" && m.device != ""
    requires forall x | x in s.rows :: !Is(s.rows[x], m.user, m.ext)
    ensures RowsOk(env, Insert(s, m))
    ensures forall u, e | u != m.user || e != m.ext :: SameFor(s.rows, Insert(s, m).rows, u, e)
  {
  }

  lemma EnqueueKeeps(env: Env, w: World, call: Call)
    requires Inv(env, w) && call.Enqueue? && Proper(env, w.store, Do(call)) && CallError(env, w.store, call) == NoError
    ensures Inv(env, Act(env, w, Do(call)).0)
  {
    var w' := Act(env, w, Do(call)).0;
    var user, ext, id := env.owner(call.device), ExtOf(call), w.store.next;
    forall x | x in w.store.rows ensures !Is(w.store.rows[x], user, ext) {
      assert !(w.store.rows[x].ext == ext && w.store.rows[x].device == call.device);
    }
    EnqueueRows(env, w.store, w'.store.rows[id]);
    assert w'.store == Insert(w.store, w'.store.rows[id]);
    assert Is(w'.store.rows[id], user, ext);
    OneTouched(env, w, w', user, ext);
  }

  lemma ReportRows(env: Env, w: World, call: Call)
    requires RowsOk(env, w.store) && call.Report? && CallError(env, w.store, call) == NoError
    ensures var s', m := Step(env, w.store, call), w.store.rows[Find(w.store.rows, call.ext, "", call.device)];
            && RowsOk(env, s')
            && forall u, e | u != m.user || e != m.ext :: SameFor(w.store.rows, s'.rows, u, e)
  {
    RowsStayOk(env, w.store, Step(env, w.store, call));
  }

  lemma ReportEntry(env: Env, w: World, call: Call)
    requires RowsOk(env, w.store) && call.Report? && call.device != "" && CallError(env, w.store, call) == NoError
    ensures var w', m := Act(env, w, Do(call)).0, w.store.rows[Find(w.store.rows, call.ext, "", call.device)];
            && w'.store == Step(env, w.store, call) && KeyOf(m.user, m.ext) in w'.cache
            && w'.cache == w.cache[KeyOf(m.user, m.ext) := w'.cache[KeyOf(m.user, m.ext)]]
            && Agrees(w'.store.rows, m.user, m.ext, w'.cache[KeyOf(m.user, m.ext)])
  {
    var id := Find(w.store.rows, call.ext, "", call.device);
    var m := w.store.rows[id];
    assert Is(Act(env, w, Do(call)).0.store.rows[id], m.user, m.ext);
  }

  lemma ReportKeeps(env: Env, w: World, call: Call)
    requires Inv(env, w) && call.Report? && Proper(env, w.store, Do(call)) && CallError(env, w.store, call) == NoError
    ensures Inv(env, Act(env, w, Do(call)).0)
  {
    var m := w.store.rows[Find(w.store.rows, call.ext, "", call.device)];
    ReportRows(env, w, call);
    ReportEntry(env, w, call);
    OneTouched(env, w, Act(env, w, Do(call)).0, m.user, m.ext);
  }

  lemma CancelRowsOk(env: Env, s: Store, user: string, ext: string)
    requires RowsOk(env, s)
    ensures RowsOk(env, s.(rows := CancelRows(s.rows, user, ext)))
    ensures forall u, e | u != user || e != ext :: SameFor(s.rows, CancelRows(s.rows, user, ext), u, e)
  {
    RowsStayOk(env, s, s.(rows := CancelRows(s.rows, user, ext)));
  }

  lemma CancelKeeps(env: Env, w: World, call: Call)
    requires Inv(env, w) && call.Cancel? && Proper(env, w.store, Do(call)) && CallError(env, w.store, call) == NoError
    ensures Inv(env, Act(env, w, Do(call)).0)
  {
    var w1 := w.(store := w.store.(rows := CancelRows(w.store.rows, call.user, call.ext)),
                 cache := w.cache - {KeyOf(call.user, call.ext)});
    CancelRowsOk(env, w.store, call.user, call.ext);
    OneTouched(env, w, w1, call.user, call.ext);
    LookupKeeps(env, w1, call.user, call.ext);
    assert Act(env, w, Do(call)).0 == Lookup(w1, call.user, call.ext).0;
  }

  /** Hashing and the going of entries. */
  lemma QuietKeeps(env: Env, w: World, w': World)
    requires Inv(env, w) && RowsOk(env, w'.store) && w'.cache.Keys <= w.cache.Keys
    requires forall key | key in w'.cache :: w'.cache[key] == w.cache[key]
    requires forall user, ext :: SameFor(w.store.rows, w'.store.rows, user, ext)
    ensures Inv(env, w')
  {
    forall u, e | Plain(u) && e != "" && KeyOf(u, e) in w'.cache
      ensures Agrees(w'.store.rows, u, e, w'.cache[KeyOf(u, e)])
    {
      AgreesStill(w.store.rows, w'.store.rows, u, e, w.cache[KeyOf(u, e)]);
    }
  }

  /** Calls that leave every message on its device, with its id and its user. */
  lemma RowsStayOk(env: Env, s: Store, s': Store)
    requires RowsOk(env, s) && s'.next == s.next && s'.rows.Keys == s.rows.Keys
    requires forall id | id in s.rows ::
               && s'.rows[id].user == s.rows[id].user && s'.rows[id].ext == s.rows[id].ext
               && s'.rows[id].device == s.rows[id].device
    ensures RowsOk(env, s')
  {
    forall x, y | x in s'.rows && y in s'.rows && Is(s'.rows[x], s'.rows[y].user, s'.rows[y].ext) ensures x == y {
      assert Is(s.rows[x], s.rows[y].user, s.rows[y].ext);
    }
  }

  lemma HashKeeps(env: Env, w: World, ids: set<nat>, queue: set<nat>)
    requires Inv(env, w)
    ensures Inv(env, w.(store := Step(env, w.store, Hash(ids)), queue := queue))
  {
    var w' := w.(store := Step(env, w.store, Hash(ids)), queue := queue);
    RowsStayOk(env, w.store, w'.store);
    forall user, ext ensures SameFor(w.store.rows, w'.store.rows, user, ext) {
    }
    QuietKeeps(env, w, w');
  }

  lemma ExpireKeeps(env: Env, w: World, key: string)
    requires Inv(env, w)
    ensures Inv(env, w.(cache := w.cache - {key}))
  {
    QuietKeeps(env, w, w.(cache := w.cache - {key}));
  }

  lemma ActKeeps(env: Env, w: World, action: Action)
    requires Inv(env, w) && Proper(env, w.store, action)
    ensures Inv(env, Act(env, w, action).0)
  {
    match action
    case Do(call) =>
      if CallError(env, w.store, call) == NoError {
        match call {
          case Enqueue(_, _, _, _, _, _, _, _) => EnqueueKeeps(env, w, call);
          case Report(_, _, _, _, _) => ReportKeeps(env, w, call);
          case Cancel(_, _) => CancelKeeps(env, w, call);
          case Hash(ids) => HashKeeps(env, w, ids, w.queue);
        }
      }
    case GetState(user, ext) => LookupKeeps(env, w, user, ext);
    case Process => HashKeeps(env, w, w.queue, {});
    case Expire(key) => ExpireKeeps(env, w, key);
  }

  ghost predicate ProperRun(env: Env, w: World, actions: seq<Action>)
    decreases |actions|
  {
    actions == [] || (Proper(env, w.store, actions[0]) && ProperRun(env, Act(env, w, actions[0]).0, actions[1..]))
  }

  ghost function Run(env: Env, w: World, actions: seq<Action>): World
    decreases |actions|
  {
    if actions == [] then w else Run(env, Act(env, w, actions[0]).0, actions[1..])
  }

  lemma {:induction false} RunKeeps(env: Env, w: World, actions: seq<Action>)
    requires Inv(env, w) && ProperRun(env, w, actions)
    ensures Inv(env, Run(env, w, actions))
    decreases |actions|
  {
    if actions == [] {
    } else {
      ActKeeps(env, w, actions[0]);
      RunKeeps(env, Act(env, w, actions[0]).0, actions[1..]);
    }
  }

  /** Cached or not, a read says "not found" exactly when there is no such message, and otherwise
      gives the state and the device the table has. */
  lemma ReadTellsTheTruth(env: Env, actions: seq<Action>, user: string, ext: string)
    requires ProperRun(env, World(Store(map[], 0), map[], {}), actions) && Plain(user) && ext != ""
    ensures var w := Run(env, World(Store(map[], 0), map[], {}), actions);
            var read := Act(env, w, GetState(user, ext)).1;
            && (read == Err(NotFound) <==> forall id | id in w.store.rows :: !Is(w.store.rows[id], user, ext))
            && (read != Err(NotFound) ==> read.Ok?)
            && (forall id | id in w.store.rows && Is(w.store.rows[id], user, ext) ::
                  && read.Ok? && read.view.status == w.store.rows[id].status
                  && read.view.device == w.store.rows[id].device)
  {
    RunKeeps(env, World(Store(map[], 0), map[], {}), actions);
    var w := Run(env, World(Store(map[], 0), map[], {}), actions);
    FindIs(w.store, user, ext);
    AtMostOne(env, w.store, user, ext);
    if KeyOf(user, ext) in w.cache {
      assert Agrees(w.store.rows, user, ext, w.cache[KeyOf(user, ext)]);
    }
  }

  // ---------- What is read, cached and queued ----------

  /** The view shows the row, field by field. */
  predicate Shows(view: View, m: Message) {
    && view.ext == m.ext && view.device == m.device && view.status == m.status && view.hashed == m.hashed
    && view.encrypted == m.encrypted && view.content == m.content
    && view.recipients == m.recipients && view.history == m.history
  }

  /** A read that finds an entry answers with it.  One that does not answers with the one message of that id and
      user, and leaves it in the cache; if there is none, it leaves a note of that; if there are several, neither. */
  lemma ReadAnswers(env: Env, w: World, user: string, ext: string)
    requires user != "" && ext != ""
    ensures var (w', read), key := Act(env, w, GetState(user, ext)), KeyOf(user, ext);
            && w' == w.(cache := w'.cache)
            && if key in w.cache then w' == w && read == if w.cache[key].Some? then Ok(w.cache[key].value)
                                                         else Err(NotFound)
               else if exists x, y | x in w.store.rows && y in w.store.rows && x != y ::
                    Is(w.store.rows[x], user, ext) && Is(w.store.rows[y], user, ext)
               then w' == w && read == Err(MultipleFound)
               else if forall id | id in w.store.rows :: !Is(w.store.rows[id], user, ext)
               then w'.cache == w.cache[key := None] && read == Err(NotFound)
               else read.Ok? && w'.cache == w.cache[key := Some(read.view)]
                    && exists id | id in w.store.rows && Is(w.store.rows[id], user, ext) ::
                         Shows(read.view, w.store.rows[id])
  {
    OneSelected(w.store.rows, ext, user, "");
    if KeyOf(user, ext) !in w.cache && FindError(w.store.rows, ext, user, "") == NoError {
      var id := Find(w.store.rows, ext, user, "");
      assert Is(w.store.rows[id], user, ext) && Shows(Act(env, w, GetState(user, ext)).1.view, w.store.rows[id]);
    }
  }

  /** Once an entry has gone, the next read shows the message as the table then has it, every field of it. */
  lemma ExpiredReadsRow(env: Env, w: World, user: string, ext: string, id: nat)
    requires user != "" && ext != "" && id in w.store.rows && Is(w.store.rows[id], user, ext)
    requires forall x | x in w.store.rows && Is(w.store.rows[x], user, ext) :: x == id
    ensures var w1 := Act(env, w, Expire(KeyOf(user, ext))).0;
            var read := Act(env, w1, GetState(user, ext)).1;
            w1 == w.(cache := w1.cache) && read.Ok? && Shows(read.view, w.store.rows[id])
  {
    ReadAnswers(env, Act(env, w, Expire(KeyOf(user, ext))).0, user, ext);
  }

  /** A message enqueued is answered, and cached for its owner, as it is stored. */
  lemma EnqueueCaches(env: Env, w: World, call: Call)
    requires call.Enqueue? && CallError(env, w.store, call) == NoError
    ensures var (w', res) := Act(env, w, Do(call));
            && w'.store == Step(env, w.store, call) && w'.queue == w.queue
            && w.store.next in w'.store.rows && res.Ok? && Shows(res.view, w'.store.rows[w.store.next])
            && w'.cache == w.cache[KeyOf(env.owner(call.device), res.view.ext) := Some(res.view)]
  {
    EnqueueStores(env, w.store, call);
  }

  /** After a report the entry of the message has the new state, and the recipients and times just as they were
      reported, plus sign and hash included; the message is queued for hashing. */
  lemma ReportCaches(env: Env, w: World, call: Call, id: nat)
    requires call.Report? && call.ext != "" && call.device != "" && CallError(env, w.store, call) == NoError
    requires id in w.store.rows && w.store.rows[id].ext == call.ext && w.store.rows[id].device == call.device
    ensures var (w', res), m, key := Act(env, w, Do(call)), w.store.rows[id], KeyOf(env.owner(call.device), call.ext);
            && w'.store == Step(env, w.store, call) && w'.queue == w.queue + {id} && res == Done
            && key in w'.cache && w'.cache[key].Some? && w'.cache == w.cache[key := w'.cache[key]]
            && var view := w'.cache[key].value;
               && Shows(view, m.(status := view.status, recipients := view.recipients, history := view.history))
               && view.status == (if call.status == Pending then Processed else call.status)
               && view.history == call.states && |view.recipients| == |call.reports|
               && forall i | 0 <= i < |call.reports| ::
                    var status := call.reports[i].status;
                    view.recipients[i] == Recipient(Meant(env, m.hashed, call.reports[i].number),
                                                    if status == Pending then Processed else status,
                                                    call.reports[i].error)
  {
  }

  /** A cancellation that goes through answers with the message as it is then, and caches that. */
  lemma CancelCaches(env: Env, w: World, user: string, ext: string, id: nat)
    requires user != "" && ext != "" && CallError(env, w.store, Cancel(user, ext)) == NoError
    requires id in w.store.rows && Is(w.store.rows[id], user, ext)
    ensures var (w', res) := Act(env, w, Do(Cancel(user, ext)));
            && w'.store == Step(env, w.store, Cancel(user, ext)) && w'.queue == w.queue
            && res.Ok? && Shows(res.view, w.store.rows[id].(status := Cancelling))
            && w'.cache == w.cache[KeyOf(user, ext) := Some(res.view)]
  {
    CancelAnswers(env, w.store, user, ext);
    var store := Step(env, w.store, Cancel(user, ext));
    assert Matches(store.rows[id], ext, user, "") && store.rows[id] == w.store.rows[id].(status := Cancelling);
    OneSelected(store.rows, ext, user, "");
    assert Find(store.rows, ext, user, "") == id;
  }

  /** The worker hashes what is queued and no other message, even if nothing is queued. */
  lemma ProcessHashesQueued(env: Env, w: World, id: nat)
    requires id in w.store.rows
    ensures var w' := Act(env, w, Process).0;
            && w' == w.(store := w'.store, queue := {}) && id in w'.store.rows
            && (id !in w.queue ==> w'.store.rows[id] == w.store.rows[id])
            && (id in w.queue ==> w'.store.rows[id] == Step(env, w.store, Hash({id})).rows[id])
  {
  }
}
