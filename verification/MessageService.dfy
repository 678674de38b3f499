/** The repository, the hashing worker and the service of messages, as they change the tables. */
module MessageService {
  import opened Options
  import opened MessageModel
  import opened MessageCalls
  import opened MessageCache

  lemma HistoryWith(history: map<Status, int>, states: map<Status, int>, left: set<Status>, st: Status)
    requires st in left && st in states
    ensures AddHistory(history, states - (left - {st})) ==
            if st in AddHistory(history, states - left) then AddHistory(history, states - left)
            else AddHistory(history, states - left)[st := states[st]]
  {
  }

  lemma NothingLeft(history: map<Status, int>, states: map<Status, int>)
    ensures AddHistory(history, states - {}) == AddHistory(history, states)
    ensures AddHistory(history, states - states.Keys) == history
  {
    assert states - {} == states;
  }

  /** Inserts the states one by one, in no particular order; those already there win. */
  method CreateStates(history: map<Status, int>, states: map<Status, int>) returns (result: map<Status, int>)
    ensures result == AddHistory(history, states)
  {
    NothingLeft(history, states);
    result := history;
    var left := states.Keys;
    while left != {}
      invariant left <= states.Keys
      invariant result == AddHistory(history, states - left)
      decreases |left|
    {
      var st :| st in left;
      HistoryWith(history, states, left, st);
      left := left - {st};
      if st !in result {
        result := result[st := states[st]];
      }
    }
    NothingLeft(history, states);
  }

  /** Updates the rows with the number of the report. */
  method UpdateRecipient(recipients: seq<Recipient>, report: Recipient) returns (result: seq<Recipient>)
    ensures result == SetRecipient(recipients, report)
  {
    result := recipients;
    var i := 0;
    while i < |result|
      invariant 0 <= i <= |result| == |recipients|
      invariant forall j | 0 <= j < |result| ::
                  result[j] == if j < i && recipients[j].number == report.number then report else recipients[j]
    {
      if result[i].number == report.number {
        result := result[i := report];
      }
      i := i + 1;
    }
  }

  class Repository {
    var store: Store

    constructor ()
      ensures store == Init()
    {
      store := Init();
    }

    method Get(ext: string, user: string, device: string) returns (error: Error, id: nat)
      ensures error == FindError(store.rows, ext, user, device)
      ensures error == NoError ==> id == Find(store.rows, ext, user, device)
    {
      var ids := Selected(store.rows, ext, user, device);
      error, id := NoError, 0;
      if |ids| == 0 {
        error := NotFound;
      } else if |ids| > 1 {
        error := MultipleFound;
      } else {
        id :| id in ids;
      }
    }

    method Insert(m: Message) returns (error: Error)
      modifies this
      ensures error == if Exists(old(store).rows, m.ext, m.device) then AlreadyExists else NoError
      ensures store == if error == NoError then MessageModel.Insert(old(store), m) else old(store)
    {
      if exists id | id in store.rows :: store.rows[id].ext == m.ext && store.rows[id].device == m.device {
        return AlreadyExists;
      }
      store := MessageModel.Insert(store, m);
      return NoError;
    }

    /** The new state, then the history, then the recipients one report after the other. */
    method UpdateState(id: nat, status: Status, states: map<Status, int>, reports: seq<Recipient>)
      requires id in store.rows
      modifies this
      ensures store == old(store).(rows := old(store).rows[id := Update(old(store).rows[id], status, states, reports)])
    {
      var m := store.rows[id];
      var history := CreateStates(m.history, states);
      var recipients := m.recipients;
      for n := 0 to |reports|
        invariant store == old(store) && recipients == SetRecipients(m.recipients, reports[..n])
      {
        assert reports[..n + 1][..n] == reports[..n];
        recipients := UpdateRecipient(recipients, reports[n]);
      }
      assert reports[..|reports|] == reports;
      store := store.(rows := store.rows[id := m.(status := status, history := history, recipients := recipients)]);
    }

    method HashProcessed(env: Env, ids: set<nat>)
      modifies this
      ensures store == old(store).(rows := HashRows(env, old(store).rows, ids))
    {
      store := store.(rows := HashRows(env, store.rows, ids));
    }

    method CancelMessage(user: string, ext: string) returns (error: Error)
      modifies this
      ensures error ==
              if forall id | id in old(store).rows :: !CancelHits(old(store).rows[id], user, ext) then NotPending
              else NoError
      ensures store == old(store).(rows := CancelRows(old(store).rows, user, ext))
    {
      var affected := |set id | id in store.rows && CancelHits(store.rows[id], user, ext)|;
      ghost var hit := set id | id in store.rows && CancelHits(store.rows[id], user, ext);
      assert forall id | id in store.rows && CancelHits(store.rows[id], user, ext) :: id in hit;
      store := store.(rows := CancelRows(store.rows, user, ext));
      error := if affected == 0 then NotPending else NoError;
    }

    method Cleanup(until: int) returns (deleted: nat)
      modifies this
      ensures store == old(store).(rows := CleanupRows(old(store).rows, until))
      ensures deleted == |set id | id in old(store).rows && CleanupHits(old(store).rows[id], until)|
    {
      deleted := |set id | id in store.rows && CleanupHits(store.rows[id], until)|;
      store := store.(rows := CleanupRows(store.rows, until));
    }
  }

  /** Collects messages to hash and hashes them together. */
  class HashingWorker {
    const messages: Repository
    var queue: set<nat>

    constructor (messages: Repository)
      ensures this.messages == messages && queue == {}
    {
      this.messages := messages;
      queue := {};
    }

    method Enqueue(id: nat)
      modifies this
      ensures queue == old(queue) + {id}
    {
      queue := queue + {id};
    }

    /** With nothing queued, nothing is asked of the table: an empty list of ids would hash all. */
    method Process(env: Env)
      modifies this, messages
      ensures queue == {}
      ensures messages.store == if old(queue) == {} then old(messages.store)
                                else old(messages.store).(rows := HashRows(env, old(messages.store).rows, old(queue)))
    {
      var ids := queue;
      queue := {};
      if |ids| == 0 {
        return;
      }
      messages.HashProcessed(env, ids);
    }
  }

  // ---------- The loops of the service ----------

  method RecipientsStateToModel(env: Env, input: seq<Recipient>, hash: bool) returns (output: seq<Recipient>)
    ensures output == AllReported(env, hash, input)
  {
    output := [];
    for i := 0 to |input|
      invariant output == AllReported(env, hash, input[..i])
    {
      var number, status := input[i].number, input[i].status;
      if |number| > 0 && number[0] != '+' {
        number := "+" + number;
      }
      if status == Pending {
        status := Processed;
      }
      if hash {
        number := env.hash(number);
      }
      output := output + [Recipient(number, status, input[i].error)];
    }
    assert input[..|input|] == input;
  }

  lemma NoneStays(env: Env, numbers: seq<string>, asGiven: bool, n: nat)
    requires n <= |numbers| && Prepare(env, numbers[..n], asGiven).None?
    ensures Prepare(env, numbers, asGiven).None?
    decreases |numbers|
  {
    if n == |numbers| {
      assert numbers[..n] == numbers;
    } else {
      assert numbers[..|numbers| - 1][..n] == numbers[..n];
      NoneStays(env, numbers[..|numbers| - 1], asGiven, n);
    }
  }

  /** Cleans the numbers in place, then looks for one that occurs twice. */
  method PrepareNumbers(env: Env, given: seq<string>, asGiven: bool) returns (error: Error, numbers: seq<string>)
    ensures var prepared := Prepare(env, given, asGiven);
            && error == (if prepared.None? then BadNumber else if !Unique(prepared.value) then NotUnique else NoError)
            && (error == NoError ==> numbers == prepared.value)
    ensures error == BadNumber <==> !asGiven && exists i | 0 <= i < |given| :: env.clean(given[i]).None?
    ensures error == NoError ==>
              && Unique(numbers) && |numbers| == |given|
              && forall i | 0 <= i < |given| ::
                   if asGiven then numbers[i] == given[i] else env.clean(given[i]) == Some(numbers[i])
  {
    PrepareMeans(env, given, asGiven);
    numbers := given;
    for i := 0 to |given|
      invariant |numbers| == |given| && forall j | i <= j < |given| :: numbers[j] == given[j]
      invariant Prepare(env, given[..i], asGiven) == Some(numbers[..i])
    {
      assert given[..i + 1][..i] == given[..i];
      var number := given[i];
      if !asGiven {
        var cleaned := env.clean(numbers[i]);
        if cleaned.None? {
          NoneStays(env, given, asGiven, i + 1);
          return BadNumber, [];
        }
        number := cleaned.value;
      }
      ghost var done := numbers[..i];
      numbers := numbers[i := number];
      assert numbers[..i + 1] == done + [number];
    }
    assert given[..|given|] == given && numbers[..|given|] == numbers;
    var unique := AllDifferent(numbers);
    error := if unique then NoError else NotUnique;
  }

  /** Looks for a number seen before. */
  method AllDifferent(numbers: seq<string>) returns (unique: bool)
    ensures unique <==> Unique(numbers)
  {
    var seen := {};
    for i := 0 to |numbers|
      invariant seen == set j | 0 <= j < i :: numbers[j]
      invariant Unique(numbers[..i])
    {
      if numbers[i] in seen {
        return false;
      }
      seen := seen + {numbers[i]};
    }
    assert numbers[..|numbers|] == numbers;
    return true;
  }

  // ---------- The service ----------

  class Service {
    const env: Env
    const messages: Repository
    const worker: HashingWorker
    var cache: Cache

    constructor (env: Env, messages: Repository, worker: HashingWorker)
      requires worker.messages == messages
      ensures this.env == env && this.messages == messages && this.worker == worker && cache == map[]
    {
      this.env, this.messages, this.worker := env, messages, worker;
      cache := map[];
    }

    ghost function Now(): World
      reads this, messages, worker
    {
      World(messages.store, cache, worker.queue)
    }

    method Enqueue(device: string, ext: string, newId: string, given: seq<string>, content: Option<string>,
                   encrypted: bool, skipCheck: bool, now: int) returns (res: Result)
      modifies this, messages
      ensures (Now(), res) ==
              Act(env, old(Now()), Do(Call.Enqueue(device, ext, newId, given, content, encrypted, skipCheck, now)))
    {
      var error, numbers := PrepareNumbers(env, given, encrypted || skipCheck);
      if error != NoError {
        return Err(error);
      }
      if content.None? {
        return Err(NoContent);
      }
      var id := if ext == "" then newId else ext;
      var m := NewMessage(env.owner(device), device, id, content.value, encrypted, numbers, now);
      error := messages.Insert(m);
      if error != NoError {
        return Err(error);
      }
      cache := cache[KeyOf(env.owner(device), id) := Some(ViewOf(m))];
      return Ok(ViewOf(m));
    }

    method UpdateState(device: string, ext: string, status: Status, states: map<Status, int>, reports: seq<Recipient>)
      returns (res: Result)
      modifies this, messages, worker
      ensures (Now(), res) == Act(env, old(Now()), Do(Call.Report(device, ext, status, states, reports)))
    {
      var error, id := messages.Get(ext, "", device);
      if error != NoError {
        return Err(error);
      }
      var m := messages.store.rows[id];
      var reported := if status == Pending then Processed else status;
      var recipients := RecipientsStateToModel(env, reports, m.hashed);
      messages.UpdateState(id, reported, states, recipients);
      var view := ViewOf(m.(status := reported, history := states, recipients := recipients));
      cache := cache[KeyOf(env.owner(device), m.ext) := Some(view)];
      worker.Enqueue(id);
      return Done;
    }

    method GetState(user: string, ext: string) returns (res: Result)
      modifies this
      ensures (Now(), res) == Act(env, old(Now()), Action.GetState(user, ext))
    {
      var key := KeyOf(user, ext);
      if key in cache {
        return if cache[key].None? then Err(NotFound) else Ok(cache[key].value);
      }
      var error, id := messages.Get(ext, user, "");
      if error != NoError {
        if error == NotFound {
          cache := cache[key := None];
        }
        return Err(error);
      }
      var view := ViewOf(messages.store.rows[id]);
      cache := cache[key := Some(view)];
      return Ok(view);
    }

    method CancelMessage(user: string, ext: string) returns (res: Result)
      modifies this, messages
      ensures (Now(), res) == Act(env, old(Now()), Do(Call.Cancel(user, ext)))
    {
      var error, id := messages.Get(ext, user, "");
      if error != NoError {
        return Err(error);
      }
      error := messages.CancelMessage(user, ext);
      if error != NoError {
        assert forall id | id in old(messages.store).rows :: !CancelHits(old(messages.store).rows[id], user, ext);
        assert CancelRows(old(messages.store).rows, user, ext) == old(messages.store).rows;
        return Err(error);
      }
      cache := cache - {KeyOf(user, ext)};
      res := GetState(user, ext);
    }

    method ProcessQueue() returns (res: Result)
      requires worker.messages == messages
      modifies messages, worker
      ensures (Now(), res) == Act(env, old(Now()), Process)
    {
      worker.Process(env);
      return Done;
    }
  }
}
