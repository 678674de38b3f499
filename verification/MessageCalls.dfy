/** What each call does to the table, field by field, and what it answers. */
module MessageCalls {
  import opened Options
  import opened MessageModel

  // ---------- Enqueueing ----------

  /** The number as it will be stored. */
  function Kept(env: Env, number: string, asGiven: bool): string {
    if asGiven || env.clean(number).None? then number else env.clean(number).value
  }

  /** Numbers taken as given are kept as they are.  Otherwise each is replaced by what the parser makes of it,
      and none is accepted if the parser rejects one. */
  lemma {:induction false} PrepareMeans(env: Env, numbers: seq<string>, asGiven: bool)
    ensures Prepare(env, numbers, asGiven).None? <==>
            !asGiven && exists i | 0 <= i < |numbers| :: env.clean(numbers[i]).None?
    ensures var prepared := Prepare(env, numbers, asGiven);
            prepared.Some? ==>
              && |prepared.value| == |numbers|
              && forall i | 0 <= i < |numbers| ::
                   prepared.value[i] == if asGiven then numbers[i] else Kept(env, numbers[i], false)
    decreases |numbers|
  {
    if numbers == [] {
    } else {
      var n := |numbers| - 1;
      PrepareMeans(env, numbers[..n], asGiven);
      if i :| 0 <= i < |numbers| && env.clean(numbers[i]).None? {
        assert i == n || numbers[..n][i] == numbers[i];
      }
    }
  }

  /** In this order: a number that is none, two equal ones after cleaning, no content, the id taken on the
      device.  A call that fails changes nothing. */
  lemma EnqueueAnswers(env: Env, s: Store, call: Call)
    requires call.Enqueue?
    ensures var asGiven, ext := call.encrypted || call.skipCheck, if call.ext == "" then call.newId else call.ext;
            CallError(env, s, call) ==
            if !asGiven && exists i | 0 <= i < |call.numbers| :: env.clean(call.numbers[i]).None? then BadNumber
            else if exists i, j | 0 <= i < j < |call.numbers| ::
                      Kept(env, call.numbers[i], asGiven) == Kept(env, call.numbers[j], asGiven) then NotUnique
            else if call.content.None? then NoContent
            else if exists id | id in s.rows :: s.rows[id].ext == ext && s.rows[id].device == call.device
                 then AlreadyExists
            else NoError
    ensures CallError(env, s, call) != NoError ==> Step(env, s, call) == s
  {
    PrepareMeans(env, call.numbers, call.encrypted || call.skipCheck);
  }

  /** A call that goes through adds one row and touches no other. */
  lemma EnqueueStores(env: Env, s: Store, call: Call)
    requires call.Enqueue? && CallError(env, s, call) == NoError
    ensures var asGiven, s' := call.encrypted || call.skipCheck, Step(env, s, call);
            && s'.next == s.next + 1 && s.next in s'.rows && s'.rows == s.rows[s.next := s'.rows[s.next]]
            && var m := s'.rows[s.next];
               && m.user == env.owner(call.device) && m.device == call.device
               && m.ext == (if call.ext == "" then call.newId else call.ext)
               && m.content == call.content.value && m.encrypted == call.encrypted && !m.hashed
               && m.status == Pending && m.createdAt == call.now && m.history == map[Pending := call.now]
               && |m.recipients| == |call.numbers|
               && forall i | 0 <= i < |call.numbers| ::
                    m.recipients[i] == Recipient(Kept(env, call.numbers[i], asGiven), Pending, None)
  {
    PrepareMeans(env, call.numbers, call.encrypted || call.skipCheck);
  }

  // ---------- Which message a call finds ----------

  lemma OneSelected(rows: map<nat, Message>, ext: string, user: string, device: string)
    ensures FindError(rows, ext, user, device) == NotFound <==>
            forall id | id in rows :: !Matches(rows[id], ext, user, device)
    ensures FindError(rows, ext, user, device) == MultipleFound <==>
            exists x, y | x in rows && y in rows && x != y ::
              Matches(rows[x], ext, user, device) && Matches(rows[y], ext, user, device)
  {
    var ids := Selected(rows, ext, user, device);
    assert forall id :: id in ids <==> id in rows && Matches(rows[id], ext, user, device);
    if ids != {} {
      var x :| x in ids;
      assert |ids - {x}| == |ids| - 1;
      if |ids| > 1 {
        var y :| y in ids - {x};
      } else {
        assert forall y | y in ids :: y == x || y in ids - {x};
      }
    }
  }

  /** A report is for the one message of that id on that device. */
  lemma ReportAnswers(env: Env, s: Store, call: Call)
    requires call.Report? && call.ext != "" && call.device != ""
    ensures CallError(env, s, call) ==
            if forall id | id in s.rows :: !(s.rows[id].ext == call.ext && s.rows[id].device == call.device)
            then NotFound
            else if exists x, y | x in s.rows && y in s.rows && x != y ::
                 && s.rows[x].ext == s.rows[y].ext == call.ext
                 && s.rows[x].device == s.rows[y].device == call.device
            then MultipleFound
            else NoError
    ensures CallError(env, s, call) != NoError ==> Step(env, s, call) == s
  {
    OneSelected(s.rows, call.ext, "", call.device);
  }

  /** A cancellation is for the one message of that id and user, if it is Pending. */
  lemma CancelAnswers(env: Env, s: Store, user: string, ext: string)
    requires user != "" && ext != ""
    ensures CallError(env, s, Cancel(user, ext)) ==
            if forall id | id in s.rows :: !(s.rows[id].user == user && s.rows[id].ext == ext) then NotFound
            else if exists x, y | x in s.rows && y in s.rows && x != y ::
                 s.rows[x].user == s.rows[y].user == user && s.rows[x].ext == s.rows[y].ext == ext
            then MultipleFound
            else if forall id | id in s.rows && s.rows[id].user == user && s.rows[id].ext == ext ::
                      s.rows[id].status != Pending
            then NotPending
            else NoError
    ensures CallError(env, s, Cancel(user, ext)) != NoError ==> Step(env, s, Cancel(user, ext)) == s
  {
    OneSelected(s.rows, ext, user, "");
  }

  /** No two messages of one device have the same id, so a report is never ambiguous. */
  ghost predicate IdsApart(s: Store) {
    && (forall id | id in s.rows :: id < s.next)
    && forall x, y | x in s.rows && y in s.rows && s.rows[x].ext == s.rows[y].ext
                     && s.rows[x].device == s.rows[y].device :: x == y
  }

  lemma IdsStayApart(env: Env, s: Store, call: Call)
    requires IdsApart(s)
    ensures IdsApart(Step(env, s, call))
  {
    if call.Enqueue? && CallError(env, s, call) == NoError {
      EnqueueStores(env, s, call);
      EnqueueAnswers(env, s, call);
    }
  }

  lemma {:induction false} RunIdsApart(env: Env, s: Store, calls: seq<Call>)
    requires IdsApart(s)
    ensures IdsApart(Run(env, s, calls))
    decreases |calls|
  {
    if calls == [] {
    } else {
      IdsStayApart(env, s, calls[0]);
      RunIdsApart(env, Step(env, s, calls[0]), calls[1..]);
    }
  }

  /** After any calls whatever, a report goes through if and only if the device has a message of that id. */
  lemma ReportFound(env: Env, calls: seq<Call>, call: Call)
    requires call.Report? && call.ext != "" && call.device != ""
    ensures var s := Run(env, Init(), calls);
            CallError(env, s, call) ==
            if exists id | id in s.rows :: s.rows[id].ext == call.ext && s.rows[id].device == call.device then NoError
            else NotFound
  {
    RunIdsApart(env, Init(), calls);
    ReportAnswers(env, Run(env, Init(), calls), call);
  }

  // ---------- Reports ----------

  lemma {:induction false} SetRecipientsNumbers(recipients: seq<Recipient>, reports: seq<Recipient>)
    ensures |SetRecipients(recipients, reports)| == |recipients|
    ensures forall i | 0 <= i < |recipients| :: SetRecipients(recipients, reports)[i].number == recipients[i].number
    decreases |reports|
  {
    if reports == [] {
    } else {
      SetRecipientsNumbers(recipients, reports[..|reports| - 1]);
    }
  }

  /** The last report naming a recipient is the one that counts; a recipient nobody names stays
      as it is. */
  lemma {:induction false} LastReportCounts(recipients: seq<Recipient>, reports: seq<Recipient>, i: nat, k: nat)
    requires i < |recipients| && k <= |reports|
    requires forall j | k <= j < |reports| :: reports[j].number != recipients[i].number
    requires k > 0 ==> reports[k - 1].number == recipients[i].number
    ensures |SetRecipients(recipients, reports)| == |recipients|
    ensures SetRecipients(recipients, reports)[i] == if k == 0 then recipients[i] else reports[k - 1]
    decreases |reports|
  {
    SetRecipientsNumbers(recipients, reports);
    if reports != [] {
      var n := |reports| - 1;
      SetRecipientsNumbers(recipients, reports[..n]);
      if k <= n {
        LastReportCounts(recipients, reports[..n], i, k);
      }
    }
  }

  /** A report changes the one message found: its state is the one reported, Processed if Pending was
      reported; a state new to its history gets the time reported; its recipients keep their numbers. */
  lemma ReportTakesHold(env: Env, s: Store, call: Call, id: nat)
    requires call.Report? && call.ext != "" && call.device != "" && CallError(env, s, call) == NoError
    requires id in s.rows && s.rows[id].ext == call.ext && s.rows[id].device == call.device
    ensures var m, s' := s.rows[id], Step(env, s, call);
            && s'.next == s.next && s'.rows.Keys == s.rows.Keys
            && (forall x | x in s.rows && x != id :: s'.rows[x] == s.rows[x])
            && var m' := s'.rows[id];
               && m' == m.(status := m'.status, history := m'.history, recipients := m'.recipients)
               && m'.status == (if call.status == Pending then Processed else call.status)
               && m'.history.Keys == m.history.Keys + call.states.Keys
               && (forall st | st in m'.history ::
                     m'.history[st] == if st in m.history then m.history[st] else call.states[st])
               && |m'.recipients| == |m.recipients|
               && (forall i | 0 <= i < |m.recipients| :: m'.recipients[i].number == m.recipients[i].number)
  {
    SetRecipientsNumbers(s.rows[id].recipients, AllReported(env, s.rows[id].hashed, call.reports));
  }

  /** The number a report is about, as the row has it: with a plus sign, and hashed if the row is. */
  function Meant(env: Env, hashed: bool, number: string): string {
    var plus := if number == "" || number[0] == '+' then number else "+" + number;
    if hashed then env.hash(plus) else plus
  }

  /** What it does to a recipient: the last of the reports that is about its number sets its state, Processed for
      Pending, and its error; with none it stays as it is. */
  lemma ReportReaches(env: Env, s: Store, call: Call, id: nat, i: nat, k: nat)
    requires call.Report? && call.ext != "" && call.device != "" && CallError(env, s, call) == NoError
    requires id in s.rows && s.rows[id].ext == call.ext && s.rows[id].device == call.device
    requires i < |s.rows[id].recipients| && k <= |call.reports|
    requires forall j | k <= j < |call.reports| ::
               Meant(env, s.rows[id].hashed, call.reports[j].number) != s.rows[id].recipients[i].number
    requires k > 0 ==> Meant(env, s.rows[id].hashed, call.reports[k - 1].number) == s.rows[id].recipients[i].number
    ensures |Step(env, s, call).rows[id].recipients| == |s.rows[id].recipients|
    ensures var was := s.rows[id].recipients[i];
            Step(env, s, call).rows[id].recipients[i] ==
            if k == 0 then was
            else
              var status := call.reports[k - 1].status;
              Recipient(was.number, if status == Pending then Processed else status, call.reports[k - 1].error)
  {
    var m := s.rows[id];
    LastReportCounts(m.recipients, AllReported(env, m.hashed, call.reports), i, k);
  }

  // ---------- Hashing and deleting ----------

  /** A pass hashes the messages it is given, or all of them, that are done with and neither encrypted nor
      hashed already, once in content and numbers; everything else is as it was. */
  lemma HashExactly(env: Env, s: Store, ids: set<nat>, id: nat)
    requires id in s.rows
    ensures var m, s' := s.rows[id], Step(env, s, Hash(ids));
            && s'.next == s.next && s'.rows.Keys == s.rows.Keys
            && var m' := s'.rows[id];
               if (ids == {} || id in ids) && !m.hashed && !m.encrypted && m.recipients != []
                  && m.status != Pending && m.status != Cancelling
               then
                 && m' == m.(hashed := true, content := env.contentHash(m.content), recipients := m'.recipients)
                 && |m'.recipients| == |m.recipients|
                 && forall i | 0 <= i < |m.recipients| ::
                      m'.recipients[i] == m.recipients[i].(number := env.hash(m.recipients[i].number))
               else m' == m
  {
  }

  /** A cleanup deletes exactly the messages created before the date that are neither Pending nor Cancelling. */
  lemma CleanupExactly(env: Env, s: Store, until: int, id: nat)
    ensures var s' := Step(env, s, Cleanup(until));
            && s'.next == s.next
            && (id in s'.rows <==>
                  id in s.rows && (s.rows[id].status == Pending || s.rows[id].status == Cancelling
                                   || s.rows[id].createdAt >= until))
            && (id in s'.rows ==> s'.rows[id] == s.rows[id])
  {
  }
}
