/** Hashing old messages is invisible to the tracking of their delivery. */
module MessageTracking {
  import opened Options
  import opened MessageModel
  import opened MessageCalls

  // ---------- A table and its unhashed twin ----------

  /** The hash tells apart the numbers involved. */
  ghost predicate Injective(env: Env, numbers: set<string>) {
    forall x, y | x in numbers && y in numbers && env.hash(x) == env.hash(y) :: x == y
  }

  function Shown(env: Env, hashed: bool, number: string): string {
    if hashed then env.hash(number) else number
  }

  /** `b` is `a` had it never been hashed. */
  ghost predicate Twins(env: Env, numbers: set<string>, a: Message, b: Message) {
    && !b.hashed
    && a.content == (if a.hashed then env.contentHash(b.content) else b.content)
    && a.user == b.user && a.device == b.device && a.ext == b.ext && a.status == b.status
    && a.encrypted == b.encrypted && a.createdAt == b.createdAt && a.history == b.history
    && (a.status == Pending ==> !a.hashed)
    && TwinRecipients(env, numbers, a.hashed, a.recipients, b.recipients)
  }

  ghost predicate TwinRecipients(env: Env, numbers: set<string>, hashed: bool, a: seq<Recipient>, b: seq<Recipient>) {
    && |a| == |b|
    && forall i | 0 <= i < |a| ::
         && a[i].status == b[i].status && a[i].error == b[i].error
         && b[i].number in numbers && a[i].number == Shown(env, hashed, b[i].number)
  }

  ghost predicate TwinStores(env: Env, numbers: set<string>, a: Store, b: Store) {
    && a.next == b.next && a.rows.Keys == b.rows.Keys
    && forall id | id in a.rows :: Twins(env, numbers, a.rows[id], b.rows[id])
  }

  /** The numbers a call stores or looks for are among those told apart. */
  ghost predicate Involves(env: Env, numbers: set<string>, call: Call) {
    match call
    case Enqueue(_, _, _, given, _, encrypted, skipCheck, _) =>
      var prepared := Prepare(env, given, encrypted || skipCheck);
      prepared.Some? ==> forall n | n in prepared.value :: n in numbers
    case Report(_, _, _, _, reports) => forall r | r in reports :: Normalise(r.number) in numbers
    case _ => true
  }

  lemma SetRecipientTwins(env: Env, numbers: set<string>, hashed: bool, a: seq<Recipient>, b: seq<Recipient>,
                          r: Recipient)
    requires Injective(env, numbers) && TwinRecipients(env, numbers, hashed, a, b) && Normalise(r.number) in numbers
    ensures TwinRecipients(env, numbers, hashed, SetRecipient(a, Reported(env, hashed, r)),
                           SetRecipient(b, Reported(env, false, r)))
  {
  }

  lemma {:induction false} SetRecipientsTwins(env: Env, numbers: set<string>, hashed: bool, a: seq<Recipient>,
                                              b: seq<Recipient>,
                                              reports: seq<Recipient>)
    requires Injective(env, numbers) && TwinRecipients(env, numbers, hashed, a, b)
    requires forall r | r in reports :: Normalise(r.number) in numbers
    ensures TwinRecipients(env, numbers, hashed, SetRecipients(a, AllReported(env, hashed, reports)),
                           SetRecipients(b, AllReported(env, false, reports)))
    decreases |reports|
  {
    if reports == [] {
    } else {
      var n := |reports| - 1;
      SetRecipientsTwins(env, numbers, hashed, a, b, reports[..n]);
      assert AllReported(env, hashed, reports)[..n] == AllReported(env, hashed, reports[..n]);
      assert AllReported(env, false, reports)[..n] == AllReported(env, false, reports[..n]);
      SetRecipientTwins(env, numbers, hashed, SetRecipients(a, AllReported(env, hashed, reports[..n])),
                        SetRecipients(b, AllReported(env, false, reports[..n])), reports[n]);
    }
  }

  lemma SameError(env: Env, numbers: set<string>, a: Store, b: Store, call: Call)
    requires TwinStores(env, numbers, a, b)
    ensures CallError(env, a, call) == CallError(env, b, call)
  {
    assert forall ext, user, device :: Selected(a.rows, ext, user, device) == Selected(b.rows, ext, user, device);
    match call
    case Cancel(user, ext) =>
      assert forall id | id in a.rows :: CancelHits(a.rows[id], user, ext) <==> CancelHits(b.rows[id], user, ext);
    case Enqueue(device, _, _, _, _, _, _, _) =>
      assert Exists(a.rows, ExtOf(call), device) <==> Exists(b.rows, ExtOf(call), device) by {
        if Exists(a.rows, ExtOf(call), device) {
          var id :| id in a.rows && a.rows[id].ext == ExtOf(call) && a.rows[id].device == device;
          assert b.rows[id].ext == ExtOf(call);
        }
        if Exists(b.rows, ExtOf(call), device) {
          var id :| id in b.rows && b.rows[id].ext == ExtOf(call) && b.rows[id].device == device;
          assert a.rows[id].ext == ExtOf(call);
        }
      }
    case _ =>
  }

  lemma ReportTwins(env: Env, numbers: set<string>, a: Store, b: Store, call: Call)
    requires Injective(env, numbers) && TwinStores(env, numbers, a, b) && call.Report? && Involves(env, numbers, call)
    ensures TwinStores(env, numbers, Step(env, a, call), Step(env, b, call))
  {
    SameError(env, numbers, a, b, call);
    if CallError(env, a, call) == NoError {
      var id := Find(a.rows, call.ext, "", call.device);
      assert Matches(b.rows[id], call.ext, "", call.device);
      assert Find(b.rows, call.ext, "", call.device) == id;
      SetRecipientsTwins(env, numbers, a.rows[id].hashed, a.rows[id].recipients, b.rows[id].recipients, call.reports);
    }
  }

  lemma PlainTwins(env: Env, numbers: set<string>, a: Store, b: Store, call: Call)
    requires TwinStores(env, numbers, a, b) && (call.Cancel? || call.Enqueue?) && Involves(env, numbers, call)
    ensures TwinStores(env, numbers, Step(env, a, call), Step(env, b, call))
  {
    SameError(env, numbers, a, b, call);
  }

  lemma CleanupTwins(env: Env, numbers: set<string>, a: Store, b: Store, call: Call)
    requires TwinStores(env, numbers, a, b) && call.Cleanup?
    ensures TwinStores(env, numbers, Step(env, a, call), Step(env, b, call))
  {
    assert forall id | id in a.rows :: CleanupHits(a.rows[id], call.until) <==> CleanupHits(b.rows[id], call.until);
  }

  lemma HashTwins(env: Env, numbers: set<string>, a: Store, b: Store, ids: set<nat>)
    requires TwinStores(env, numbers, a, b)
    ensures TwinStores(env, numbers, Step(env, a, Hash(ids)), b)
  {
  }

  function Erase(calls: seq<Call>): seq<Call>
    decreases |calls|
  {
    if calls == [] then []
    else if calls[0].Hash? then Erase(calls[1..])
    else [calls[0]] + Erase(calls[1..])
  }

  /** Erasing every hashing pass from a history changes no answer, and leaves the same messages
      with the same states, histories and recipient states; a number or content shown is the
      original or its hash, never a hash of a hash. */
  lemma {:induction false} HashingInvisible(env: Env, numbers: set<string>, a: Store, b: Store, calls: seq<Call>)
    requires Injective(env, numbers) && TwinStores(env, numbers, a, b)
    requires forall k | 0 <= k < |calls| :: Involves(env, numbers, calls[k])
    ensures TwinStores(env, numbers, Run(env, a, calls), Run(env, b, Erase(calls)))
    ensures Answers(env, a, calls) == Answers(env, b, Erase(calls))
    decreases |calls|
  {
    if calls == [] {
    } else {
      var call := calls[0];
      var a' := Step(env, a, call);
      if call.Hash? {
        HashTwins(env, numbers, a, b, call.ids);
        HashingInvisible(env, numbers, a', b, calls[1..]);
      } else {
        var b' := Step(env, b, call);
        SameError(env, numbers, a, b, call);
        match call {
          case Report(_, _, _, _, _) => ReportTwins(env, numbers, a, b, call);
          case Cleanup(_) => CleanupTwins(env, numbers, a, b, call);
          case _ => PlainTwins(env, numbers, a, b, call);
        }
        HashingInvisible(env, numbers, a', b', calls[1..]);
        assert Erase(calls)[1..] == Erase(calls[1..]);
      }
    }
  }

  // ---------- Recipients ----------

  ghost predicate Distinct(m: Message) {
    forall i, j | 0 <= i < j < |m.recipients| :: m.recipients[i].number != m.recipients[j].number
  }

  ghost predicate PlainDistinct(s: Store) {
    forall id | id in s.rows :: !s.rows[id].hashed && Distinct(s.rows[id])
  }

  lemma StepPlainDistinct(env: Env, s: Store, call: Call)
    requires PlainDistinct(s) && !call.Hash?
    ensures PlainDistinct(Step(env, s, call))
  {
    if call.Report? && CallError(env, s, call) == NoError {
      var id := Find(s.rows, call.ext, "", call.device);
      SetRecipientsNumbers(s.rows[id].recipients, AllReported(env, false, call.reports));
    }
  }

  lemma {:induction false} ErasedDistinct(env: Env, s: Store, calls: seq<Call>)
    requires PlainDistinct(s)
    ensures PlainDistinct(Run(env, s, Erase(calls)))
    decreases |calls|
  {
    if calls == [] {
    } else {
      if calls[0].Hash? {
        ErasedDistinct(env, s, calls[1..]);
      } else {
        StepPlainDistinct(env, s, calls[0]);
        ErasedDistinct(env, Step(env, s, calls[0]), calls[1..]);
        assert Erase(calls)[1..] == Erase(calls[1..]);
      }
    }
  }

  /** The recipients of a message stay distinct, hashed or not. */
  lemma RecipientsStayDistinct(env: Env, numbers: set<string>, calls: seq<Call>, id: nat)
    requires Injective(env, numbers) && forall k | 0 <= k < |calls| :: Involves(env, numbers, calls[k])
    requires id in Run(env, Init(), calls).rows
    ensures Distinct(Run(env, Init(), calls).rows[id])
  {
    HashingInvisible(env, numbers, Init(), Init(), calls);
    ErasedDistinct(env, Init(), calls);
    var a, b := Run(env, Init(), calls).rows[id], Run(env, Init(), Erase(calls)).rows[id];
    assert Twins(env, numbers, a, b) && Distinct(b);
    forall i, j | 0 <= i < j < |a.recipients| ensures a.recipients[i].number != a.recipients[j].number {
      assert b.recipients[i].number != b.recipients[j].number;
    }
  }

  /** A report naming a recipient exactly as the message was enqueued reaches that recipient if
      and only if the number is empty or starts with a plus sign, hashed or not. */
  lemma ReportReachesIff(env: Env, numbers: set<string>, a: Message, b: Message, i: nat, report: Recipient)
    requires Injective(env, numbers) && Twins(env, numbers, a, b) && i < |b.recipients|
    requires report.number == b.recipients[i].number && Normalise(report.number) in numbers
    ensures Meant(env, a.hashed, report.number) == a.recipients[i].number <==>
            (report.number == "" || report.number[0] == '+')
  {
    assert b.recipients[i].number in numbers;
    if report.number != "" && report.number[0] != '+' {
      assert |Normalise(report.number)| == |report.number| + 1;
    }
  }

  /** What a report does, by the numbers a message was enqueued with, hashed by now or not: each recipient whose
      number is that of a report, with a plus sign put before it if it has none, gets the state and the error of
      the last such report; no other recipient changes.  So a report about `123` is taken for one about `+123`. */
  lemma ReportStepReaches(env: Env, numbers: set<string>, a: Store, b: Store, call: Call, id: nat, i: nat, k: nat)
    requires Injective(env, numbers) && TwinStores(env, numbers, a, b) && Involves(env, numbers, call)
    requires call.Report? && call.ext != "" && call.device != "" && CallError(env, a, call) == NoError
    requires id in a.rows && a.rows[id].ext == call.ext && a.rows[id].device == call.device
    requires i < |b.rows[id].recipients| && k <= |call.reports|
    requires forall j | k <= j < |call.reports| ::
               b.rows[id].recipients[i].number != Meant(env, false, call.reports[j].number)
    requires k > 0 ==> b.rows[id].recipients[i].number == Meant(env, false, call.reports[k - 1].number)
    ensures |Step(env, a, call).rows[id].recipients| == |a.rows[id].recipients| == |b.rows[id].recipients|
    ensures var was := a.rows[id].recipients[i];
            Step(env, a, call).rows[id].recipients[i] ==
            if k == 0 then was
            else
              var status := call.reports[k - 1].status;
              was.(status := if status == Pending then Processed else status, error := call.reports[k - 1].error)
  {
    assert Twins(env, numbers, a.rows[id], b.rows[id]);
    assert b.rows[id].recipients[i].number in numbers;
    forall j | 0 <= j < |call.reports|
      ensures Meant(env, a.rows[id].hashed, call.reports[j].number) == a.rows[id].recipients[i].number <==>
              b.rows[id].recipients[i].number == Meant(env, false, call.reports[j].number)
    {
      assert call.reports[j] in call.reports;
    }
    ReportReaches(env, a, call, id, i, k);
  }

  /** A report about a number without a plus sign sets the recipient that was enqueued with one. */
  lemma ReportWithoutPlus(env: Env, numbers: set<string>, a: Store, b: Store, call: Call, id: nat, i: nat)
    requires Injective(env, numbers) && TwinStores(env, numbers, a, b) && Involves(env, numbers, call)
    requires call.Report? && call.ext != "" && call.device != "" && CallError(env, a, call) == NoError
    requires id in a.rows && a.rows[id].ext == call.ext && a.rows[id].device == call.device
    requires |call.reports| == 1 && call.reports[0].number != "" && call.reports[0].number[0] != '+'
    requires i < |b.rows[id].recipients| && b.rows[id].recipients[i].number == "+" + call.reports[0].number
    ensures i < |Step(env, a, call).rows[id].recipients| && i < |a.rows[id].recipients|
    ensures Step(env, a, call).rows[id].recipients[i] ==
            a.rows[id].recipients[i].(status := if call.reports[0].status == Pending then Processed
                                                else call.reports[0].status,
                                      error := call.reports[0].error)
  {
    ReportStepReaches(env, numbers, a, b, call, id, i, 1);
  }

  // ---------- The life of a message ----------

  ghost predicate InRange(s: Store) {
    forall id | id in s.rows :: id < s.next
  }

  /** What no call can undo between `m` and a later `m'`. */
  ghost predicate Later(m: Message, m': Message) {
    && (m'.status == Pending ==> m' == m)
    && (m.hashed ==> m'.hashed && m'.content == m.content)
    && (forall st | st in m.history :: st in m'.history && m'.history[st] == m.history[st])
    && |m'.recipients| == |m.recipients|
    && (forall i | 0 <= i < |m.recipients| :: RecipientLater(m.hashed, m.recipients[i], m'.recipients[i]))
  }

  ghost predicate RecipientLater(hashed: bool, r: Recipient, r': Recipient) {
    && (r'.status == Pending ==> r.status == Pending)
    && (hashed ==> r'.number == r.number)
  }

  lemma {:induction false} SetRecipientsLater(hashed: bool, recipients: seq<Recipient>, reports: seq<Recipient>)
    requires forall r | r in reports :: r.status != Pending
    ensures |SetRecipients(recipients, reports)| == |recipients|
    ensures forall i | 0 <= i < |recipients| ::
            RecipientLater(hashed, recipients[i], SetRecipients(recipients, reports)[i])
    decreases |reports|
  {
    if reports == [] {
    } else {
      SetRecipientsLater(hashed, recipients, reports[..|reports| - 1]);
    }
  }

  lemma StepLater(env: Env, s: Store, call: Call, id: nat)
    requires InRange(s) && id in s.rows && id in Step(env, s, call).rows
    ensures Later(s.rows[id], Step(env, s, call).rows[id])
  {
    if call.Report? && CallError(env, s, call) == NoError {
      var found := Find(s.rows, call.ext, "", call.device);
      SetRecipientsLater(s.rows[found].hashed, s.rows[found].recipients, AllReported(env, s.rows[found].hashed,
        call.reports));
    }
  }

  lemma StepInRange(env: Env, s: Store, call: Call)
    requires InRange(s)
    ensures InRange(Step(env, s, call)) && s.next <= Step(env, s, call).next
    ensures forall id | id in Step(env, s, call).rows && id < s.next :: id in s.rows
  {
  }

  lemma {:induction false} GoneForGood(env: Env, s: Store, calls: seq<Call>, id: nat)
    requires InRange(s) && id < s.next && id !in s.rows
    ensures id !in Run(env, s, calls).rows
    decreases |calls|
  {
    if calls == [] {
    } else {
      StepInRange(env, s, calls[0]);
      GoneForGood(env, Step(env, s, calls[0]), calls[1..], id);
    }
  }

  /** As long as a message is there: found Pending, it is exactly as it was; Pending is not
      entered again by it or by a recipient; once hashed it keeps its content and numbers; no
      time in its history is overwritten. */
  lemma {:induction false} MessageLater(env: Env, s: Store, calls: seq<Call>, id: nat)
    requires InRange(s) && id in s.rows && id in Run(env, s, calls).rows
    ensures Later(s.rows[id], Run(env, s, calls).rows[id])
    decreases |calls|
  {
    if calls == [] {
    } else {
      var s' := Step(env, s, calls[0]);
      StepInRange(env, s, calls[0]);
      if id !in s'.rows {
        GoneForGood(env, s', calls[1..], id);
      } else {
        StepLater(env, s, calls[0], id);
        MessageLater(env, s', calls[1..], id);
        LaterTrans(s.rows[id], s'.rows[id], Run(env, s', calls[1..]).rows[id]);
      }
    }
  }

  lemma LaterTrans(m1: Message, m2: Message, m3: Message)
    requires Later(m1, m2) && Later(m2, m3)
    ensures Later(m1, m3)
  {
    forall i | 0 <= i < |m1.recipients| ensures RecipientLater(m1.hashed, m1.recipients[i], m3.recipients[i]) {
      assert RecipientLater(m1.hashed, m1.recipients[i], m2.recipients[i]);
      assert RecipientLater(m2.hashed, m2.recipients[i], m3.recipients[i]);
    }
  }

  /** A Pending message is unhashed, with the content and the numbers it was enqueued with, all of
      its recipients Pending, however many other calls came in between. */
  lemma PendingIsAsEnqueued(env: Env, s: Store, call: Call, calls: seq<Call>)
    requires InRange(s) && call.Enqueue? && CallError(env, s, call) == NoError
    requires var s' := Run(env, Step(env, s, call), calls); s.next in s'.rows && s'.rows[s.next].status == Pending
    ensures var m := Run(env, Step(env, s, call), calls).rows[s.next];
            && !m.hashed && m.content == call.content.value && m.createdAt == call.now
            && |m.recipients| == |call.numbers|
            && forall i | 0 <= i < |call.numbers| ::
                 && m.recipients[i].status == Pending && m.recipients[i].error == None
                 && if call.encrypted || call.skipCheck then m.recipients[i].number == call.numbers[i]
                    else env.clean(call.numbers[i]) == Some(m.recipients[i].number)
  {
    StepInRange(env, s, call);
    EnqueueStores(env, s, call);
    EnqueueAnswers(env, s, call);
    MessageLater(env, Step(env, s, call), calls, s.next);
  }

  /** A cancelled message waits for its device: whatever is done but a report, it stays as it was,
      Cancelling, neither hashed nor cleaned up. */
  lemma {:induction false} CancellingWaits(env: Env, s: Store, calls: seq<Call>, id: nat)
    requires InRange(s) && id in s.rows && s.rows[id].status == Cancelling
    requires forall k | 0 <= k < |calls| :: !calls[k].Report?
    ensures id in Run(env, s, calls).rows && Run(env, s, calls).rows[id] == s.rows[id]
    decreases |calls|
  {
    if calls == [] {
    } else {
      StepInRange(env, s, calls[0]);
      CancellingWaits(env, Step(env, s, calls[0]), calls[1..], id);
    }
  }

  /** A cancellation goes through exactly if the one message found is Pending; that message is then
      Cancelling, and no message of another id or another user is touched. */
  lemma CancelGoesThroughIff(env: Env, s: Store, user: string, ext: string)
    requires user != "" && ext != ""
    ensures var s' := Step(env, s, Cancel(user, ext));
            && (CallError(env, s, Cancel(user, ext)) == NoError <==>
                exists id | id in s.rows && s.rows[id].user == user && s.rows[id].ext == ext ::
                  && s.rows[id].status == Pending
                  && (forall x | x in s.rows && s.rows[x].user == user && s.rows[x].ext == ext :: x == id)
                  && id in s'.rows && s'.rows[id] == s.rows[id].(status := Cancelling))
            && s'.rows.Keys == s.rows.Keys
            && (forall x | x in s.rows && (s.rows[x].user != user || s.rows[x].ext != ext) :: s'.rows[x] == s.rows[x])
  {
    var ids := Selected(s.rows, ext, user, "");
    if CallError(env, s, Cancel(user, ext)) == NoError {
      var id := Find(s.rows, ext, user, "");
      assert s.rows[id].user == user && s.rows[id].ext == ext;
    }
    if id :| && id in s.rows && s.rows[id].user == user && s.rows[id].ext == ext && s.rows[id].status == Pending
             && forall x | x in s.rows && s.rows[x].user == user && s.rows[x].ext == ext :: x == id {
      assert ids == {id};
      assert CancelHits(s.rows[id], user, ext);
    }
  }

  /** After a pass over everything nothing is left to hash; a pass over some ids leaves none of them. */
  lemma NothingLeftToHash(env: Env, s: Store, ids: set<nat>)
    ensures forall id | id in Step(env, s, Hash(ids)).rows && (ids == {} || id in ids) ::
              !Hashable(Step(env, s, Hash(ids)).rows[id])
  {
  }

  /** A message disappears only by a cleanup that found it neither Pending nor Cancelling, and
      created before the date given. */
  lemma {:induction false} GoneByCleanup(env: Env, s: Store, calls: seq<Call>, id: nat) returns (k: nat)
    requires InRange(s) && id in s.rows && id !in Run(env, s, calls).rows
    ensures k < |calls| && calls[k].Cleanup?
    ensures var before := Run(env, s, calls[..k]);
            && id in before.rows && before.rows[id].createdAt < calls[k].until
            && before.rows[id].status != Pending && before.rows[id].status != Cancelling
    decreases |calls|
  {
    var s' := Step(env, s, calls[0]);
    StepInRange(env, s, calls[0]);
    if id !in s'.rows {
      k := 0;
    } else {
      var j := GoneByCleanup(env, s', calls[1..], id);
      k := j + 1;
      assert calls[..k][1..] == calls[1..][..j] && calls[..k][0] == calls[0];
    }
  }
}
