/** Messages, their recipients and their history, and what each operation does to the table. */
module MessageModel {
  import opened Options

  datatype Status = Pending | Cancelling | Cancelled | Processed | Sent | Delivered | Failed

  datatype Recipient = Recipient(number: string, status: Status, error: Option<string>)

  datatype Message = Message(user: string, device: string, ext: string, content: string, status: Status,
                             hashed: bool, encrypted: bool, createdAt: int,
                             recipients: seq<Recipient>, history: map<Status, int>)

  /** The tables; `next` is the next id to be drawn. */
  datatype Store = Store(rows: map<nat, Message>, next: nat)

  datatype Error = NoError | NotFound | MultipleFound | AlreadyExists | NotPending | BadNumber | NotUnique | NoContent

  /** What the model leaves to its surroundings: the hash of numbers and of contents, the parser
      of phone numbers, and whose a device is. */
  datatype Env = Env(hash: string -> string, contentHash: string -> string,
                     clean: string -> Option<string>, owner: string -> string)

  // ---------- Finding one message ----------

  /** An empty field does not filter. */
  predicate Matches(m: Message, ext: string, user: string, device: string) {
    && (ext == "" || m.ext == ext)
    && (user == "" || m.user == user)
    && (device == "" || m.device == device)
  }

  function Selected(rows: map<nat, Message>, ext: string, user: string, device: string): set<nat> {
    set id | id in rows && Matches(rows[id], ext, user, device)
  }

  function FindError(rows: map<nat, Message>, ext: string, user: string, device: string): Error {
    var n := |Selected(rows, ext, user, device)|;
    if n == 0 then NotFound else if n > 1 then MultipleFound else NoError
  }

  ghost function Only(ids: set<nat>): (id: nat)
    requires |ids| == 1
    ensures ids == {id}
  {
    var id :| id in ids;
    assert |ids - {id}| == 0;
    id
  }

  ghost function Find(rows: map<nat, Message>, ext: string, user: string, device: string): (id: nat)
    requires FindError(rows, ext, user, device) == NoError
    ensures id in rows && Matches(rows[id], ext, user, device)
    ensures forall x | x in rows && Matches(rows[x], ext, user, device) :: x == id
  {
    var id := Only(Selected(rows, ext, user, device));
    assert id in Selected(rows, ext, user, device);
    assert forall x | x in rows && Matches(rows[x], ext, user, device) :: x in Selected(rows, ext, user, device);
    id
  }

  // ---------- Enqueueing ----------

  predicate Unique(numbers: seq<string>) {
    forall i, j | 0 <= i < j < |numbers| :: numbers[i] != numbers[j]
  }

  /** The numbers as they will be stored, or nothing if one of them is no phone number. */
  function Prepare(env: Env, numbers: seq<string>, asGiven: bool): Option<seq<string>>
    decreases |numbers|
  {
    if numbers == [] then Some([])
    else
      var rest := Prepare(env, numbers[..|numbers| - 1], asGiven);
      var last := numbers[|numbers| - 1];
      if rest.None? then None
      else if asGiven then Some(rest.value + [last])
      else if env.clean(last).None? then None
      else Some(rest.value + [env.clean(last).value])
  }

  function NewMessage(user: string, device: string, ext: string, content: string, encrypted: bool,
                      numbers: seq<string>, now: int): Message {
    Message(user, device, ext, content, Pending, false, encrypted, now,
            seq(|numbers|, i requires 0 <= i < |numbers| => Recipient(numbers[i], Pending, None)),
            map[Pending := now])
  }

  predicate Exists(rows: map<nat, Message>, ext: string, device: string) {
    exists id | id in rows :: rows[id].ext == ext && rows[id].device == device
  }

  function Insert(s: Store, m: Message): Store {
    Store(s.rows[s.next := m], s.next + 1)
  }

  // ---------- Reports of a device ----------

  /** Reports of old apps lack the plus sign. */
  function Normalise(number: string): string {
    if |number| > 0 && number[0] != '+' then "+" + number else number
  }

  /** Devices do not report Pending: having the message at all is Processed. */
  function Demote(status: Status): Status {
    if status == Pending then Processed else status
  }

  function Reported(env: Env, hashed: bool, r: Recipient): Recipient {
    Recipient(if hashed then env.hash(Normalise(r.number)) else Normalise(r.number), Demote(r.status), r.error)
  }

  function AllReported(env: Env, hashed: bool, reports: seq<Recipient>): seq<Recipient> {
    seq(|reports|, i requires 0 <= i < |reports| => Reported(env, hashed, reports[i]))
  }

  function SetRecipient(recipients: seq<Recipient>, r: Recipient): seq<Recipient> {
    seq(|recipients|, i requires 0 <= i < |recipients| =>
      if recipients[i].number == r.number then r else recipients[i])
  }

  function SetRecipients(recipients: seq<Recipient>, reports: seq<Recipient>): seq<Recipient>
    decreases |reports|
  {
    if reports == [] then recipients
    else SetRecipient(SetRecipients(recipients, reports[..|reports| - 1]), reports[|reports| - 1])
  }

  /** A state that is already in the history keeps its time. */
  function AddHistory(history: map<Status, int>, states: map<Status, int>): map<Status, int> {
    states + history
  }

  function Update(m: Message, status: Status, states: map<Status, int>, reports: seq<Recipient>): Message {
    m.(status := status, history := AddHistory(m.history, states), recipients := SetRecipients(m.recipients, reports))
  }

  // ---------- Hashing, cancelling, deleting ----------

  /** Still of interest to the device. */
  predicate Waiting(status: Status) {
    status == Pending || status == Cancelling
  }

  predicate Hashable(m: Message) {
    !m.hashed && !m.encrypted && !Waiting(m.status) && m.recipients != []
  }

  function HashMessage(env: Env, m: Message): Message {
    m.(hashed := true, content := env.contentHash(m.content),
       recipients := seq(|m.recipients|, i requires 0 <= i < |m.recipients| =>
                       m.recipients[i].(number := env.hash(m.recipients[i].number))))
  }

  /** No ids at all means every message. */
  function HashRows(env: Env, rows: map<nat, Message>, ids: set<nat>): map<nat, Message> {
    map id | id in rows ::
      if Hashable(rows[id]) && (ids == {} || id in ids) then HashMessage(env, rows[id]) else rows[id]
  }

  predicate CancelHits(m: Message, user: string, ext: string) {
    m.ext == ext && m.user == user && m.status == Pending
  }

  function CancelRows(rows: map<nat, Message>, user: string, ext: string): map<nat, Message> {
    map id | id in rows ::
      if CancelHits(rows[id], user, ext) then rows[id].(status := Cancelling) else rows[id]
  }

  predicate CleanupHits(m: Message, until: int) {
    !Waiting(m.status) && m.createdAt < until
  }

  function CleanupRows(rows: map<nat, Message>, until: int): map<nat, Message> {
    map id | id in rows && !CleanupHits(rows[id], until) :: rows[id]
  }

  // ---------- The service, call by call ----------

  datatype Call =
    | Enqueue(device: string, ext: string, newId: string, numbers: seq<string>, content: Option<string>,
              encrypted: bool, skipCheck: bool, now: int)
    | Cancel(user: string, ext: string)
    | Report(device: string, ext: string, status: Status, states: map<Status, int>, reports: seq<Recipient>)
    | Hash(ids: set<nat>)
    | Cleanup(until: int)

  function ExtOf(call: Call): string
    requires call.Enqueue?
  {
    if call.ext == "" then call.newId else call.ext
  }

  function CallError(env: Env, s: Store, call: Call): Error {
    match call
    case Enqueue(device, _, _, numbers, content, encrypted, skipCheck, _) =>
      var prepared := Prepare(env, numbers, encrypted || skipCheck);
      if prepared.None? then BadNumber
      else if !Unique(prepared.value) then NotUnique
      else if content.None? then NoContent
      else if Exists(s.rows, ExtOf(call), device) then AlreadyExists
      else NoError
    case Cancel(user, ext) =>
      if FindError(s.rows, ext, user, "") != NoError then FindError(s.rows, ext, user, "")
      else if forall id | id in s.rows :: !CancelHits(s.rows[id], user, ext) then NotPending
      else NoError
    case Report(device, ext, _, _, _) => FindError(s.rows, ext, "", device)
    case _ => NoError
  }

  ghost function Step(env: Env, s: Store, call: Call): Store {
    if CallError(env, s, call) != NoError then s
    else
      match call
      case Enqueue(device, _, _, numbers, content, encrypted, skipCheck, now) =>
        var prepared := Prepare(env, numbers, encrypted || skipCheck).value;
        Insert(s, NewMessage(env.owner(device), device, ExtOf(call), content.value, encrypted, prepared, now))
      case Cancel(user, ext) => s.(rows := CancelRows(s.rows, user, ext))
      case Report(device, ext, status, states, reports) =>
        var id := Find(s.rows, ext, "", device);
        s.(rows := s.rows[id := Update(s.rows[id], Demote(status), states, AllReported(env, s.rows[id].hashed,
          reports))])
      case Hash(ids) => s.(rows := HashRows(env, s.rows, ids))
      case Cleanup(until) => s.(rows := CleanupRows(s.rows, until))
  }

  function Init(): Store {
    Store(map[], 0)
  }

  ghost function Run(env: Env, s: Store, calls: seq<Call>): Store
    decreases |calls|
  {
    if calls == [] then s else Run(env, Step(env, s, calls[0]), calls[1..])
  }

  /** What the callers are told, hashing and cleanup aside. */
  ghost function Answers(env: Env, s: Store, calls: seq<Call>): seq<Error>
    decreases |calls|
  {
    if calls == [] then []
    else (if calls[0].Hash? then [] else [CallError(env, s, calls[0])]) + Answers(env, Step(env, s, calls[0]),
      calls[1..])
  }
}
