/** Worker processes that share one MySQL server and run each periodic task under a named lock. */
module WorkerLock {
  import opened Options

  type Proc = nat
  type Session = nat
  type Key = string

  /** A session may take a lock it holds again, and must then release it as often. */
  datatype Held = Held(session: Session, count: nat)

  type Locks = map<string, Held>

  const PREFIX: string := "worker:"

  function NameOf(key: Key): string {
    PREFIX + key
  }

  // ---------- The lock functions of the server ----------

  predicate Grantable(locks: Locks, name: string, session: Session) {
    name !in locks || locks[name].session == session
  }

  function Granted(locks: Locks, name: string, session: Session): Locks {
    locks[name := Held(session, if name in locks then locks[name].count + 1 else 1)]
  }

  predicate Holds(locks: Locks, name: string, session: Session) {
    name in locks && locks[name].session == session
  }

  function Released(locks: Locks, name: string, session: Session): Locks {
    if !Holds(locks, name, session) then locks
    else if locks[name].count <= 1 then locks - {name}
    else locks[name := Held(session, locks[name].count - 1)]
  }

  /** A session that ends gives up all it holds. */
  function Dropped(locks: Locks, session: Session): Locks {
    map name | name in locks && locks[name].session != session :: locks[name]
  }

  // ---------- Processes and their tasks ----------

  /** Where the goroutine of one task in one process is: in AcquireLock with a session pinned, or
      with the lock granted but not yet on record; running the task; in ReleaseLock. */
  datatype Phase = Idle | Pinned(session: Session) | Got(session: Session) | Running | Releasing(session: Session)

  datatype Task = Task(proc: Proc, key: Key)

  /** `home` is the process of every open session, `idle` the sessions back in their pools, and
      `conns` the session each process has on record for a key. */
  datatype State = State(phases: map<Task, Phase>, home: map<Session, Proc>, idle: set<Session>,
                         conns: map<Task, Session>, locks: Locks, closedPrevious: bool)

  /** Granted; refused or timed out; or granted although the answer did not get through. */
  datatype Reply = Yes | No | Lost

  datatype Step =
    | Pin(task: Task, session: Session)
    | GetLock(task: Task, reply: Reply)
    | Record(task: Task)
    | Unrecord(task: Task)
    | ReleaseLock(task: Task, lost: bool)
    | EndIdle(session: Session)
    | Close(proc: Proc)

  function Init(): State {
    State(map[], map[], {}, map[], map[], false)
  }

  function PhaseOf(s: State, t: Task): Phase {
    if t in s.phases then s.phases[t] else Idle
  }

  function SetPhase(s: State, t: Task, phase: Phase): State {
    s.(phases := s.phases[t := phase])
  }

  predicate Enabled(s: State, step: Step) {
    match step
    // a session from the pool of the process, or a new one
    case Pin(t, x) => PhaseOf(s, t) == Idle && (if x in s.home then s.home[x] == t.proc && x in s.idle else true)
    case GetLock(t, reply) =>
      && PhaseOf(s, t).Pinned?
      && (reply != No ==> Grantable(s.locks, NameOf(t.key), PhaseOf(s, t).session))
    case Record(t) => PhaseOf(s, t).Got?
    case Unrecord(t) => PhaseOf(s, t) == Running
    case ReleaseLock(t, _) => PhaseOf(s, t).Releasing?
    case EndIdle(x) => x in s.idle
    case Close(p) => forall t | t in s.phases && t.proc == p :: s.phases[t] == Idle
  }

  function Next(s: State, step: Step): State
    requires Enabled(s, step)
  {
    match step
    case Pin(t, x) => SetPhase(s, t, Pinned(x)).(home := s.home[x := t.proc], idle := s.idle - {x})
    case GetLock(t, reply) =>
      var x := PhaseOf(s, t).session;
      if reply == Yes then SetPhase(s, t, Got(x)).(locks := Granted(s.locks, NameOf(t.key), x))
      else SetPhase(s, t, Idle).(idle := s.idle + {x},
                                 locks := if reply == Lost then Granted(s.locks, NameOf(t.key), x) else s.locks)
    case Record(t) =>
      var s' := SetPhase(s, t, Running).(conns := s.conns[t := PhaseOf(s, t).session]);
      if t in s.conns then s'.(idle := s.idle + {s.conns[t]}, closedPrevious := true) else s'
    case Unrecord(t) =>
      if t in s.conns then SetPhase(s, t, Releasing(s.conns[t])).(conns := s.conns - {t})
      else SetPhase(s, t, Idle)
    // if the request is lost, the session goes back to its pool still holding the lock
    case ReleaseLock(t, lost) =>
      var x := PhaseOf(s, t).session;
      SetPhase(s, t, Idle).(idle := s.idle + {x}, locks := if lost then s.locks else Released(s.locks, NameOf(t.key),
        x))
    case EndIdle(x) => s.(home := s.home - {x}, idle := s.idle - {x}, locks := Dropped(s.locks, x))
    case Close(p) =>
      var closed := set t | t in s.conns && t.proc == p :: s.conns[t];
      s.(idle := s.idle + closed, conns := map t | t in s.conns && t.proc != p :: s.conns[t])
  }

  predicate Possible(s: State, steps: seq<Step>)
    decreases |steps|
  {
    steps == [] || (Enabled(s, steps[0]) && Possible(Next(s, steps[0]), steps[1..]))
  }

  function Run(s: State, steps: seq<Step>): State
    requires Possible(s, steps)
    decreases |steps|
  {
    if steps == [] then s else Run(Next(s, steps[0]), steps[1..])
  }

  // ---------- The invariant ----------

  /** The session a task has to itself, if it has one. */
  function Its(s: State, t: Task): Option<Session> {
    match PhaseOf(s, t)
    case Idle => None
    case Running => if t in s.conns then Some(s.conns[t]) else None
    case Pinned(x) => Some(x)
    case Got(x) => Some(x)
    case Releasing(x) => Some(x)
  }

  /** The task was granted its lock and has not yet asked to release it. */
  predicate InLock(s: State, t: Task) {
    PhaseOf(s, t).Got? || PhaseOf(s, t).Running? || PhaseOf(s, t).Releasing?
  }

  ghost predicate TaskOk(s: State, t: Task) {
    && (PhaseOf(s, t).Running? <==> t in s.conns)
    && (Its(s, t).Some? ==>
          var x := Its(s, t).value;
          && x in s.home && s.home[x] == t.proc && x !in s.idle
          && (InLock(s, t) ==> Holds(s.locks, NameOf(t.key), x)))
  }

  ghost predicate Exclusive(s: State) {
    forall t, u | Its(s, t).Some? && Its(s, t) == Its(s, u) :: t == u
  }

  /** A lock is held by an open session, at least once. */
  ghost predicate LocksOk(s: State) {
    forall name | name in s.locks :: s.locks[name].session in s.home && s.locks[name].count > 0
  }

  ghost predicate Inv(s: State) {
    (forall t :: TaskOk(s, t)) && Exclusive(s) && LocksOk(s) && s.idle <= s.home.Keys && !s.closedPrevious
  }

  /** Two tasks under the same lock hold it through the same session, and so are one task. */
  lemma OneInLock(s: State, t: Task, u: Task)
    requires Inv(s) && InLock(s, t) && InLock(s, u) && t.key == u.key
    ensures t == u
  {
    assert TaskOk(s, t) && TaskOk(s, u);
    assert Its(s, t) == Its(s, u);
  }

  lemma PinKeeps(s: State, step: Step)
    requires Inv(s) && Enabled(s, step) && step.Pin?
    ensures Inv(Next(s, step))
  {
    var s' := Next(s, step);
    forall t ensures TaskOk(s', t) && (t != step.task ==> Its(s', t) == Its(s, t) && Its(s, t) != Some(step.session)) {
      assert TaskOk(s, t);
    }
  }

  /** The name of a lock gives back the key. */
  lemma NamesApart(k: Key, l: Key)
    ensures NameOf(k) == NameOf(l) <==> k == l
  {
    assert NameOf(k)[|PREFIX|..] == k && NameOf(l)[|PREFIX|..] == l;
  }

  lemma GetLockKeeps(s: State, step: Step)
    requires Inv(s) && Enabled(s, step) && step.GetLock?
    ensures Inv(Next(s, step))
  {
    var s' := Next(s, step);
    var mine := Its(s, step.task);
    forall t
      ensures TaskOk(s', t) && (t == step.task || (Its(s', t) == Its(s, t) && (mine == Its(s, t) ==> mine.None?)))
    {
      assert TaskOk(s, t) && TaskOk(s, step.task);
      NamesApart(t.key, step.task.key);
    }
    assert TaskOk(s, step.task);
    assert s'.idle <= s'.home.Keys;
  }

  lemma RecordKeeps(s: State, step: Step)
    requires Inv(s) && Enabled(s, step) && (step.Record? || step.Unrecord?)
    ensures Inv(Next(s, step))
  {
    var s' := Next(s, step);
    assert TaskOk(s, step.task);
    forall t ensures TaskOk(s', t) && Its(s', t) == Its(s, t) {
      assert TaskOk(s, t);
    }
  }

  lemma ReleaseLockKeeps(s: State, step: Step)
    requires Inv(s) && Enabled(s, step) && step.ReleaseLock?
    ensures Inv(Next(s, step))
  {
    var s' := Next(s, step);
    var mine := Its(s, step.task);
    forall t ensures TaskOk(s', t) && (t == step.task || Its(s', t) == Its(s, t)) {
      assert TaskOk(s, t) && TaskOk(s, step.task);
      assert mine == Its(s, t) ==> t == step.task;
      NamesApart(t.key, step.task.key);
      if InLock(s, t) && t.key == step.task.key {
        OneInLock(s, t, step.task);
      }
    }
    assert TaskOk(s, step.task);
    assert s'.idle <= s'.home.Keys;
  }

  lemma EndIdleKeeps(s: State, x: Session)
    requires Inv(s) && x in s.idle
    ensures Inv(Next(s, EndIdle(x)))
  {
    var s' := Next(s, EndIdle(x));
    forall t ensures TaskOk(s', t) && Its(s', t) == Its(s, t) {
      assert TaskOk(s, t);
    }
  }

  /** With no task under way there is nothing left to close. */
  lemma CloseFindsNothing(s: State, p: Proc)
    requires Inv(s) && Enabled(s, Close(p))
    ensures Next(s, Close(p)) == s
  {
    forall t | t in s.conns ensures t.proc != p {
      assert TaskOk(s, t);
    }
    assert Next(s, Close(p)).conns == s.conns;
  }

  lemma StepKeeps(s: State, step: Step)
    requires Inv(s) && Enabled(s, step)
    ensures Inv(Next(s, step))
  {
    match step
    case Pin(_, _) => PinKeeps(s, step);
    case GetLock(_, _) => GetLockKeeps(s, step);
    case Record(_) => RecordKeeps(s, step);
    case Unrecord(_) => RecordKeeps(s, step);
    case ReleaseLock(_, _) => ReleaseLockKeeps(s, step);
    case EndIdle(x) => EndIdleKeeps(s, x);
    case Close(p) => CloseFindsNothing(s, p);
  }

  lemma {:induction false} RunKeeps(s: State, steps: seq<Step>)
    requires Inv(s) && Possible(s, steps)
    ensures Inv(Run(s, steps))
    decreases |steps|
  {
    if steps == [] {
    } else {
      StepKeeps(s, steps[0]);
      RunKeeps(Next(s, steps[0]), steps[1..]);
    }
  }

  /** Of all processes, at most one runs a given task at a time, even if releases get lost and
      idle sessions end. */
  lemma MutualExclusion(steps: seq<Step>, t: Task, u: Task)
    requires Possible(Init(), steps) && t.key == u.key
    requires PhaseOf(Run(Init(), steps), t) == Running && PhaseOf(Run(Init(), steps), u) == Running
    ensures t == u
  {
    RunKeeps(Init(), steps);
    OneInLock(Run(Init(), steps), t, u);
  }

  /** AcquireLock never finds a previous connection on record. */
  lemma NoPreviousConnection(steps: seq<Step>, t: Task)
    requires Possible(Init(), steps)
    ensures var s := Run(Init(), steps);
            !s.closedPrevious && (PhaseOf(s, t).Got? ==> t !in s.conns)
  {
    RunKeeps(Init(), steps);
    assert TaskOk(Run(Init(), steps), t);
  }

  // ---------- What a lost release costs ----------

  /** The task holds its lock through session `x`. */
  predicate InLockThrough(s: State, t: Task, key: Key, x: Session) {
    t.key == key && InLock(s, t) && Its(s, t) == Some(x)
  }

  /** Session `x` holds the lock once more than a task needs it: the release that is due will not
      free it. */
  ghost predicate Leaked(s: State, key: Key, x: Session) {
    && x in s.home && Holds(s.locks, NameOf(key), x) && s.locks[NameOf(key)].count >= 1
    && ((exists t :: InLockThrough(s, t, key, x)) ==> s.locks[NameOf(key)].count >= 2)
  }

  /** A lock leaks when a release gets lost, and when a grant does. */
  lemma LossLeaks(s: State, step: Step)
    requires Inv(s) && Enabled(s, step)
    requires (step.ReleaseLock? && step.lost) || (step.GetLock? && step.reply == Lost)
    ensures Leaked(Next(s, step), step.task.key, PhaseOf(s, step.task).session)
  {
    var s', t, x := Next(s, step), step.task, PhaseOf(s, step.task).session;
    assert TaskOk(s, t) && Its(s, t) == Some(x);
    forall u ensures !InLockThrough(s', u, t.key, x) {
      assert TaskOk(s, u);
      assert u == t || Its(s, u) != Some(x);
    }
  }

  /** Who holds a lock through `x` after a step held it before, or was granted it by that step. */
  lemma HoldersAfter(s: State, step: Step, u: Task, key: Key, x: Session)
    requires Inv(s) && Enabled(s, step) && InLockThrough(Next(s, step), u, key, x)
    ensures InLockThrough(s, u, key, x) || (step == GetLock(u, Yes) && Its(s, u) == Some(x))
  {
    assert TaskOk(s, u);
    if step.GetLock? || step.Record? || step.Unrecord? || step.ReleaseLock? {
      assert TaskOk(s, step.task);
    } else if step.Close? {
      CloseFindsNothing(s, step.proc);
    }
  }

  /** Every step that touches the lock does so through the session that holds it. */
  lemma LockAfter(s: State, step: Step, key: Key, x: Session)
    requires Inv(s) && Enabled(s, step) && Holds(s.locks, NameOf(key), x) && step != EndIdle(x)
    ensures var name, n, s' := NameOf(key), s.locks[NameOf(key)].count, Next(s, step);
            if step.GetLock? && step.reply != No && step.task.key == key then
              Its(s, step.task) == Some(x) && Holds(s'.locks, name, x) && s'.locks[name].count == n + 1
            else if step.ReleaseLock? && !step.lost && step.task.key == key then
              && Its(s, step.task) == Some(x)
              && (n > 1 ==> Holds(s'.locks, name, x) && s'.locks[name].count == n - 1)
            else name in s'.locks && s'.locks[name] == s.locks[name]
  {
    if step.GetLock? || step.ReleaseLock? {
      assert TaskOk(s, step.task);
      NamesApart(step.task.key, key);
    }
  }

  /** Nothing but the end of the session takes a leak away, however often the session is picked from
      the pool, granted the lock again and released. */
  lemma LeakStays(s: State, step: Step, key: Key, x: Session)
    requires Inv(s) && Enabled(s, step) && Leaked(s, key, x) && step != EndIdle(x)
    ensures Leaked(Next(s, step), key, x)
  {
    var s' := Next(s, step);
    LockAfter(s, step, key, x);
    if step.ReleaseLock? && !step.lost && step.task.key == key {
      assert InLockThrough(s, step.task, key, x);
      forall u ensures !InLockThrough(s', u, key, x) {
        if InLockThrough(s', u, key, x) {
          HoldersAfter(s, step, u, key, x);
          OneInLock(s, u, step.task);
        }
      }
    } else if u :| InLockThrough(s', u, key, x) {
      HoldersAfter(s, step, u, key, x);
    }
  }

  /** A loss is the only way for a lock to leak. */
  lemma LeaksOnlyByLoss(s: State, step: Step, key: Key, x: Session)
    requires Inv(s) && Enabled(s, step) && !Leaked(s, key, x) && Leaked(Next(s, step), key, x)
    ensures (step.ReleaseLock? && step.lost) || (step.GetLock? && step.reply == Lost)
    ensures step.task.key == key && Its(s, step.task) == Some(x)
  {
    var s' := Next(s, step);
    if Holds(s.locks, NameOf(key), x) {
      var u :| InLockThrough(s, u, key, x);
      assert TaskOk(s, u);
      LockAfter(s, step, key, x);
      if !(step.ReleaseLock? && step.task == u) {
        assert Its(s', u) == Some(x) && InLockThrough(s', u, key, x);
      }
    } else {
      NewHolder(s, step, key, x);
      if step.reply == Yes {
        assert InLockThrough(s', step.task, key, x);
      }
    }
  }

  lemma NewHolder(s: State, step: Step, key: Key, x: Session)
    requires Inv(s) && Enabled(s, step) && !Holds(s.locks, NameOf(key), x) && Holds(Next(s, step).locks, NameOf(key), x)
    ensures step.GetLock? && step.reply != No && step.task.key == key && Its(s, step.task) == Some(x)
    ensures Next(s, step).locks[NameOf(key)].count == 1
  {
    if step.GetLock? || step.ReleaseLock? {
      NamesApart(step.task.key, key);
    }
  }

  /** A task that has a session is granted its lock exactly if no other task of the same key holds it
      and it has not leaked through another session. */
  lemma GrantedIff(s: State, t: Task)
    requires Inv(s) && PhaseOf(s, t).Pinned?
    ensures Enabled(s, GetLock(t, Yes)) <==>
            && (forall u: Task :: u.key == t.key ==> !InLock(s, u))
            && (forall y :: y != PhaseOf(s, t).session ==> !Leaked(s, t.key, y))
  {
    var x, name := PhaseOf(s, t).session, NameOf(t.key);
    assert TaskOk(s, t) && Its(s, t) == Some(x);
    if Grantable(s.locks, name, x) {
      forall u: Task | u.key == t.key ensures !InLock(s, u) {
        assert TaskOk(s, u);
        assert Its(s, u) == Its(s, t) ==> u == t;
      }
    } else {
      var y := s.locks[name].session;
      if u :| InLockThrough(s, u, t.key, y) {
        assert u.key == t.key && InLock(s, u);
      } else {
        assert Leaked(s, t.key, y);
      }
    }
  }

  /** A session that ends is gone, with every lock it held, leaked or not; no other lock changes. */
  lemma EndFrees(s: State, x: Session)
    requires Enabled(s, EndIdle(x))
    ensures var s' := Next(s, EndIdle(x));
            && x !in s'.home && x !in s'.idle && s'.phases == s.phases && s'.conns == s.conns
            && (forall key :: !Holds(s'.locks, NameOf(key), x) && !Leaked(s', key, x))
            && (forall name :: name in s'.locks <==> name in s.locks && s.locks[name].session != x)
            && (forall name | name in s'.locks :: s'.locks[name] == s.locks[name])
            && (forall y | y in s.home && y != x :: y in s'.home && s'.home[y] == s.home[y])
            && (forall y | y in s.idle && y != x :: y in s'.idle)
  {
  }

  /** Once a lock has leaked through a session, no task of any other process is granted it until the
      session ends. */
  lemma {:induction false} LeakShutsOut(s: State, steps: seq<Step>, key: Key, x: Session, t: Task)
    requires Inv(s) && Possible(s, steps) && Leaked(s, key, x) && t.key == key && t.proc != s.home[x]
    requires forall k | 0 <= k < |steps| :: steps[k] != EndIdle(x)
    ensures Leaked(Run(s, steps), key, x) && !Enabled(Run(s, steps), GetLock(t, Yes))
    decreases |steps|
  {
    if steps == [] {
      assert TaskOk(s, t);
      if PhaseOf(s, t).Pinned? {
        GrantedIff(s, t);
      }
    } else {
      LeakStays(s, steps[0], key, x);
      HomeStays(s, steps[0], x);
      StepKeeps(s, steps[0]);
      LeakShutsOut(Next(s, steps[0]), steps[1..], key, x, t);
    }
  }

  lemma HomeStays(s: State, step: Step, x: Session)
    requires Enabled(s, step) && x in s.home && step != EndIdle(x)
    ensures x in Next(s, step).home && Next(s, step).home[x] == s.home[x]
  {
  }

  lemma RunStep(s: State, step: Step, rest: seq<Step>)
    requires Enabled(s, step) && Possible(Next(s, step), rest)
    ensures Possible(s, [step] + rest) && Run(s, [step] + rest) == Run(Next(s, step), rest)
  {
    assert ([step] + rest)[1..] == rest;
  }

  /** From the start: a process runs its task once, the release gets lost, and the lock has leaked. */
  lemma LeakHappens(t: Task, x: Session) returns (steps: seq<Step>)
    ensures Possible(Init(), steps) && Leaked(Run(Init(), steps), t.key, x)
    ensures x in Run(Init(), steps).home && Run(Init(), steps).home[x] == t.proc
  {
    var s1 := Next(Init(), Pin(t, x));
    var s2 := Next(s1, GetLock(t, Yes));
    var s3 := Next(s2, Record(t));
    var s4 := Next(s3, Unrecord(t));
    var s5 := Next(s4, ReleaseLock(t, true));
    StepKeeps(Init(), Pin(t, x));
    StepKeeps(s1, GetLock(t, Yes));
    StepKeeps(s2, Record(t));
    StepKeeps(s3, Unrecord(t));
    LossLeaks(s4, ReleaseLock(t, true));
    RunStep(s4, ReleaseLock(t, true), []);
    RunStep(s3, Unrecord(t), [ReleaseLock(t, true)] + []);
    RunStep(s2, Record(t), [Unrecord(t)] + ([ReleaseLock(t, true)] + []));
    RunStep(s1, GetLock(t, Yes), [Record(t)] + ([Unrecord(t)] + ([ReleaseLock(t, true)] + [])));
    steps := [Pin(t, x)] + ([GetLock(t, Yes)] + ([Record(t)] + ([Unrecord(t)] + ([ReleaseLock(t, true)] + []))));
    RunStep(Init(), Pin(t, x), [GetLock(t, Yes)] + ([Record(t)] + ([Unrecord(t)] + ([ReleaseLock(t, true)] + []))));
  }
}
