/** The locker of one process and the executor that runs tasks under it. */
module WorkerService {
  import opened WorkerLock

  class Server {
    var locks: Locks

    constructor ()
      ensures locks == map[]
    {
      locks := map[];
    }

    /** `patient` is whether the lock could be waited for. */
    method GetLock(name: string, session: Session, patient: bool) returns (granted: bool)
      modifies this
      ensures granted <==> patient && Grantable(old(locks), name, session)
      ensures locks == if granted then Granted(old(locks), name, session) else old(locks)
    {
      granted := patient && (name !in locks || locks[name].session == session);
      if granted {
        locks := locks[name := Held(session, if name in locks then locks[name].count + 1 else 1)];
      }
    }

    method ReleaseLock(name: string, session: Session) returns (released: bool)
      modifies this
      ensures released <==> Holds(old(locks), name, session)
      ensures locks == Released(old(locks), name, session)
    {
      released := name in locks && locks[name].session == session;
      if released {
        locks := if locks[name].count <= 1 then locks - {name} else locks[name := Held(session, locks[name].count - 1)];
      }
    }
  }

  class Locker {
    const server: Server
    var conns: map<Key, Session>
    /** The sessions in the pool. */
    var idle: set<Session>

    constructor (server: Server, sessions: set<Session>)
      ensures this.server == server && conns == map[] && idle == sessions
    {
      this.server := server;
      conns, idle := map[], sessions;
    }

    method AcquireLock(key: Key, session: Session, patient: bool) returns (ok: bool)
      modifies this, server
      ensures ok <==> patient && Grantable(old(server.locks), NameOf(key), session)
      ensures server.locks == if ok then Granted(old(server.locks), NameOf(key), session) else old(server.locks)
      ensures conns == if ok then old(conns)[key := session] else old(conns)
      ensures idle == if !ok then old(idle) + {session}
                      else old(idle) - {session} + if key in old(conns) then {old(conns)[key]} else {}
    {
      idle := idle - {session};
      ok := server.GetLock(PREFIX + key, session, patient);
      if !ok {
        idle := idle + {session};
        return;
      }
      if key in conns {
        idle := idle + {conns[key]};
      }
      conns := conns[key := session];
    }

    /** `sent` is whether the request to release gets through. */
    method ReleaseLock(key: Key, sent: bool) returns (ok: bool)
      modifies this, server
      ensures ok <==> key in old(conns) && sent && Holds(old(server.locks), NameOf(key), old(conns)[key])
      ensures conns == old(conns) - {key}
      ensures idle == old(idle) + if key in old(conns) then {old(conns)[key]} else {}
      ensures server.locks ==
              if key in old(conns) && sent then Released(old(server.locks), NameOf(key), old(conns)[key])
              else old(server.locks)
    {
      if key !in conns {
        return false;
      }
      var session := conns[key];
      conns := conns - {key};
      ok := false;
      if sent {
        ok := server.ReleaseLock(PREFIX + key, session);
      }
      idle := idle + {session};
    }

    /** Puts every session on record back into the pool. */
    method Close()
      modifies this
      ensures conns == map[] && idle == old(idle) + old(conns).Values
    {
      while conns != map[]
        invariant idle + conns.Values == old(idle) + old(conns).Values
        decreases |conns|
      {
        var key :| key in conns;
        ValuesWithout(conns, key);
        idle := idle + {conns[key]};
        conns := conns - {key};
      }
    }
  }

  lemma ValuesWithout(conns: map<Key, Session>, key: Key)
    requires key in conns
    ensures conns.Values == (conns - {key}).Values + {conns[key]}
  {
    forall x | x in conns.Values ensures x in (conns - {key}).Values + {conns[key]} {
      var k :| k in conns && conns[k] == x;
      if k != key {
        assert (conns - {key})[k] == x;
      }
    }
  }

  lemma ReleaseUndoesGrant(locks: Locks, name: string, session: Session)
    requires Grantable(locks, name, session) && forall n | n in locks :: locks[n].count > 0
    ensures Released(Granted(locks, name, session), name, session) == locks
  {
  }

  // ---------- One process among many ----------

  /** What one process has, seen from the state of all of them. */
  ghost predicate Mirrors(s: State, proc: Proc, conns: map<Key, Session>, idle: set<Session>, locks: Locks) {
    && s.locks == locks
    && (forall key :: key in conns <==> Task(proc, key) in s.conns)
    && (forall key | key in conns :: s.conns[Task(proc, key)] == conns[key])
    && (forall x :: x in idle <==> x in s.idle && x in s.home && s.home[x] == proc)
  }

  /** The steps lead from one state to the other. */
  ghost predicate Leads(s: State, steps: seq<Step>, s': State) {
    Possible(s, steps) && Run(s, steps) == s'
  }

  lemma {:induction false} LeadsOn(s: State, a: seq<Step>, s1: State, b: seq<Step>, s2: State)
    requires Leads(s, a, s1) && Leads(s1, b, s2)
    ensures Leads(s, a + b, s2)
    decreases |a|
  {
    if a == [] {
      assert a + b == b;
    } else {
      assert (a + b)[1..] == a[1..] + b;
      LeadsOn(Next(s, a[0]), a[1..], s1, b, s2);
    }
  }

  lemma OneStep(s: State, step: Step)
    requires Enabled(s, step)
    ensures Leads(s, [step], Next(s, step))
  {
    RunStep(s, step, []);
    assert [step] + [] == [step];
  }

  function GrantPath(t: Task, x: Session): seq<Step> {
    [Pin(t, x)] + [GetLock(t, Yes)] + [Record(t)]
  }

  function RefusePath(t: Task, x: Session): seq<Step> {
    [Pin(t, x)] + [GetLock(t, No)]
  }

  function ReleasePath(t: Task, lost: bool): seq<Step> {
    [Unrecord(t)] + [Step.ReleaseLock(t, lost)]
  }

  /** The process may pin the session: one of its own from the pool, or a new one. */
  predicate Pinnable(s: State, t: Task, x: Session) {
    PhaseOf(s, t) == Idle && (x in s.home ==> s.home[x] == t.proc && x in s.idle)
  }

  lemma GrantSteps(s: State, t: Task, x: Session) returns (s': State)
    requires Inv(s) && Pinnable(s, t, x) && Grantable(s.locks, NameOf(t.key), x)
    ensures Leads(s, GrantPath(t, x), s') && Inv(s') && PhaseOf(s', t) == Running
    ensures s'.conns == s.conns[t := x] && s'.idle == s.idle - {x} && s'.home == s.home[x := t.proc]
    ensures s'.locks == Granted(s.locks, NameOf(t.key), x)
  {
    var s1 := Next(s, Pin(t, x));
    var s2 := Next(s1, GetLock(t, Yes));
    s' := Next(s2, Record(t));
    StepKeeps(s, Pin(t, x));
    StepKeeps(s1, GetLock(t, Yes));
    StepKeeps(s2, Record(t));
    assert TaskOk(s, t);
    OneStep(s, Pin(t, x));
    OneStep(s1, GetLock(t, Yes));
    OneStep(s2, Record(t));
    LeadsOn(s, [Pin(t, x)], s1, [GetLock(t, Yes)], s2);
    LeadsOn(s, [Pin(t, x)] + [GetLock(t, Yes)], s2, [Record(t)], s');
  }

  lemma RefuseSteps(s: State, t: Task, x: Session) returns (s': State)
    requires Inv(s) && Pinnable(s, t, x)
    ensures Leads(s, RefusePath(t, x), s') && Inv(s') && PhaseOf(s', t) == Idle
    ensures s'.conns == s.conns && s'.idle == s.idle + {x} && s'.home == s.home[x := t.proc] && s'.locks == s.locks
  {
    var s1 := Next(s, Pin(t, x));
    s' := Next(s1, GetLock(t, No));
    StepKeeps(s, Pin(t, x));
    StepKeeps(s1, GetLock(t, No));
    OneStep(s, Pin(t, x));
    OneStep(s1, GetLock(t, No));
    LeadsOn(s, [Pin(t, x)], s1, [GetLock(t, No)], s');
  }

  lemma ReleaseSteps(s: State, t: Task, lost: bool) returns (s': State)
    requires Inv(s) && PhaseOf(s, t) == Running && t in s.conns
    ensures Leads(s, ReleasePath(t, lost), s') && Inv(s') && PhaseOf(s', t) == Idle
    ensures s'.conns == s.conns - {t} && s'.idle == s.idle + {s.conns[t]} && s'.home == s.home
    ensures s'.locks == if lost then s.locks else Released(s.locks, NameOf(t.key), s.conns[t])
  {
    var s1 := Next(s, Unrecord(t));
    s' := Next(s1, Step.ReleaseLock(t, lost));
    StepKeeps(s, Unrecord(t));
    StepKeeps(s1, Step.ReleaseLock(t, lost));
    OneStep(s, Unrecord(t));
    OneStep(s1, Step.ReleaseLock(t, lost));
    LeadsOn(s, [Unrecord(t)], s1, [Step.ReleaseLock(t, lost)], s');
  }

  /** Granted, the process has the session on record and out of its pool. */
  lemma GrantMirrors(s: State, proc: Proc, key: Key, x: Session, conns: map<Key, Session>, idle: set<Session>)
    returns (s': State)
    requires Inv(s) && Pinnable(s, Task(proc, key), x) && Grantable(s.locks, NameOf(key), x)
    requires Mirrors(s, proc, conns, idle, s.locks)
    ensures Leads(s, GrantPath(Task(proc, key), x), s') && Inv(s') && PhaseOf(s', Task(proc, key)) == Running
    ensures Mirrors(s', proc, conns[key := x], idle - {x}, Granted(s.locks, NameOf(key), x)) && key !in conns
    ensures forall t: Task | t.key == key && PhaseOf(s', t) == Running :: t.proc == proc
    ensures forall name | name in s.locks :: s.locks[name].count > 0
  {
    assert TaskOk(s, Task(proc, key));
    s' := GrantSteps(s, Task(proc, key), x);
    forall t: Task | t.key == key && PhaseOf(s', t) == Running ensures t.proc == proc {
      OneInLock(s', t, Task(proc, key));
    }
  }

  lemma RefuseMirrors(s: State, proc: Proc, key: Key, x: Session, conns: map<Key, Session>, idle: set<Session>)
    returns (s': State)
    requires Inv(s) && Pinnable(s, Task(proc, key), x) && Mirrors(s, proc, conns, idle, s.locks)
    ensures Leads(s, RefusePath(Task(proc, key), x), s') && Inv(s')
    ensures Mirrors(s', proc, conns, idle + {x}, s.locks)
  {
    s' := RefuseSteps(s, Task(proc, key), x);
  }

  lemma ReleaseMirrors(s: State, proc: Proc, key: Key, lost: bool, conns: map<Key, Session>, idle: set<Session>)
    returns (s': State)
    requires Inv(s) && PhaseOf(s, Task(proc, key)) == Running && Mirrors(s, proc, conns, idle, s.locks)
    requires key in conns
    ensures Leads(s, ReleasePath(Task(proc, key), lost), s') && Inv(s')
    ensures Mirrors(s', proc, conns - {key}, idle + {conns[key]},
                    if lost then s.locks else Released(s.locks, NameOf(key), conns[key]))
  {
    assert TaskOk(s, Task(proc, key));
    s' := ReleaseSteps(s, Task(proc, key), lost);
  }

  /** The record of a session and its place in the pool before and after a round. */
  lemma BackAgain(conns: map<Key, Session>, idle: set<Session>, key: Key, x: Session)
    requires key !in conns
    ensures conns[key := x] - {key} == conns && (idle - {x}) + {x} == idle + {x}
  {
  }

  datatype Outcome = Succeeded | Failed | Panicked

  class Executor {
    const locker: Locker
    const proc: Proc
    var active: nat
    /** The results observed, oldest first. */
    var results: seq<(Key, Outcome)>
    /** The states of all processes in which this one ran a task, oldest first. */
    ghost var during: seq<State>

    constructor (proc: Proc, locker: Locker)
      ensures this.locker == locker && this.proc == proc && active == 0 && results == [] && during == []
    {
      this.locker, this.proc := locker, proc;
      active, results, during := 0, [], [];
    }

    /** This process is as `s` has it. */
    ghost predicate Within(s: State)
      reads locker, locker.server
    {
      Inv(s) && Mirrors(s, proc, locker.conns, locker.idle, locker.server.locks)
    }

    /** The task itself, counted as active while it runs; it may only run while it has its lock.  What it does is
        not modelled, how it ends is given.  A panic is recovered and no result observed. */
    method RunTask(key: Key, outcome: Outcome, ghost s: State)
      requires Within(s) && PhaseOf(s, Task(proc, key)) == Running
      requires key in locker.conns && Holds(locker.server.locks, NameOf(key), locker.conns[key])
      modifies this
      ensures active == old(active) && during == old(during) + [s]
      ensures results == old(results) + if outcome == Panicked then [] else [(key, outcome)]
    {
      active := active + 1;
      during := during + [s];
      if outcome != Panicked {
        results := results + [(key, outcome)];
      }
      active := active - 1;
    }

    /** One round: lock, run, release; `s` is the state of all processes before it, and `steps` are the steps it
        takes.  The task runs if and only if the lock was granted, and then while no other task of its key does.
        Whether it succeeds, fails or panics, and whether it ran at all, the round leaves the locks of the server,
        the records of the locker and the pool as they were, if the request to release gets through: it is lost
        if the context is cancelled while the task runs. */
    method Execute(key: Key, session: Session, patient: bool, outcome: Outcome, sent: bool, ghost s: State)
      returns (ran: bool, ghost steps: seq<Step>)
      requires Within(s) && Pinnable(s, Task(proc, key), session)
      modifies this, locker, locker.server
      ensures ran <==> patient && Grantable(old(locker.server.locks), NameOf(key), session)
      ensures active == old(active)
      ensures results == old(results) + if ran && outcome != Panicked then [(key, outcome)] else []
      ensures locker.conns == old(locker.conns) && locker.idle == old(locker.idle) + {session}
      ensures locker.server.locks == if ran && !sent then Granted(old(locker.server.locks), NameOf(key), session)
                                     else old(locker.server.locks)
      ensures steps == if ran then GrantPath(Task(proc, key), session) + ReleasePath(Task(proc, key), !sent)
                       else RefusePath(Task(proc, key), session)
      ensures Possible(s, steps) && Within(Run(s, steps))
      ensures ran ==>
                && |during| == |old(during)| + 1 && during[..|old(during)|] == old(during)
                && Leads(s, GrantPath(Task(proc, key), session), during[|old(during)|])
                && forall t: Task | t.key == key && PhaseOf(during[|old(during)|], t) == Running :: t.proc == proc
      ensures !ran ==> during == old(during)
    {
      ghost var t, conns, idle, locks := Task(proc, key), locker.conns, locker.idle, locker.server.locks;
      ran := locker.AcquireLock(key, session, patient);
      if !ran {
        steps := RefusePath(t, session);
        ghost var refused := RefuseMirrors(s, proc, key, session, conns, idle);
        return;
      }
      ghost var s1 := GrantMirrors(s, proc, key, session, conns, idle);
      assert key !in conns && locker.conns == conns[key := session] && locker.idle == idle - {session};
      RunTask(key, outcome, s1);
      ReleaseUndoesGrant(locks, NameOf(key), session);
      var released := locker.ReleaseLock(key, sent);
      ghost var s2 := ReleaseMirrors(s1, proc, key, !sent, conns[key := session], idle - {session});
      BackAgain(conns, idle, key, session);
      LeadsOn(s, GrantPath(t, session), s1, ReleasePath(t, !sent), s2);
      steps := GrantPath(t, session) + ReleasePath(t, !sent);
    }
  }
}
