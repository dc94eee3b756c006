/** The locks of target paths: which lock a transfer gets, when an entry may be evicted, and what a
    cancelled acquire leaves behind. */
module TargetLocks {

  /** A lock object, by identity. */
  type Lock = nat

  const LOCKS_KEPT := 256

  // ----- the two maps -----

  datatype Registry = Registry(locks: map<string, Lock>, users: map<string, nat>)

  function UsersOf(users: map<string, nat>, key: string): nat {
    if key in users then users[key] else 0
  }

  function Entered(r: Registry, key: string, spare: Lock): Registry {
    Registry(if key in r.locks then r.locks else r.locks[key := spare], r.users[key := UsersOf(r.users, key) + 1])
  }

  function Unpinned(users: map<string, nat>, key: string): map<string, nat> {
    var count := if key in users then users[key] else 1;
    if count <= 1 then users - {key} else users[key := count - 1]
  }

  /** Above the limit, every entry goes that is neither pinned by a user nor held. */
  function Evicted(locks: map<string, Lock>, users: map<string, nat>, held: set<Lock>): map<string, Lock> {
    if |locks| <= LOCKS_KEPT then locks
    else map key | key in locks && (key in users || locks[key] in held) :: locks[key]
  }

  function Exited(r: Registry, key: string, held: set<Lock>): Registry {
    var users := Unpinned(r.users, key);
    Registry(Evicted(r.locks, users, held), users)
  }

  /** The two halves of `_target_path_lock`, each under the guard. */
  class LockTable {
    var locks: map<string, Lock>
    var users: map<string, nat>
    var next: Lock

    function State(): Registry
      reads this
    {
      Registry(locks, users)
    }

    method Enter(key: string) returns (lock: Lock)
      modifies this
      ensures State() == Entered(old(State()), key, old(next))
      ensures lock == locks[key] && next == old(next) + 1
    {
      if key !in locks {
        locks := locks[key := next];
      }
      next := next + 1;
      users := users[key := (if key in users then users[key] else 0) + 1];
      lock := locks[key];
    }

    method Exit(key: string, held: set<Lock>)
      modifies this`locks, this`users
      ensures State() == Exited(old(State()), key, held)
      ensures forall k :: k in old(locks) && (k in users || old(locks)[k] in held) ==> k in locks && locks[k] == old(locks)[k]
      ensures |locks| <= LOCKS_KEPT || forall k :: k in locks ==> k in users || locks[k] in held
    {
      var remaining := (if key in users then users[key] else 1) as int - 1;
      if remaining <= 0 {
        users := users - {key};
      } else {
        users := users[key := remaining];
      }
      if |locks| > LOCKS_KEPT {
        ghost var all := locks;
        var rest := locks.Keys;
        while rest != {}
          invariant rest <= all.Keys && users == Unpinned(old(users), key)
          invariant forall k :: k in locks <==> k in all && (k in rest || k in users || all[k] in held)
          invariant forall k :: k in locks ==> locks[k] == all[k]
          decreases rest
        {
          var stale :| stale in rest;
          rest := rest - {stale};
          if stale !in users && locks[stale] !in held {
            locks := locks - {stale};
          }
        }
        assert locks == Evicted(all, users, held);
      }
    }
  }

  // ----- every interleaving -----

  /** One use of the context manager: the path it asked for and the lock object it was handed. */
  datatype Session = Session(key: string, lock: Lock)

  /** The thread that calls `acquire`, and the coroutine that waits for it. */
  datatype Worker = Waiting | Took | TimedOut
  datatype Caller = Awaiting | Returned(acquired: bool) | Cancelled

  /** One acquire. `over` once its lock, if it took one, has been released again: by the caller, or by the
      callback that a cancelled caller leaves behind. */
  datatype Task = Task(session: nat, lock: Lock, worker: Worker, caller: Caller, over: bool)

  datatype World = World(
    registry: Registry, next: Lock, sessions: map<nat, Session>, tasks: map<nat, Task>, held: map<Lock, nat>)

  datatype Event =
    | Enter(key: string)        // a new session, numbered like the spare lock that goes with it
    | Exit(s: nat)
    | Acquire(t: nat, s: nat)   // start an acquire inside a session
    | Take(t: nat)              // the thread gets the lock
    | TimeOut(t: nat)           // the thread gives up
    | Cancel(t: nat)            // the waiting coroutine is cancelled
    | Return(t: nat)            // it is handed the result
    | Callback(t: nat)          // the orphaned result arrives
    | Release(t: nat)           // the caller releases what it acquired

  function Free(w: World, t: nat): World
    requires t in w.tasks
  {
    var k := w.tasks[t];
    w.(tasks := w.tasks[t := k.(over := true)],
       held := if k.worker.Took? then w.held - {k.lock} else w.held)
  }

  function Step(w: World, e: Event): World {
    match e
    case Enter(key) =>
      var r := Entered(w.registry, key, w.next);
      w.(registry := r, next := w.next + 1, sessions := w.sessions[w.next := Session(key, r.locks[key])])
    case Exit(s) =>
      if s !in w.sessions then w
      else w.(registry := Exited(w.registry, w.sessions[s].key, w.held.Keys), sessions := w.sessions - {s})
    case Acquire(t, s) =>
      if s !in w.sessions || t in w.tasks then w
      else w.(tasks := w.tasks[t := Task(s, w.sessions[s].lock, Waiting, Awaiting, false)])
    case Take(t) =>
      if t !in w.tasks || !w.tasks[t].worker.Waiting? || w.tasks[t].lock in w.held then w
      else w.(tasks := w.tasks[t := w.tasks[t].(worker := Took)], held := w.held[w.tasks[t].lock := t])
    case TimeOut(t) =>
      if t !in w.tasks || !w.tasks[t].worker.Waiting? then w
      else w.(tasks := w.tasks[t := w.tasks[t].(worker := TimedOut)])
    case Cancel(t) =>
      if t !in w.tasks || !w.tasks[t].caller.Awaiting? then w
      else w.(tasks := w.tasks[t := w.tasks[t].(caller := Cancelled)])
    case Return(t) =>
      if t !in w.tasks || !w.tasks[t].caller.Awaiting? || w.tasks[t].worker.Waiting? then w
      else w.(tasks := w.tasks[t := w.tasks[t].(caller := Returned(w.tasks[t].worker.Took?))])
    case Callback(t) =>
      if t !in w.tasks || !w.tasks[t].caller.Cancelled? || w.tasks[t].worker.Waiting? || w.tasks[t].over then w
      else Free(w, t)
    case Release(t) =>
      if t !in w.tasks || w.tasks[t].caller != Returned(true) || w.tasks[t].over then w
      else Free(w, t)
  }

  function Run(w: World, es: seq<Event>): World
    decreases |es|
  {
    if es == [] then w else Step(Run(w, es[..|es| - 1]), es[|es| - 1])
  }

  // ----- the invariant -----

  function SessionsOf(sessions: map<nat, Session>, key: string): set<nat> {
    set s | s in sessions && sessions[s].key == key
  }

  /** The users of a path are counted, and all of them have the lock the table has. */
  ghost predicate PinsOk(r: Registry, sessions: map<nat, Session>) {
    && (forall key :: UsersOf(r.users, key) == |SessionsOf(sessions, key)| && (key in r.users ==> r.users[key] > 0))
    && (forall s :: s in sessions ==> sessions[s].key in r.locks && r.locks[sessions[s].key] == sessions[s].lock)
  }

  /** A lock is held exactly by an acquire that took it and has not released it. */
  ghost predicate HeldOk(tasks: map<nat, Task>, held: map<Lock, nat>) {
    && (forall l :: l in held ==> held[l] in tasks && tasks[held[l]].lock == l && tasks[held[l]].worker.Took? && !tasks[held[l]].over)
    && (forall t :: t in tasks && tasks[t].worker.Took? && !tasks[t].over ==> tasks[t].lock in held && held[tasks[t].lock] == t)
    && (forall t :: t in tasks && tasks[t].over ==>
          !tasks[t].worker.Waiting? && (tasks[t].caller.Cancelled? || tasks[t].caller == Returned(true)))
    && (forall t :: t in tasks && tasks[t].caller == Returned(true) ==> tasks[t].worker.Took?)
    && (forall t :: t in tasks && tasks[t].caller.Returned? ==> !tasks[t].worker.Waiting?)
    && (forall t :: t in tasks && tasks[t].caller == Returned(false) ==> tasks[t].worker.TimedOut?)
  }

  /** Different paths have different lock objects, and new ones are new. */
  ghost predicate LocksOk(r: Registry, next: Lock) {
    && (forall k :: k in r.locks ==> r.locks[k] < next)
    && (forall j, k :: j in r.locks && k in r.locks && r.locks[j] == r.locks[k] ==> j == k)
  }

  /** Sessions are numbered once, and an acquire is for the lock its session was handed. */
  ghost predicate SessionsOk(sessions: map<nat, Session>, tasks: map<nat, Task>, next: Lock) {
    && (forall s :: s in sessions ==> s < next)
    && (forall t :: t in tasks ==> tasks[t].session < next)
    && (forall t :: t in tasks && tasks[t].session in sessions ==> sessions[tasks[t].session].lock == tasks[t].lock)
  }

  ghost predicate Inv(w: World) {
    && PinsOk(w.registry, w.sessions) && HeldOk(w.tasks, w.held) && LocksOk(w.registry, w.next)
    && SessionsOk(w.sessions, w.tasks, w.next)
  }

  lemma EnterPins(r: Registry, sessions: map<nat, Session>, s: nat, key: string, spare: Lock)
    requires PinsOk(r, sessions) && s !in sessions
    ensures var r' := Entered(r, key, spare); PinsOk(r', sessions[s := Session(key, r'.locks[key])])
  {
    var r' := Entered(r, key, spare);
    var sessions' := sessions[s := Session(key, r'.locks[key])];
    forall k
      ensures UsersOf(r'.users, k) == |SessionsOf(sessions', k)|
    {
      OneMore(sessions, s, Session(key, r'.locks[key]), k);
    }
    forall o | o in sessions'
      ensures sessions'[o].key in r'.locks && r'.locks[sessions'[o].key] == sessions'[o].lock
    {
      if o != s { assert sessions[o].key in r.locks; }
    }
  }

  lemma OneMore(sessions: map<nat, Session>, s: nat, x: Session, k: string)
    requires s !in sessions
    ensures |SessionsOf(sessions[s := x], k)| == |SessionsOf(sessions, k)| + if k == x.key then 1 else 0
  {
    assert SessionsOf(sessions[s := x], k) == SessionsOf(sessions, k) + if k == x.key then {s} else {};
  }

  lemma EnterLocks(r: Registry, key: string, next: Lock)
    requires LocksOk(r, next)
    ensures LocksOk(Entered(r, key, next), next + 1)
  {
  }

  lemma ExitPins(r: Registry, sessions: map<nat, Session>, s: nat, held: set<Lock>)
    requires PinsOk(r, sessions) && s in sessions
    ensures PinsOk(Exited(r, sessions[s].key, held), sessions - {s})
  {
    var key, sessions' := sessions[s].key, sessions - {s};
    var r' := Exited(r, key, held);
    assert s in SessionsOf(sessions, key);
    forall k
      ensures UsersOf(r'.users, k) == |SessionsOf(sessions', k)|
    {
      assert SessionsOf(sessions', k) == SessionsOf(sessions, k) - if k == key then {s} else {};
    }
    forall o | o in sessions'
      ensures sessions'[o].key in r'.users
    {
      assert o in SessionsOf(sessions', sessions'[o].key);
    }
  }

  lemma ExitLocks(r: Registry, key: string, next: Lock, held: set<Lock>)
    requires LocksOk(r, next)
    ensures LocksOk(Exited(r, key, held), next)
  {
  }

  lemma TakeHeld(tasks: map<nat, Task>, held: map<Lock, nat>, t: nat)
    requires HeldOk(tasks, held) && t in tasks && tasks[t].worker.Waiting? && tasks[t].lock !in held
    ensures HeldOk(tasks[t := tasks[t].(worker := Took)], held[tasks[t].lock := t])
  {
  }

  lemma CallHeld(tasks: map<nat, Task>, held: map<Lock, nat>, t: nat, k: Task)
    requires HeldOk(tasks, held)
    requires if t in tasks then
               && k == tasks[t].(worker := k.worker, caller := k.caller) && tasks[t].caller != Returned(true) && !tasks[t].over
               && (k.worker == tasks[t].worker || (tasks[t].worker.Waiting? && k.worker.TimedOut?))
               && (k.caller == tasks[t].caller || k.caller.Cancelled?
                   || (!k.worker.Waiting? && k.caller == Returned(k.worker.Took?)))
             else k.worker.Waiting? && k.caller.Awaiting? && !k.over
    ensures HeldOk(tasks[t := k], held)
  {
  }

  lemma FreeHeld(tasks: map<nat, Task>, held: map<Lock, nat>, t: nat)
    requires HeldOk(tasks, held) && t in tasks && !tasks[t].over && !tasks[t].worker.Waiting?
    requires tasks[t].caller.Cancelled? || tasks[t].caller == Returned(true)
    ensures HeldOk(tasks[t := tasks[t].(over := true)], if tasks[t].worker.Took? then held - {tasks[t].lock} else held)
  {
  }

  lemma StepKeepsSessions(w: World, e: Event)
    requires SessionsOk(w.sessions, w.tasks, w.next)
    ensures SessionsOk(Step(w, e).sessions, Step(w, e).tasks, Step(w, e).next)
  {
  }

  lemma StepKeepsLocks(w: World, e: Event)
    requires PinsOk(w.registry, w.sessions) && HeldOk(w.tasks, w.held) && LocksOk(w.registry, w.next)
    requires SessionsOk(w.sessions, w.tasks, w.next)
    ensures var w' := Step(w, e);
      PinsOk(w'.registry, w'.sessions) && HeldOk(w'.tasks, w'.held) && LocksOk(w'.registry, w'.next)
  {
    match e
    case Enter(key) =>
      EnterPins(w.registry, w.sessions, w.next, key, w.next);
      EnterLocks(w.registry, key, w.next);
    case Exit(s) =>
      if s in w.sessions {
        ExitPins(w.registry, w.sessions, s, w.held.Keys);
        ExitLocks(w.registry, w.sessions[s].key, w.next, w.held.Keys);
      }
    case Take(t) => if Step(w, e) != w { TakeHeld(w.tasks, w.held, t); }
    case Callback(t) => if Step(w, e) != w { FreeHeld(w.tasks, w.held, t); }
    case Release(t) => if Step(w, e) != w { FreeHeld(w.tasks, w.held, t); }
    case _ =>
      if Step(w, e) != w {
        assert Step(w, e).tasks == w.tasks[e.t := Step(w, e).tasks[e.t]];
        CallHeld(w.tasks, w.held, e.t, Step(w, e).tasks[e.t]);
      }
  }

  lemma StepKeeps(w: World, e: Event)
    requires Inv(w)
    ensures Inv(Step(w, e))
  {
    StepKeepsSessions(w, e);
    StepKeepsLocks(w, e);
  }

  ghost predicate Initial(w: World) {
    w.registry == Registry(map[], map[]) && w.sessions == map[] && w.tasks == map[] && w.held == map[]
  }

  lemma {:induction false} RunKeeps(w: World, es: seq<Event>)
    requires Inv(w)
    ensures Inv(Run(w, es))
    decreases |es|
  {
    if es != [] {
      RunKeeps(w, es[..|es| - 1]);
      StepKeeps(Run(w, es[..|es| - 1]), es[|es| - 1]);
    }
  }

  lemma InitialIsOk(w: World)
    requires Initial(w)
    ensures Inv(w)
  {
    forall key
      ensures SessionsOf(w.sessions, key) == {}
    {
    }
  }

  // ----- what it means -----

  /** Whoever returned from an acquire with success holds the lock until it releases it. */
  predicate Holds(w: World, t: nat) {
    t in w.tasks && w.tasks[t].caller == Returned(true) && !w.tasks[t].over
  }

  /** In every interleaving, all current users of a path - waiting, holding or neither - were handed the
      same lock object, and it is the one the table has. */
  lemma UsersShareTheLock(start: World, es: seq<Event>, s1: nat, s2: nat)
    requires Initial(start)
    requires var w := Run(start, es);
      s1 in w.sessions && s2 in w.sessions && w.sessions[s1].key == w.sessions[s2].key
    ensures var w := Run(start, es); var key := w.sessions[s1].key;
      && w.sessions[s1].lock == w.sessions[s2].lock
      && key in w.registry.locks && w.registry.locks[key] == w.sessions[s1].lock
  {
    InitialIsOk(start);
    RunKeeps(start, es);
  }

  /** So users of one path exclude each other: of all the acquires that any two of them started, at most
      one holds its lock. */
  lemma OneHolderPerPath(start: World, es: seq<Event>, t1: nat, t2: nat)
    requires Initial(start)
    requires var w := Run(start, es);
      && Holds(w, t1) && Holds(w, t2) && w.tasks[t1].session in w.sessions && w.tasks[t2].session in w.sessions
      && w.sessions[w.tasks[t1].session].key == w.sessions[w.tasks[t2].session].key
    ensures t1 == t2
  {
    var w := Run(start, es);
    UsersShareTheLock(start, es, w.tasks[t1].session, w.tasks[t2].session);
    InitialIsOk(start);
    RunKeeps(start, es);
  }

  /** Users of different paths never have the same lock object. */
  lemma PathsHaveTheirOwnLocks(start: World, es: seq<Event>, s1: nat, s2: nat)
    requires Initial(start)
    requires var w := Run(start, es);
      s1 in w.sessions && s2 in w.sessions && w.sessions[s1].key != w.sessions[s2].key
    ensures var w := Run(start, es); w.sessions[s1].lock != w.sessions[s2].lock
  {
    InitialIsOk(start);
    RunKeeps(start, es);
  }

  /** No thread is still waiting, every caller is gone or has its answer, and every orphaned result has
      arrived. */
  predicate IsQuiet(w: World) {
    forall t :: t in w.tasks ==>
      && !w.tasks[t].worker.Waiting? && !w.tasks[t].caller.Awaiting?
      && (w.tasks[t].caller.Cancelled? ==> w.tasks[t].over)
  }

  /** Cancelling an acquire leaks no lock: in every run, once things are quiet, a lock is held if and only
      if an acquire returned success to a caller that has not released it. */
  lemma CancelledAcquiresLeakNothing(start: World, es: seq<Event>, l: Lock)
    requires Initial(start) && IsQuiet(Run(start, es))
    ensures var w := Run(start, es); l in w.held <==> exists t :: Holds(w, t) && w.tasks[t].lock == l
  {
    InitialIsOk(start);
    RunKeeps(start, es);
    var w := Run(start, es);
    if l in w.held {
      assert Holds(w, w.held[l]);
    }
  }
}
