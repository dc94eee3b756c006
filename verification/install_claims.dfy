/** Claims and retries: what a transfer id is bound to, how often it can commit, and what recovery
    leaves behind. */
module InstallClaims {
  import opened InstallNames
  import opened InstallModel
  import opened InstallMachine
  import opened InstallInvariant
  import opened InstallSteps
  import opened InstallRecords
  import opened InstallSafety

  // ----- what any step may do to the record of one transfer -----

  /** The entry needs an administrator, in the journal and in the copy recovery is editing. */
  predicate NeedsAdmin(w: World, k: Key) {
    && k in w.journal && w.journal[k].status == RecoveryRequired
    && (w.mode.Recovering? ==> k in w.mode.mem && w.mode.mem[k].status == RecoveryRequired && k !in w.mode.todo)
  }

  predicate BoundTo(w: World, k: Key, rq: Request) {
    && k in w.journal && w.journal[k].request == rq
    && (w.mode.Recovering? ==> k in w.mode.mem && w.mode.mem[k].request == rq)
  }

  /** A request whose entry needs an administrator can only be on its way out. */
  predicate OnWayOut(w: World, k: Key) {
    w.mode.Up? && k in w.live ==> w.live[k].pc.Unwound? || w.live[k].pc.Reporting?
  }

  ghost predicate RecordKept(w: World, w': World, k: Key) {
    && (NeedsAdmin(w, k) && OnWayOut(w, k) ==> NeedsAdmin(w', k))
    && (k in w.journal && BoundTo(w, k, w.journal[k].request) ==> BoundTo(w', k, w.journal[k].request))
    && CommitsOf(w.trail, k) <= CommitsOf(w'.trail, k)
  }

  lemma EarlyKept(w: World, ev: Event, k: Key)
    requires Early(ev)
    ensures Fact(RecordKept(w, Step(w, ev), k))
  {
  }

  lemma LateKept(w: World, ev: Event, k: Key)
    requires Late(ev)
    ensures Fact(RecordKept(w, Step(w, ev), k))
  {
  }

  lemma UndoKept(w: World, o: Key, ok: bool, k: Key)
    ensures Fact(RecordKept(w, StepUndoInstall(w, o, ok), k)) && Fact(RecordKept(w, StepUndoBackup(w, o, ok), k))
  {
  }

  lemma FailKept(w: World, o: Key, cancelled: bool, k: Key)
    ensures Fact(RecordKept(w, StepFail(w, o, cancelled), k)) && Fact(RecordKept(w, StepReleaseLocks(w, o), k))
  {
  }

  lemma ReportKept(w: World, o: Key, k: Key)
    ensures Fact(RecordKept(w, StepRecordRollback(w, o), k)) && Fact(RecordKept(w, StepReport(w, o), k))
  {
  }

  lemma FailingKept(w: World, ev: Event, k: Key)
    requires Failing(ev)
    ensures Fact(RecordKept(w, Step(w, ev), k))
  {
    match ev
    case UndoInstall(o, ok) => UndoKept(w, o, ok, k);
    case UndoBackup(o, ok) => UndoKept(w, o, ok, k);
    case Fail(o, cancelled) => FailKept(w, o, cancelled, k);
    case ReleaseLocks(o) => FailKept(w, o, true, k);
    case RecordRollback(o) => ReportKept(w, o, k);
    case Report(o) => ReportKept(w, o, k);
  }

  /** Reconciling one entry settles it and nothing else in the journal. */
  ghost predicate SettlesOne(w: World, w': World, k: Key)
    requires w.mode.Recovering?
  {
    && w'.mode.Recovering? && w'.mode.todo == w.mode.todo - {k} && k in w'.mode.mem
    && w'.mode.mem == w.mode.mem[k := w'.mode.mem[k]]
    && w'.mode.mem[k].status != Active
    && w'.journal == w.journal && w'.manifest == w.manifest && w'.live == w.live
    && (k in w.mode.mem ==> w'.mode.mem[k].request == w.mode.mem[k].request)
    && (forall o :: CommitsOf(w.trail, o) <= CommitsOf(w'.trail, o))
  }

  lemma SettleSettles(w: World, w1: World, k: Key, e: Entry)
    requires w.mode.Recovering? && w1 == w.(fs := w1.fs, trail := w1.trail) && k in w.mode.mem
    requires e.status != Active && e.request == w.mode.mem[k].request
    requires forall o :: CommitsOf(w.trail, o) <= CommitsOf(w1.trail, o)
    ensures Fact(SettlesOne(w, Settle(w1, k, e), k))
  {
  }

  lemma AfterQuarantineSettles(w: World, w1: World, k: Key, e: Entry, fault: Fault)
    requires w.mode.Recovering? && w1 == w.(fs := w1.fs, trail := w1.trail) && k in w.mode.mem && e == w.mode.mem[k]
    requires w1.trail.commits == w.trail.commits
    ensures Fact(SettlesOne(w, AfterQuarantine(w1, k, e, fault), k))
  {
    SettleSettles(w, w1, k, StuckEntry(e));
    SettleSettles(w, w1, k, VerdictEntry(Quarantine, e));
    if e.backup.Some? && InRoot(e.backup.value) in w1.fs {
      SettleSettles(w, Move(w1, InRoot(e.backup.value), Target(e.request)), k, VerdictEntry(Quarantine, e));
    }
  }

  lemma CommitSettles(w: World, k: Key, e: Entry)
    requires w.mode.Recovering? && k in w.mode.mem && e == w.mode.mem[k]
    ensures var t := AddCommit(w.trail, k, e.installedIdent.GetOr(0));
      Fact(SettlesOne(w, Settle(w, k, VerdictEntry(Commit, e)).(trail := t), k))
  {
    var t := AddCommit(w.trail, k, e.installedIdent.GetOr(0));
    forall o
      ensures CommitsOf(w.trail, o) <= CommitsOf(t, o)
    {
    }
    SettleSettles(w, w.(trail := t), k, VerdictEntry(Commit, e));
    assert Settle(w.(trail := t), k, VerdictEntry(Commit, e)) == Settle(w, k, VerdictEntry(Commit, e)).(trail := t);
  }

  lemma RecoverSettles(w: World, k: Key, fault: Fault)
    requires w.mode.Recovering? && k in w.mode.todo && k in w.mode.mem
    ensures Fact(SettlesOne(w, StepRecover(w, k, fault), k))
  {
    var e := w.mode.mem[k];
    SettleSettles(w, w, k, StuckEntry(e));
    if !fault.BeforeMoves? || NeverMovedTarget(e.phase) {
      match Decide(w.fs, w.manifest, e)
      case Retry => SettleSettles(w, w, k, VerdictEntry(Retry, e));
      case Stuck =>
      case Commit => CommitSettles(w, k, e);
      case Restore =>
        if CanRename(w.fs, InRoot(e.backup.GetOr("")), Target(e.request), e.backupIdent.GetOr(0)) {
          SettleSettles(w, Move(w, InRoot(e.backup.GetOr("")), Target(e.request)), k, VerdictEntry(Restore, e));
        }
      case Quarantine =>
        if CanRename(w.fs, Target(e.request), InRoot(QuarantineName(k.id)), e.installedIdent.GetOr(0)) {
          AfterQuarantineSettles(w, Move(w, Target(e.request), InRoot(QuarantineName(k.id))), k, e, fault);
        }
    }
  }

  lemma RecoverKept(w: World, o: Key, fault: Fault, k: Key)
    ensures Fact(RecordKept(w, StepRecover(w, o, fault), k))
  {
    if w.mode.Recovering? && o in w.mode.todo && o in w.mode.mem {
      RecoverSettles(w, o, fault);
    }
  }

  lemma RestKept(w: World, ev: Event, k: Key)
    requires !Early(ev) && !Late(ev) && !Failing(ev) && !ev.Recover? && ev != Prune(k)
    ensures Fact(RecordKept(w, Step(w, ev), k))
  {
  }

  lemma AnyKept(w: World, ev: Event, k: Key)
    requires ev != Prune(k)
    ensures Fact(RecordKept(w, Step(w, ev), k))
  {
    if Early(ev) { EarlyKept(w, ev, k); }
    else if Late(ev) { LateKept(w, ev, k); }
    else if Failing(ev) { FailingKept(w, ev, k); }
    else if ev.Recover? { RecoverKept(w, ev.k, ev.fault, k); }
    else { RestKept(w, ev, k); }
  }

  // ----- recovery_required is final -----

  lemma AdminOnWayOut(w: World, k: Key)
    requires Fact(Inv(w)) && NeedsAdmin(w, k)
    ensures OnWayOut(w, k)
  {
    assert Unsealed(0);
  }

  lemma AdminNotPruned(w: World, k: Key)
    requires NeedsAdmin(w, k)
    ensures StepPrune(w, k) == w
  {
  }

  lemma AdminStep(w: World, ev: Event, k: Key)
    requires Fact(Inv(w)) && NeedsAdmin(w, k)
    ensures NeedsAdmin(Step(w, ev), k)
  {
    if ev == Prune(k) {
      AdminNotPruned(w, k);
    } else {
      AdminOnWayOut(w, k);
      AnyKept(w, ev, k);
    }
  }

  /** Nothing - no late error handler, retry, receipt, pruning or recovery - ever changes a
      `recovery_required` verdict. */
  lemma {:induction false} RecoveryRequiredIsFinal(w: World, evs: seq<Event>, k: Key)
    requires Fact(Inv(w)) && NeedsAdmin(w, k)
    ensures NeedsAdmin(Run(w, evs), k)
    decreases |evs|
  {
    if evs != [] {
      RecoveryRequiredIsFinal(w, evs[..|evs| - 1], k);
      RunKeeps(w, evs[..|evs| - 1]);
      AdminStep(Run(w, evs[..|evs| - 1]), evs[|evs| - 1], k);
    }
  }

  // ----- one id, one request -----

  /** A retained transfer id stays bound to the request that first claimed it: a request with another
      fingerprint never takes it over. */
  lemma {:induction false} TransferIdStaysBound(w: World, evs: seq<Event>, k: Key, rq: Request)
    requires BoundTo(w, k, rq) && Prune(k) !in evs
    ensures BoundTo(Run(w, evs), k, rq)
    decreases |evs|
  {
    if evs != [] {
      assert forall ev :: ev in evs[..|evs| - 1] ==> ev in evs;
      TransferIdStaysBound(w, evs[..|evs| - 1], k, rq);
      AnyKept(Run(w, evs[..|evs| - 1]), evs[|evs| - 1], k);
    }
  }

  // ----- at most one commit -----

  /** Whether this step saves the manifest for transfer `k`. */
  predicate SavesFor(w: World, ev: Event, k: Key) {
    ev == SaveManifest(k) && At(w, k, AtCommitting) && !Waits(w, ev)
  }

  /** How often the manifest was saved for transfer `k` in a run. */
  function Saves(w: World, evs: seq<Event>, k: Key): nat
    decreases |evs|
  {
    if evs == [] then 0 else
    Saves(w, evs[..|evs| - 1], k) + (if SavesFor(Run(w, evs[..|evs| - 1]), evs[|evs| - 1], k) then 1 else 0)
  }

  /** How many installs transfer `k` has committed, by a save or by a recovery. */
  function Committed(w: World, k: Key): nat {
    |CommitsOf(w.trail, k)|
  }

  lemma SaveCommits(t: Trail, k: Key, l: Live)
    requires CommitsOf(t, k) == {}
    ensures CommitsOf(AddCommit(t, k, l.stage), k) == {l.stage}
  {
  }

  /** Saving the manifest is the first commit of its transfer. */
  lemma SaveIsFirst(w: World, k: Key)
    requires Fact(Inv(w)) && At(w, k, AtCommitting)
    ensures Committed(w, k) == 0 && Committed(StepSaveManifest(w, k), k) == 1
  {
    FactsOf(w, k);
    NothingCommitted(w, k);
    SaveCommits(w.trail, k, w.live[k]);
  }

  lemma NothingCommitted(w: World, k: Key)
    requires Fact(OwnFacts(w, k)) && At(w, k, AtCommitting)
    ensures CommitsOf(w.trail, k) == {}
  {
  }

  /** No entry has ever committed two installs. */
  lemma OneIdentity(w: World, k: Key)
    requires Fact(Inv(w))
    ensures Committed(w, k) <= 1
  {
    CommitOf(w, k);
    var s := CommitsOf(w.trail, k);
    if s != {} {
      var i :| i in s;
      assert s == {i};
    }
  }

  lemma CommittedNext(w: World, ev: Event, k: Key)
    requires Fact(Inv(w)) && ev != Prune(k)
    ensures Committed(w, k) + (if SavesFor(w, ev, k) then 1 else 0) <= Committed(Next(w, ev), k) <= 1
    ensures CommitsOf(w.trail, k) <= CommitsOf(Next(w, ev).trail, k)
  {
    if SavesFor(w, ev, k) { SaveIsFirst(w, k); }
    AnyKept(w, ev, k);
    SubsetSize(CommitsOf(w.trail, k), CommitsOf(Next(w, ev).trail, k));
    AnyKeeps(w, ev);
    OneIdentity(Next(w, ev), k);
  }

  lemma {:induction false} SubsetSize<T>(a: set<T>, b: set<T>)
    requires a <= b
    ensures |a| <= |b|
  {
    if a != {} {
      var x :| x in a;
      SubsetSize(a - {x}, b - {x});
    }
  }

  /** A retained transfer id commits at most one install, over all its retries, crashes and recoveries:
      the commits of a continued run - each a save of the manifest that did not fail, or a recovery that
      found the install in place - and those before it never name two directories. */
  lemma {:induction false} AtMostOneCommit(w: World, evs: seq<Event>, k: Key)
    requires Fact(Inv(w)) && Prune(k) !in evs
    ensures Saves(w, evs, k) + Committed(w, k) <= Committed(Run(w, evs), k) <= 1
    ensures CommitsOf(w.trail, k) <= CommitsOf(Run(w, evs).trail, k)
    decreases |evs|
  {
    OneIdentity(w, k);
    if evs != [] {
      var most, ev := evs[..|evs| - 1], evs[|evs| - 1];
      assert forall e :: e in most ==> e in evs;
      AtMostOneCommit(w, most, k);
      RunKeeps(w, most);
      CommittedNext(Run(w, most), ev, k);
    }
  }

  // ----- recovery settles everything, once -----

  /** Reconciling the given entries one after the other, each with the given fault. */
  function Reconcile(w: World, todo: seq<(Key, Fault)>): World
    decreases |todo|
  {
    if todo == [] then w
    else StepRecover(Reconcile(w, todo[..|todo| - 1]), todo[|todo| - 1].0, todo[|todo| - 1].1)
  }

  function Handled(todo: seq<(Key, Fault)>): set<Key>
    decreases |todo|
  {
    if todo == [] then {} else Handled(todo[..|todo| - 1]) + {todo[|todo| - 1].0}
  }

  /** How far reconciliation has come once the entries of `done` were looked at. */
  ghost predicate Progress(w: World, w': World, done: set<Key>)
    requires w.mode.Recovering?
  {
    && w'.mode.Recovering? && w'.journal == w.journal && w'.manifest == w.manifest
    && w'.mode.mem.Keys == w.mode.mem.Keys
    && w'.mode.todo == w.mode.todo - done
    && (forall k :: k in w'.mode.mem && k !in w'.mode.todo ==> w'.mode.mem[k].status != Active)
    && (forall k :: k in w.mode.mem && k !in w.mode.todo ==> w'.mode.mem[k] == w.mode.mem[k])
  }

  lemma ProgressStep(w: World, w1: World, k: Key, fault: Fault, done: set<Key>)
    requires w.mode.Recovering? && Fact(Progress(w, w1, done)) && w.mode.todo <= w.mode.mem.Keys
    ensures Fact(Progress(w, StepRecover(w1, k, fault), done + {k}))
  {
    if k in w1.mode.todo {
      RecoverSettles(w1, k, fault);
    }
  }

  lemma {:induction false} ReconcileProgress(w: World, todo: seq<(Key, Fault)>)
    requires w.mode.Recovering? && w.mode.todo <= w.mode.mem.Keys
    requires forall k :: k in w.mode.mem && k !in w.mode.todo ==> w.mode.mem[k].status != Active
    ensures Fact(Progress(w, Reconcile(w, todo), Handled(todo)))
    decreases |todo|
  {
    if todo != [] {
      ReconcileProgress(w, todo[..|todo| - 1]);
      ProgressStep(w, Reconcile(w, todo[..|todo| - 1]), todo[|todo| - 1].0, todo[|todo| - 1].1, Handled(todo[..|todo| - 1]));
    }
  }

  /** After reconciliation no entry is active, entries that were settled before are untouched, the
      manifest is as it was and the host is up - in any order, whatever renames fail on the way. */
  lemma RecoveryIsTotal(w: World, todo: seq<(Key, Fault)>)
    requires w.mode.Down? && ActiveKeys(w.journal) <= Handled(todo)
    ensures var w' := StepFinishRecovery(Reconcile(StepBeginRecovery(w), todo));
      && w'.mode.Up? && ActiveKeys(w'.journal) == {}
      && w'.journal.Keys == w.journal.Keys && w'.manifest == w.manifest
      && (forall k :: k in w.journal && w.journal[k].status != Active ==> w'.journal[k] == w.journal[k])
  {
    ReconcileProgress(StepBeginRecovery(w), todo);
    var w1 := Reconcile(StepBeginRecovery(w), todo);
    assert w1.mode.todo == {};
  }

  /** A second reconciliation of a settled journal changes nothing. */
  lemma SecondRecoveryChangesNothing(w: World)
    requires ActiveKeys(w.journal) == {}
    ensures var w' := StepFinishRecovery(StepBeginRecovery(StepCrash(w)));
      && w'.mode.Up? && w'.fs == w.fs && w'.journal == w.journal && w'.manifest == w.manifest && w'.trail == w.trail
  {
  }
}
