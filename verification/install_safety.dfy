/** What holds of every run of the install protocol: conservation of project directories, sound
    verdicts, at most one commit per transfer id, recovery that always settles. */
module InstallSafety {
  import opened Options
  import opened InstallNames
  import opened InstallModel
  import opened InstallMachine
  import opened InstallInvariant
  import opened InstallFrame
  import opened InstallSteps
  import opened InstallMoves
  import opened InstallRecords
  import opened InstallRecovery

  lemma EarlyKeeps(w: World, ev: Event)
    requires Fact(Inv(w)) && Early(ev)
    ensures Fact(Inv(Step(w, ev)))
  {
    match ev
    case Claim(k, rq) => ClaimKeeps(w, k, rq);
    case StartApplied(k, ok) => StartAppliedKeeps(w, k, ok);
    case MakeContainer(k, name, ident) => MakeContainerKeeps(w, k, name, ident);
    case WriteJournal(k) => WriteJournalKeeps(w, k);
    case Unpack(k, ident) => UnpackKeeps(w, k, ident);
    case AcquireLocks(k) => AcquireLocksKeeps(w, k);
    case OpenTransaction(k) => OpenTransactionKeeps(w, k);
  }

  lemma LateKeeps(w: World, ev: Event)
    requires Fact(Inv(w)) && Late(ev)
    ensures Fact(Inv(Step(w, ev)))
  {
    match ev
    case MoveToBackup(k) => MoveToBackupKeeps(w, k);
    case BindBackup(k) => BindBackupKeeps(w, k);
    case MoveToTarget(k) => MoveToTargetKeeps(w, k);
    case SaveManifest(k) => SaveManifestKeeps(w, k);
    case SaveManifestLate(k) => SaveManifestLateKeeps(w, k);
    case Start(k, ok) => StartKeeps(w, k, ok);
    case SaveReceipt(k) => SaveReceiptKeeps(w, k);
  }

  lemma FailingKeeps(w: World, ev: Event)
    requires Fact(Inv(w)) && Failing(ev)
    ensures Fact(Inv(Step(w, ev)))
  {
    match ev
    case Fail(k, cancelled) => FailKeeps(w, k, cancelled);
    case UndoInstall(k, ok) => UndoInstallKeeps(w, k, ok);
    case UndoBackup(k, ok) => UndoBackupKeeps(w, k, ok);
    case RecordRollback(k) => RecordRollbackKeeps(w, k);
    case ReleaseLocks(k) => ReleaseLocksKeeps(w, k);
    case Report(k) => ReportKeeps(w, k);
  }

  lemma OtherKeeps(w: World, ev: Event)
    requires Fact(Inv(w)) && !Early(ev) && !Late(ev) && !Failing(ev)
    ensures Fact(Inv(Step(w, ev)))
  {
    match ev
    case SweepContainer(name) => SweepKeeps(w, name);
    case Prune(k) => PruneKeeps(w, k);
    case SetRunning(ids) => SetRunningKeeps(w, ids);
    case Crash => CrashKeeps(w);
    case BeginRecovery => BeginRecoveryKeeps(w);
    case Recover(k, fault) => RecoverKeeps(w, k, fault);
    case RecoverTorn(k) => RecoverTornKeeps(w, k);
    case FlushJournal(pull) => FlushJournalKeeps(w, pull);
    case FinishRecovery => FinishRecoveryKeeps(w);
  }

  /** Every step keeps the invariant, even one for which the event loop would have to be free. */
  lemma StepKeeps(w: World, ev: Event)
    requires Fact(Inv(w))
    ensures Fact(Inv(Step(w, ev)))
  {
    if Early(ev) { EarlyKeeps(w, ev); }
    else if Late(ev) { LateKeeps(w, ev); }
    else if Failing(ev) { FailingKeeps(w, ev); }
    else { OtherKeeps(w, ev); }
  }

  lemma AnyKeeps(w: World, ev: Event)
    requires Fact(Inv(w))
    ensures Fact(Inv(Next(w, ev)))
  {
    StepKeeps(w, ev);
  }

  lemma {:induction false} RunKeeps(w: World, evs: seq<Event>)
    requires Fact(Inv(w))
    ensures Fact(Inv(Run(w, evs)))
    decreases |evs|
  {
    if evs != [] {
      RunKeeps(w, evs[..|evs| - 1]);
      AnyKeeps(Run(w, evs[..|evs| - 1]), evs[|evs| - 1]);
    }
  }

  // ----- conservation -----

  /** A host before its first transfer: directories, a manifest, an empty journal. Every visible
      directory counts as a project. */
  ghost predicate Initial(w: World) {
    && w.mode.Up? && w.journal == map[] && w.live == map[] && w.manifestLock.None?
    && DiskOk(w.fs, w.trail)
    && w.trail.owner == map[] && w.trail.commits == map[]
    && (forall i :: i in w.trail.projects <==> Seen(w.trail, i))
  }

  lemma InitialOk(w: World)
    requires Initial(w)
    ensures Fact(Inv(w))
  {
    assert CommitsOk(w.trail, w.journal);
    assert PathsExclusive(w);
  }

  predicate Saves(ev: Event) {
    ev.SaveManifest? || ev.SaveManifestLate?
  }

  /** No project is forgotten, and only a save changes the manifest. */
  predicate Grows(w: World, w': World, saves: bool) {
    w.trail.projects <= w'.trail.projects && (!saves ==> w'.manifest == w.manifest)
  }

  lemma EarlyGrows(w: World, ev: Event)
    requires Early(ev)
    ensures Fact(Grows(w, Step(w, ev), false))
  {
  }

  lemma LateGrows(w: World, ev: Event)
    requires Late(ev)
    ensures Fact(Grows(w, Step(w, ev), Saves(ev)))
  {
  }

  lemma UndoGrows(w: World, ev: Event)
    requires ev.UndoInstall? || ev.UndoBackup?
    ensures Fact(Grows(w, Step(w, ev), false))
  {
  }

  lemma FailingGrows(w: World, ev: Event)
    requires Failing(ev) && !ev.UndoInstall? && !ev.UndoBackup?
    ensures Fact(Grows(w, Step(w, ev), false))
  {
  }

  lemma ConcludedGrows(w: World, k: Key, e: Entry, v: Verdict, fault: Fault)
    requires w.mode.Recovering?
    ensures Fact(Grows(w, Concluded(w, k, e, v, fault), false))
  {
  }

  lemma RecoverGrows(w: World, k: Key, fault: Fault)
    ensures Fact(Grows(w, StepRecover(w, k, fault), false))
  {
    if w.mode.Recovering? && k in w.mode.todo && k in w.mode.mem {
      ConcludedGrows(w, k, w.mode.mem[k], Decide(w.fs, w.manifest, w.mode.mem[k]), fault);
    }
  }

  lemma OtherGrows(w: World, ev: Event)
    requires !Early(ev) && !Late(ev) && !Failing(ev)
    ensures Fact(Grows(w, Step(w, ev), false))
  {
    if ev.Recover? { RecoverGrows(w, ev.k, ev.fault); }
  }

  /** A project directory is one for good, and only a save changes the manifest. */
  lemma StepGrowsProjects(w: World, ev: Event)
    ensures w.trail.projects <= Step(w, ev).trail.projects
    ensures !Saves(ev) ==> Step(w, ev).manifest == w.manifest
  {
    if Early(ev) { EarlyGrows(w, ev); }
    else if Late(ev) { LateGrows(w, ev); }
    else if ev.UndoInstall? || ev.UndoBackup? { UndoGrows(w, ev); }
    else if Failing(ev) { FailingGrows(w, ev); }
    else { OtherGrows(w, ev); }
  }

  lemma {:induction false} RunGrowsProjects(w: World, evs: seq<Event>)
    ensures w.trail.projects <= Run(w, evs).trail.projects
    decreases |evs|
  {
    if evs != [] {
      RunGrowsProjects(w, evs[..|evs| - 1]);
      StepGrowsProjects(Run(w, evs[..|evs| - 1]), evs[|evs| - 1]);
    }
  }

  /** The identity lies at exactly one path, and that path is visible. */
  ghost predicate InSight(fs: Files, i: Ident) {
    exists p :: p in fs && fs[p].ident == i && Visible(p) && forall q :: q in fs && fs[q].ident == i ==> q == p
  }

  /** Conservation: in every run, with any failures, cancellations, crashes and recoveries, every
      directory an operator could see before is still in sight, at exactly one path. */
  lemma ProjectsAreConserved(w: World, evs: seq<Event>, p: Path)
    requires Initial(w) && p in w.fs && Visible(p)
    ensures InSight(Run(w, evs).fs, w.fs[p].ident)
  {
    assert Unsealed(0);
    var i := w.fs[p].ident;
    var w' := Run(w, evs);
    InitialOk(w);
    RunKeeps(w, evs);
    assert Seen(w.trail, i);
    RunGrowsProjects(w, evs);
    var q := w'.trail.loc[i];
    assert q in w'.fs && w'.fs[q].ident == i && Visible(q);
  }

  /** The same for an installed project: once committed, it is never lost, whatever follows. */
  lemma CommittedInstallsAreConserved(w: World, evs: seq<Event>, more: seq<Event>, k: Key, i: Ident)
    requires Initial(w) && i in CommitsOf(Run(w, evs).trail, k)
    ensures InSight(Run(Run(w, evs), more).fs, i)
  {
    assert Unsealed(0);
    var w1 := Run(w, evs);
    InitialOk(w);
    RunKeeps(w, evs);
    RunKeeps(w1, more);
    assert OneCommit(w1.trail, w1.journal, k);
    RunGrowsProjects(w1, more);
    var w2 := Run(w1, more);
    var q := w2.trail.loc[i];
    assert q in w2.fs && w2.fs[q].ident == i && Visible(q);
  }

  /** One is the target and the other the backup of transfer `k`. */
  predicate Swaps(w: World, k: Key, p: Path, q: Path) {
    && k in w.journal
    && var rq := w.journal[k].request;
    || (p == Target(rq) && q == Backup(k, rq))
    || (p == Backup(k, rq) && q == Target(rq))
  }

  function KeyOf(ev: Event): Option<Key> {
    match ev
    case MoveToBackup(k) => Some(k)
    case MoveToTarget(k) => Some(k)
    case UndoInstall(k, _) => Some(k)
    case UndoBackup(k, _) => Some(k)
    case Recover(k, _) => Some(k)
    case RecoverTorn(k) => Some(k)
    case _ => None
  }

  /** Any step but these five (and a sweep) leaves every directory where it is. */
  lemma OthersStay(w: World, ev: Event, i: Ident)
    requires i in w.trail.loc && i in w.trail.born && KeyOf(ev).None? && !ev.SweepContainer?
    ensures i in Step(w, ev).trail.loc && Step(w, ev).trail.loc[i] == w.trail.loc[i]
  {
  }

  lemma ForwardMoves(w: World, k: Key, i: Ident)
    requires Fact(DiskOk(w.fs, w.trail)) && i in w.trail.loc && Fact(OwnFacts(w, k)) && i in w.trail.projects
    ensures var p, q := w.trail.loc, StepMoveToBackup(w, k).trail.loc; i in q && (q[i] == p[i] || Swaps(w, k, p[i], q[i]))
    ensures var p, q := w.trail.loc, StepMoveToTarget(w, k).trail.loc; i in q && q[i] == p[i]
  {
  }

  lemma UndoMoves(w: World, k: Key, ok: bool, i: Ident)
    requires Fact(DiskOk(w.fs, w.trail)) && i in w.trail.loc && Fact(OwnFacts(w, k)) && i in w.trail.projects
    ensures var p, q := w.trail.loc, StepUndoBackup(w, k, ok).trail.loc; i in q && (q[i] == p[i] || Swaps(w, k, p[i], q[i]))
    ensures var p, q := w.trail.loc, StepUndoInstall(w, k, ok).trail.loc; i in q && q[i] == p[i]
  {
  }

  lemma LiveMoves(w: World, ev: Event, k: Key, i: Ident)
    requires Fact(DiskOk(w.fs, w.trail)) && i in w.trail.loc && Fact(OwnFacts(w, k))
    requires i in w.trail.projects && KeyOf(ev) == Some(k) && !ev.Recover? && !ev.RecoverTorn?
    ensures var p, q := w.trail.loc, Step(w, ev).trail.loc;
      i in q && (q[i] == p[i] || Swaps(w, k, p[i], q[i]))
  {
    match ev
    case MoveToBackup(_) => ForwardMoves(w, k, i);
    case MoveToTarget(_) => ForwardMoves(w, k, i);
    case UndoInstall(_, ok) => UndoMoves(w, k, ok, i);
    case UndoBackup(_, ok) => UndoMoves(w, k, ok, i);
  }

  /** The identity stays put, or goes from the backup of `k` to its target. */
  ghost predicate MayReturn(t: Trail, t': Trail, k: Key, rq: Request, i: Ident)
    requires i in t.loc
  {
    i in t'.loc && (t'.loc[i] == t.loc[i] || (t.loc[i] == Backup(k, rq) && t'.loc[i] == Target(rq)))
  }

  lemma AfterQuarantineMoves(w: World, k: Key, e: Entry, fault: Fault, i: Ident)
    requires w.mode.Recovering? && Fact(DiskOk(w.fs, w.trail)) && i in w.trail.loc
    requires e.backup.Some? ==> InRoot(e.backup.value) == Backup(k, e.request)
    ensures MayReturn(w.trail, AfterQuarantine(w, k, e, fault).trail, k, e.request, i)
  {
  }

  lemma QuarantineMoves(w: World, k: Key, fault: Fault, i: Ident)
    requires w.mode.Recovering? && k in w.mode.todo && k in w.mode.mem && Decide(w.fs, w.manifest, w.mode.mem[k]).Quarantine?
    requires Fact(Undecided(w, k, w.mode.mem[k])) && Fact(DiskOk(w.fs, w.trail)) && Fact(ProjectsSafe(w.trail))
    requires i in w.trail.projects && i in w.trail.loc
    ensures MayReturn(w.trail, StepRecover(w, k, fault).trail, k, w.mode.mem[k].request, i)
    ensures i in StepRecoverTorn(w, k).trail.loc && StepRecoverTorn(w, k).trail.loc[i] == w.trail.loc[i]
  {
    var e := w.mode.mem[k];
    var target, quarantine := Target(e.request), InRoot(QuarantineName(k.id));
    RollbackSparesProjects(w, k, e);
    if CanRename(w.fs, target, quarantine, e.installedIdent.GetOr(0)) {
      MovedDisk(w.fs, w.trail, target, quarantine);
      AfterQuarantineMoves(Move(w, target, quarantine), k, e, fault, i);
    }
  }

  lemma RecoveryMoves(w: World, k: Key, fault: Fault, i: Ident)
    requires w.mode.Recovering? && k in w.mode.todo && k in w.mode.mem
    requires Fact(Undecided(w, k, w.mode.mem[k])) && Fact(DiskOk(w.fs, w.trail)) && Fact(ProjectsSafe(w.trail))
    requires i in w.trail.projects && i in w.trail.loc
    ensures MayReturn(w.trail, StepRecover(w, k, fault).trail, k, w.mode.mem[k].request, i)
    ensures i in StepRecoverTorn(w, k).trail.loc && StepRecoverTorn(w, k).trail.loc[i] == w.trail.loc[i]
  {
    if Decide(w.fs, w.manifest, w.mode.mem[k]).Quarantine? {
      QuarantineMoves(w, k, fault, i);
    }
  }

  /** No step, whatever fails in it, moves a project directory anywhere but between the target and
      the backup of the one transfer it serves or reconciles. */
  lemma ProjectsMoveBetweenTargetAndBackup(w: World, ev: Event, i: Ident)
    requires Fact(Inv(w)) && i in w.trail.projects
    ensures var p, q := w.trail.loc, Step(w, ev).trail.loc;
      i in p && i in q && (q[i] == p[i] || (KeyOf(ev).Some? && Swaps(w, KeyOf(ev).value, p[i], q[i])))
  {
    ProjectIsPlaced(w, i);
    if ev.SweepContainer? {
      if IsContainerName(ev.name) { ContainersAreHidden(ev.name); }
    } else if KeyOf(ev).None? {
      OthersStay(w, ev, i);
    } else if ev.Recover? || ev.RecoverTorn? {
      ReconciledMoves(w, ev, i);
    } else if w.mode.Up? && KeyOf(ev).value in w.live {
      FactsOf(w, KeyOf(ev).value);
      LiveMoves(w, ev, KeyOf(ev).value, i);
    }
  }

  lemma ProjectIsPlaced(w: World, i: Ident)
    requires Fact(Inv(w)) && i in w.trail.projects
    ensures i in w.trail.loc && i in w.trail.born && Fact(DiskOk(w.fs, w.trail)) && Visible(w.trail.loc[i])
  {
    assert Unsealed(0);
  }

  lemma ReconciledMoves(w: World, ev: Event, i: Ident)
    requires Fact(Inv(w)) && i in w.trail.projects && (ev.Recover? || ev.RecoverTorn?)
    ensures var p, q := w.trail.loc, Step(w, ev).trail.loc;
      i in p && i in q && (q[i] == p[i] || Swaps(w, ev.k, p[i], q[i]))
  {
    ProjectIsPlaced(w, i);
    if w.mode.Recovering? && ev.k in w.mode.todo && ev.k in w.mode.mem {
      UndecidedOf(w, ev.k);
      SameEntry(w, ev.k);
      RecoveryMoves(w, ev.k, if ev.Recover? then ev.fault else NoFault, i);
    }
  }

  lemma SameEntry(w: World, k: Key)
    requires Fact(Inv(w)) && w.mode.Recovering? && k in w.mode.todo
    ensures k in w.mode.mem && k in w.journal && w.mode.mem[k] == w.journal[k]
  {
    assert Unsealed(0);
  }

  // ----- verdicts -----

  /** What the verdict of an entry says about the disk and the manifest. */
  ghost predicate VerdictSound(w: World, k: Key)
    requires k in w.journal
  {
    var e := w.journal[k];
    && (e.status == Error || e.status == Cancelled ==>
          && CommitsOf(w.trail, k) == {}
          && (forall p :: p in w.fs && Visible(p) && Mine(w.trail, k, w.fs[p].ident) ==> w.fs[p].ident in w.trail.projects)
          && (e.installedIdent.Some? ==> forall p :: p in w.fs && w.fs[p].ident == e.installedIdent.value ==> !Visible(p)))
    && (e.status == Complete || e.status == AppliedPendingStart ==>
          && e.request.dest in w.manifest && w.manifest[e.request.dest] == Target(e.request)
          && exists i :: CommitsOf(w.trail, k) == {i} && InSight(w.fs, i))
  }

  /** In every reachable state: a transfer that ended in `error` or `cancelled` left nothing of its
      payload in sight; one that ended in `complete` or `applied_pending_start` has committed exactly
      one install, still on disk, and the manifest names its target for the destination id. */
  lemma VerdictsAreSound(w: World, evs: seq<Event>, k: Key)
    requires Initial(w) && k in Run(w, evs).journal
    ensures VerdictSound(Run(w, evs), k)
  {
    assert Unsealed(0);
    var w' := Run(w, evs);
    InitialOk(w);
    RunKeeps(w, evs);
    CommitOf(w', k);
    var e := w'.journal[k];
    assert EntryOk(w'.fs, w'.trail, w'.manifest, k, e);
    if e.status == Error || e.status == Cancelled {
      SettledShowsNothing(w', k);
    } else if e.status == Complete || e.status == AppliedPendingStart {
      var i :| i in CommitsOf(w'.trail, k);
      assert CommitsOf(w'.trail, k) == {i};
      var q := w'.trail.loc[i];
      assert q in w'.fs && w'.fs[q].ident == i && Visible(q);
    }
  }

  lemma SettledShowsNothing(w: World, k: Key)
    requires Fact(Inv(w)) && k in w.journal && (w.journal[k].status == Error || w.journal[k].status == Cancelled)
    ensures forall p :: p in w.fs && Visible(p) && Mine(w.trail, k, w.fs[p].ident) ==> w.fs[p].ident in w.trail.projects
    ensures w.journal[k].installedIdent.Some? ==>
      forall p :: p in w.fs && w.fs[p].ident == w.journal[k].installedIdent.value ==> !Visible(p)
  {
    assert Unsealed(0);
    assert EntryOk(w.fs, w.trail, w.manifest, k, w.journal[k]);
    forall p | p in w.fs && Visible(p) && Mine(w.trail, k, w.fs[p].ident)
      ensures w.fs[p].ident in w.trail.projects
    {
      assert Seen(w.trail, w.fs[p].ident);
    }
  }
}
