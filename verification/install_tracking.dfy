/** What is known of one request besides the invariant: fresh journal entries, and when its flags say
    that the old project was moved away and not put back. */
module InstallTracking {
  import opened Options
  import opened InstallNames
  import opened InstallModel
  import opened InstallMachine
  import opened InstallInvariant
  import opened InstallSteps
  import opened InstallClaims
  import opened InstallSafety

  // ----- what is known -----

  predicate BeforeInstall(pc: Pc) {
    || pc.AtQueued? || pc.AtDownloading? || pc.AtClaimed? || pc.AtContainer? || pc.AtExtracting? || pc.AtUnpacked?
    || pc.AtValidated? || pc.AtLocked? || pc.AtOpened? || BackingUpAt(pc)
  }

  predicate BackingUpAt(pc: Pc) {
    pc.AtBackingUp? || pc.AtBackupMoved? || pc.AtBackupBound? || pc.AtBackupCreated?
  }

  /** The entry of a push names no payload before the install and no backup unless it replaces. */
  predicate FreshPush(k: Key, l: Live, e: Entry) {
    && (!k.pull ==>
          && !l.pc.AtQueued? && !l.pc.AtDownloading?
          && (BeforeInstall(l.pc) ==> e.installedIdent.None?)
          && (e.backup.Some? ==> e.request.policy.Replace?))
    && (BackingUpAt(l.pc) ==> e.backup == Some(BackupName(e.request.folder, k.id)) && e.backupIdent == Some(l.origin))
  }

  /** When the old project was moved away and not put back. */
  predicate BackupFlags(l: Live, e: Entry) {
    && ((BeforeInstall(l.pc) && !BackingUpAt(l.pc)) || l.pc.AtBackingUp? ==> !l.backedUp && !l.backupBound)
    && (l.pc.AtBackupMoved? ==> l.backedUp && !l.backupBound)
    && (l.pc.AtBackupBound? || l.pc.AtBackupCreated? ==> l.backedUp && l.backupBound)
    && (l.pc.AtInstalling? || AfterMove(l.pc) || AfterSave(l.pc) ==>
          (l.backedUp <==> e.request.policy.Replace?) && (l.backupBound <==> e.request.policy.Replace?))
    && (l.committed ==> (l.backedUp <==> e.request.policy.Replace?))
    && ((l.pc.UnwindVerdict? || l.pc.Unwound? || l.pc.Reporting?) && l.backedUp && l.backupBound ==>
          l.committed || l.rollbackFailed)
  }

  predicate Tracked(w: World, k: Key) {
    k in w.live && k in w.journal ==> FreshPush(k, w.live[k], w.journal[k]) && BackupFlags(w.live[k], w.journal[k])
  }

  /** What is known of a request before a step: its flags, and the facts being tracked. */
  ghost predicate Watched(w: World, k: Key) {
    && Tracked(w, k)
    && (k in w.live ==> w.mode.Up? && k in w.journal && FlagsOk(w.live[k], w.journal[k]))
  }

  /** Pcs at which a transfer knows where its directories are: it holds the lock of its folder, or has just
      given it up after a commit. */
  predicate KnowsPlaces(pc: Pc) {
    HoldsPath(pc) || pc.AtReleased?
  }

  /** The step moved nothing; or it took the lock with nothing moved before. */
  predicate SameHold(l: Live, l': Live) {
    KnowsPlaces(l'.pc) ==>
      || (l'.pc.AtLocked? && !l'.backedUp && !l'.installed)
      || (&& KnowsPlaces(l.pc) && (HoldsPath(l'.pc) ==> HoldsPath(l.pc)) && (InTransaction(l'.pc) ==> InTransaction(l.pc))
          && l'.backedUp == l.backedUp && l'.installed == l.installed && l'.origin == l.origin && l'.stage == l.stage)
  }

  ghost predicate CalmFor(w: World, w': World, k: Key) {
    k in w'.live && k in w'.journal && KnowsPlaces(w'.live[k].pc) ==>
      k in w.live && k in w.journal && w'.journal[k].request == w.journal[k].request && SameHold(w.live[k], w'.live[k])
  }

  predicate Moves(ev: Event) {
    MovesDirectories(ev) || ev.OpenTransaction?
  }

  predicate MovesDirectories(ev: Event) {
    ev.MoveToBackup? || ev.MoveToTarget? || ev.UndoInstall? || ev.UndoBackup?
  }

  predicate Stages(ev: Event) {
    ev.MakeContainer? || ev.Unpack?
  }

  // ----- what all other events leave alone -----

  predicate SamePlaces(w: World, w': World) {
    w'.fs == w.fs && w'.trail.loc == w.trail.loc
  }

  lemma EarlyPlaces(w: World, ev: Event)
    requires Early(ev) && !Stages(ev)
    ensures Fact(SamePlaces(w, Step(w, ev)))
  {
  }

  lemma LatePlaces(w: World, ev: Event)
    requires Late(ev) && !MovesDirectories(ev)
    ensures Fact(SamePlaces(w, Step(w, ev)))
  {
  }

  lemma RestPlaces(w: World, ev: Event)
    requires !Early(ev) && !Late(ev) && !MovesDirectories(ev) && !ev.SweepContainer? && w.mode.Up?
    ensures Fact(SamePlaces(w, Step(w, ev)))
  {
  }

  /** While the host is up, directories come, go and move by these events only. */
  lemma StillPlaces(w: World, ev: Event)
    requires !MovesDirectories(ev) && !Stages(ev) && !ev.SweepContainer? && w.mode.Up?
    ensures Fact(SamePlaces(w, Step(w, ev)))
  {
    if Early(ev) { EarlyPlaces(w, ev); } else if Late(ev) { LatePlaces(w, ev); } else { RestPlaces(w, ev); }
  }

  // ----- what an operator can see -----

  predicate SameAt(fs0: Files, fs: Files, p: Path) {
    (p in fs <==> p in fs0) && (p in fs ==> fs[p] == fs0[p])
  }

  ghost predicate SameInSight(fs0: Files, fs: Files) {
    forall p :: Visible(p) ==> SameAt(fs0, fs, p)
  }

  lemma StagingInSight(w: World, ev: Event)
    requires Stages(ev) || ev.SweepContainer?
    ensures Fact(SameInSight(w.fs, Step(w, ev).fs))
  {
    match ev
    case MakeContainer(_, name, _) => if IsContainerName(name) { ContainersAreHidden(name); }
    case SweepContainer(name) => if IsContainerName(name) { ContainersAreHidden(name); }
    case Unpack(_, _) =>
  }

  lemma ForeignStill(w: World, ev: Event)
    requires !MovesDirectories(ev) && w.mode.Up?
    ensures Fact(SameInSight(w.fs, Step(w, ev).fs))
  {
    if Stages(ev) || ev.SweepContainer? { StagingInSight(w, ev); } else { StillPlaces(w, ev); }
  }

  // ----- the steps of everyone else -----

  /** Which transfer an event is a step of. */
  function Serves(ev: Event): Option<Key> {
    match ev
    case SweepContainer(_) => None
    case SetRunning(_) => None
    case Crash => None
    case BeginRecovery => None
    case FlushJournal(_) => None
    case FinishRecovery => None
    case _ => Some(ev.k)
  }

  /** The step is not one of `k`, and the host stays up. */
  predicate Foreign(ev: Event, k: Key) {
    Serves(ev) != Some(k) && !ev.Crash?
  }

  /** The record and the entry of `k` are as they were. */
  predicate LeftAlone(w: World, w': World, k: Key) {
    && w'.mode.Up? && (k in w'.live <==> k in w.live) && (k in w'.journal <==> k in w.journal)
    && (k in w.live ==> w'.live[k] == w.live[k]) && (k in w.journal ==> w'.journal[k] == w.journal[k])
  }

  lemma EarlyForeign(w: World, ev: Event, k: Key)
    requires Early(ev) && Foreign(ev, k) && w.mode.Up?
    ensures Fact(LeftAlone(w, Step(w, ev), k))
  {
  }

  lemma LateForeign(w: World, ev: Event, k: Key)
    requires Late(ev) && Foreign(ev, k) && w.mode.Up?
    ensures Fact(LeftAlone(w, Step(w, ev), k))
  {
  }

  lemma UndoForeign(w: World, o: Key, ok: bool, k: Key)
    requires o != k && w.mode.Up?
    ensures Fact(LeftAlone(w, StepUndoInstall(w, o, ok), k)) && Fact(LeftAlone(w, StepUndoBackup(w, o, ok), k))
  {
  }

  lemma FailForeign(w: World, o: Key, cancelled: bool, k: Key)
    requires o != k && w.mode.Up?
    ensures Fact(LeftAlone(w, StepFail(w, o, cancelled), k)) && Fact(LeftAlone(w, StepReleaseLocks(w, o), k))
  {
  }

  lemma ReportForeign(w: World, o: Key, k: Key)
    requires o != k && w.mode.Up?
    ensures Fact(LeftAlone(w, StepRecordRollback(w, o), k)) && Fact(LeftAlone(w, StepReport(w, o), k))
  {
  }

  lemma FailingForeign(w: World, ev: Event, k: Key)
    requires Failing(ev) && Foreign(ev, k) && w.mode.Up?
    ensures Fact(LeftAlone(w, Step(w, ev), k))
  {
    match ev
    case UndoInstall(o, ok) => UndoForeign(w, o, ok, k);
    case UndoBackup(o, ok) => UndoForeign(w, o, ok, k);
    case Fail(o, cancelled) => FailForeign(w, o, cancelled, k);
    case ReleaseLocks(o) => FailForeign(w, o, true, k);
    case RecordRollback(o) => ReportForeign(w, o, k);
    case Report(o) => ReportForeign(w, o, k);
  }

  lemma RestForeign(w: World, ev: Event, k: Key)
    requires !Early(ev) && !Late(ev) && !Failing(ev) && Foreign(ev, k) && w.mode.Up?
    ensures Fact(LeftAlone(w, Step(w, ev), k))
  {
  }

  /** A step of another transfer leaves the record and the entry of `k` alone. */
  lemma StepForeign(w: World, ev: Event, k: Key)
    requires Foreign(ev, k) && w.mode.Up?
    ensures Fact(LeftAlone(w, Step(w, ev), k))
  {
    if Early(ev) { EarlyForeign(w, ev, k); }
    else if Late(ev) { LateForeign(w, ev, k); }
    else if Failing(ev) { FailingForeign(w, ev, k); }
    else { RestForeign(w, ev, k); }
  }

  lemma CrashServesNobody(w: World, ev: Event)
    requires ev.Crash?
    ensures Step(w, ev).live == map[]
  {
  }

  lemma IdleForRequests(w: World, ev: Event)
    requires !w.mode.Up? && (Early(ev) || Late(ev) || Failing(ev))
    ensures Step(w, ev) == w
  {
  }

  lemma RecoveryServesNobody(w: World, o: Key, fault: Fault)
    ensures StepRecover(w, o, fault).live == w.live
  {
    if w.mode.Recovering? && o in w.mode.todo && o in w.mode.mem { RecoverSettles(w, o, fault); }
  }

  lemma IdleForRest(w: World, ev: Event, k: Key)
    requires !Early(ev) && !Late(ev) && !Failing(ev) && !ev.Recover? && k !in w.live
    ensures k !in Step(w, ev).live
  {
  }

  /** While the host is not up, no request comes to be served. */
  lemma IdleStays(w: World, ev: Event, k: Key)
    requires !w.mode.Up? && k !in w.live
    ensures k !in Step(w, ev).live
  {
    if Early(ev) || Late(ev) || Failing(ev) { IdleForRequests(w, ev); }
    else if ev.Recover? { RecoveryServesNobody(w, ev.k, ev.fault); }
    else { IdleForRest(w, ev, k); }
  }

  // ----- the transfer's own steps -----

  lemma ClaimTracked(w: World, k: Key, rq: Request)
    requires Fact(Watched(w, k))
    ensures Fact(Tracked(StepClaim(w, k, rq), k))
    ensures Fact(CalmFor(w, StepClaim(w, k, rq), k))
  {
  }

  lemma StartAppliedTracked(w: World, k: Key, ok: bool)
    requires Fact(Watched(w, k))
    ensures Fact(Tracked(StepStartApplied(w, k, ok), k))
    ensures Fact(CalmFor(w, StepStartApplied(w, k, ok), k))
  {
  }

  lemma MakeContainerTracked(w: World, k: Key, name: string, ident: Ident)
    requires Fact(Watched(w, k))
    ensures Fact(Tracked(StepMakeContainer(w, k, name, ident), k))
    ensures Fact(CalmFor(w, StepMakeContainer(w, k, name, ident), k))
  {
  }

  lemma UnpackTracked(w: World, k: Key, ident: Ident)
    requires Fact(Watched(w, k))
    ensures Fact(Tracked(StepUnpack(w, k, ident), k))
    ensures Fact(CalmFor(w, StepUnpack(w, k, ident), k))
  {
  }

  lemma AcquireLocksTracked(w: World, k: Key)
    requires Fact(Watched(w, k))
    ensures Fact(Tracked(StepAcquireLocks(w, k), k))
    ensures Fact(CalmFor(w, StepAcquireLocks(w, k), k))
  {
  }

  lemma OpenTransactionTracked(w: World, k: Key)
    requires Fact(Watched(w, k))
    ensures Fact(Tracked(StepOpenTransaction(w, k), k))
  {
  }

  lemma WriteJournalTracked(w: World, k: Key)
    requires Fact(Watched(w, k))
    ensures Fact(Tracked(StepWriteJournal(w, k), k))
  {
  }

  lemma WriteJournalCalm(w: World, k: Key)
    requires Fact(Watched(w, k))
    ensures Fact(CalmFor(w, StepWriteJournal(w, k), k))
  {
  }

  lemma MoveToBackupTracked(w: World, k: Key)
    requires Fact(Watched(w, k))
    ensures Fact(Tracked(StepMoveToBackup(w, k), k))
  {
  }

  lemma BindBackupTracked(w: World, k: Key)
    requires Fact(Watched(w, k))
    ensures Fact(Tracked(StepBindBackup(w, k), k))
    ensures Fact(CalmFor(w, StepBindBackup(w, k), k))
  {
  }

  lemma MoveToTargetTracked(w: World, k: Key)
    requires Fact(Watched(w, k))
    ensures Fact(Tracked(StepMoveToTarget(w, k), k))
  {
  }

  lemma SaveManifestTracked(w: World, k: Key)
    requires Fact(Watched(w, k))
    ensures Fact(Tracked(StepSaveManifest(w, k), k))
    ensures Fact(CalmFor(w, StepSaveManifest(w, k), k))
  {
  }

  lemma SaveManifestLateTracked(w: World, k: Key)
    requires Fact(Watched(w, k))
    ensures Fact(Tracked(StepSaveManifestLate(w, k), k))
    ensures Fact(CalmFor(w, StepSaveManifestLate(w, k), k))
  {
  }

  lemma StartTracked(w: World, k: Key, ok: bool)
    requires Fact(Watched(w, k))
    ensures Fact(Tracked(StepStart(w, k, ok), k))
    ensures Fact(CalmFor(w, StepStart(w, k, ok), k))
  {
  }

  lemma SaveReceiptTracked(w: World, k: Key)
    requires Fact(Watched(w, k))
    ensures Fact(Tracked(StepSaveReceipt(w, k), k))
    ensures Fact(CalmFor(w, StepSaveReceipt(w, k), k))
  {
  }

  lemma FailTracked(w: World, k: Key, cancelled: bool)
    requires Fact(Watched(w, k))
    ensures Fact(Tracked(StepFail(w, k, cancelled), k))
    ensures Fact(CalmFor(w, StepFail(w, k, cancelled), k))
  {
  }

  lemma UndoInstallTracked(w: World, k: Key, ok: bool)
    requires Fact(Watched(w, k))
    ensures Fact(Tracked(StepUndoInstall(w, k, ok), k))
  {
  }

  lemma UndoBackupTracked(w: World, k: Key, ok: bool)
    requires Fact(Watched(w, k))
    ensures Fact(Tracked(StepUndoBackup(w, k, ok), k))
  {
  }

  lemma RecordRollbackTracked(w: World, k: Key)
    requires Fact(Watched(w, k))
    ensures Fact(Tracked(StepRecordRollback(w, k), k))
    ensures Fact(CalmFor(w, StepRecordRollback(w, k), k))
  {
  }

  lemma ReleaseLocksTracked(w: World, k: Key)
    requires Fact(Watched(w, k))
    ensures Fact(Tracked(StepReleaseLocks(w, k), k))
  {
  }

  lemma ReleaseLocksCalm(w: World, k: Key)
    requires Fact(Watched(w, k))
    ensures Fact(CalmFor(w, StepReleaseLocks(w, k), k))
  {
  }

  lemma ReportTracked(w: World, k: Key)
    requires Fact(Watched(w, k))
    ensures Fact(Tracked(StepReport(w, k), k))
    ensures Fact(CalmFor(w, StepReport(w, k), k))
  {
  }

  lemma EarlyTracked(w: World, ev: Event, k: Key)
    requires Early(ev) && ev.k == k && Fact(Watched(w, k))
    ensures Fact(Tracked(Step(w, ev), k))
    ensures !Moves(ev) ==> Fact(CalmFor(w, Step(w, ev), k))
  {
    match ev
    case Claim(_, rq) => ClaimTracked(w, k, rq);
    case StartApplied(_, ok) => StartAppliedTracked(w, k, ok);
    case MakeContainer(_, name, ident) => MakeContainerTracked(w, k, name, ident);
    case Unpack(_, ident) => UnpackTracked(w, k, ident);
    case AcquireLocks(_) => AcquireLocksTracked(w, k);
    case OpenTransaction(_) => OpenTransactionTracked(w, k);
    case WriteJournal(_) => WriteJournalTracked(w, k); WriteJournalCalm(w, k);
  }

  lemma LateTracked(w: World, ev: Event, k: Key)
    requires Late(ev) && ev.k == k && Fact(Watched(w, k))
    ensures Fact(Tracked(Step(w, ev), k))
    ensures !Moves(ev) ==> Fact(CalmFor(w, Step(w, ev), k))
  {
    match ev
    case MoveToBackup(_) => MoveToBackupTracked(w, k);
    case BindBackup(_) => BindBackupTracked(w, k);
    case MoveToTarget(_) => MoveToTargetTracked(w, k);
    case SaveManifest(_) => SaveManifestTracked(w, k);
    case SaveManifestLate(_) => SaveManifestLateTracked(w, k);
    case Start(_, ok) => StartTracked(w, k, ok);
    case SaveReceipt(_) => SaveReceiptTracked(w, k);
  }

  lemma FailingTracked(w: World, ev: Event, k: Key)
    requires Failing(ev) && ev.k == k && Fact(Watched(w, k))
    ensures Fact(Tracked(Step(w, ev), k))
    ensures !Moves(ev) ==> Fact(CalmFor(w, Step(w, ev), k))
  {
    match ev
    case Fail(_, cancelled) => FailTracked(w, k, cancelled);
    case UndoInstall(_, ok) => UndoInstallTracked(w, k, ok);
    case UndoBackup(_, ok) => UndoBackupTracked(w, k, ok);
    case RecordRollback(_) => RecordRollbackTracked(w, k);
    case ReleaseLocks(_) => ReleaseLocksTracked(w, k); ReleaseLocksCalm(w, k);
    case Report(_) => ReportTracked(w, k);
  }

  /** Pruning and recovery serve nobody. */
  lemma RestTracked(w: World, ev: Event, k: Key)
    requires (ev.Prune? || ev.Recover? || ev.RecoverTorn?) && ev.k == k && Fact(Watched(w, k))
    ensures Fact(Tracked(Step(w, ev), k))
    ensures !Moves(ev) ==> Fact(CalmFor(w, Step(w, ev), k))
  {
    if ev.Recover? && w.mode.Recovering? && k in w.mode.todo && k in w.mode.mem {
      RecoverSettles(w, k, ev.fault);
    }
  }

  lemma LeftTracked(w: World, w': World, k: Key)
    requires Fact(LeftAlone(w, w', k)) && Fact(Watched(w, k))
    ensures Fact(Tracked(w', k))
    ensures Fact(CalmFor(w, w', k))
  {
  }

  lemma StepTracked(w: World, ev: Event, k: Key)
    requires Fact(Watched(w, k))
    ensures Fact(Tracked(Step(w, ev), k))
    ensures !Moves(ev) ==> Fact(CalmFor(w, Step(w, ev), k))
  {
    if Serves(ev) == Some(k) {
      OwnTracked(w, ev, k);
    } else if ev.Crash? {
      CrashServesNobody(w, ev);
    } else if w.mode.Up? {
      StepForeign(w, ev, k);
      LeftTracked(w, Step(w, ev), k);
    } else {
      IdleStays(w, ev, k);
    }
  }

  lemma OwnTracked(w: World, ev: Event, k: Key)
    requires Serves(ev) == Some(k) && Fact(Watched(w, k))
    ensures Fact(Tracked(Step(w, ev), k))
    ensures !Moves(ev) ==> Fact(CalmFor(w, Step(w, ev), k))
  {
    if Early(ev) { EarlyTracked(w, ev, k); }
    else if Late(ev) { LateTracked(w, ev, k); }
    else if Failing(ev) { FailingTracked(w, ev, k); }
    else { RestTracked(w, ev, k); }
  }

  lemma WatchedOf(w: World, k: Key)
    requires Fact(Inv(w)) && Fact(Tracked(w, k))
    ensures Fact(Watched(w, k))
  {
    assert Unsealed(0);
  }
}
