/** What a transfer leaves at its target, at its backup path and in the manifest while others interleave
    with it: nothing that shows outside its uninterrupted stretch, and inside it exactly what its flags say. */
module InstallRestore {
  import opened Options
  import opened InstallNames
  import opened InstallModel
  import opened InstallMachine
  import opened InstallInvariant
  import opened InstallSteps
  import opened InstallMoves
  import opened InstallRecords
  import opened InstallSafety
  import opened InstallTracking
  import opened InstallBackups

  /** The project that was at the target may have been moved to the backup, and the payload may lie at
      the target; otherwise the two paths are as they were. */
  predicate Shape(fs0: Files, fs: Files, target: Path, backup: Path, backedUp: bool, installed: bool, stage: Ident) {
    && (if installed then target in fs && fs[target].ident == stage
        else if backedUp then target !in fs
        else SameAt(fs0, fs, target))
    && (if backedUp then backup in fs && target in fs0 && backup !in fs0 && fs[backup] == fs0[target]
        else SameAt(fs0, fs, backup))
    && (installed && !backedUp ==> target !in fs0)
  }

  /** The two paths of `k` are as its flags say. */
  predicate Held(w0: World, w: World, k: Key, rq: Request) {
    && w.mode.Up? && k in w.live && k in w.journal && w.journal[k].request == rq && IsRequest(k, rq)
    && var l := w.live[k];
    && Shape(w0.fs, w.fs, Target(rq), Backup(k, rq), l.backedUp, l.installed, l.stage)
    && (l.backedUp ==> rq.policy.Replace? && w0.fs[Target(rq)].ident == l.origin)
  }

  // ----- the transfer's own steps -----

  ghost predicate SameFlags(w: World, w': World, k: Key) {
    && w'.mode.Up? && k in w.live && k in w'.live && k in w.journal && k in w'.journal
    && w'.journal[k].request == w.journal[k].request
    && w'.live[k].backedUp == w.live[k].backedUp && w'.live[k].installed == w.live[k].installed
    && (w.live[k].installed ==> w'.live[k].stage == w.live[k].stage)
    && (w.live[k].backedUp ==> w'.live[k].origin == w.live[k].origin)
  }

  lemma HeldSame(w0: World, w: World, w': World, k: Key, rq: Request)
    requires Fact(Held(w0, w, k, rq)) && Fact(SameFlags(w, w', k))
    requires SameAt(w.fs, w'.fs, Target(rq)) && SameAt(w.fs, w'.fs, Backup(k, rq))
    ensures Fact(Held(w0, w', k, rq))
  {
  }

  ghost predicate Unmoved(w: World, w': World, k: Key) {
    SameFlags(w, w', k) && w'.fs == w.fs
  }

  /** The flags stay, and so does everything an operator can see. */
  ghost predicate Hidden(w: World, w': World, k: Key) {
    SameFlags(w, w', k) && SameInSight(w.fs, w'.fs)
  }

  lemma UnmovedHeld(w0: World, w: World, w': World, k: Key, rq: Request)
    requires Fact(Held(w0, w, k, rq)) && Fact(Unmoved(w, w', k))
    ensures Fact(Held(w0, w', k, rq))
  {
    HeldSame(w0, w, w', k, rq);
  }

  lemma HiddenHeld(w0: World, w: World, w': World, k: Key, rq: Request)
    requires Fact(Held(w0, w, k, rq)) && Fact(Hidden(w, w', k))
    ensures Fact(Held(w0, w', k, rq))
  {
    NamesAreDisjoint(rq.folder, k.id, k.id, "");
    HeldSame(w0, w, w', k, rq);
  }

  /** A request that is being served, and its flags. */
  ghost predicate Serving(w: World, k: Key) {
    w.mode.Up? && k in w.live && k in w.journal && Watched(w, k)
  }

  lemma JournalSame(w: World, k: Key)
    requires Fact(Serving(w, k))
    ensures Fact(Unmoved(w, StepWriteJournal(w, k), k))
  {
  }

  lemma LocksSame(w: World, k: Key)
    requires Fact(Serving(w, k))
    ensures Fact(Unmoved(w, StepAcquireLocks(w, k), k))
    ensures Fact(Unmoved(w, StepReleaseLocks(w, k), k))
  {
  }

  lemma OpenSame(w: World, k: Key)
    requires Fact(Serving(w, k))
    ensures Fact(Unmoved(w, StepOpenTransaction(w, k), k))
  {
  }

  lemma SavedSame(w: World, k: Key)
    requires Fact(Serving(w, k))
    ensures Fact(Unmoved(w, StepSaveManifest(w, k), k))
    ensures Fact(Unmoved(w, StepSaveManifestLate(w, k), k))
  {
  }

  lemma StartSame(w: World, k: Key, ok: bool)
    requires Fact(Serving(w, k))
    ensures Fact(Unmoved(w, StepStart(w, k, ok), k))
    ensures Fact(Unmoved(w, StepBindBackup(w, k), k))
  {
  }

  lemma FailSame(w: World, k: Key, cancelled: bool)
    requires Fact(Serving(w, k))
    ensures Fact(Unmoved(w, StepFail(w, k, cancelled), k))
    ensures Fact(Unmoved(w, StepRecordRollback(w, k), k))
  {
  }

  /** A request that is being served cannot be claimed, started again or pruned. */
  lemma OutsideSame(w: World, k: Key, rq: Request, ok: bool)
    requires k in w.live
    ensures StepClaim(w, k, rq) == w && StepStartApplied(w, k, ok) == w && StepPrune(w, k) == w
  {
  }

  lemma ContainedSame(w: World, k: Key, name: string, ident: Ident)
    requires Fact(Serving(w, k))
    ensures Fact(Hidden(w, StepMakeContainer(w, k, name, ident), k))
  {
    if IsContainerName(name) { ContainersAreHidden(name); }
  }

  lemma UnpackedSame(w: World, k: Key, ident: Ident)
    requires Fact(Serving(w, k))
    ensures Fact(Hidden(w, StepUnpack(w, k, ident), k))
  {
  }

  lemma BackupMoved(w0: World, w: World, k: Key, rq: Request)
    requires Fact(Held(w0, w, k, rq)) && Fact(Serving(w, k))
    ensures Fact(Held(w0, StepMoveToBackup(w, k), k, rq))
  {
    NamesAreDisjoint(rq.folder, k.id, k.id, "");
  }

  lemma TargetMoved(w0: World, w: World, k: Key, rq: Request)
    requires Fact(Held(w0, w, k, rq)) && Fact(Serving(w, k))
    ensures Fact(Held(w0, StepMoveToTarget(w, k), k, rq))
  {
    NamesAreDisjoint(rq.folder, k.id, k.id, "");
  }

  lemma InstallUndone(w0: World, w: World, k: Key, rq: Request, ok: bool)
    requires Fact(Held(w0, w, k, rq)) && Fact(Serving(w, k))
    ensures Fact(Held(w0, StepUndoInstall(w, k, ok), k, rq))
  {
    NamesAreDisjoint(rq.folder, k.id, k.id, "");
  }

  lemma BackupUndone(w0: World, w: World, k: Key, rq: Request, ok: bool)
    requires Fact(Held(w0, w, k, rq)) && Fact(Serving(w, k))
    ensures Fact(Held(w0, StepUndoBackup(w, k, ok), k, rq))
  {
    NamesAreDisjoint(rq.folder, k.id, k.id, "");
  }

  lemma EarlyOwn(w: World, ev: Event, k: Key)
    requires Early(ev) && !Stages(ev) && ev.k == k && Fact(Serving(w, k)) && k in Step(w, ev).live
    ensures Fact(Unmoved(w, Step(w, ev), k))
  {
    match ev
    case Claim(_, rq) => OutsideSame(w, k, rq, true);
    case StartApplied(_, ok) => OutsideSame(w, k, w.journal[k].request, ok);
    case WriteJournal(_) => JournalSame(w, k);
    case AcquireLocks(_) => LocksSame(w, k);
    case OpenTransaction(_) => OpenSame(w, k);
  }

  lemma LateOwn(w: World, ev: Event, k: Key)
    requires Late(ev) && !MovesDirectories(ev) && ev.k == k && Fact(Serving(w, k)) && k in Step(w, ev).live
    ensures Fact(Unmoved(w, Step(w, ev), k))
  {
    match ev
    case SaveManifest(_) => SavedSame(w, k);
    case SaveManifestLate(_) => SavedSame(w, k);
    case Start(_, ok) => StartSame(w, k, ok);
    case BindBackup(_) => StartSame(w, k, true);
    case SaveReceipt(_) =>
  }

  lemma FailingOwn(w: World, ev: Event, k: Key)
    requires Failing(ev) && !MovesDirectories(ev) && ev.k == k && Fact(Serving(w, k)) && k in Step(w, ev).live
    ensures Fact(Unmoved(w, Step(w, ev), k))
  {
    match ev
    case Fail(_, cancelled) => FailSame(w, k, cancelled);
    case RecordRollback(_) => FailSame(w, k, true);
    case ReleaseLocks(_) => LocksSame(w, k);
    case Report(_) =>
  }

  lemma RestOwn(w: World, ev: Event, k: Key)
    requires (ev.Prune? || ev.Recover? || ev.RecoverTorn?) && ev.k == k && Fact(Serving(w, k))
    ensures Fact(Unmoved(w, Step(w, ev), k))
  {
    OutsideSame(w, k, w.journal[k].request, true);
  }

  lemma QuietOwn(w: World, ev: Event, k: Key)
    requires !MovesDirectories(ev) && !Stages(ev) && Serves(ev) == Some(k) && Fact(Serving(w, k)) && k in Step(w, ev).live
    ensures Fact(Unmoved(w, Step(w, ev), k))
  {
    if Early(ev) { EarlyOwn(w, ev, k); }
    else if Late(ev) { LateOwn(w, ev, k); }
    else if Failing(ev) { FailingOwn(w, ev, k); }
    else { RestOwn(w, ev, k); }
  }

  lemma StagingOwn(w: World, ev: Event, k: Key)
    requires Stages(ev) && ev.k == k && Fact(Serving(w, k))
    ensures Fact(Hidden(w, Step(w, ev), k))
  {
    match ev
    case MakeContainer(_, name, ident) => ContainedSame(w, k, name, ident);
    case Unpack(_, ident) => UnpackedSame(w, k, ident);
  }

  lemma MovingOwn(w0: World, w: World, ev: Event, k: Key, rq: Request)
    requires MovesDirectories(ev) && ev.k == k && Fact(Held(w0, w, k, rq)) && Fact(Serving(w, k))
    ensures Fact(Held(w0, Step(w, ev), k, rq))
  {
    match ev
    case MoveToBackup(_) => BackupMoved(w0, w, k, rq);
    case MoveToTarget(_) => TargetMoved(w0, w, k, rq);
    case UndoInstall(_, ok) => InstallUndone(w0, w, k, rq, ok);
    case UndoBackup(_, ok) => BackupUndone(w0, w, k, rq, ok);
  }

  lemma OwnStep(w0: World, w: World, ev: Event, k: Key, rq: Request)
    requires Fact(Held(w0, w, k, rq)) && Fact(Serving(w, k)) && Serves(ev) == Some(k) && k in Step(w, ev).live
    ensures Fact(Held(w0, Step(w, ev), k, rq))
  {
    if MovesDirectories(ev) {
      MovingOwn(w0, w, ev, k, rq);
    } else if Stages(ev) {
      StagingOwn(w, ev, k);
      HiddenHeld(w0, w, Step(w, ev), k, rq);
    } else {
      QuietOwn(w, ev, k);
      UnmovedHeld(w0, w, Step(w, ev), k, rq);
    }
  }

  ghost predicate Elsewhere(fs0: Files, fs: Files, target: Path, backup: Path) {
    forall p :: Visible(p) && p != target && p != backup ==> SameAt(fs0, fs, p)
  }

  /** The manifest names the target for the destination exactly if it was saved; a creating transfer found
      no entry of its destination, a replacing one its own target. */
  predicate Recorded(m0: Manifest, m: Manifest, rq: Request, l: Live, late: bool) {
    && m == (if l.committed || late then m0[rq.dest := Target(rq)] else m0)
    && (late ==> Unwinding(l.pc) && !l.committed)
    && (InTransaction(l.pc) || late ==>
          if rq.policy.Replace? then rq.dest in m0 && m0[rq.dest] == Target(rq) else rq.dest !in m0)
  }

  /** What an operator can see is as the flags of `k` say, and the manifest as its saves say. */
  ghost predicate Solo(w0: World, w: World, k: Key, rq: Request, late: bool) {
    && Held(w0, w, k, rq)
    && Elsewhere(w0.fs, w.fs, Target(rq), Backup(k, rq))
    && Recorded(w0.manifest, w.manifest, rq, w.live[k], late)
    && (late && !rq.policy.Replace? ==> Target(rq) !in w0.fs)
  }

  /** Any step but a crash that the event loop admits while it runs `k`. */
  predicate Alone(ev: Event, k: Key) {
    !ev.Crash? && (Serves(ev) == Some(k) || !OnLoop(ev))
  }

  lemma OwnElsewhere(w: World, ev: Event, k: Key)
    requires MovesDirectories(ev) && ev.k == k && k in w.journal
    ensures Fact(Elsewhere(w.fs, Step(w, ev).fs, Target(w.journal[k].request), Backup(k, w.journal[k].request)))
  {
  }

  lemma AloneElsewhere(w0: World, w: World, ev: Event, k: Key, rq: Request)
    requires w.mode.Up? && k in w.journal && w.journal[k].request == rq && Alone(ev, k)
    requires Fact(Elsewhere(w0.fs, w.fs, Target(rq), Backup(k, rq)))
    ensures Fact(Elsewhere(w0.fs, Step(w, ev).fs, Target(rq), Backup(k, rq)))
  {
    if MovesDirectories(ev) { OwnElsewhere(w, ev, k); } else { ForeignStill(w, ev); }
  }

  lemma AloneHeld(w0: World, w: World, ev: Event, k: Key, rq: Request)
    requires Fact(Held(w0, w, k, rq)) && Fact(Serving(w, k)) && Alone(ev, k) && k in Step(w, ev).live
    ensures Fact(Held(w0, Step(w, ev), k, rq))
  {
    if Serves(ev) == Some(k) {
      OwnStep(w0, w, ev, k, rq);
    } else {
      StepForeign(w, ev, k);
      ForeignStill(w, ev);
      NamesAreDisjoint(rq.folder, k.id, k.id, "");
      HeldSame(w0, w, Step(w, ev), k, rq);
    }
  }

  // ----- the manifest -----

  /** Whether this step replaces the manifest file and fails all the same. */
  predicate SavesLate(w: World, ev: Event, k: Key) {
    ev == SaveManifestLate(k) && At(w, k, AtCommitting) && !Waits(w, ev)
  }

  /** Whether the manifest was saved by a call that failed. */
  predicate SavedLate(w: World, evs: seq<Event>, k: Key)
    decreases |evs|
  {
    evs != [] && (SavedLate(w, evs[..|evs| - 1], k) || SavesLate(Run(w, evs[..|evs| - 1]), evs[|evs| - 1], k))
  }

  ghost predicate SameRecord(w: World, w': World, k: Key) {
    && w'.manifest == w.manifest && k in w.live && k in w'.live
    && w'.live[k].committed == w.live[k].committed
    && (Unwinding(w.live[k].pc) ==> Unwinding(w'.live[k].pc)) && (InTransaction(w'.live[k].pc) ==> InTransaction(w.live[k].pc))
  }

  lemma StagingRecord(w: World, ev: Event, k: Key)
    requires Stages(ev) && ev.k == k && k in w.live && k in w.journal
    ensures Fact(SameRecord(w, Step(w, ev), k))
  {
  }

  lemma EarlyRecord(w: World, ev: Event, k: Key)
    requires Early(ev) && !Stages(ev) && !ev.OpenTransaction? && ev.k == k && k in w.live && k in w.journal
    ensures Fact(SameRecord(w, Step(w, ev), k))
  {
  }

  lemma MoveRecord(w: World, ev: Event, k: Key)
    requires (ev.MoveToBackup? || ev.MoveToTarget?) && ev.k == k && k in w.live && k in w.journal
    ensures Fact(SameRecord(w, Step(w, ev), k))
  {
  }

  lemma LateRecord(w: World, ev: Event, k: Key)
    requires Late(ev) && !Saves(ev) && !MovesDirectories(ev) && ev.k == k && k in w.live && k in w.journal && k in Step(w, ev).live
    ensures Fact(SameRecord(w, Step(w, ev), k))
  {
  }

  lemma UndoInstallRecord(w: World, k: Key, ok: bool)
    requires k in w.live && k in w.journal
    ensures Fact(SameRecord(w, StepUndoInstall(w, k, ok), k))
  {
  }

  lemma UndoBackupRecord(w: World, k: Key, ok: bool)
    requires k in w.live && k in w.journal
    ensures Fact(SameRecord(w, StepUndoBackup(w, k, ok), k))
  {
  }

  lemma FailRecord(w: World, k: Key, cancelled: bool)
    requires k in w.live && k in w.journal
    ensures Fact(SameRecord(w, StepFail(w, k, cancelled), k))
  {
  }

  lemma EndRecord(w: World, k: Key)
    requires k in w.live && k in w.journal
    ensures Fact(SameRecord(w, StepRecordRollback(w, k), k)) && Fact(SameRecord(w, StepReleaseLocks(w, k), k))
  {
  }

  lemma ReportRecord(w: World, k: Key)
    requires k in w.live && k in w.journal && k in StepReport(w, k).live
    ensures Fact(SameRecord(w, StepReport(w, k), k))
  {
  }

  lemma FailingRecord(w: World, ev: Event, k: Key)
    requires Failing(ev) && !ev.Report? && ev.k == k && k in w.live && k in w.journal
    ensures Fact(SameRecord(w, Step(w, ev), k))
  {
    match ev
    case UndoInstall(_, ok) => UndoInstallRecord(w, k, ok);
    case UndoBackup(_, ok) => UndoBackupRecord(w, k, ok);
    case Fail(_, cancelled) => FailRecord(w, k, cancelled);
    case RecordRollback(_) => EndRecord(w, k);
    case ReleaseLocks(_) => EndRecord(w, k);
  }

  lemma RestRecord(w: World, ev: Event, k: Key)
    requires (ev.Prune? || ev.Recover? || ev.RecoverTorn?) && ev.k == k && w.mode.Up? && k in w.live && k in w.journal
    ensures Fact(SameRecord(w, Step(w, ev), k))
  {
  }

  lemma ForeignRecord(w: World, ev: Event, k: Key)
    requires Foreign(ev, k) && !Saves(ev) && w.mode.Up? && k in w.live && k in w.journal
    ensures Fact(SameRecord(w, Step(w, ev), k))
  {
    StepForeign(w, ev, k);
    StepGrowsProjects(w, ev);
  }

  lemma OpenRecord(m0: Manifest, w: World, k: Key, late: bool)
    requires k in w.live && k in w.journal && Fact(Recorded(m0, w.manifest, w.journal[k].request, w.live[k], late))
    requires Fact(FlagsOk(w.live[k], w.journal[k]))
    ensures var w' := StepOpenTransaction(w, k);
      k in w'.live && Fact(Recorded(m0, w'.manifest, w.journal[k].request, w'.live[k], late))
  {
  }

  lemma SavesRecord(m0: Manifest, w: World, ev: Event, k: Key, late: bool)
    requires Saves(ev) && ev.k == k && !Waits(w, ev) && Fact(OwnFacts(w, k)) && Fact(Recorded(m0, w.manifest, w.journal[k].request, w.live[k], late))
    ensures var w' := Step(w, ev);
      k in w'.live && Fact(Recorded(m0, w'.manifest, w.journal[k].request, w'.live[k], late || SavesLate(w, ev, k)))
  {
  }

  lemma OwnRecord(w: World, ev: Event, k: Key)
    requires Serves(ev) == Some(k) && !Saves(ev) && !ev.OpenTransaction? && w.mode.Up? && k in w.live && k in w.journal && k in Step(w, ev).live
    ensures Fact(SameRecord(w, Step(w, ev), k))
  {
    if Stages(ev) { StagingRecord(w, ev, k); }
    else if Early(ev) { EarlyRecord(w, ev, k); }
    else if ev.MoveToBackup? || ev.MoveToTarget? { MoveRecord(w, ev, k); }
    else if Late(ev) { LateRecord(w, ev, k); }
    else if ev.Report? { ReportRecord(w, k); }
    else if Failing(ev) { FailingRecord(w, ev, k); }
    else { RestRecord(w, ev, k); }
  }

  lemma KeepsRecorded(m0: Manifest, w: World, w': World, k: Key, rq: Request, late: bool)
    requires Fact(SameRecord(w, w', k)) && Fact(Recorded(m0, w.manifest, rq, w.live[k], late))
    ensures Fact(Recorded(m0, w'.manifest, rq, w'.live[k], late))
  {
  }

  lemma AloneRecorded(m0: Manifest, w: World, ev: Event, k: Key, late: bool)
    requires Alone(ev, k) && k in w.live && k in w.journal && k in Step(w, ev).live && Fact(OwnFacts(w, k)) && w.mode.Up?
    requires Fact(Recorded(m0, w.manifest, w.journal[k].request, w.live[k], late)) && !Waits(w, ev)
    ensures var w' := Step(w, ev);
      Fact(Recorded(m0, w'.manifest, w.journal[k].request, w'.live[k], late || SavesLate(w, ev, k)))
  {
    if Saves(ev) {
      SavesRecord(m0, w, ev, k, late);
    } else if ev == OpenTransaction(k) {
      OpenRecord(m0, w, k, late);
    } else {
      if Serves(ev) == Some(k) { OwnRecord(w, ev, k); } else { ForeignRecord(w, ev, k); }
      KeepsRecorded(m0, w, Step(w, ev), k, w.journal[k].request, late);
    }
  }

  /** A creating transfer that saves the manifest has put its payload where nothing was. */
  lemma SavedWhereFree(w0: World, w: World, k: Key, rq: Request)
    requires Fact(Held(w0, w, k, rq)) && Fact(OwnFacts(w, k)) && At(w, k, AtCommitting) && !rq.policy.Replace?
    ensures Target(rq) !in w0.fs
  {
  }

  // ----- the uninterrupted stretch -----

  ghost predicate SoloOk(w0: World, w: World, k: Key, rq: Request, late: bool) {
    Inv(w) && Tracked(w, k) && Solo(w0, w, k, rq, late)
  }

  lemma SoloNext(w0: World, w: World, k: Key, rq: Request, late: bool, ev: Event)
    requires Fact(SoloOk(w0, w, k, rq, late)) && Alone(ev, k) && !Waits(w, ev) && k in Step(w, ev).live
    ensures Fact(SoloOk(w0, Step(w, ev), k, rq, late || SavesLate(w, ev, k)))
  {
    WatchedOf(w, k);
    FactsOf(w, k);
    StepKeeps(w, ev);
    StepTracked(w, ev, k);
    AloneHeld(w0, w, ev, k, rq);
    AloneElsewhere(w0, w, ev, k, rq);
    AloneRecorded(w0.manifest, w, ev, k, late);
    if SavesLate(w, ev, k) && !rq.policy.Replace? { SavedWhereFree(w0, w, k, rq); }
  }

  /** From a moment at which `k` has the lock of its folder, `evs` is a run of its uninterrupted stretch. */
  predicate Stretch(w: World, evs: seq<Event>, k: Key)
    decreases |evs|
  {
    evs != [] ==>
      && Stretch(w, evs[..|evs| - 1], k)
      && k in Run(w, evs).live && Uninterrupted(Run(w, evs).live[k].pc)
  }

  /** The event loop takes a request into its stretch by one of its own steps. */
  lemma EntersAlone(w: World, ev: Event, k: Key)
    requires w.mode.Up? && k in w.live && k in Next(w, ev).live
    requires Uninterrupted(w.live[k].pc) || Uninterrupted(Next(w, ev).live[k].pc)
    ensures Waits(w, ev) || Alone(ev, k)
  {
    if ev.Crash? {
      CrashServesNobody(w, ev);
    } else if Serves(ev) != Some(k) && OnLoop(ev) {
      StepForeign(w, ev, k);
      assert Uninterrupted(w.live[k].pc);
    }
  }

  lemma SoloFirst(w: World, k: Key)
    requires Fact(AllOk(w)) && At(w, k, AtLocked)
    ensures Fact(SoloOk(w, w, k, w.journal[k].request, false))
  {
    KnownIn(w, k);
    Unseal(w);
    HeldAtLock(w, k);
  }

  lemma HeldAtLock(w: World, k: Key)
    requires Fact(Known(w, k)) && At(w, k, AtLocked)
    ensures Fact(Solo(w, w, k, w.journal[k].request, false))
  {
  }

  lemma HeldStep(w0: World, w: World, k: Key, rq: Request, late: bool, ev: Event)
    requires Fact(SoloOk(w0, w, k, rq, late)) && w.mode.Up? && k in w.live && k in Next(w, ev).live
    requires Uninterrupted(w.live[k].pc) || Uninterrupted(Next(w, ev).live[k].pc)
    ensures Fact(SoloOk(w0, Next(w, ev), k, rq, late || SavesLate(w, ev, k)))
  {
    EntersAlone(w, ev, k);
    if !Waits(w, ev) { SoloNext(w0, w, k, rq, late, ev); }
  }

  /** At every moment of its uninterrupted stretch, whatever worker threads and the rest of the host do
      meanwhile, everything an operator can see and the manifest are as they were when the transfer had the
      lock of its folder, but for what its flags say. */
  lemma {:induction false} HeldThrough(w: World, evs: seq<Event>, k: Key)
    requires Fact(AllOk(w)) && At(w, k, AtLocked) && Stretch(w, evs, k)
    ensures Fact(SoloOk(w, Run(w, evs), k, w.journal[k].request, SavedLate(w, evs, k)))
    decreases |evs|
  {
    if evs == [] {
      SoloFirst(w, k);
    } else {
      var most, ev := evs[..|evs| - 1], evs[|evs| - 1];
      HeldThrough(w, most, k);
      ServesStill(w, Run(w, most), k, w.journal[k].request, SavedLate(w, most, k));
      HeldStep(w, Run(w, most), k, w.journal[k].request, SavedLate(w, most, k), ev);
    }
  }

  lemma ServesStill(w0: World, w: World, k: Key, rq: Request, late: bool)
    requires Fact(SoloOk(w0, w, k, rq, late))
    ensures w.mode.Up? && k in w.live && k in w.journal
  {
  }

  // ----- outside of all stretches -----

  lemma RenamesInside(w: World, ev: Event)
    requires MovesDirectories(ev) && (ev.k in w.live ==> !Uninterrupted(w.live[ev.k].pc))
    ensures Step(w, ev).fs == w.fs
  {
  }

  lemma SavesInside(w: World, ev: Event)
    requires Saves(ev) && (ev.k in w.live ==> !Uninterrupted(w.live[ev.k].pc))
    ensures Step(w, ev).manifest == w.manifest
  {
  }

  /** While the host is up, nothing an operator can see changes, and the manifest neither, except by steps of
      a transfer in its uninterrupted stretch. */
  lemma OnlyStretchesShow(w: World, ev: Event)
    requires w.mode.Up?
    requires Serves(ev).Some? && Serves(ev).value in w.live ==> !Uninterrupted(w.live[Serves(ev).value].pc)
    ensures SameInSight(w.fs, Next(w, ev).fs) && Next(w, ev).manifest == w.manifest
  {
    if MovesDirectories(ev) { RenamesInside(w, ev); } else { ForeignStill(w, ev); }
    if Saves(ev) { SavesInside(w, ev); } else { StepGrowsProjects(w, ev); }
  }
}
