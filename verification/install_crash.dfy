/** What reconciliation concludes after a crash at each point of an install. */
module InstallCrash {
  import opened Options
  import opened InstallNames
  import opened InstallModel
  import opened InstallMachine
  import opened InstallInvariant
  import opened InstallSteps
  import opened InstallClaims
  import opened InstallRecovery
  import opened InstallSafety
  import opened InstallTracking
  import opened InstallBackups

  // ----- the verdict after a crash -----

  /** What a restart right now would conclude about transfer `k`. */
  function AfterCrash(w: World, k: Key): Verdict
    requires k in w.journal
  {
    Decide(w.fs, w.manifest, w.journal[k])
  }

  /** A request that has not failed, and the facts about it. */
  ghost predicate Forward(w: World, k: Key) {
    && w.mode.Up? && k in w.live && k in w.journal && !Unwinding(w.live[k].pc)
    && OwnFacts(w, k) && Tracked(w, k) && Placed(w, k) && DiskOk(w.fs, w.trail)
  }

  /** Every request on its forward path is covered, in every state of every run. */
  lemma ForwardInEveryRun(start: World, evs: seq<Event>, k: Key)
    requires Initial(start)
    requires var w := Run(start, evs); w.mode.Up? && k in w.live && !Unwinding(w.live[k].pc)
    ensures Fact(Forward(Run(start, evs), k))
  {
    InitialAllOk(start);
    AllRun(start, evs);
    KnownIn(Run(start, evs), k);
    DiskIn(Run(start, evs));
  }

  lemma CreatingPush(w: World, k: Key)
    requires Fact(Forward(w, k)) && !k.pull && !w.journal[k].request.policy.Replace? && !w.live[k].committed
    ensures w.journal[k].backup.None?
    ensures BeforeInstall(w.live[k].pc) ==> AfterCrash(w, k).Retry?
    ensures w.live[k].pc.AtInstalling? ==> (AfterCrash(w, k).Retry? <==> Target(w.journal[k].request) !in w.fs)
    ensures w.live[k].pc.AtInstalling? ==> (AfterCrash(w, k).Stuck? <==> Target(w.journal[k].request) in w.fs)
    ensures AfterMove(w.live[k].pc) ==> AfterCrash(w, k).Quarantine?
  {
  }

  lemma SavedInstall(w: World, k: Key)
    requires Fact(Forward(w, k)) && w.live[k].committed
    ensures AfterCrash(w, k).Commit? <==> Holds(w.fs, Target(w.journal[k].request), Some(w.live[k].stage))
    ensures AfterCrash(w, k).Commit? || AfterCrash(w, k).Stuck?
    ensures KnowsPlaces(w.live[k].pc) ==> AfterCrash(w, k).Commit?
  {
  }

  lemma ReplacingPush(w: World, k: Key)
    requires Fact(Forward(w, k)) && !k.pull && w.journal[k].request.policy.Replace?
    ensures var l := w.live[k];
      && (BeforeInstall(l.pc) && (BackingUpAt(l.pc) ==> l.pc.AtBackingUp?) ==> AfterCrash(w, k).Retry?)
      && (l.pc.AtInstalling? ==> AfterCrash(w, k).Stuck?)
      && (AfterMove(l.pc) ==> AfterCrash(w, k).Commit?)
  {
  }

  /** Between the backup rename and the next phase the target is free and the backup in its place. */
  lemma BackedUpPush(w: World, k: Key)
    requires Fact(Forward(w, k)) && BackingUpAt(w.live[k].pc) && !w.live[k].pc.AtBackingUp?
    ensures Holds(w.fs, Backup(k, w.journal[k].request), Some(w.live[k].origin)) && Target(w.journal[k].request) !in w.fs
    ensures AfterCrash(w, k) == if w.journal[k].installedIdent.None? then Restore else Stuck
    ensures !k.pull ==> w.journal[k].installedIdent.None?
  {
  }

  lemma InterruptedDownload(w: World, k: Key)
    requires Fact(Forward(w, k)) && (w.live[k].pc.AtQueued? || w.live[k].pc.AtDownloading?)
    ensures AfterCrash(w, k).Stuck?
  {
  }

  // ----- from the crash to the entry that recovery writes -----

  /** The host crashes, comes up again and reconciles the entry of transfer `k`. */
  function Restarted(w: World, k: Key): World {
    StepRecover(StepBeginRecovery(StepCrash(w)), k, NoFault)
  }

  /** The status recovery gives an active entry, by its verdict. */
  lemma RestartedStatus(w: World, k: Key)
    requires k in w.journal && w.journal[k].status == Active && !AfterCrash(w, k).Quarantine?
    ensures var e, w' := w.journal[k], Restarted(w, k);
      && w'.mode.Recovering? && k in w'.mode.mem
      && match AfterCrash(w, k)
         case Retry => w'.mode.mem[k].status == Error && w'.fs == w.fs
         case Commit => w'.mode.mem[k].status == (if e.request.start then AppliedPendingStart else Complete) && w'.fs == w.fs
         case Restore => w'.mode.mem[k].status == Error && Holds(w'.fs, Target(e.request), e.backupIdent)
         case Stuck => w'.mode.mem[k].status == RecoveryRequired && w'.fs == w.fs
  {
  }

  lemma QuarantinedStatus(w: World, k: Key)
    requires k in w.journal && w.journal[k].status == Active && AfterCrash(w, k).Quarantine? && w.journal[k].backup.None?
    requires IsFolderName(w.journal[k].request.folder)
    ensures var w' := Restarted(w, k);
      && w'.mode.Recovering? && k in w'.mode.mem
      && if InRoot(QuarantineName(k.id)) in w.fs then w'.mode.mem[k].status == RecoveryRequired && w'.fs == w.fs
         else w'.mode.mem[k].status == Error && Target(w.journal[k].request) !in w'.fs
  {
    NamesAreDisjoint(w.journal[k].request.folder, k.id, k.id, "");
  }

  /** A request that moves forward in some state of some run. */
  ghost predicate Advancing(start: World, evs: seq<Event>, k: Key) {
    var w := Run(start, evs);
    Initial(start) && w.mode.Up? && k in w.live && k in w.journal && !Unwinding(w.live[k].pc)
  }

  lemma AdvancingIsActive(start: World, evs: seq<Event>, k: Key)
    requires Advancing(start, evs, k)
    ensures var w := Run(start, evs);
      Fact(Forward(w, k)) && w.journal[k].status == Active && IsFolderName(w.journal[k].request.folder)
  {
    ForwardInEveryRun(start, evs, k);
    InitialOk(start);
    RunKeeps(start, evs);
  }

  /** How a creating push ends that crashed in `w` before the manifest was saved and was then reconciled:
      retryable with nothing installed; `recovery_required` if and only if a foreign directory has appeared
      at its target while it was about to install, or the quarantine name is already taken. */
  predicate CreatingPushEnds(w: World, w': World, k: Key)
    requires k in w.journal && k in w.live
  {
    var target, pc := Target(w.journal[k].request), w.live[k].pc;
    && w'.mode.Recovering? && k in w'.mode.mem
    && (w'.mode.mem[k].status == Error || w'.mode.mem[k].status == RecoveryRequired)
    && (w'.mode.mem[k].status == RecoveryRequired <==>
          (pc.AtInstalling? && target in w.fs) || (AfterMove(pc) && InRoot(QuarantineName(k.id)) in w.fs))
    && (w'.mode.mem[k].status == Error && !BeforeInstall(pc) ==> target !in w'.fs)
  }

  /** How a transfer ends that crashed after its manifest was saved: reported as committed exactly if the
      target still holds the install, which it always does until the transfer waits for its project to start. */
  predicate SavedInstallEnds(w: World, w': World, k: Key)
    requires k in w.journal && k in w.live
  {
    var rq, holds := w.journal[k].request, Holds(w.fs, Target(w.journal[k].request), Some(w.live[k].stage));
    && w'.mode.Recovering? && k in w'.mode.mem && w'.fs == w.fs
    && w'.mode.mem[k].status
       == (if holds then (if rq.start then AppliedPendingStart else Complete) else RecoveryRequired)
    && (!holds ==> w.live[k].pc.AtStarting? || w.live[k].pc.AtStarted?)
  }

  /** How a replacing push ends: before the backup rename it is retryable and nothing was touched; after the
      backup rename the old project is always moved back; the rename of the payload is itself the commit; and
      a crash between the journal's `installing` and that rename always ends `recovery_required`. */
  predicate ReplacingPushEnds(w: World, w': World, k: Key)
    requires k in w.journal && k in w.live
  {
    var l, target := w.live[k], Target(w.journal[k].request);
    && w'.mode.Recovering? && k in w'.mode.mem
    && var status := w'.mode.mem[k].status;
    && (BeforeInstall(l.pc) && (BackingUpAt(l.pc) ==> l.pc.AtBackingUp?) ==> status == Error && w'.fs == w.fs)
    && (BackingUpAt(l.pc) && !l.pc.AtBackingUp? ==> status == Error && Holds(w'.fs, target, Some(l.origin)))
    && (l.pc.AtInstalling? ==> status == RecoveryRequired && w'.fs == w.fs)
    && (AfterMove(l.pc) ==> status == Complete || status == AppliedPendingStart)
  }

  lemma CreatingPushRestarts(w: World, k: Key)
    requires Fact(Forward(w, k)) && w.journal[k].status == Active && IsFolderName(w.journal[k].request.folder)
    requires !k.pull && !w.journal[k].request.policy.Replace? && !w.live[k].committed
    ensures Fact(CreatingPushEnds(w, Restarted(w, k), k))
  {
    CreatingPush(w, k);
    if AfterMove(w.live[k].pc) { QuarantinedStatus(w, k); } else { RestartedStatus(w, k); }
  }

  lemma SavedInstallRestarts(w: World, k: Key)
    requires Fact(Forward(w, k)) && w.journal[k].status == Active && IsFolderName(w.journal[k].request.folder)
    requires w.live[k].committed
    ensures Fact(SavedInstallEnds(w, Restarted(w, k), k))
  {
    SavedInstall(w, k);
    RestartedStatus(w, k);
    CommittedPlaces(w, k);
  }

  lemma CommittedPlaces(w: World, k: Key)
    requires Fact(Forward(w, k)) && w.live[k].committed
    ensures KnowsPlaces(w.live[k].pc) || w.live[k].pc.AtStarting? || w.live[k].pc.AtStarted?
  {
  }

  lemma ReplacingPushRestarts(w: World, k: Key)
    requires Fact(Forward(w, k)) && w.journal[k].status == Active && IsFolderName(w.journal[k].request.folder)
    requires !k.pull && w.journal[k].request.policy.Replace?
    ensures Fact(ReplacingPushEnds(w, Restarted(w, k), k))
  {
    ReplacingPush(w, k);
    RestartedStatus(w, k);
    if BackingUpAt(w.live[k].pc) {
      BackupRecorded(w, k);
      if !w.live[k].pc.AtBackingUp? { BackedUpPush(w, k); }
    }
  }

  lemma BackupRecorded(w: World, k: Key)
    requires Fact(Forward(w, k)) && BackingUpAt(w.live[k].pc)
    ensures w.journal[k].backupIdent == Some(w.live[k].origin)
  {
  }

  /** A crash of any state of any run, before the save. */
  lemma CrashedCreatingPush(start: World, evs: seq<Event>, k: Key)
    requires Advancing(start, evs, k)
    requires var w := Run(start, evs); !k.pull && !w.journal[k].request.policy.Replace? && !w.live[k].committed
    ensures CreatingPushEnds(Run(start, evs), Restarted(Run(start, evs), k), k)
  {
    AdvancingIsActive(start, evs, k);
    CreatingPushRestarts(Run(start, evs), k);
  }

  /** After the save, for every policy and for pulls too. */
  lemma CrashedAfterSave(start: World, evs: seq<Event>, k: Key)
    requires Advancing(start, evs, k) && Run(start, evs).live[k].committed
    ensures SavedInstallEnds(Run(start, evs), Restarted(Run(start, evs), k), k)
  {
    AdvancingIsActive(start, evs, k);
    SavedInstallRestarts(Run(start, evs), k);
  }

  /** A replacement, whose manifest entry exists before it starts. */
  lemma CrashedReplacingPush(start: World, evs: seq<Event>, k: Key)
    requires Advancing(start, evs, k)
    requires var w := Run(start, evs); !k.pull && w.journal[k].request.policy.Replace?
    ensures ReplacingPushEnds(Run(start, evs), Restarted(Run(start, evs), k), k)
  {
    AdvancingIsActive(start, evs, k);
    ReplacingPushRestarts(Run(start, evs), k);
  }

  lemma BackedUpRestarts(w: World, k: Key)
    requires Fact(Forward(w, k)) && w.journal[k].status == Active && BackingUpAt(w.live[k].pc) && !w.live[k].pc.AtBackingUp?
    ensures var w' := Restarted(w, k);
      && w'.mode.Recovering? && k in w'.mode.mem
      && if w.journal[k].installedIdent.None? then
           w'.mode.mem[k].status == Error && Holds(w'.fs, Target(w.journal[k].request), Some(w.live[k].origin))
         else w'.mode.mem[k].status == RecoveryRequired && w'.fs == w.fs
  {
    BackedUpPush(w, k);
    RestartedStatus(w, k);
    BackupRecorded(w, k);
  }

  /** Pushes and pulls between the backup rename and the next phase: the old project is moved back if and
      only if the entry names no installed directory. The entry of a push never does; that of a pull does
      if an earlier attempt under the same id got as far as installing, and then it gets stuck. */
  lemma CrashedBackedUp(start: World, evs: seq<Event>, k: Key)
    requires Advancing(start, evs, k)
    requires var pc := Run(start, evs).live[k].pc; BackingUpAt(pc) && !pc.AtBackingUp?
    ensures var w := Run(start, evs); var w' := Restarted(w, k);
      && w'.mode.Recovering? && k in w'.mode.mem
      && if w.journal[k].installedIdent.None? then
           w'.mode.mem[k].status == Error && Holds(w'.fs, Target(w.journal[k].request), Some(w.live[k].origin))
         else w'.mode.mem[k].status == RecoveryRequired && w'.fs == w.fs
  {
    AdvancingIsActive(start, evs, k);
    BackedUpRestarts(Run(start, evs), k);
  }

  /** A pull interrupted before its archive is extracted is not retryable. */
  lemma CrashedDownload(start: World, evs: seq<Event>, k: Key)
    requires Advancing(start, evs, k)
    requires var pc := Run(start, evs).live[k].pc; pc.AtQueued? || pc.AtDownloading?
    ensures var w' := Restarted(Run(start, evs), k);
      w'.mode.Recovering? && k in w'.mode.mem && w'.mode.mem[k].status == RecoveryRequired
  {
    AdvancingIsActive(start, evs, k);
    InterruptedDownload(Run(start, evs), k);
    RestartedStatus(Run(start, evs), k);
  }

  /** The target is in the state it had before the transfer: untouched if the transfer never got to it,
      otherwise the old project that the entry names as its backup, or nothing if there was none. */
  predicate TargetRestored(fs: Files, fs': Files, e: Entry) {
    if NeverMovedTarget(e.phase) then fs' == fs
    else if e.backup.Some? || e.phase.BackingUp? then Holds(fs', Target(e.request), e.backupIdent)
    else Target(e.request) !in fs'
  }

  lemma RetryRestores(fs: Files, m: Manifest, e: Entry)
    requires Decide(fs, m, e).Retry?
    ensures Fact(TargetRestored(fs, fs, e))
  {
  }

  lemma BackupRestores(fs: Files, m: Manifest, e: Entry)
    requires Decide(fs, m, e).Restore? && e.backup.Some?
    requires CanRename(fs, InRoot(e.backup.value), Target(e.request), e.backupIdent.GetOr(0))
    ensures Fact(TargetRestored(fs, Renamed(fs, InRoot(e.backup.value), Target(e.request)), e))
  {
  }

  lemma QuarantineRestores(w: World, k: Key, e: Entry, fault: Fault)
    requires w.mode.Recovering? && Target(e.request) !in w.fs && !NeverMovedTarget(e.phase) && !e.phase.BackingUp?
    requires e.backup.Some? ==> e.backupIdent.Some?
    ensures var w' := AfterQuarantine(w, k, e, fault);
      w'.mode.Recovering? && k in w'.mode.mem && (w'.mode.mem[k].status == Error ==> Fact(TargetRestored(w.fs, w'.fs, e)))
  {
  }

  /** Whenever recovery concludes `error`, with whatever failing on the way, the target is back in the state
      it had before the transfer. */
  lemma RecoveredErrorRestores(w: World, k: Key, fault: Fault)
    requires w.mode.Recovering? && k in w.mode.todo && k in w.mode.mem && IsFolderName(w.mode.mem[k].request.folder)
    ensures var w' := StepRecover(w, k, fault);
      w'.mode.Recovering? && k in w'.mode.mem
      && (w'.mode.mem[k].status == Error ==> Fact(TargetRestored(w.fs, w'.fs, w.mode.mem[k])))
  {
    var e := w.mode.mem[k];
    match Decide(w.fs, w.manifest, e)
    case Retry => RetryRestores(w.fs, w.manifest, e);
    case Restore =>
      if CanRename(w.fs, InRoot(e.backup.GetOr("")), Target(e.request), e.backupIdent.GetOr(0)) {
        BackupRestores(w.fs, w.manifest, e);
      }
    case Quarantine => QuarantinedRestores(w, k, fault);
    case Commit =>
    case Stuck =>
  }

  lemma QuarantinedRestores(w: World, k: Key, fault: Fault)
    requires w.mode.Recovering? && k in w.mode.todo && k in w.mode.mem && IsFolderName(w.mode.mem[k].request.folder)
    requires Decide(w.fs, w.manifest, w.mode.mem[k]).Quarantine?
    ensures var w' := StepRecover(w, k, fault);
      w'.mode.Recovering? && k in w'.mode.mem
      && (w'.mode.mem[k].status == Error ==> Fact(TargetRestored(w.fs, w'.fs, w.mode.mem[k])))
  {
    var e := w.mode.mem[k];
    var target, quarantine := Target(e.request), InRoot(QuarantineName(k.id));
    if CanRename(w.fs, target, quarantine, e.installedIdent.GetOr(0)) {
      NamesAreDisjoint(e.request.folder, k.id, k.id, "");
      QuarantineRestores(Move(w, target, quarantine), k, e, fault);
    }
  }

  // ----- any order of reconciliation -----

  /** The three paths that recovery of an entry touches. */
  function Touched(k: Key, rq: Request): set<Path> {
    {Target(rq), Backup(k, rq), InRoot(QuarantineName(k.id))}
  }

  predicate SameOn(paths: set<Path>, fs0: Files, fs: Files) {
    forall p :: p in paths ==> SameAt(fs0, fs, p)
  }

  lemma RenamedAlike(fs: Files, fs': Files, src: Path, dst: Path, p: Path)
    requires src in fs && src in fs' && SameAt(fs, fs', src) && SameAt(fs, fs', p)
    ensures SameAt(Renamed(fs, src, dst), Renamed(fs', src, dst), p)
  {
  }

  /** The entry of `k` and what lies at its target. */
  predicate Alike(v: World, v': World, k: Key, p: Path) {
    && v.mode.Recovering? && v'.mode.Recovering? && k in v.mode.mem && k in v'.mode.mem
    && v'.mode.mem[k] == v.mode.mem[k] && SameAt(v.fs, v'.fs, p)
  }

  lemma QuarantinedAlike(w: World, w': World, k: Key, e: Entry)
    requires w.mode.Recovering? && w'.mode.Recovering?
    requires e.backup.Some? ==> InRoot(e.backup.value) == Backup(k, e.request)
    requires SameAt(w.fs, w'.fs, Target(e.request)) && SameAt(w.fs, w'.fs, Backup(k, e.request))
    ensures Alike(AfterQuarantine(w, k, e, NoFault), AfterQuarantine(w', k, e, NoFault), k, Target(e.request))
  {
    if e.backup.Some? && Backup(k, e.request) in w.fs {
      RenamedAlike(w.fs, w'.fs, Backup(k, e.request), Target(e.request), Target(e.request));
    }
  }

  /** Both recoveries have `k` before them, with the same entry, verdict and paths. */
  predicate Undecidedly(w: World, w': World, k: Key, e: Entry) {
    && w.mode.Recovering? && w'.mode.Recovering? && k in w.mode.todo && k in w'.mode.todo
    && k in w.mode.mem && k in w'.mode.mem && w.mode.mem[k] == e && w'.mode.mem[k] == e
    && Decide(w'.fs, w'.manifest, e) == Decide(w.fs, w.manifest, e)
    && (e.backup.Some? ==> InRoot(e.backup.value) == Backup(k, e.request))
    && SameAt(w.fs, w'.fs, Target(e.request)) && SameAt(w.fs, w'.fs, Backup(k, e.request))
    && SameAt(w.fs, w'.fs, InRoot(QuarantineName(k.id)))
  }

  lemma RecoverQuarantines(w: World, k: Key, e: Entry)
    requires w.mode.Recovering? && k in w.mode.todo && k in w.mode.mem && w.mode.mem[k] == e && Decide(w.fs, w.manifest, e).Quarantine?
    ensures var target, quarantine := Target(e.request), InRoot(QuarantineName(k.id));
      StepRecover(w, k, NoFault)
      == if CanRename(w.fs, target, quarantine, e.installedIdent.GetOr(0)) then AfterQuarantine(Move(w, target, quarantine), k, e, NoFault)
         else Settle(w, k, StuckEntry(e))
  {
  }

  lemma RecoverStays(w: World, k: Key, e: Entry)
    requires w.mode.Recovering? && k in w.mode.todo && k in w.mode.mem && w.mode.mem[k] == e
    requires var v := Decide(w.fs, w.manifest, e); !v.Restore? && !v.Quarantine?
    ensures var w' := StepRecover(w, k, NoFault);
      w'.mode.Recovering? && k in w'.mode.mem && w'.mode.mem[k] == VerdictEntry(Decide(w.fs, w.manifest, e), e) && w'.fs == w.fs
  {
  }

  lemma QuarantineAlike(w: World, w': World, k: Key, e: Entry)
    requires Fact(Undecidedly(w, w', k, e)) && Decide(w.fs, w.manifest, e).Quarantine?
    ensures Fact(Alike(StepRecover(w, k, NoFault), StepRecover(w', k, NoFault), k, Target(e.request)))
  {
    RecoverQuarantines(w, k, e);
    RecoverQuarantines(w', k, e);
    if CanRename(w.fs, Target(e.request), InRoot(QuarantineName(k.id)), e.installedIdent.GetOr(0)) { MovedAside(w, w', k, e); }
  }

  lemma MovedAside(w: World, w': World, k: Key, e: Entry)
    requires Fact(Undecidedly(w, w', k, e))
    requires CanRename(w.fs, Target(e.request), InRoot(QuarantineName(k.id)), e.installedIdent.GetOr(0))
    ensures var target, quarantine := Target(e.request), InRoot(QuarantineName(k.id));
      && CanRename(w'.fs, target, quarantine, e.installedIdent.GetOr(0))
      && Fact(Alike(AfterQuarantine(Move(w, target, quarantine), k, e, NoFault),
                    AfterQuarantine(Move(w', target, quarantine), k, e, NoFault), k, target))
  {
    var target, quarantine := Target(e.request), InRoot(QuarantineName(k.id));
    RenamedAlike(w.fs, w'.fs, target, quarantine, target);
    RenamedAlike(w.fs, w'.fs, target, quarantine, Backup(k, e.request));
    QuarantinedAlike(Move(w, target, quarantine), Move(w', target, quarantine), k, e);
  }

  lemma RestoreAlike(w: World, w': World, k: Key, e: Entry)
    requires Fact(Undecidedly(w, w', k, e)) && Decide(w.fs, w.manifest, e).Restore?
    ensures Fact(Alike(StepRecover(w, k, NoFault), StepRecover(w', k, NoFault), k, Target(e.request)))
  {
    if Backup(k, e.request) in w.fs {
      RenamedAlike(w.fs, w'.fs, Backup(k, e.request), Target(e.request), Target(e.request));
    }
  }

  lemma StillAlike(w: World, w': World, k: Key, e: Entry)
    requires Fact(Undecidedly(w, w', k, e)) && !Decide(w.fs, w.manifest, e).Restore? && !Decide(w.fs, w.manifest, e).Quarantine?
    ensures Fact(Alike(StepRecover(w, k, NoFault), StepRecover(w', k, NoFault), k, Target(e.request)))
  {
    RecoverStays(w, k, e);
    RecoverStays(w', k, e);
  }

  /** The verdict on an entry, and what it does to its paths, depend on these paths alone. */
  lemma VerdictIsLocal(w: World, w': World, k: Key)
    requires w.mode.Recovering? && w'.mode.Recovering? && k in w.mode.todo && k in w'.mode.todo
    requires k in w.mode.mem && k in w'.mode.mem && w'.mode.mem[k] == w.mode.mem[k] && w'.manifest == w.manifest
    requires var e := w.mode.mem[k]; e.backup.Some? ==> InRoot(e.backup.value) == Backup(k, e.request)
    requires SameOn(Touched(k, w.mode.mem[k].request), w.fs, w'.fs)
    ensures Fact(Alike(StepRecover(w, k, NoFault), StepRecover(w', k, NoFault), k, Target(w.mode.mem[k].request)))
  {
    var e := w.mode.mem[k];
    assert SameAt(w.fs, w'.fs, Target(e.request)) && SameAt(w.fs, w'.fs, Backup(k, e.request))
           && SameAt(w.fs, w'.fs, InRoot(QuarantineName(k.id)));
    SameVerdict(w.fs, w'.fs, w.manifest, k, e);
    match Decide(w.fs, w.manifest, e)
    case Quarantine => QuarantineAlike(w, w', k, e);
    case Restore => RestoreAlike(w, w', k, e);
    case _ => StillAlike(w, w', k, e);
  }

  lemma SameVerdict(fs: Files, fs': Files, m: Manifest, k: Key, e: Entry)
    requires SameAt(fs, fs', Target(e.request)) && SameAt(fs, fs', Backup(k, e.request))
    requires e.backup.Some? ==> InRoot(e.backup.value) == Backup(k, e.request)
    ensures Decide(fs', m, e) == Decide(fs, m, e)
  {
  }

  lemma RenamedElsewhere(fs: Files, src: Path, dst: Path, p: Path)
    requires src in fs && p != src && p != dst
    ensures SameAt(fs, Renamed(fs, src, dst), p)
  {
  }

  lemma QuarantineIsLocal(w: World, o: Key, e: Entry, fault: Fault, p: Path)
    requires w.mode.Recovering? && (e.backup.Some? ==> InRoot(e.backup.value) == Backup(o, e.request))
    requires p != Target(e.request) && p != Backup(o, e.request)
    ensures SameAt(w.fs, AfterQuarantine(w, o, e, fault).fs, p)
  {
  }

  /** Reconciling an entry changes nothing but its own paths. */
  lemma RecoveryIsLocal(w: World, o: Key, fault: Fault, p: Path)
    requires w.mode.Recovering? && o in w.mode.mem
    requires var e := w.mode.mem[o]; e.backup.Some? ==> InRoot(e.backup.value) == Backup(o, e.request)
    requires p !in Touched(o, w.mode.mem[o].request)
    ensures SameAt(w.fs, StepRecover(w, o, fault).fs, p)
  {
    var e := w.mode.mem[o];
    var target, quarantine := Target(e.request), InRoot(QuarantineName(o.id));
    assert p != target && p != quarantine && p != Backup(o, e.request);
    if Decide(w.fs, w.manifest, e).Quarantine? && CanRename(w.fs, target, quarantine, e.installedIdent.GetOr(0)) {
      RenamedElsewhere(w.fs, target, quarantine, p);
      QuarantineIsLocal(Move(w, target, quarantine), o, e, fault, p);
    }
  }

  /** The paths of all other active entries are different ones. */
  predicate FarFromOthers(j: Journal, k: Key)
    requires k in j
  {
    forall o :: o in j && o != k && j[o].status == Active ==> Touched(o, j[o].request) !! Touched(k, j[k].request)
  }

  /** Recovery has come to `w` from `w0` and has, or has not, settled `k`. */
  ghost predicate OnTheWay(w0: World, w: World, k: Key)
    requires w0.mode.Recovering? && k in w0.mode.mem
  {
    && Inv(w) && w.mode.Recovering? && w.journal == w0.journal && w.manifest == w0.manifest && k in w.mode.mem
    && var rq := w0.mode.mem[k].request;
    if k in w.mode.todo then
      w.mode.mem[k] == w0.mode.mem[k] && SameOn(Touched(k, rq), w0.fs, w.fs)
    else
      var v := StepRecover(w0, k, NoFault);
      v.mode.Recovering? && k in v.mode.mem && w.mode.mem[k] == v.mode.mem[k] && SameAt(v.fs, w.fs, Target(rq))
  }

  lemma NextOnTheWay(w0: World, w: World, k: Key, o: Key, fault: Fault)
    requires w0.mode.Recovering? && k in w0.mode.todo && k in w0.mode.mem && k in w0.journal && w0.mode.mem[k] == w0.journal[k]
    requires Fact(OnTheWay(w0, w, k)) && FarFromOthers(w0.journal, k) && (o == k ==> fault.NoFault?)
    ensures Fact(OnTheWay(w0, StepRecover(w, o, fault), k))
  {
    RecoverKeeps(w, o, fault);
    if o in w.mode.todo {
      NamedBackup(w, o);
      NamedBackup(w, k);
      RecoverSettles(w, o, fault);
      if o == k {
        VerdictIsLocal(w0, w, k);
      } else {
        OtherRecovered(w0, w, k, o, fault);
      }
    }
  }

  /** What recovery knows of the entries it has not settled. */
  lemma NamedBackup(w: World, o: Key)
    requires Fact(Inv(w)) && w.mode.Recovering?
    ensures o in w.mode.todo ==> o in w.mode.mem && o in w.journal && w.mode.mem[o] == w.journal[o] && w.journal[o].status == Active
    ensures o in w.mode.mem ==> var e := w.mode.mem[o]; e.backup.Some? ==> InRoot(e.backup.value) == Backup(o, e.request)
  {
    assert Unsealed(0);
    if o in w.mode.mem { assert EntryOk(w.fs, w.trail, w.manifest, o, w.mode.mem[o]); }
  }

  lemma OtherRecovered(w0: World, w: World, k: Key, o: Key, fault: Fault)
    requires w0.mode.Recovering? && k in w0.mode.mem && k in w0.journal && w0.mode.mem[k] == w0.journal[k]
    requires Fact(OnTheWay(w0, w, k)) && FarFromOthers(w0.journal, k) && o != k && Fact(Inv(StepRecover(w, o, fault)))
    requires o in w.mode.todo && o in w.mode.mem && o in w.journal && w.mode.mem[o] == w.journal[o] && w.journal[o].status == Active
    requires var e := w.mode.mem[o]; e.backup.Some? ==> InRoot(e.backup.value) == Backup(o, e.request)
    requires Fact(SettlesOne(w, StepRecover(w, o, fault), o))
    ensures Fact(OnTheWay(w0, StepRecover(w, o, fault), k))
  {
    var w' := StepRecover(w, o, fault);
    forall p | p in Touched(k, w0.mode.mem[k].request)
      ensures SameAt(w.fs, w'.fs, p)
    {
      assert p !in Touched(o, w.journal[o].request);
      RecoveryIsLocal(w, o, fault, p);
    }
  }

  lemma {:induction false} ReconcileOnTheWay(w0: World, k: Key, order: seq<(Key, Fault)>)
    requires Fact(Inv(w0)) && w0.mode.Recovering? && k in w0.mode.todo && k in w0.mode.mem && k in w0.journal
    requires w0.mode.mem[k] == w0.journal[k] && FarFromOthers(w0.journal, k)
    requires forall i :: 0 <= i < |order| && order[i].0 == k ==> order[i].1.NoFault?
    ensures Fact(OnTheWay(w0, Reconcile(w0, order), k))
    decreases |order|
  {
    if order != [] {
      var most, last := order[..|order| - 1], order[|order| - 1];
      ReconcileOnTheWay(w0, k, most);
      NextOnTheWay(w0, Reconcile(w0, most), k, last.0, last.1);
    }
  }

  /** The verdicts above do not depend on the order in which recovery visits the entries, nor on what
      fails for the others: whenever the paths of the other active entries are different ones, a transfer
      that crashed gets, after any reconciliation that visits it, the entry it would have got as the first. */
  lemma CrashVerdictInAnyOrder(w: World, k: Key, order: seq<(Key, Fault)>)
    requires Fact(Inv(w)) && k in w.journal && w.journal[k].status == Active && FarFromOthers(w.journal, k)
    requires k in Handled(order) && forall i :: 0 <= i < |order| && order[i].0 == k ==> order[i].1.NoFault?
    ensures var w', first := Reconcile(StepBeginRecovery(StepCrash(w)), order), Restarted(w, k);
      && w'.mode.Recovering? && first.mode.Recovering? && k in w'.mode.mem && k in first.mode.mem
      && w'.mode.mem[k] == first.mode.mem[k] && SameAt(first.fs, w'.fs, Target(w.journal[k].request))
  {
    var w0 := StepBeginRecovery(StepCrash(w));
    CrashKeeps(w);
    BeginRecoveryKeeps(StepCrash(w));
    ReconcileOnTheWay(w0, k, order);
    ReconcileProgress(w0, order);
  }
}
