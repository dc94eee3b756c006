/** The install protocol as a state machine: every await, journal write, rename, failure, cancellation
    and crash is one step. Steps of different transfers interleave wherever the code awaits. */
module InstallMachine {
  import opened Options
  import opened InstallNames
  import opened InstallModel

  datatype Event =
    | Claim(k: Key, rq: Request)
    | StartApplied(k: Key, ok: bool)
    | MakeContainer(k: Key, name: string, ident: Ident)
    | WriteJournal(k: Key)
    | Unpack(k: Key, ident: Ident)
    | AcquireLocks(k: Key)
    | OpenTransaction(k: Key)
    | MoveToBackup(k: Key)
    | BindBackup(k: Key)
    | MoveToTarget(k: Key)
    | SaveManifest(k: Key)
    | SaveManifestLate(k: Key)
    | Start(k: Key, ok: bool)
    | SaveReceipt(k: Key)
    | Fail(k: Key, cancelled: bool)
    | UndoInstall(k: Key, ok: bool)
    | UndoBackup(k: Key, ok: bool)
    | RecordRollback(k: Key)
    | ReleaseLocks(k: Key)
    | Report(k: Key)
    | SweepContainer(name: string)
    | Prune(k: Key)
    | SetRunning(ids: set<string>)
    | Crash
    | BeginRecovery
    | Recover(k: Key, fault: Fault)
    | RecoverTorn(k: Key)
    | FlushJournal(pull: bool)
    | FinishRecovery

  /** An I/O failure while one journal entry is being reconciled: before its first rename, or
      between its two renames. */
  datatype Fault = NoFault | BeforeMoves | BetweenMoves

  // ----- kinds of event -----

  predicate Early(ev: Event) {
    || ev.Claim? || ev.StartApplied? || ev.MakeContainer? || ev.WriteJournal? || ev.Unpack?
    || ev.AcquireLocks? || ev.OpenTransaction?
  }

  predicate Late(ev: Event) {
    || ev.MoveToBackup? || ev.BindBackup? || ev.MoveToTarget? || ev.SaveManifest? || ev.SaveManifestLate?
    || ev.Start? || ev.SaveReceipt?
  }

  predicate Failing(ev: Event) {
    ev.Fail? || ev.UndoInstall? || ev.UndoBackup? || ev.RecordRollback? || ev.ReleaseLocks? || ev.Report?
  }

  // ----- helpers -----

  predicate At(w: World, k: Key, pc: Pc) {
    w.mode.Up? && k in w.live && k in w.journal && w.live[k].pc == pc
  }

  function Asked(w: World, k: Key): Request
    requires k in w.journal
  {
    w.journal[k].request
  }

  function Put(w: World, k: Key, l: Live): World {
    w.(live := w.live[k := l])
  }

  function Goto(w: World, k: Key, pc: Pc): World
    requires k in w.live
  {
    Put(w, k, w.live[k].(pc := pc))
  }

  function Log(w: World, k: Key, e: Entry): World {
    w.(journal := Note(w.journal, k, e))
  }

  // ----- claiming -----

  function StepClaim(w: World, k: Key, rq: Request): World {
    if && w.mode.Up? && k !in w.live && IsRequest(k, rq) && MayClaim(w.journal, k, rq)
       && Admits(w.fs, w.manifest, w.running, rq)
    then w.(journal := w.journal[k := ClaimEntry(w.journal, k, rq)], live := w.live[k := FreshLive(k)])
    else w
  }

  /** The authenticated retry that only starts an already installed project. */
  predicate EligibleForStart(w: World, k: Key) {
    && w.mode.Up? && k !in w.live && k in w.journal
    && var e := w.journal[k];
    && e.status == AppliedPendingStart && e.request.start
    && e.request.dest in w.manifest && w.manifest[e.request.dest] == Target(e.request)
    && e.installedIdent.Some? && Holds(w.fs, Target(e.request), e.installedIdent)
    && w.fs[Target(e.request)].project == Some(e.request.dest)
  }

  function StepStartApplied(w: World, k: Key, ok: bool): World {
    if !EligibleForStart(w, k) then w
    else if ok then w.(journal := w.journal[k := ReceiptEntry(w.journal[k].request, true)])
    else Log(w, k, w.journal[k].(phase := PendingStart))
  }

  // ----- staging -----

  function StepMakeContainer(w: World, k: Key, name: string, ident: Ident): World {
    if && At(w, k, AtClaimed) && IsContainerName(name) && InRoot(name) !in w.fs && ident !in w.trail.born
    then
      Put(w, k, w.live[k].(pc := AtContainer, container := name, containerIdent := ident))
        .(fs := w.fs[InRoot(name) := Dir(ident, None)],
          trail := w.trail.(loc := w.trail.loc[ident := InRoot(name)], born := w.trail.born + {ident}))
    else w
  }

  /** The container is there and has no payload yet; only a copy or a replacement may rename the project. */
  predicate CanUnpack(fs: Files, l: Live, rq: Request) {
    && InRoot(l.container) in fs && InContainer(l.container, PAYLOAD) !in fs
    && (rq.policy.Reject? ==> rq.dest == rq.source)
  }

  /** Extraction followed by the metadata checks: the payload ends up named after the destination. */
  function StepUnpack(w: World, k: Key, ident: Ident): World {
    if At(w, k, AtExtracting) && ident !in w.trail.born && CanUnpack(w.fs, w.live[k], Asked(w, k)) then
      var p := InContainer(w.live[k].container, PAYLOAD);
      Put(w, k, w.live[k].(pc := AtUnpacked, stage := ident))
        .(fs := w.fs[p := Dir(ident, Some(Asked(w, k).dest))],
          trail := w.trail.(loc := w.trail.loc[ident := p], born := w.trail.born + {ident},
                            owner := w.trail.owner[ident := k]))
    else w
  }

  /** A served request that holds its folder's lock. */
  predicate Holder(w: World, k: Key) {
    k in w.live && k in w.journal && HoldsPath(w.live[k].pc)
  }

  predicate PathFree(w: World, k: Key)
    requires k in w.journal
  {
    forall o | o in w.live && Holder(w, o) && o != k :: w.journal[o].request.folder != w.journal[k].request.folder
  }

  function StepAcquireLocks(w: World, k: Key): World {
    if At(w, k, AtValidated) && PathFree(w, k) then Goto(w, k, AtLocked) else w
  }

  predicate TransactionChecks(w: World, k: Key)
    requires k in w.journal
  {
    var rq := Asked(w, k);
    if rq.policy.Replace? then
      && rq.dest in w.manifest && rq.dest !in w.running && w.manifest[rq.dest] == Target(rq)
      && Target(rq) in w.fs
      && Backup(k, rq) !in w.fs
    else
      && rq.dest !in w.manifest
      && (forall id :: id in w.manifest ==> w.manifest[id] != Target(rq))
  }

  function StepOpenTransaction(w: World, k: Key): World {
    if At(w, k, AtLocked) && w.manifestLock.None? && TransactionChecks(w, k) then
      var rq := Asked(w, k);
      var l := w.live[k].(pc := AtOpened, snapshot := w.manifest);
      if rq.policy.Replace? then
        var origin := w.fs[Target(rq)].ident;
        Put(w, k, l.(origin := origin))
          .(manifestLock := Some(k), trail := w.trail.(projects := w.trail.projects + {origin}))
      else
        Put(w, k, l).(manifestLock := Some(k))
    else w
  }

  // ----- journal writes, one per phase -----

  /** Pcs whose next action is to journal a new phase. */
  predicate Writes(l: Live, e: Entry) {
    match l.pc
    case AtQueued | AtDownloading | AtContainer | AtUnpacked | AtOpened | AtBackupBound
       | AtBackupCreated | AtMoved | AtInstalled | AtSaved => true
    case AtReleased => e.request.start
    case _ => false
  }

  function WrittenPc(pc: Pc, policy: Policy): Pc {
    match pc
    case AtQueued => AtDownloading
    case AtDownloading => AtClaimed
    case AtContainer => AtExtracting
    case AtUnpacked => AtValidated
    case AtOpened => if policy.Replace? then AtBackingUp else AtInstalling
    case AtBackupBound => AtBackupCreated
    case AtBackupCreated => AtInstalling
    case AtMoved => AtInstalled
    case AtInstalled => AtCommitting
    case AtSaved => AtCommitted
    case AtReleased => AtStarting
    case _ => pc
  }

  function WrittenEntry(k: Key, l: Live, e: Entry): Entry {
    match l.pc
    case AtQueued => e.(phase := Downloading)
    case AtDownloading => e.(phase := Extracting)
    case AtContainer =>
      e.(phase := Extracting, container := Some(l.container), containerIdent := Some(l.containerIdent))
    case AtUnpacked => e.(phase := Validated)
    case AtOpened =>
      if e.request.policy.Replace? then
        e.(phase := BackingUp, backup := Some(BackupName(e.request.folder, k.id)), backupIdent := Some(l.origin))
      else e.(phase := Installing, installedIdent := Some(l.stage))
    case AtBackupBound => e.(phase := BackupCreated, backupIdent := Some(l.origin))
    case AtBackupCreated => e.(phase := Installing, installedIdent := Some(l.stage))
    case AtMoved => e.(phase := Installed, installedIdent := Some(l.stage))
    case AtInstalled => e.(phase := CommittingManifest)
    case AtSaved => e.(phase := ManifestCommitted)
    case AtReleased => e.(phase := Starting)
    case _ => e
  }

  function StepWriteJournal(w: World, k: Key): World {
    if w.mode.Up? && k in w.live && k in w.journal && Writes(w.live[k], w.journal[k]) then
      var l, e := w.live[k], w.journal[k];
      Goto(Log(w, k, WrittenEntry(k, l, e)), k, WrittenPc(l.pc, e.request.policy))
    else w
  }

  // ----- the critical section -----

  function StepMoveToBackup(w: World, k: Key): World {
    if At(w, k, AtBackingUp) && CanRename(w.fs, Target(Asked(w, k)), Backup(k, Asked(w, k)), w.live[k].origin) then
      Put(Move(w, Target(Asked(w, k)), Backup(k, Asked(w, k))), k,
          w.live[k].(pc := AtBackupMoved, backedUp := true))
    else w
  }

  function StepBindBackup(w: World, k: Key): World {
    if At(w, k, AtBackupMoved) then Put(w, k, w.live[k].(pc := AtBackupBound, backupBound := true)) else w
  }

  function StepMoveToTarget(w: World, k: Key): World {
    if && At(w, k, AtInstalling)
       && CanRename(w.fs, InContainer(w.live[k].container, PAYLOAD), Target(Asked(w, k)), w.live[k].stage)
    then
      Put(Move(w, InContainer(w.live[k].container, PAYLOAD), Target(Asked(w, k))), k,
          w.live[k].(pc := AtMoved, installed := true))
    else w
  }

  function StepSaveManifest(w: World, k: Key): World {
    if At(w, k, AtCommitting) then
      Put(w, k, w.live[k].(pc := AtSaved, committed := true))
        .(manifest := w.live[k].snapshot[Asked(w, k).dest := Target(Asked(w, k))],
          manifestLock := None,
          trail := AddCommit(w.trail, k, w.live[k].stage))
    else w
  }

  /** The manifest file was replaced, but the call still raised. */
  function StepSaveManifestLate(w: World, k: Key): World {
    if At(w, k, AtCommitting) then
      Goto(w, k, UnwindInstall)
        .(manifest := w.live[k].snapshot[Asked(w, k).dest := Target(Asked(w, k))], manifestLock := None)
    else w
  }

  // ----- after the commit -----

  /** A start that fails - be it at the journal write before it - is noted and does not stop the receipt. */
  predicate Startable(w: World, k: Key, ok: bool) {
    At(w, k, AtStarting) || (At(w, k, AtReleased) && Asked(w, k).start && !ok)
  }

  function StepStart(w: World, k: Key, ok: bool): World {
    if Startable(w, k, ok) then Put(w, k, w.live[k].(pc := AtStarted, started := ok)) else w
  }

  function StepSaveReceipt(w: World, k: Key): World {
    if At(w, k, AtStarted) || (At(w, k, AtReleased) && !Asked(w, k).start) then
      w.(journal := w.journal[k := ReceiptEntry(Asked(w, k), w.live[k].started)], live := w.live - {k})
    else w
  }

  // ----- failure and rollback -----

  predicate Unwinding(pc: Pc) {
    pc.UnwindInstall? || pc.UnwindBackup? || pc.UnwindVerdict? || pc.Unwound? || pc.Reporting?
  }

  /** Under the locks an exception unwinds the install; elsewhere it is only reported. */
  function Failed(l: Live, cancelled: bool): Live {
    l.(cancelled := cancelled, pc := if HoldsPath(l.pc) then UnwindInstall else Reporting)
  }

  /** An exception or a cancellation anywhere before the final report. Leaving the manifest
      transaction releases its lock before anything is rolled back. */
  function StepFail(w: World, k: Key, cancelled: bool): World {
    if w.mode.Up? && k in w.live && k in w.journal && !Unwinding(w.live[k].pc) then
      Put(w, k, Failed(w.live[k], cancelled))
        .(manifestLock := if InTransaction(w.live[k].pc) then None else w.manifestLock)
    else w
  }

  function StepUndoInstall(w: World, k: Key, ok: bool): World {
    if !At(w, k, UnwindInstall) then w else
    var l := w.live[k];
    var src, dst := Target(Asked(w, k)), InContainer(l.container, REJECTED);
    if l.committed || !l.installed then Goto(w, k, UnwindBackup)
    else if ok && CanRename(w.fs, src, dst, l.stage) then
      Put(Move(w, src, dst), k, l.(pc := UnwindBackup, installed := false))
    else Put(w, k, l.(pc := UnwindBackup, rollbackFailed := true))
  }

  function StepUndoBackup(w: World, k: Key, ok: bool): World {
    if !At(w, k, UnwindBackup) then w else
    var l := w.live[k];
    var src, dst := Backup(k, Asked(w, k)), Target(Asked(w, k));
    if l.committed || !l.backedUp || !l.backupBound || l.installed then Goto(w, k, UnwindVerdict)
    else if ok && CanRename(w.fs, src, dst, l.origin) then
      Put(Move(w, src, dst), k, l.(pc := UnwindVerdict, backedUp := false))
    else Put(w, k, l.(pc := UnwindVerdict, rollbackFailed := true))
  }

  function StepRecordRollback(w: World, k: Key): World {
    if !At(w, k, UnwindVerdict) then w
    else if w.live[k].rollbackFailed then
      Goto(Log(w, k, w.journal[k].(status := RecoveryRequired, phase := Stranded)), k, Unwound)
    else Goto(w, k, Unwound)
  }

  function StepReleaseLocks(w: World, k: Key): World {
    if At(w, k, AtCommitted) then Goto(w, k, AtReleased)
    else if At(w, k, Unwound) then Goto(w, k, Reporting)
    else w
  }

  /** The outermost handler: the verdict of a call that did not return normally. */
  function ReportEntry(e: Entry, l: Live): Entry {
    if l.committed then
      if e.request.start then e.(status := AppliedPendingStart, phase := PendingStart)
      else ReceiptEntry(e.request, false)
    else if l.cancelled then e.(status := Cancelled, phase := CancelledAfterRollback)
    else e.(status := Error, phase := ErrorAfterRollback)
  }

  function StepReport(w: World, k: Key): World {
    if At(w, k, Reporting) then
      Log(w, k, ReportEntry(w.journal[k], w.live[k])).(live := w.live - {k})
    else w
  }

  // ----- housekeeping -----

  function StepSweep(w: World, name: string): World {
    if !w.mode.Down? && IsContainerName(name) then Sweep(w, name) else w
  }

  function StepPrune(w: World, k: Key): World {
    if w.mode.Up? && k in w.journal && k !in w.live && Settled(w.journal[k].status) then
      w.(journal := w.journal - {k}, trail := w.trail.(commits := w.trail.commits - {k}))
    else w
  }

  // ----- crash and recovery -----

  function StepCrash(w: World): World {
    w.(live := map[], manifestLock := None, mode := Down)
  }

  function ActiveKeys(j: Journal): set<Key> {
    set k | k in j && j[k].status == Active
  }

  function StepBeginRecovery(w: World): World {
    if w.mode.Down? then w.(mode := Recovering(ActiveKeys(w.journal), w.journal)) else w
  }

  function Settle(w: World, k: Key, e: Entry): World
    requires w.mode.Recovering?
  {
    w.(mode := Recovering(w.mode.todo - {k}, w.mode.mem[k := e]))
  }

  function StuckEntry(e: Entry): Entry {
    VerdictEntry(Stuck, e)
  }

  /** The half-installed target is out of the way: move the backup, if there is one, back. */
  function AfterQuarantine(w: World, k: Key, e: Entry, fault: Fault): World
    requires w.mode.Recovering?
  {
    if e.backup.None? then Settle(w, k, VerdictEntry(Quarantine, e)) else
    var backup := InRoot(e.backup.value);
    if fault.BetweenMoves? || !CanRename(w.fs, backup, Target(e.request), e.backupIdent.GetOr(0)) then
      Settle(w, k, StuckEntry(e))
    else Settle(Move(w, backup, Target(e.request)), k, VerdictEntry(Quarantine, e))
  }

  /** The renames that a verdict asks for, and the entry it leads to. */
  function Concluded(w: World, k: Key, e: Entry, v: Verdict, fault: Fault): World
    requires w.mode.Recovering?
  {
    var target, quarantine := Target(e.request), InRoot(QuarantineName(k.id));
    match v
    case Retry => Settle(w, k, VerdictEntry(v, e))
    case Stuck => Settle(w, k, VerdictEntry(v, e))
    case Commit =>
      Settle(w, k, VerdictEntry(v, e)).(trail := AddCommit(w.trail, k, e.installedIdent.GetOr(0)))
    case Restore =>
      var backup := InRoot(e.backup.GetOr(""));
      if CanRename(w.fs, backup, target, e.backupIdent.GetOr(0)) then
        Settle(Move(w, backup, target), k, VerdictEntry(v, e))
      else Settle(w, k, StuckEntry(e))
    case Quarantine =>
      if !CanRename(w.fs, target, quarantine, e.installedIdent.GetOr(0)) then Settle(w, k, StuckEntry(e)) else
      AfterQuarantine(Move(w, target, quarantine), k, e, fault)
  }

  /** One reconciled entry. */
  function StepRecover(w: World, k: Key, fault: Fault): World {
    if !(w.mode.Recovering? && k in w.mode.todo && k in w.mode.mem) then w else
    var e := w.mode.mem[k];
    if fault.BeforeMoves? && !NeverMovedTarget(e.phase) then Settle(w, k, StuckEntry(e))
    else Concluded(w, k, e, Decide(w.fs, w.manifest, e), fault)
  }

  /** A crash between the two renames of a quarantine. */
  function StepRecoverTorn(w: World, k: Key): World {
    if !(w.mode.Recovering? && k in w.mode.todo && k in w.mode.mem) then w else
    var e := w.mode.mem[k];
    var target, quarantine := Target(e.request), InRoot(QuarantineName(k.id));
    if && Decide(w.fs, w.manifest, e).Quarantine?
       && CanRename(w.fs, target, quarantine, e.installedIdent.GetOr(0))
    then StepCrash(Move(w, target, quarantine))
    else w
  }

  /** Pushes and pulls have a journal file each; it is written once all of its entries are reconciled. */
  function Flushed(j: Journal, mem: Journal, pull: bool): Journal {
    map k | k in j :: if k.pull == pull && k in mem then mem[k] else j[k]
  }

  function StepFlushJournal(w: World, pull: bool): World {
    if w.mode.Recovering? && forall k :: k in w.mode.todo ==> k.pull != pull then
      w.(journal := Flushed(w.journal, w.mode.mem, pull))
    else w
  }

  /** Both files are written and the host is up. */
  function StepFinishRecovery(w: World): World {
    if w.mode.Recovering? && w.mode.todo == {} then w.(journal := w.mode.mem, mode := Up) else w
  }

  // ----- runs -----

  function Step(w: World, ev: Event): World {
    match ev
    case Claim(k, rq) => StepClaim(w, k, rq)
    case StartApplied(k, ok) => StepStartApplied(w, k, ok)
    case MakeContainer(k, name, ident) => StepMakeContainer(w, k, name, ident)
    case WriteJournal(k) => StepWriteJournal(w, k)
    case Unpack(k, ident) => StepUnpack(w, k, ident)
    case AcquireLocks(k) => StepAcquireLocks(w, k)
    case OpenTransaction(k) => StepOpenTransaction(w, k)
    case MoveToBackup(k) => StepMoveToBackup(w, k)
    case BindBackup(k) => StepBindBackup(w, k)
    case MoveToTarget(k) => StepMoveToTarget(w, k)
    case SaveManifest(k) => StepSaveManifest(w, k)
    case SaveManifestLate(k) => StepSaveManifestLate(w, k)
    case Start(k, ok) => StepStart(w, k, ok)
    case SaveReceipt(k) => StepSaveReceipt(w, k)
    case Fail(k, cancelled) => StepFail(w, k, cancelled)
    case UndoInstall(k, ok) => StepUndoInstall(w, k, ok)
    case UndoBackup(k, ok) => StepUndoBackup(w, k, ok)
    case RecordRollback(k) => StepRecordRollback(w, k)
    case ReleaseLocks(k) => StepReleaseLocks(w, k)
    case Report(k) => StepReport(w, k)
    case SweepContainer(name) => StepSweep(w, name)
    case Prune(k) => StepPrune(w, k)
    case SetRunning(ids) => w.(running := ids)
    case Crash => StepCrash(w)
    case BeginRecovery => StepBeginRecovery(w)
    case Recover(k, fault) => StepRecover(w, k, fault)
    case RecoverTorn(k) => StepRecoverTorn(w, k)
    case FlushJournal(pull) => StepFlushJournal(w, pull)
    case FinishRecovery => StepFinishRecovery(w)
  }

  // ----- the event loop -----

  /** Where the code of a request runs on without an await: from the manifest transaction to the start of
      the project or the receipt, and from a failure to the verdict. */
  predicate Uninterrupted(pc: Pc) {
    InTransaction(pc) || pc.AtSaved? || pc.AtCommitted? || pc.AtReleased? || pc.AtStarted? || Unwinding(pc)
  }

  /** Steps of a request that the event loop takes. Worker threads unpack archives and acquire locks. */
  predicate OnLoop(ev: Event) {
    (Early(ev) || Late(ev) || Failing(ev)) && !ev.Unpack? && !ev.AcquireLocks?
  }

  /** Some other request is being run by the event loop. */
  predicate Occupied(w: World, k: Key) {
    exists o :: o in w.live && o != k && Uninterrupted(w.live[o].pc)
  }

  /** All requests share one event loop: while it runs one of them, the steps of the others wait. */
  predicate Waits(w: World, ev: Event) {
    OnLoop(ev) && Occupied(w, ev.k)
  }

  function Next(w: World, ev: Event): World {
    if Waits(w, ev) then w else Step(w, ev)
  }

  function Run(w: World, evs: seq<Event>): World
    decreases |evs|
  {
    if evs == [] then w else Next(Run(w, evs[..|evs| - 1]), evs[|evs| - 1])
  }
}
