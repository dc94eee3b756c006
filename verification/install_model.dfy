/** State of the project-install protocol: the projects root, the manifest, the durable transfer
    journal, and the volatile state of every request that is being served. */
module InstallModel {
  import opened Options
  import opened InstallNames

  /** A device/inode pair. Identities are never reused. */
  type Ident = nat

  datatype Dir = Dir(ident: Ident, project: Option<string>)
  type Files = map<Path, Dir>
  type Manifest = map<string, Path>

  datatype Policy = Reject | Replace | Copy

  /** What a transfer asks for. The fingerprint kept in the journal is a digest of exactly this,
      so the model stores the request itself: digests are taken to be injective. */
  datatype Request = Request(
    source: string, dest: string, folder: string, policy: Policy,
    confirmReplace: bool, start: bool, archive: string)

  /** Pushes and pulls have separate journals with separate id spaces. */
  datatype Key = Key(pull: bool, id: string)

  datatype Status = Active | Error | Cancelled | AppliedPendingStart | Complete | RecoveryRequired

  datatype Phase =
    | Queued | Downloading | Claimed | Extracting | Validated | BackingUp | BackupCreated
    | Installing | Installed | CommittingManifest | ManifestCommitted | Starting
    | Receipt | PendingStart | InterruptedRetryable | RolledBackAfterRestart | Stranded
    | CancelledAfterRollback | ErrorAfterRollback

  datatype Entry = Entry(
    request: Request, status: Status, phase: Phase,
    backup: Option<string>, backupIdent: Option<Ident>, installedIdent: Option<Ident>,
    container: Option<string>, containerIdent: Option<Ident>, started: bool)
  type Journal = map<Key, Entry>

  function Target(rq: Request): Path {
    InRoot(rq.folder)
  }

  function Backup(k: Key, rq: Request): Path {
    InRoot(BackupName(rq.folder, k.id))
  }

  predicate IsRequest(k: Key, rq: Request) {
    IsTransferId(k.id) && IsFolderName(rq.folder)
  }

  /** Where the code that serves one transfer stands. */
  datatype Pc =
    | AtQueued | AtDownloading | AtClaimed | AtContainer | AtExtracting | AtUnpacked | AtValidated
    | AtLocked | AtOpened | AtBackingUp | AtBackupMoved | AtBackupBound | AtBackupCreated
    | AtInstalling | AtMoved | AtInstalled | AtCommitting | AtSaved | AtCommitted
    | AtReleased | AtStarting | AtStarted
    | UnwindInstall | UnwindBackup | UnwindVerdict | Unwound | Reporting

  /** Pcs at which the request holds its folder's lock. */
  predicate HoldsPath(pc: Pc) {
    || pc.AtLocked? || InTransaction(pc) || pc.AtSaved? || pc.AtCommitted?
    || pc.UnwindInstall? || pc.UnwindBackup? || pc.UnwindVerdict? || pc.Unwound?
  }

  /** Pcs inside the manifest transaction. */
  predicate InTransaction(pc: Pc) {
    || pc.AtOpened? || pc.AtBackingUp? || pc.AtBackupMoved? || pc.AtBackupBound?
    || pc.AtBackupCreated? || pc.AtInstalling? || pc.AtMoved? || pc.AtInstalled? || pc.AtCommitting?
  }

  /** Local variables of one `_stage_and_install` call. */
  datatype Live = Live(
    pc: Pc, container: string, containerIdent: Ident, stage: Ident, origin: Ident,
    snapshot: Manifest, installed: bool, backedUp: bool, backupBound: bool, committed: bool,
    cancelled: bool, rollbackFailed: bool, started: bool)

  function FreshLive(k: Key): Live {
    Live(if k.pull then AtQueued else AtClaimed, "", 0, 0, 0, map[],
         false, false, false, false, false, false, false)
  }

  /** `Up`: serving requests. `Down`: crashed. `Recovering`: startup reconciliation, which edits
      the journal in memory and writes each of its two files back once. */
  datatype Mode = Up | Down | Recovering(todo: set<Key>, mem: Journal)

  /** Facts about the history of a run that no code reads: where each identity lies, which transfer
      staged it, which identities are project directories, and which installs each retained journal
      entry has committed. */
  datatype Trail = Trail(
    loc: map<Ident, Path>, born: set<Ident>, owner: map<Ident, Key>,
    projects: set<Ident>, commits: map<Key, set<Ident>>)

  datatype World = World(
    fs: Files, manifest: Manifest, running: set<string>, journal: Journal,
    live: map<Key, Live>, manifestLock: Option<Key>, mode: Mode, trail: Trail)

  function CommitsOf(t: Trail, k: Key): set<Ident> {
    if k in t.commits then t.commits[k] else {}
  }

  function AddCommit(t: Trail, k: Key, i: Ident): Trail {
    t.(commits := t.commits[k := CommitsOf(t, k) + {i}], projects := t.projects + {i})
  }

  // ----- the rename primitive -----

  /** An identity-bound rename that refuses an existing destination. */
  predicate CanRename(fs: Files, src: Path, dst: Path, ident: Ident) {
    && src in fs && fs[src].ident == ident
    && dst !in fs
    && (dst.InContainer? ==> InRoot(dst.container) in fs)
  }

  function Renamed(fs: Files, src: Path, dst: Path): Files
    requires src in fs
  {
    (fs - {src})[dst := fs[src]]
  }

  function Move(w: World, src: Path, dst: Path): World
    requires src in w.fs
  {
    w.(fs := Renamed(w.fs, src, dst), trail := w.trail.(loc := w.trail.loc[w.fs[src].ident := dst]))
  }

  /** Emptying and removing one staging container. */
  predicate InsideContainer(p: Path, name: string) {
    p == InRoot(name) || (p.InContainer? && p.container == name)
  }

  function Cleared(fs: Files, name: string): Files {
    map p | p in fs && !InsideContainer(p, name) :: fs[p]
  }

  function Sweep(w: World, name: string): World {
    w.(fs := Cleared(w.fs, name),
       trail := w.trail.(loc := map i | i in w.trail.loc && !InsideContainer(w.trail.loc[i], name) :: w.trail.loc[i]))
  }

  // ----- the journal -----

  /** The journal's update helper: a `recovery_required` entry is never changed. */
  function Note(j: Journal, k: Key, e: Entry): Journal {
    if k in j && j[k].status != RecoveryRequired then j[k := e] else j
  }

  predicate Settled(s: Status) {
    s != Active && s != RecoveryRequired
  }

  // ----- claiming a transfer id -----

  /** The collision checks made before a claim. */
  predicate Admits(fs: Files, manifest: Manifest, running: set<string>, rq: Request) {
    match rq.policy
    case Reject => rq.dest !in manifest && rq.source !in manifest && Target(rq) !in fs
    case Copy => rq.dest !in manifest && Target(rq) !in fs && rq.dest != rq.source
    case Replace =>
      rq.confirmReplace && rq.dest in manifest && rq.dest !in running && manifest[rq.dest] == Target(rq)
  }

  /** A retry may only reuse a claim of the same request, and only one that failed or was cancelled. */
  predicate MayClaim(j: Journal, k: Key, rq: Request) {
    k in j ==> j[k].request == rq && (j[k].status == Error || j[k].status == Cancelled)
  }

  /** A push claim replaces the whole entry; a pull claim merges into the old one. */
  function ClaimEntry(j: Journal, k: Key, rq: Request): Entry {
    if k.pull && k in j then
      j[k].(request := rq, status := Active, phase := Queued)
    else
      Entry(rq, Active, if k.pull then Queued else Claimed, None, None, None, None, None, false)
  }

  function ReceiptEntry(rq: Request, started: bool): Entry {
    Entry(rq, Complete, Receipt, None, None, None, None, None, started)
  }

  // ----- recovery -----

  datatype Verdict =
    | Retry        // nothing was moved: the transfer can be retried
    | Commit       // the install is the destination project
    | Restore      // move the backup back to the target
    | Quarantine   // move the half-installed target aside, then the backup (if any) back
    | Stuck        // cannot be proven safe

  predicate NeverMovedTarget(ph: Phase) {
    ph.Claimed? || ph.Extracting? || ph.Validated?
  }

  predicate Holds(fs: Files, p: Path, i: Option<Ident>) {
    p in fs && Some(fs[p].ident) == i
  }

  /** The manifest already names the target for the destination id and an install was recorded. */
  predicate MayBeCommitted(manifest: Manifest, e: Entry) {
    && e.request.dest in manifest
    && manifest[e.request.dest] == Target(e.request)
    && e.installedIdent.Some?
  }

  /** What startup reconciliation concludes for one active entry. */
  function Decide(fs: Files, manifest: Manifest, e: Entry): Verdict {
    var target := Target(e.request);
    if NeverMovedTarget(e.phase) then Retry
    else if MayBeCommitted(manifest, e) && target !in fs then Stuck
    else if MayBeCommitted(manifest, e) && Holds(fs, target, e.installedIdent)
            && fs[target].project == Some(e.request.dest) then Commit
    else if (e.phase.BackingUp? || e.phase.BackupCreated?) && e.backup.Some? && target !in fs then
      if Holds(fs, InRoot(e.backup.value), e.backupIdent) then Restore else Stuck
    else if e.phase.BackingUp? && target in fs && (e.backup.None? || InRoot(e.backup.value) !in fs) then
      if Holds(fs, target, e.backupIdent) then Retry else Stuck
    else if (e.phase.Installing? || e.phase.Installed? || e.phase.CommittingManifest?) && target in fs then
      if && Holds(fs, target, e.installedIdent)
         && (e.backup.Some? ==> Holds(fs, InRoot(e.backup.value), e.backupIdent))
      then Quarantine else Stuck
    else if e.phase.Installing? && target !in fs then
      if e.backup.None? then Retry
      else if Holds(fs, InRoot(e.backup.value), e.backupIdent) then Restore else Stuck
    else Stuck
  }

  function VerdictEntry(v: Verdict, e: Entry): Entry {
    match v
    case Retry => e.(status := Error, phase := InterruptedRetryable)
    case Commit =>
      if e.request.start then e.(status := AppliedPendingStart, phase := PendingStart)
      else e.(status := Complete, phase := Receipt)
    case Restore => e.(status := Error, phase := RolledBackAfterRestart)
    case Quarantine => e.(status := Error, phase := RolledBackAfterRestart)
    case Stuck => e.(status := RecoveryRequired, phase := Stranded)
  }
}
