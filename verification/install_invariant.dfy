/** The invariant of the install protocol and the proof that every step keeps it. */
module InstallInvariant {
  import opened Options
  import opened InstallNames
  import opened InstallModel
  import opened InstallMachine

  /** A fact handed over whole. Lemma contracts below state the invariant and its parts this way, so
      that a call neither proves nor assumes them conjunct by conjunct. */
  predicate Fact(b: bool) {
    b == true
  }

  // ----- what always holds of the disk -----

  /** Every identity lies at exactly one path, and `loc` knows which. */
  ghost predicate DiskOk(fs: Files, t: Trail) {
    && (forall i :: i in t.loc ==> t.loc[i] in fs && fs[t.loc[i]].ident == i)
    && (forall p :: p in fs ==> fs[p].ident in t.loc && t.loc[fs[p].ident] == p)
    && (forall i :: i in t.loc ==> i in t.born)
    && (forall i :: i in t.owner ==> i in t.born)
  }

  /** Project directories are on disk, in plain sight. */
  ghost predicate ProjectsSafe(t: Trail) {
    forall i :: i in t.projects ==> i in t.loc && Visible(t.loc[i])
  }

  ghost predicate Seen(t: Trail, i: Ident) {
    i in t.loc && Visible(t.loc[i])
  }

  /** Wherever it lies, the directory calls itself project `id`. */
  ghost predicate Named(fs: Files, t: Trail, i: Ident, id: string) {
    i in t.loc && t.loc[i] in fs ==> fs[t.loc[i]].project == Some(id)
  }

  predicate InstallPhase(ph: Phase) {
    ph.Installing? || ph.Installed? || ph.CommittingManifest?
  }

  // ----- what always holds of a journal (the durable one, and the one being edited by recovery) -----

  ghost predicate ActiveOk(fs: Files, t: Trail, m: Manifest, k: Key, e: Entry) {
    && (e.installedIdent.Some? ==>
          var i := e.installedIdent.value;
          && i in t.owner && t.owner[i] == k
          && Named(fs, t, i, e.request.dest)
          && (i in t.projects ==>
                && (InstallPhase(e.phase) || e.phase.ManifestCommitted? || e.phase.Starting?)
                && e.request.dest in m && m[e.request.dest] == Target(e.request)))
    && (forall i :: i in CommitsOf(t, k) ==> e.installedIdent == Some(i))
  }

  ghost predicate EntryOk(fs: Files, t: Trail, m: Manifest, k: Key, e: Entry) {
    && IsRequest(k, e.request)
    && (e.backupIdent.Some? ==> e.backupIdent.value in t.projects)
    && (e.backup.Some? ==> e.backup.value == BackupName(e.request.folder, k.id))
    && (e.status == Active ==> ActiveOk(fs, t, m, k, e))
    && (e.status == Error || e.status == Cancelled ==>
          && CommitsOf(t, k) == {}
          && (e.installedIdent.Some? ==>
                && e.installedIdent.value !in t.projects
                && e.installedIdent.value in t.owner && t.owner[e.installedIdent.value] == k
                && Named(fs, t, e.installedIdent.value, e.request.dest)))
    && (e.status == Complete || e.status == AppliedPendingStart ==>
          && CommitsOf(t, k) != {}
          && e.request.dest in m && m[e.request.dest] == Target(e.request))
  }

  /** A visible directory that is not a project is the half-installed payload of a transfer whose
      entry still says so. */
  ghost predicate Accounted(t: Trail, j: Journal, i: Ident)
    requires i in t.loc
  {
    && i in t.owner && t.owner[i] in j
    && var e := j[t.owner[i]];
    && (e.status == Active || e.status == RecoveryRequired)
    && (e.status == Active ==>
          e.installedIdent == Some(i) && t.loc[i] == Target(e.request) && InstallPhase(e.phase))
  }

  ghost predicate VisibleOk(t: Trail, j: Journal) {
    forall i {:trigger Seen(t, i)} :: Seen(t, i) && i !in t.projects ==> Accounted(t, j, i)
  }

  ghost predicate JournalOk(fs: Files, t: Trail, m: Manifest, j: Journal) {
    && (forall k :: k in j ==> EntryOk(fs, t, m, k, j[k]))
    && VisibleOk(t, j)
  }

  /** At most one install per retained entry, and it is a project. */
  ghost predicate OneCommit(t: Trail, j: Journal, k: Key) {
    && CommitsOf(t, k) <= t.projects
    && (forall i, i' :: i in CommitsOf(t, k) && i' in CommitsOf(t, k) ==> i == i')
    && (k !in j ==> CommitsOf(t, k) == {})
  }

  ghost predicate CommitsOk(t: Trail, j: Journal) {
    forall k: Key {:trigger OneCommit(t, j, k)} {:trigger CommitsOf(t, k)} :: OneCommit(t, j, k)
  }

  // ----- what always holds of a request being served -----

  predicate Staged(pc: Pc) {
    || pc.AtUnpacked? || pc.AtValidated? || pc.AtLocked? || InTransaction(pc) || AfterSave(pc)
  }

  predicate AfterSave(pc: Pc) {
    pc.AtSaved? || pc.AtCommitted? || pc.AtReleased? || pc.AtStarting? || pc.AtStarted?
  }

  predicate AfterMove(pc: Pc) {
    pc.AtMoved? || pc.AtInstalled? || pc.AtCommitting?
  }

  /** The phase the journal shows while a request moves forward. */
  predicate PhaseAt(pc: Pc, ph: Phase) {
    match pc
    case AtQueued => ph == Queued
    case AtDownloading => ph == Downloading
    case AtClaimed => ph == Claimed || ph == Extracting
    case AtContainer => ph == Claimed || ph == Extracting
    case AtExtracting => ph == Extracting
    case AtUnpacked => ph == Extracting
    case AtValidated => ph == Validated
    case AtLocked => ph == Validated
    case AtOpened => ph == Validated
    case AtBackingUp => ph == BackingUp
    case AtBackupMoved => ph == BackingUp
    case AtBackupBound => ph == BackingUp
    case AtBackupCreated => ph == BackupCreated
    case AtInstalling => ph == Installing
    case AtMoved => ph == Installing
    case AtInstalled => ph == Installed
    case AtCommitting => ph == CommittingManifest
    case AtSaved => ph == CommittingManifest
    case AtCommitted => ph == ManifestCommitted
    case AtReleased => ph == ManifestCommitted
    case AtStarting => ph == Starting
    case AtStarted => ph == Starting || ph == ManifestCommitted
    case _ => true
  }

  /** Flags, status and phase of one request agree with where it stands. */
  predicate FlagsOk(l: Live, e: Entry) {
    && (e.status == Active || (e.status == RecoveryRequired && l.rollbackFailed && (l.pc.Unwound? || l.pc.Reporting?)))
    && PhaseAt(l.pc, e.phase)
    && (!Unwinding(l.pc) ==>
          (AfterSave(l.pc) <==> l.committed) && !l.rollbackFailed
          && (l.installed <==> AfterMove(l.pc) || AfterSave(l.pc)))
    && (l.pc.AtInstalling? || l.installed || l.committed ==> e.installedIdent == Some(l.stage))
    && (l.committed ==> l.installed && !l.rollbackFailed)
    && (l.pc.AtBackingUp? || l.pc.AtBackupMoved? || l.pc.AtBackupBound? || l.pc.AtBackupCreated? ==> e.request.policy.Replace?)
    && (l.installed && !l.committed && Unwinding(l.pc) && !l.pc.UnwindInstall? ==> l.rollbackFailed)
    && (l.rollbackFailed && (l.pc.Unwound? || l.pc.Reporting?) ==> e.status == RecoveryRequired)
    && (l.installed && !l.committed && HoldsPath(l.pc) && e.status == Active ==> InstallPhase(e.phase))
  }

  /** Where the payload of one request lies. */
  ghost predicate PayloadOk(fs: Files, t: Trail, m: Manifest, k: Key, l: Live, e: Entry) {
    && (Staged(l.pc) || l.installed || l.committed ==>
          l.stage in t.owner && t.owner[l.stage] == k && Named(fs, t, l.stage, e.request.dest))
    && (l.committed ==>
          && l.stage in t.projects && l.stage in CommitsOf(t, k)
          && e.request.dest in m && m[e.request.dest] == Target(e.request))
    && (!l.committed ==> CommitsOf(t, k) == {})
    && (!l.committed && l.installed && HoldsPath(l.pc) && e.status == Active ==>
          && l.stage !in t.projects
          && l.stage in t.loc && t.loc[l.stage] == Target(e.request))
    && (!l.installed && Staged(l.pc) ==> l.stage !in t.projects && !Seen(t, l.stage))
    && (!l.installed && e.status == Active && e.installedIdent.Some? ==>
          e.installedIdent.value !in t.projects && !Seen(t, e.installedIdent.value))
    && (InTransaction(l.pc) && e.request.policy.Replace? ==> l.origin in t.projects)
    && (l.backedUp ==> l.origin in t.projects)
  }

  /** Inside the manifest transaction the loaded manifest is the current one. */
  ghost predicate TransactionOk(m: Manifest, lock: Option<Key>, k: Key, l: Live, e: Entry) {
    InTransaction(l.pc) ==>
      && lock == Some(k) && l.snapshot == m
      && (e.request.policy.Replace? ==>
            e.request.dest in m && m[e.request.dest] == Target(e.request))
      && (!e.request.policy.Replace? ==> e.request.dest !in m)
  }

  ghost predicate LiveOk(w: World, k: Key)
    requires k in w.live && k in w.journal
  {
    && FlagsOk(w.live[k], w.journal[k])
    && PayloadOk(w.fs, w.trail, w.manifest, k, w.live[k], w.journal[k])
    && TransactionOk(w.manifest, w.manifestLock, k, w.live[k], w.journal[k])
  }

  /** No two requests hold the lock of the same folder. */
  ghost predicate PathsExclusive(w: World) {
    forall k, o {:trigger Holder(w, k), Holder(w, o)} | Holder(w, k) && Holder(w, o) && k != o ::
      w.journal[k].request.folder != w.journal[o].request.folder
  }

  ghost predicate LiveAllOk(w: World) {
    && (forall k :: k in w.live ==> k in w.journal && LiveOk(w, k))
    && PathsExclusive(w)
  }

  /** While requests are served, an entry is active exactly while its request is. */
  ghost predicate UpOk(w: World) {
    && (forall k :: k in w.journal && w.journal[k].status == Active ==> k in w.live)
    && (forall i {:trigger Seen(w.trail, i)} | Seen(w.trail, i) && i !in w.trail.projects && i in w.trail.owner :: Served(w, i))
  }

  /** The request whose payload is half-installed is still there to finish or undo it. */
  ghost predicate Served(w: World, i: Ident)
    requires i in w.trail.owner
  {
    w.trail.owner[i] in w.journal && w.journal[w.trail.owner[i]].status == Active ==>
      && w.trail.owner[i] in w.live
      && var l := w.live[w.trail.owner[i]];
      && l.installed && l.stage == i && HoldsPath(l.pc) && !l.committed
  }

  ghost predicate RecoveringOk(w: World)
    requires w.mode.Recovering?
  {
    && w.mode.mem.Keys == w.journal.Keys
    && JournalOk(w.fs, w.trail, w.manifest, w.mode.mem)
    && (forall k :: k in w.mode.todo <==> k in w.mode.mem && w.mode.mem[k].status == Active)
    && (forall k :: k in w.mode.todo ==> w.mode.mem[k] == w.journal[k])
  }

  ghost predicate InvParts(w: World) {
    && DiskOk(w.fs, w.trail)
    && ProjectsSafe(w.trail)
    && CommitsOk(w.trail, w.journal)
    && JournalOk(w.fs, w.trail, w.manifest, w.journal)
    && (w.mode.Up? ==> LiveAllOk(w) && UpOk(w))
    && (!w.mode.Up? ==> w.live == map[] && w.manifestLock.None?)
    && (w.mode.Recovering? ==> RecoveringOk(w))
  }

  /** Mentioning it opens what is sealed. */
  predicate Unsealed(u: int) {
    true
  }

  /** The invariant, sealed: a lemma that only hands it on need not look into it. */
  ghost predicate Inv(w: World) {
    forall u {:trigger Unsealed(u)} :: Unsealed(u) ==> InvParts(w)
  }
}
