/** The steps of the install protocol that move, create or clear directories keep the invariant. */
module InstallMoves {
  import opened Options
  import opened InstallNames
  import opened InstallModel
  import opened InstallMachine
  import opened InstallInvariant
  import opened InstallFrame
  import opened InstallSteps

  function MovedTrail(fs: Files, t: Trail, src: Path, dst: Path): Trail
    requires src in fs
  {
    t.(loc := t.loc[fs[src].ident := dst])
  }

  lemma MovedDisk(fs: Files, t: Trail, src: Path, dst: Path)
    requires Fact(DiskOk(fs, t)) && src in fs && dst !in fs
    ensures Fact(DiskOk(Renamed(fs, src, dst), MovedTrail(fs, t, src, dst)))
  {
  }

  lemma MovedNamed(fs: Files, t: Trail, src: Path, dst: Path, i: Ident, id: string)
    requires Fact(DiskOk(fs, t)) && src in fs && dst !in fs && Named(fs, t, i, id)
    ensures Named(Renamed(fs, src, dst), MovedTrail(fs, t, src, dst), i, id)
  {
  }

  lemma MovedEntry(fs: Files, t: Trail, m: Manifest, k: Key, e: Entry, src: Path, dst: Path)
    requires Fact(DiskOk(fs, t)) && src in fs && dst !in fs && Fact(EntryOk(fs, t, m, k, e))
    ensures Fact(EntryOk(Renamed(fs, src, dst), MovedTrail(fs, t, src, dst), m, k, e))
  {
    if e.installedIdent.Some? && Named(fs, t, e.installedIdent.value, e.request.dest) {
      MovedNamed(fs, t, src, dst, e.installedIdent.value, e.request.dest);
    }
  }

  lemma MovedProjects(fs: Files, t: Trail, src: Path, dst: Path)
    requires Fact(DiskOk(fs, t)) && src in fs && dst !in fs && Fact(ProjectsSafe(t))
    requires fs[src].ident in t.projects ==> Visible(dst)
    ensures Fact(ProjectsSafe(MovedTrail(fs, t, src, dst)))
  {
  }

  /** The step renamed `src` to `dst` and changed nothing else but the local variables of `k`. */
  ghost predicate Moved(w: World, w': World, k: Key, src: Path, dst: Path, l: Live) {
    && w.mode.Up? && w'.mode.Up? && k in w.live && k in w.journal
    && src in w.fs && dst !in w.fs
    && w'.fs == Renamed(w.fs, src, dst) && w'.trail == MovedTrail(w.fs, w.trail, src, dst)
    && w'.manifest == w.manifest && w'.manifestLock == w.manifestLock
    && w'.journal == w.journal && w'.live == w.live[k := l]
  }

  lemma MovedFramed(w: World, w': World, k: Key, src: Path, dst: Path, l: Live)
    requires Fact(Moved(w, w', k, src, dst, l)) && Fact(DiskOk(w.fs, w.trail))
    requires Mine(w.trail, k, w.fs[src].ident) || w.fs[src].ident in w.trail.projects
    ensures Fact(Framed(w, w', k))
  {
    assert SameRest(w, w', k) by {
      forall o ensures CommitsOf(w'.trail, o) == CommitsOf(w.trail, o) {}
    }
    assert TrailGrows(w, w', k);
    assert DiskKept(w, w', k);
  }

  /** The visible payload of `k`, if there is one, is where its local variables say. */
  ghost predicate PayloadSeen(t: Trail, k: Key, l: Live, e: Entry) {
    forall i :: Seen(t, i) && i !in t.projects && Mine(t, k, i) ==>
      e.status == Active && l.installed && l.stage == i && HoldsPath(l.pc) && !l.committed
  }

  lemma PayloadSeenOf(w: World, k: Key)
    requires Fact(Inv(w)) && w.mode.Up? && k in w.live && k in w.journal && w.journal[k].status == Active
    ensures Fact(PayloadSeen(w.trail, k, w.live[k], w.journal[k]))
  {
    assert Unsealed(0);
    forall i | Seen(w.trail, i) && i !in w.trail.projects && Mine(w.trail, k, i)
      ensures w.live[k].installed && w.live[k].stage == i && HoldsPath(w.live[k].pc) && !w.live[k].committed
    {
      assert Served(w, i);
    }
  }

  lemma PayloadVisible(w: World, k: Key)
    requires k in w.live && k in w.journal && Fact(PayloadSeen(w.trail, k, w.live[k], w.journal[k]))
    requires Fact(FlagsOk(w.live[k], w.journal[k]))
    requires Fact(PayloadOk(w.fs, w.trail, w.manifest, k, w.live[k], w.journal[k]))
    ensures Fact(OwnVisible(w, k))
  {
  }

  lemma MovedOwn(w: World, w': World, k: Key, src: Path, dst: Path, l: Live)
    requires Fact(Moved(w, w', k, src, dst, l)) && Fact(DiskOk(w.fs, w.trail)) && w.journal[k].status == Active
    requires Fact(EntryOk(w.fs, w.trail, w.manifest, k, w.journal[k])) && Fact(OneCommit(w.trail, w.journal, k))
    requires Fact(LocallyOk(w', k, l, w.journal[k]))
    ensures Fact(OwnOk(w', k))
  {
    MovedEntry(w.fs, w.trail, w.manifest, k, w.journal[k], src, dst);
    assert w'.live[k] == l && w'.journal[k] == w.journal[k];
    assert CommitsOf(w'.trail, k) == CommitsOf(w.trail, k);
    PayloadVisible(w', k);
  }

  /** What a step has to show of the request it serves. */
  ghost predicate LocallyOk(w: World, k: Key, l: Live, e: Entry) {
    && FlagsOk(l, e) && PayloadOk(w.fs, w.trail, w.manifest, k, l, e)
    && TransactionOk(w.manifest, w.manifestLock, k, l, e) && PayloadSeen(w.trail, k, l, e)
  }

  lemma MovedPath(w: World, w': World, k: Key)
    requires Fact(OwnPath(w, k)) && Fact(SameRest(w, w', k)) && k in w.live && k in w.journal && k in w'.live
    requires w'.journal == w.journal && (HoldsPath(w'.live[k].pc) ==> HoldsPath(w.live[k].pc))
    ensures Fact(OwnPath(w', k))
  {
    forall o | o in w'.live && Holder(w', o) && o != k && Holder(w', k)
      ensures w'.journal[o].request.folder != w'.journal[k].request.folder
    {
      assert Holder(w, o);
    }
  }

  lemma MovedKeeps(w: World, w': World, k: Key, src: Path, dst: Path, l: Live)
    requires Fact(Inv(w)) && Fact(Moved(w, w', k, src, dst, l)) && w.journal[k].status == Active
    requires Mine(w.trail, k, w.fs[src].ident) || w.fs[src].ident in w.trail.projects
    requires w.fs[src].ident in w.trail.projects ==> Visible(dst)
    requires Fact(LocallyOk(w', k, l, w.journal[k]))
    requires HoldsPath(l.pc) ==> HoldsPath(w.live[k].pc)
    ensures Fact(Inv(w'))
  {
    assert Unsealed(0);
    PartsOfInv(w, k);
    MovedFramed(w, w', k, src, dst, l);
    MovedDisk(w.fs, w.trail, src, dst);
    MovedProjects(w.fs, w.trail, src, dst);
    MovedOwn(w, w', k, src, dst, l);
    MovedPath(w, w', k);
    Assemble(w, w', k);
  }

  // ----- the four renames of an install -----

  /** What a rename needs to know of the request it serves. */
  lemma Movable(w: World, k: Key)
    requires Fact(Inv(w)) && w.mode.Up? && k in w.live && k in w.journal && !w.live[k].pc.Unwound? && !w.live[k].pc.Reporting?
    ensures var l, e := w.live[k], w.journal[k];
      && Fact(DiskOk(w.fs, w.trail)) && IsRequest(k, e.request) && e.status == Active
      && Fact(FlagsOk(l, e)) && Fact(PayloadOk(w.fs, w.trail, w.manifest, k, l, e))
      && Fact(TransactionOk(w.manifest, w.manifestLock, k, l, e)) && Fact(PayloadSeen(w.trail, k, l, e))
  {
    FactsOf(w, k);
    PayloadSeenOf(w, k);
    DiskOf(w);
  }

  lemma DiskOf(w: World)
    requires Fact(Inv(w))
    ensures Fact(DiskOk(w.fs, w.trail))
  {
    assert Unsealed(0);
  }

  lemma MoveToBackupLocal(fs: Files, t: Trail, m: Manifest, lock: Option<Key>, k: Key, l: Live, e: Entry)
    requires Fact(DiskOk(fs, t)) && IsRequest(k, e.request) && Fact(FlagsOk(l, e)) && e.status == Active && l.pc.AtBackingUp?
    requires Fact(PayloadOk(fs, t, m, k, l, e)) && Fact(TransactionOk(m, lock, k, l, e)) && Fact(PayloadSeen(t, k, l, e))
    requires CanRename(fs, Target(e.request), Backup(k, e.request), l.origin)
    ensures var l', fs', t' := l.(pc := AtBackupMoved, backedUp := true), Renamed(fs, Target(e.request), Backup(k, e.request)), MovedTrail(fs, t, Target(e.request), Backup(k, e.request));
      && Fact(FlagsOk(l', e)) && Fact(PayloadOk(fs', t', m, k, l', e))
      && Fact(TransactionOk(m, lock, k, l', e)) && Fact(PayloadSeen(t', k, l', e))
  {
    NamesAreDisjoint(e.request.folder, k.id, k.id, "");
    if Staged(l.pc) || l.installed {
      MovedNamed(fs, t, Target(e.request), Backup(k, e.request), l.stage, e.request.dest);
    }
  }

  lemma MoveToBackupMoves(w: World, k: Key)
    requires Fact(Inv(w)) && At(w, k, AtBackingUp)
    requires CanRename(w.fs, Target(w.journal[k].request), Backup(k, w.journal[k].request), w.live[k].origin)
    ensures Fact(Inv(StepMoveToBackup(w, k)))
  {
    var l, e := w.live[k], w.journal[k];
    Movable(w, k);
    NamesAreDisjoint(e.request.folder, k.id, k.id, "");
    MoveToBackupLocal(w.fs, w.trail, w.manifest, w.manifestLock, k, l, e);
    MovedKeeps(w, StepMoveToBackup(w, k), k, Target(e.request), Backup(k, e.request), l.(pc := AtBackupMoved, backedUp := true));
  }

  lemma MoveToBackupKeeps(w: World, k: Key)
    requires Fact(Inv(w))
    ensures Fact(Inv(StepMoveToBackup(w, k)))
  {
    if At(w, k, AtBackingUp) {
      var l, e := w.live[k], w.journal[k];
      if CanRename(w.fs, Target(e.request), Backup(k, e.request), l.origin) {
        MoveToBackupMoves(w, k);
      }
    }
  }

  lemma MoveToTargetLocal(fs: Files, t: Trail, m: Manifest, lock: Option<Key>, k: Key, l: Live, e: Entry)
    requires Fact(DiskOk(fs, t)) && IsRequest(k, e.request) && Fact(FlagsOk(l, e)) && e.status == Active && l.pc.AtInstalling?
    requires Fact(PayloadOk(fs, t, m, k, l, e)) && Fact(TransactionOk(m, lock, k, l, e)) && Fact(PayloadSeen(t, k, l, e))
    requires CanRename(fs, InContainer(l.container, PAYLOAD), Target(e.request), l.stage)
    ensures var l', fs', t' := l.(pc := AtMoved, installed := true), Renamed(fs, InContainer(l.container, PAYLOAD), Target(e.request)), MovedTrail(fs, t, InContainer(l.container, PAYLOAD), Target(e.request));
      && Fact(FlagsOk(l', e)) && Fact(PayloadOk(fs', t', m, k, l', e))
      && Fact(TransactionOk(m, lock, k, l', e)) && Fact(PayloadSeen(t', k, l', e))
  {
    NamesAreDisjoint(e.request.folder, k.id, k.id, "");
    if Staged(l.pc) || l.installed {
      MovedNamed(fs, t, InContainer(l.container, PAYLOAD), Target(e.request), l.stage, e.request.dest);
    }
  }

  lemma MoveToTargetMoves(w: World, k: Key)
    requires Fact(Inv(w)) && At(w, k, AtInstalling)
    requires CanRename(w.fs, InContainer(w.live[k].container, PAYLOAD), Target(w.journal[k].request), w.live[k].stage)
    ensures Fact(Inv(StepMoveToTarget(w, k)))
  {
    var l, e := w.live[k], w.journal[k];
    Movable(w, k);
    NamesAreDisjoint(e.request.folder, k.id, k.id, "");
    MoveToTargetLocal(w.fs, w.trail, w.manifest, w.manifestLock, k, l, e);
    MovedKeeps(w, StepMoveToTarget(w, k), k, InContainer(l.container, PAYLOAD), Target(e.request), l.(pc := AtMoved, installed := true));
  }

  lemma MoveToTargetKeeps(w: World, k: Key)
    requires Fact(Inv(w))
    ensures Fact(Inv(StepMoveToTarget(w, k)))
  {
    if At(w, k, AtInstalling) {
      var l, e := w.live[k], w.journal[k];
      if CanRename(w.fs, InContainer(l.container, PAYLOAD), Target(e.request), l.stage) {
        MoveToTargetMoves(w, k);
      }
    }
  }

  /** A rollback step that moved nothing: skipped, or failed and remembered. */
  lemma UndoPassedLocal(fs: Files, t: Trail, m: Manifest, lock: Option<Key>, k: Key, l: Live, e: Entry, l': Live)
    requires Fact(FlagsOk(l, e)) && Fact(PayloadOk(fs, t, m, k, l, e)) && (l.pc.UnwindInstall? || l.pc.UnwindBackup?)
    requires l' == l.(pc := if l.pc.UnwindInstall? then UnwindBackup else UnwindVerdict, rollbackFailed := l'.rollbackFailed)
    requires l'.rollbackFailed == l.rollbackFailed || (l'.rollbackFailed && !l.committed)
    requires l.pc.UnwindInstall? && l.installed && !l.committed ==> l'.rollbackFailed
    ensures Fact(FlagsOk(l', e)) && Fact(KeepsPayload(e, l, e, l')) && Fact(PayloadOk(fs, t, m, k, l', e)) && Fact(TransactionOk(m, lock, k, l', e))
  {
  }

  lemma UndoPassed(w: World, w': World, k: Key, l: Live)
    requires Fact(Inv(w)) && Fact(OwnFacts(w, k)) && (w.live[k].pc.UnwindInstall? || w.live[k].pc.UnwindBackup?)
    requires w' == Put(w, k, l)
    requires l == w.live[k].(pc := if w.live[k].pc.UnwindInstall? then UnwindBackup else UnwindVerdict,
                             rollbackFailed := l.rollbackFailed)
    requires l.rollbackFailed == w.live[k].rollbackFailed || (l.rollbackFailed && !w.live[k].committed)
    requires w.live[k].pc.UnwindInstall? && w.live[k].installed && !w.live[k].committed ==> l.rollbackFailed
    ensures Fact(Inv(w'))
  {
    UndoPassedLocal(w.fs, w.trail, w.manifest, w.manifestLock, k, w.live[k], w.journal[k], l);
    BecomesQuiet(w, w', k, w.journal[k], l, w.manifestLock);
    QuietKeeps(w, w', k);
  }

  lemma UndoInstallLocal(fs: Files, t: Trail, m: Manifest, lock: Option<Key>, k: Key, l: Live, e: Entry)
    requires Fact(DiskOk(fs, t)) && IsRequest(k, e.request) && Fact(FlagsOk(l, e)) && e.status == Active && l.pc.UnwindInstall?
    requires Fact(PayloadOk(fs, t, m, k, l, e)) && Fact(TransactionOk(m, lock, k, l, e)) && Fact(PayloadSeen(t, k, l, e))
    requires l.installed && !l.committed
    requires CanRename(fs, Target(e.request), InContainer(l.container, REJECTED), l.stage)
    ensures var l', fs', t' := l.(pc := UnwindBackup, installed := false), Renamed(fs, Target(e.request), InContainer(l.container, REJECTED)), MovedTrail(fs, t, Target(e.request), InContainer(l.container, REJECTED));
      && Fact(FlagsOk(l', e)) && Fact(PayloadOk(fs', t', m, k, l', e))
      && Fact(TransactionOk(m, lock, k, l', e)) && Fact(PayloadSeen(t', k, l', e))
  {
    NamesAreDisjoint(e.request.folder, k.id, k.id, "");
    if Staged(l.pc) || l.installed {
      MovedNamed(fs, t, Target(e.request), InContainer(l.container, REJECTED), l.stage, e.request.dest);
    }
  }

  lemma UndoInstallMoves(w: World, k: Key, ok: bool)
    requires Fact(Inv(w)) && At(w, k, UnwindInstall) && !w.live[k].committed && w.live[k].installed && ok
    requires CanRename(w.fs, Target(w.journal[k].request), InContainer(w.live[k].container, REJECTED), w.live[k].stage)
    ensures Fact(Inv(StepUndoInstall(w, k, ok)))
  {
    var l, e := w.live[k], w.journal[k];
    Movable(w, k);
    NamesAreDisjoint(e.request.folder, k.id, k.id, "");
    UndoInstallLocal(w.fs, w.trail, w.manifest, w.manifestLock, k, l, e);
    MovedKeeps(w, StepUndoInstall(w, k, ok), k, Target(e.request), InContainer(l.container, REJECTED), l.(pc := UnwindBackup, installed := false));
  }

  lemma UndoInstallKeeps(w: World, k: Key, ok: bool)
    requires Fact(Inv(w))
    ensures Fact(Inv(StepUndoInstall(w, k, ok)))
  {
    if At(w, k, UnwindInstall) {
      var l, e := w.live[k], w.journal[k];
      if !l.committed && l.installed && ok && CanRename(w.fs, Target(e.request), InContainer(l.container, REJECTED), l.stage) {
        UndoInstallMoves(w, k, ok);
      } else {
        FactsOf(w, k);
        UndoPassed(w, StepUndoInstall(w, k, ok), k, StepUndoInstall(w, k, ok).live[k]);
      }
    }
  }

  /** The rename of a project leaves the payload where it is. */
  lemma ProjectMovesSeen(fs: Files, t: Trail, k: Key, l: Live, e: Entry, l': Live, src: Path, dst: Path)
    requires Fact(PayloadSeen(t, k, l, e)) && src in fs && fs[src].ident in t.projects
    requires l'.installed == l.installed && l'.stage == l.stage && l'.committed == l.committed && (HoldsPath(l.pc) ==> HoldsPath(l'.pc))
    ensures Fact(PayloadSeen(MovedTrail(fs, t, src, dst), k, l', e))
  {
    forall i | Seen(MovedTrail(fs, t, src, dst), i) && i !in t.projects && Mine(t, k, i)
      ensures l.installed && l.stage == i && HoldsPath(l.pc) && !l.committed && e.status == Active
    {
      assert Seen(t, i);
    }
  }

  lemma UndoBackupLocal(fs: Files, t: Trail, m: Manifest, lock: Option<Key>, k: Key, l: Live, e: Entry)
    requires Fact(DiskOk(fs, t)) && IsRequest(k, e.request) && Fact(FlagsOk(l, e)) && e.status == Active && l.pc.UnwindBackup?
    requires Fact(PayloadOk(fs, t, m, k, l, e)) && Fact(TransactionOk(m, lock, k, l, e)) && Fact(PayloadSeen(t, k, l, e))
    requires l.backedUp && !l.installed && !l.committed
    requires CanRename(fs, Backup(k, e.request), Target(e.request), l.origin)
    ensures var l', fs', t' := l.(pc := UnwindVerdict, backedUp := false), Renamed(fs, Backup(k, e.request), Target(e.request)), MovedTrail(fs, t, Backup(k, e.request), Target(e.request));
      && Fact(FlagsOk(l', e)) && Fact(PayloadOk(fs', t', m, k, l', e))
      && Fact(TransactionOk(m, lock, k, l', e)) && Fact(PayloadSeen(t', k, l', e))
  {
    ProjectMovesSeen(fs, t, k, l, e, l.(pc := UnwindVerdict, backedUp := false), Backup(k, e.request), Target(e.request));
    if Staged(l.pc) || l.installed {
      MovedNamed(fs, t, Backup(k, e.request), Target(e.request), l.stage, e.request.dest);
    }
  }

  lemma UndoBackupMoves(w: World, k: Key, ok: bool)
    requires Fact(Inv(w)) && At(w, k, UnwindBackup) && !w.live[k].committed && w.live[k].backedUp && w.live[k].backupBound && !w.live[k].installed && ok
    requires CanRename(w.fs, Backup(k, w.journal[k].request), Target(w.journal[k].request), w.live[k].origin)
    ensures Fact(Inv(StepUndoBackup(w, k, ok)))
  {
    var l, e := w.live[k], w.journal[k];
    Movable(w, k);
    NamesAreDisjoint(e.request.folder, k.id, k.id, "");
    UndoBackupLocal(w.fs, w.trail, w.manifest, w.manifestLock, k, l, e);
    MovedKeeps(w, StepUndoBackup(w, k, ok), k, Backup(k, e.request), Target(e.request), l.(pc := UnwindVerdict, backedUp := false));
  }

  lemma UndoBackupKeeps(w: World, k: Key, ok: bool)
    requires Fact(Inv(w))
    ensures Fact(Inv(StepUndoBackup(w, k, ok)))
  {
    if At(w, k, UnwindBackup) {
      var l, e := w.live[k], w.journal[k];
      if !l.committed && l.backedUp && l.backupBound && !l.installed && ok && CanRename(w.fs, Backup(k, e.request), Target(e.request), l.origin) {
        UndoBackupMoves(w, k, ok);
      } else {
        FactsOf(w, k);
        UndoPassed(w, StepUndoBackup(w, k, ok), k, StepUndoBackup(w, k, ok).live[k]);
      }
    }
  }
}
