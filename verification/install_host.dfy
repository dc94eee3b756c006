/** The install protocol as the host runs it: fields that are updated in place, one method per
    statement that touches the disk, the manifest or the journal, and the code that calls them. */
module InstallHost {
  import opened Options
  import opened InstallNames
  import opened InstallModel
  import opened InstallDisk
  import opened InstallMachine
  import opened InstallInvariant
  import opened InstallRecords
  import opened InstallRecovery
  import opened InstallTracking
  import opened InstallRestore
  import opened InstallAttempt

  /** Where a call fails: before the step at the given pc, with an error or a cancellation; whether the
      two rollback renames and the clearing of the container succeed; and whether saving the manifest
      fails after the file was replaced. */
  datatype Trouble = Trouble(
    at: Option<Pc>, cancelled: bool, undoInstall: bool, undoBackup: bool, clear: bool, late: bool)

  class Host {
    var fs: Files
    var manifest: Manifest
    var running: set<string>
    var journal: Journal
    var live: map<Key, Live>
    var manifestLock: Option<Key>
    var mode: Mode
    ghost var trail: Trail

    ghost function State(): World
      reads this
    {
      World(fs, manifest, running, journal, live, manifestLock, mode, trail)
    }

    // ----- the disk -----

    /** The identity-bound rename that refuses an existing destination. */
    method RenameBound(src: Path, dst: Path, ident: Ident) returns (ok: bool)
      modifies this`fs, this`trail
      ensures ok <==> CanRename(old(fs), src, dst, ident)
      ensures ok ==> State() == Move(old(State()), src, dst)
      ensures !ok ==> State() == old(State())
    {
      ok, fs := TryRename(fs, src, dst, ident);
      if ok { trail := trail.(loc := trail.loc[ident := dst]); }
    }

    /** The same, in a handler that goes on when the rename raises. */
    method TryBound(src: Path, dst: Path, ident: Ident, possible: bool) returns (ok: bool)
      modifies this`fs, this`trail
      ensures ok <==> possible && CanRename(old(fs), src, dst, ident)
      ensures ok ==> State() == Move(old(State()), src, dst)
      ensures !ok ==> State() == old(State())
    {
      ok := false;
      if possible { ok := RenameBound(src, dst, ident); }
    }

    method MakeContainer(k: Key, name: string, ident: Ident) returns (ok: bool)
      requires At(State(), k, AtClaimed) && IsContainerName(name) && ident !in trail.born
      modifies this`fs, this`live, this`trail
      ensures State() == StepMakeContainer(old(State()), k, name, ident)
      ensures ok ==> At(State(), k, AtContainer)
      ensures !ok ==> State() == old(State())
    {
      ok := InRoot(name) !in fs;
      if ok {
        fs := fs[InRoot(name) := Dir(ident, None)];
        trail := trail.(loc := trail.loc[ident := InRoot(name)], born := trail.born + {ident});
        live := live[k := live[k].(pc := AtContainer, container := name, containerIdent := ident)];
      }
    }

    method Unpack(k: Key, ident: Ident) returns (ok: bool)
      requires At(State(), k, AtExtracting) && ident !in trail.born
      modifies this`fs, this`live, this`trail
      ensures State() == StepUnpack(old(State()), k, ident)
      ensures ok ==> At(State(), k, AtUnpacked)
      ensures !ok ==> State() == old(State())
    {
      var l, rq := live[k], journal[k].request;
      var payload := InContainer(l.container, PAYLOAD);
      ok := CanUnpack(fs, l, rq);
      if ok {
        fs := fs[payload := Dir(ident, Some(rq.dest))];
        trail := trail.(loc := trail.loc[ident := payload], born := trail.born + {ident}, owner := trail.owner[ident := k]);
        live := live[k := l.(pc := AtUnpacked, stage := ident)];
      }
    }

    // ----- the journal -----

    /** `_journal_update`: an entry that needs an administrator is left alone. */
    method JournalUpdate(k: Key, e: Entry)
      modifies this`journal
      ensures journal == Note(old(journal), k, e)
      ensures k in old(journal) && old(journal)[k].status == RecoveryRequired ==> journal == old(journal)
    {
      if k in journal && journal[k].status != RecoveryRequired {
        journal := journal[k := e];
      }
    }

    method WriteJournal(k: Key)
      requires mode.Up? && k in live && k in journal && Writes(live[k], journal[k])
      modifies this`journal, this`live
      ensures State() == StepWriteJournal(old(State()), k)
      ensures k in live && live[k].pc == WrittenPc(old(live[k].pc), old(journal[k].request.policy))
      ensures k in journal && journal[k].request == old(journal[k].request) && journal[k].status == old(journal[k].status)
      ensures old(journal[k].status) != RecoveryRequired && PhaseAt(old(live[k].pc), old(journal[k].phase)) ==>
        PhaseAt(live[k].pc, journal[k].phase)
      ensures old(journal[k].status) != RecoveryRequired && live[k].pc.AtInstalling? ==>
        journal[k].installedIdent == Some(live[k].stage)
      ensures old(journal[k].status) != RecoveryRequired && live[k].pc.AtBackingUp? ==>
        journal[k].backup == Some(BackupName(journal[k].request.folder, k.id)) && journal[k].backupIdent == Some(live[k].origin)
    {
      var l, e := live[k], journal[k];
      JournalUpdate(k, WrittenEntry(k, l, e));
      live := live[k := l.(pc := WrittenPc(l.pc, e.request.policy))];
    }

    // ----- locks and the manifest transaction -----

    method AcquireLocks(k: Key) returns (ok: bool)
      requires At(State(), k, AtValidated)
      modifies this`live
      ensures State() == StepAcquireLocks(old(State()), k)
      ensures ok <==> forall o :: o in live && o in journal && o != k && HoldsPath(live[o].pc) ==>
        journal[o].request.folder != journal[k].request.folder
      ensures ok ==> At(State(), k, AtLocked)
      ensures !ok ==> State() == old(State())
    {
      ok := forall o | o in live && o != k && o in journal && HoldsPath(live[o].pc) :: journal[o].request.folder != journal[k].request.folder;
      assert ok <==> PathFree(State(), k) by {
        if ok {
          forall o | o in live && Holder(State(), o) && o != k
            ensures journal[o].request.folder != journal[k].request.folder
          {
          }
        } else {
          var o :| o in live && o != k && o in journal && HoldsPath(live[o].pc) && journal[o].request.folder == journal[k].request.folder;
          assert Holder(State(), o);
        }
      }
      if ok { live := live[k := live[k].(pc := AtLocked)]; }
    }

    method OpenTransaction(k: Key) returns (ok: bool)
      requires At(State(), k, AtLocked)
      modifies this`live, this`manifestLock, this`trail
      ensures State() == StepOpenTransaction(old(State()), k)
      ensures ok ==> old(manifestLock).None? && manifestLock == Some(k) && live[k].snapshot == manifest
      ensures var rq := journal[k].request; ok && rq.policy.Replace? ==>
        && rq.dest in manifest && rq.dest !in running && manifest[rq.dest] == Target(rq)
        && Holds(fs, Target(rq), Some(live[k].origin)) && Backup(k, rq) !in fs && live[k].origin in trail.projects
      ensures var rq := journal[k].request; ok && !rq.policy.Replace? ==>
        rq.dest !in manifest && forall id :: id in manifest ==> manifest[id] != Target(rq)
      ensures ok ==> At(State(), k, AtOpened)
      ensures !ok ==> State() == old(State())
    {
      var l, rq := live[k], journal[k].request;
      var target, backup := Target(rq), Backup(k, rq);
      if rq.policy.Replace? {
        ok := manifestLock.None? && rq.dest in manifest && rq.dest !in running && manifest[rq.dest] == target
              && target in fs && backup !in fs;
        if ok {
          trail := trail.(projects := trail.projects + {fs[target].ident});
          live := live[k := l.(pc := AtOpened, snapshot := manifest, origin := fs[target].ident)];
          manifestLock := Some(k);
        }
      } else {
        ok := manifestLock.None? && rq.dest !in manifest && (forall id | id in manifest :: manifest[id] != target);
        if ok {
          live := live[k := l.(pc := AtOpened, snapshot := manifest)];
          manifestLock := Some(k);
        }
      }
    }

    method MoveToBackup(k: Key) returns (ok: bool)
      requires At(State(), k, AtBackingUp)
      modifies this`fs, this`live, this`trail
      ensures State() == StepMoveToBackup(old(State()), k)
      ensures var rq := journal[k].request;
        ok <==> Holds(old(fs), Target(rq), Some(old(live[k].origin))) && Backup(k, rq) !in old(fs)
      ensures var rq := journal[k].request;
        ok ==> Target(rq) !in fs && Backup(k, rq) in fs && fs[Backup(k, rq)] == old(fs)[Target(rq)] && live[k].backedUp
      ensures ok ==> At(State(), k, AtBackupMoved)
      ensures !ok ==> State() == old(State())
    {
      var l, rq := live[k], journal[k].request;
      ok := RenameBound(Target(rq), Backup(k, rq), l.origin);
      if ok { live := live[k := l.(pc := AtBackupMoved, backedUp := true)]; }
    }

    method BindBackup(k: Key)
      requires At(State(), k, AtBackupMoved)
      modifies this`live
      ensures State() == StepBindBackup(old(State()), k) && At(State(), k, AtBackupBound)
    {
      live := live[k := live[k].(pc := AtBackupBound, backupBound := true)];
    }

    method MoveToTarget(k: Key) returns (ok: bool)
      requires At(State(), k, AtInstalling)
      modifies this`fs, this`live, this`trail
      ensures State() == StepMoveToTarget(old(State()), k)
      ensures var p, target := InContainer(old(live[k].container), PAYLOAD), Target(journal[k].request);
        && (ok <==> Holds(old(fs), p, Some(old(live[k].stage))) && target !in old(fs))
        && (ok ==> p !in fs && target in fs && fs[target] == old(fs)[p] && live[k].installed)
      ensures ok ==> At(State(), k, AtMoved)
      ensures !ok ==> State() == old(State())
    {
      var l, rq := live[k], journal[k].request;
      ok := RenameBound(InContainer(l.container, PAYLOAD), Target(rq), l.stage);
      if ok { live := live[k := l.(pc := AtMoved, installed := true)]; }
    }

    method SaveManifest(k: Key)
      requires At(State(), k, AtCommitting)
      modifies this`live, this`manifest, this`manifestLock, this`trail
      ensures State() == StepSaveManifest(old(State()), k) && At(State(), k, AtSaved)
      ensures var rq := journal[k].request; rq.dest in manifest && manifest[rq.dest] == Target(rq)
      ensures forall id :: id != journal[k].request.dest ==>
        (id in manifest <==> id in old(live[k].snapshot)) && (id in manifest ==> manifest[id] == old(live[k].snapshot)[id])
      ensures manifestLock.None? && live[k].committed
    {
      var l, rq := live[k], journal[k].request;
      manifest := l.snapshot[rq.dest := Target(rq)];
      live := live[k := l.(pc := AtSaved, committed := true)];
      manifestLock := None;
      trail := AddCommit(trail, k, l.stage);
    }

    method SaveManifestLate(k: Key)
      requires At(State(), k, AtCommitting)
      modifies this`live, this`manifest, this`manifestLock
      ensures State() == StepSaveManifestLate(old(State()), k) && At(State(), k, UnwindInstall)
    {
      var l, rq := live[k], journal[k].request;
      manifest := l.snapshot[rq.dest := Target(rq)];
      live := live[k := l.(pc := UnwindInstall)];
      manifestLock := None;
    }

    // ----- after the commit -----

    method ReleaseLocks(k: Key)
      requires At(State(), k, AtCommitted) || At(State(), k, Unwound)
      modifies this`live
      ensures State() == StepReleaseLocks(old(State()), k)
      ensures At(State(), k, AtReleased) || At(State(), k, Reporting)
      ensures At(State(), k, AtReleased) <==> old(live[k].pc) == AtCommitted
    {
      live := live[k := live[k].(pc := if live[k].pc.AtCommitted? then AtReleased else Reporting)];
    }

    method Start(k: Key, ok: bool)
      requires Startable(State(), k, ok)
      modifies this`live
      ensures State() == StepStart(old(State()), k, ok) && At(State(), k, AtStarted)
    {
      live := live[k := live[k].(pc := AtStarted, started := ok)];
    }

    method SaveReceipt(k: Key)
      requires AtReceipt(State(), k)
      modifies this`live, this`journal
      ensures State() == StepSaveReceipt(old(State()), k)
    {
      journal := journal[k := ReceiptEntry(journal[k].request, live[k].started)];
      live := live - {k};
    }

    // ----- failure and rollback -----

    method Fail(k: Key, cancelled: bool)
      requires mode.Up? && k in live && k in journal && !Unwinding(live[k].pc)
      modifies this`live, this`manifestLock
      ensures State() == StepFail(old(State()), k, cancelled)
      ensures At(State(), k, if HoldsPath(old(live[k].pc)) then UnwindInstall else Reporting)
    {
      if InTransaction(live[k].pc) { manifestLock := None; }
      live := live[k := Failed(live[k], cancelled)];
    }

    /** Move an installed payload out of sight again, or remember that this failed. */
    method PutAside(k: Key, possible: bool)
      requires At(State(), k, UnwindInstall) && live[k].installed && !live[k].committed
      modifies this`fs, this`live, this`trail
      ensures State() == StepUndoInstall(old(State()), k, possible) && At(State(), k, UnwindBackup)
      ensures live[k].installed ==> live[k].rollbackFailed && fs == old(fs)
      ensures !live[k].installed ==> Target(journal[k].request) !in fs
    {
      var l, rq := live[k], journal[k].request;
      var ok := TryBound(Target(rq), InContainer(l.container, REJECTED), l.stage, possible);
      if ok {
        live := live[k := l.(pc := UnwindBackup, installed := false)];
      } else {
        live := live[k := l.(pc := UnwindBackup, rollbackFailed := true)];
      }
    }

    method UndoInstall(k: Key, possible: bool)
      requires At(State(), k, UnwindInstall)
      modifies this`fs, this`live, this`trail
      ensures State() == StepUndoInstall(old(State()), k, possible) && At(State(), k, UnwindBackup)
      ensures old(live[k].installed && !live[k].committed) && live[k].installed ==> live[k].rollbackFailed && fs == old(fs)
      ensures old(live[k].installed) && !live[k].installed ==> Target(journal[k].request) !in fs
    {
      if !live[k].committed && live[k].installed {
        PutAside(k, possible);
      } else {
        live := live[k := live[k].(pc := UnwindBackup)];
      }
    }

    method UndoBackup(k: Key, possible: bool)
      requires At(State(), k, UnwindBackup)
      modifies this`fs, this`live, this`trail
      ensures State() == StepUndoBackup(old(State()), k, possible) && At(State(), k, UnwindVerdict)
      ensures old(live[k].backedUp) && !live[k].backedUp ==> Holds(fs, Target(journal[k].request), Some(live[k].origin))
      ensures live[k].backedUp && live[k].backupBound && !live[k].committed && !live[k].installed ==>
        live[k].rollbackFailed && fs == old(fs)
    {
      var l, rq := live[k], journal[k].request;
      if !l.committed && l.backedUp && l.backupBound && !l.installed {
        var ok := TryBound(Backup(k, rq), Target(rq), l.origin, possible);
        l := if ok then l.(backedUp := false) else l.(rollbackFailed := true);
      }
      live := live[k := l.(pc := UnwindVerdict)];
    }

    method RecordRollback(k: Key)
      requires At(State(), k, UnwindVerdict)
      modifies this`journal, this`live
      ensures State() == StepRecordRollback(old(State()), k) && At(State(), k, Unwound)
      ensures k in journal && (live[k].rollbackFailed ==> journal[k].status == RecoveryRequired)
      ensures !live[k].rollbackFailed ==> journal == old(journal)
    {
      if live[k].rollbackFailed {
        JournalUpdate(k, journal[k].(status := RecoveryRequired, phase := Stranded));
      }
      live := live[k := live[k].(pc := Unwound)];
    }

    method Report(k: Key)
      requires At(State(), k, Reporting)
      modifies this`journal, this`live
      ensures State() == StepReport(old(State()), k)
      ensures k in journal && k !in live
      ensures old(journal[k].status) == RecoveryRequired ==> journal == old(journal)
      ensures old(journal[k].status) != RecoveryRequired ==>
        journal[k].status == if !old(live[k].committed) then (if old(live[k].cancelled) then Cancelled else Error)
                             else if old(journal[k].request.start) then AppliedPendingStart else Complete
    {
      var l, e := live[k], journal[k];
      if l.committed {
        if e.request.start {
          JournalUpdate(k, e.(status := AppliedPendingStart, phase := PendingStart));
        } else {
          JournalUpdate(k, ReceiptEntry(e.request, false));
        }
      } else if l.cancelled {
        JournalUpdate(k, e.(status := Cancelled, phase := CancelledAfterRollback));
      } else {
        JournalUpdate(k, e.(status := Error, phase := ErrorAfterRollback));
      }
      live := live - {k};
    }

    // ----- the same statements in a call that may fail in front of any of them -----

    method Abort(k: Key, t: Trouble, ghost w0: World)
      requires mode.Up? && k in live && k in journal && !Unwinding(live[k].pc) && Fact(Reached(w0, State(), k, false))
      modifies this`live, this`manifestLock
      ensures Fact(Reached(w0, State(), k, false)) && At(State(), k, Unwind(old(live[k].pc)))
    {
      ghost var w := State();
      Fail(k, t.cancelled);
      ReachedBy(w0, w, InstallMachine.Fail(k, t.cancelled), State(), k, false);
    }

    method NotePhase(k: Key, t: Trouble, ghost w0: World) returns (ok: bool)
      requires mode.Up? && k in live && k in journal && Writes(live[k], journal[k]) && Fact(Reached(w0, State(), k, false))
      modifies this`journal, this`live, this`manifestLock
      ensures Fact(Reached(w0, State(), k, false))
      ensures ok ==> At(State(), k, WrittenPc(old(live[k].pc), old(journal[k].request.policy)))
      ensures ok ==> journal[k].request == old(journal[k].request)
      ensures !ok ==> At(State(), k, Unwind(old(live[k].pc)))
      ensures ok <==> t.at != Some(old(live[k].pc))
    {
      ghost var w := State();
      ok := t.at != Some(live[k].pc);
      if ok { WriteJournal(k); }
      if ok { ReachedBy(w0, w, InstallMachine.WriteJournal(k), State(), k, false); } else { Abort(k, t, w0); }
    }

    /** Create the hidden staging container. */
    method Contain(k: Key, name: string, ident: Ident, t: Trouble, ghost w0: World) returns (ok: bool)
      requires At(State(), k, AtClaimed) && Fact(Reached(w0, State(), k, false))
      requires IsContainerName(name) && ident !in trail.born
      modifies this
      ensures Fact(Reached(w0, State(), k, false))
      ensures ok ==> At(State(), k, AtContainer) && journal[k].request == old(journal[k].request)
      ensures ok ==> trail.born == old(trail.born) + {ident}
      ensures !ok ==> At(State(), k, Unwind(AtClaimed))
    {
      ghost var w := State();
      ok := t.at != Some(AtClaimed);
      if ok { ok := MakeContainer(k, name, ident); }
      if ok { ReachedBy(w0, w, InstallMachine.MakeContainer(k, name, ident), State(), k, false); } else { Abort(k, t, w0); }
    }

    /** Extract the archive into the container. */
    method Extract(k: Key, ident: Ident, t: Trouble, ghost w0: World) returns (ok: bool)
      requires At(State(), k, AtExtracting) && Fact(Reached(w0, State(), k, false))
      requires ident !in trail.born
      modifies this
      ensures Fact(Reached(w0, State(), k, false))
      ensures ok ==> At(State(), k, AtUnpacked) && journal[k].request == old(journal[k].request)
      ensures !ok ==> At(State(), k, Unwind(AtExtracting))
    {
      ghost var w := State();
      ok := t.at != Some(AtExtracting);
      if ok { ok := Unpack(k, ident); }
      if ok { ReachedBy(w0, w, InstallMachine.Unpack(k, ident), State(), k, false); } else { Abort(k, t, w0); }
    }

    /** Take the operation lock and the folder lock. */
    method Lock(k: Key, t: Trouble, ghost w0: World) returns (ok: bool)
      requires At(State(), k, AtValidated) && Fact(Reached(w0, State(), k, false))
      modifies this
      ensures Fact(Reached(w0, State(), k, false))
      ensures ok ==> At(State(), k, AtLocked) && journal[k].request == old(journal[k].request)
      ensures !ok ==> At(State(), k, Unwind(AtValidated))
    {
      ghost var w := State();
      ok := t.at != Some(AtValidated);
      if ok { ok := AcquireLocks(k); }
      if ok { ReachedBy(w0, w, InstallMachine.AcquireLocks(k), State(), k, false); } else { Abort(k, t, w0); }
    }

    /** Open the manifest transaction and check the destination again. */
    method Open(k: Key, t: Trouble, ghost w0: World) returns (ok: bool)
      requires At(State(), k, AtLocked) && Fact(Reached(w0, State(), k, false))
      modifies this
      ensures Fact(Reached(w0, State(), k, false))
      ensures ok ==> At(State(), k, AtOpened) && journal[k].request == old(journal[k].request)
      ensures !ok ==> At(State(), k, Unwind(AtLocked))
    {
      ghost var w := State();
      ok := t.at != Some(AtLocked);
      if ok { ok := OpenTransaction(k); }
      if ok { ReachedBy(w0, w, InstallMachine.OpenTransaction(k), State(), k, false); } else { Abort(k, t, w0); }
    }

    /** Move the old project to the backup path. */
    method BackUp(k: Key, t: Trouble, ghost w0: World) returns (ok: bool)
      requires At(State(), k, AtBackingUp) && Fact(Reached(w0, State(), k, false))
      modifies this
      ensures Fact(Reached(w0, State(), k, false))
      ensures ok ==> At(State(), k, AtBackupMoved) && journal[k].request == old(journal[k].request)
      ensures !ok ==> At(State(), k, Unwind(AtBackingUp))
    {
      MoveToBackupReached(w0, State(), k);
      ok := t.at != Some(AtBackingUp);
      if ok { ok := MoveToBackup(k); }
      if !ok { Abort(k, t, w0); }
    }

    /** Check the backup and bind it. */
    method Bind(k: Key, t: Trouble, ghost w0: World) returns (ok: bool)
      requires At(State(), k, AtBackupMoved) && Fact(Reached(w0, State(), k, false))
      modifies this
      ensures Fact(Reached(w0, State(), k, false))
      ensures ok ==> At(State(), k, AtBackupBound) && journal[k].request == old(journal[k].request)
      ensures !ok ==> At(State(), k, Unwind(AtBackupMoved))
    {
      ghost var w := State();
      ok := t.at != Some(AtBackupMoved);
      if ok { BindBackup(k); }
      if ok { ReachedBy(w0, w, InstallMachine.BindBackup(k), State(), k, false); } else { Abort(k, t, w0); }
    }

    /** Move the payload to the target. */
    method Install(k: Key, t: Trouble, ghost w0: World) returns (ok: bool)
      requires At(State(), k, AtInstalling) && Fact(Reached(w0, State(), k, false))
      modifies this
      ensures Fact(Reached(w0, State(), k, false))
      ensures ok ==> At(State(), k, AtMoved) && journal[k].request == old(journal[k].request)
      ensures !ok ==> At(State(), k, Unwind(AtInstalling))
    {
      MoveToTargetReached(w0, State(), k);
      ok := t.at != Some(AtInstalling);
      if ok { ok := MoveToTarget(k); }
      if !ok { Abort(k, t, w0); }
    }

    /** Save the manifest. */
    method Commit(k: Key, t: Trouble, ghost w0: World) returns (ok: bool)
      requires At(State(), k, AtCommitting) && Fact(Reached(w0, State(), k, false))
      modifies this
      ensures Fact(Reached(w0, State(), k, false))
      ensures ok ==> At(State(), k, AtSaved) && journal[k].request == old(journal[k].request)
      ensures !ok ==> At(State(), k, Unwind(AtCommitting))
    {
      SaveManifestReached(w0, State(), k);
      ok := t.at != Some(AtCommitting);
      if ok { SaveManifest(k); }
      if !ok { Abort(k, t, w0); }
    }

    /** Save the manifest, but fail after the file was replaced. */
    method CommitTorn(k: Key, ghost w0: World)
      requires At(State(), k, AtCommitting) && Fact(Reached(w0, State(), k, false))
      modifies this
      ensures Fact(Reached(w0, State(), k, true)) && At(State(), k, UnwindInstall)
    {
      ghost var w := State();
      SaveManifestLate(k);
      ReachedTorn(w0, w, k);
    }

    // ----- one attempt -----

    /** The staging container and its journal entry. */
    method Prepare(k: Key, name: string, ident: Ident, t: Trouble, ghost w0: World) returns (ok: bool)
      requires At(State(), k, AtClaimed) && IsContainerName(name) && Fact(Reached(w0, State(), k, false)) && ident !in trail.born
      modifies this
      ensures Fact(Reached(w0, State(), k, false))
      ensures ok ==> At(State(), k, AtExtracting)
      ensures !ok ==> At(State(), k, Reporting)
      ensures ok ==> trail.born == old(trail.born) + {ident}
    {
      ok := Contain(k, name, ident, t, w0);
      if ok { ok := NoteContainer(k, t, w0); }
    }

    method NoteContainer(k: Key, t: Trouble, ghost w0: World) returns (ok: bool)
      requires At(State(), k, AtContainer) && Fact(Reached(w0, State(), k, false))
      modifies this`journal, this`live, this`manifestLock
      ensures Fact(Reached(w0, State(), k, false))
      ensures At(State(), k, if ok then AtExtracting else Reporting)
    {
      ok := NotePhase(k, t, w0);
    }

    /** Extraction, then the critical section up to the payload's rename: locks, transaction, backup,
        install. */
    method MoveIn(k: Key, stage: Ident, t: Trouble, ghost w0: World) returns (ok: bool)
      requires At(State(), k, AtExtracting) && Fact(Reached(w0, State(), k, false)) && stage !in trail.born
      modifies this
      ensures Fact(Reached(w0, State(), k, false))
      ensures ok ==> At(State(), k, AtMoved)
      ensures !ok ==> At(State(), k, Reporting) || At(State(), k, UnwindInstall)
    {
      ok := Extract(k, stage, t, w0);
      if !ok { return; }
      ok := NotePhase(k, t, w0);
      if !ok { return; }
      ok := Lock(k, t, w0);
      if !ok { return; }
      ok := Open(k, t, w0);
      if !ok { return; }
      ok := NotePhase(k, t, w0);
      if !ok { return; }
      if live[k].pc.AtBackingUp? {
        ok := BackUp(k, t, w0);
        if !ok { return; }
        ok := Bind(k, t, w0);
        if !ok { return; }
        ok := NotePhase(k, t, w0);
        if !ok { return; }
        ok := NotePhase(k, t, w0);
        if !ok { return; }
      }
      ok := Install(k, t, w0);
    }

    /** The rest of the critical section: two phases, the manifest, one more phase. */
    method CommitInstall(k: Key, t: Trouble, ghost w0: World) returns (ok: bool, ghost late: bool)
      requires At(State(), k, AtMoved) && Fact(Reached(w0, State(), k, false))
      modifies this
      ensures Fact(Reached(w0, State(), k, late)) && (late ==> t.late && !ok)
      ensures ok ==> At(State(), k, AtCommitted)
      ensures !ok ==> At(State(), k, UnwindInstall)
    {
      late := false;
      ok := NotePhase(k, t, w0);
      if !ok { return; }
      ok := NotePhase(k, t, w0);
      if !ok { return; }
      if t.late {
        CommitTorn(k, w0);
        return false, true;
      }
      ok := Commit(k, t, w0);
      if !ok { return; }
      ok := NotePhase(k, t, w0);
    }

    /** The handler of the critical section: undo the install, then the backup, record a failure of
        either, and release the locks. */
    method RollBack(k: Key, t: Trouble, ghost w0: World, ghost late: bool)
      requires At(State(), k, UnwindInstall) && Fact(Reached(w0, State(), k, late))
      modifies this
      ensures Fact(Reached(w0, State(), k, late)) && At(State(), k, Reporting)
    {
      UndoMoves(k, t, w0, late);
      RecordRollbackReached(w0, State(), k, late);
      RecordRollback(k);
      ReleaseLocksReached(w0, State(), k, late);
      ReleaseLocks(k);
    }

    method UndoMoves(k: Key, t: Trouble, ghost w0: World, ghost late: bool)
      requires At(State(), k, UnwindInstall) && Fact(Reached(w0, State(), k, late))
      modifies this
      ensures Fact(Reached(w0, State(), k, late)) && At(State(), k, UnwindVerdict)
    {
      InstallUndoneReached(w0, State(), k, t.undoInstall, late);
      UndoInstall(k, t.undoInstall);
      BackupUndoneReached(w0, State(), k, t.undoBackup, late);
      UndoBackup(k, t.undoBackup);
    }

    /** After the commit: release the locks and start the project if that was asked for. An error on the
        way, be it in the journal write, is noted for the receipt; only a cancellation ends the call. */
    method Finish(k: Key, t: Trouble, started: bool, ghost w0: World) returns (ok: bool)
      requires At(State(), k, AtCommitted) && Fact(Reached(w0, State(), k, false))
      modifies this
      ensures Fact(Reached(w0, State(), k, false))
      ensures ok ==> AtReceipt(State(), k)
      ensures !ok ==> At(State(), k, Reporting) && t.cancelled
    {
      Release(k, w0);
      ok := true;
      if journal[k].request.start {
        if t.at == Some(AtReleased) && !t.cancelled {
          StartProject(k, false, w0);
        } else {
          ok := NotePhase(k, t, w0);
          if ok { StartProject(k, started, w0); }
        }
      }
    }

    method Release(k: Key, ghost w0: World)
      requires At(State(), k, AtCommitted) && Fact(Reached(w0, State(), k, false))
      modifies this`live
      ensures Fact(Reached(w0, State(), k, false)) && At(State(), k, AtReleased)
    {
      ReleaseLocksReached(w0, State(), k, false);
      ReleaseLocks(k);
    }

    method StartProject(k: Key, started: bool, ghost w0: World)
      requires Startable(State(), k, started) && Fact(Reached(w0, State(), k, false))
      modifies this`live
      ensures Fact(Reached(w0, State(), k, false)) && At(State(), k, AtStarted)
    {
      ghost var w := State();
      Start(k, started);
      ReachedBy(w0, w, InstallMachine.Start(k, started), State(), k, false);
    }

    /** `_stage_and_install` up to its last journal write. */
    method StageAndInstall(k: Key, name: string, containerIdent: Ident, stage: Ident, t: Trouble, started: bool, ghost w0: World)
        returns (ghost late: bool)
      requires At(State(), k, AtClaimed) && IsContainerName(name) && Fact(Reached(w0, State(), k, false))
      requires containerIdent !in trail.born && stage !in trail.born && stage != containerIdent
      modifies this
      ensures Fact(Reached(w0, State(), k, late)) && (late ==> t.late)
      ensures AtReceipt(State(), k) || At(State(), k, Reporting)
    {
      late := false;
      var ok := Prepare(k, name, containerIdent, t, w0);
      if ok { ok := MoveIn(k, stage, t, w0); }
      if ok { ok, late := CommitInstall(k, t, w0); }
      if ok { ok := Finish(k, t, started, w0); }
      if live[k].pc.UnwindInstall? { RollBack(k, t, w0, late); }
    }

    /** The last journal write of a call: its receipt, or the verdict of its handlers. */
    method Conclude(k: Key)
      requires AtReceipt(State(), k) || At(State(), k, Reporting)
      modifies this`journal, this`live
      ensures State() == if old(At(State(), k, Reporting)) then StepReport(old(State()), k) else StepSaveReceipt(old(State()), k)
      ensures k in journal && k !in live
    {
      if live[k].pc.Reporting? { Report(k); } else { SaveReceipt(k); }
    }

    /** The container of a finished call is cleared, if that succeeds. */
    method ClearContainer(name: string, possible: bool)
      requires mode.Up? && IsContainerName(name)
      modifies this`fs, this`trail
      ensures State() == if possible then StepSweep(old(State()), name) else old(State())
      ensures possible ==> forall p :: p in fs <==> p in old(fs) && !InsideContainer(p, name)
      ensures forall p :: p in fs ==> fs[p] == old(fs)[p]
    {
      if possible {
        fs := map p | p in fs && !InsideContainer(p, name) :: fs[p];
        trail := trail.(loc := map i | i in trail.loc && !InsideContainer(trail.loc[i], name) :: trail.loc[i]);
      }
    }

    /** A retry of an applied transfer: start the project, and write the receipt if that succeeds. */
    method StartApplied(k: Key, started: bool)
      requires EligibleForStart(State(), k)
      modifies this`journal
      ensures State() == StepStartApplied(old(State()), k, started)
      ensures started ==> k in journal && journal[k].status == Complete && journal[k].started
      ensures !started ==> k in journal && journal[k].status == AppliedPendingStart
    {
      if started {
        journal := journal[k := ReceiptEntry(journal[k].request, true)];
      } else {
        JournalUpdate(k, journal[k].(phase := PendingStart));
      }
    }

    /** Serving one push, when the event loop is free for it. The prior entry decides whether it may be claimed,
        the collision checks whether it is admitted; an admitted attempt runs to its verdict and its container
        is cleared. An applied transfer that is asked for again is only started. */
    method Receive(k: Key, rq: Request, name: string, containerIdent: Ident, stage: Ident, t: Trouble, started: bool)
        returns (reply: Reply, last: Live)
      requires Fact(Inv(State())) && mode.Up? && k !in live && !k.pull && IsRequest(k, rq) && IsContainerName(name)
      requires !Occupied(State(), k)
      requires containerIdent !in trail.born && stage !in trail.born && stage != containerIdent
      modifies this
      ensures Fact(Inv(State()))
      ensures reply.Refused? || reply.AlreadyComplete? ==> State() == old(State())
      ensures reply.AlreadyComplete? <==> k in old(journal) && old(journal)[k].request == rq && old(journal)[k].status == Complete
      ensures reply.StartedApplied? <==> EligibleForStart(old(State()), k) && old(journal)[k].request == rq
      ensures reply.StartedApplied? ==> State() == StepStartApplied(old(State()), k, started)
      ensures reply.Ran? <==> Starts(old(State()), k, rq)
      ensures reply.Ran? ==> k in journal && k !in live
      ensures reply.Ran? ==> exists late: bool :: (late ==> t.late) && Outcome(old(State()), State(), k, rq, last, late)
    {
      last := FreshLive(k);
      if k in journal {
        if journal[k].request != rq {
          return Refused, last;
        }
        if journal[k].status.Complete? {
          return AlreadyComplete, last;
        }
        if journal[k].status.AppliedPendingStart? {
          if !IsEligible(k) {
            return Refused, last;
          }
          StartAppliedKeeps(State(), k, started);
          StartApplied(k, started);
          return StartedApplied, last;
        }
        if journal[k].status.Active? || journal[k].status.RecoveryRequired? {
          return Refused, last;
        }
      }
      if !Admits(fs, manifest, running, rq) {
        return Refused, last;
      }
      last := Attempt(k, rq, name, containerIdent, stage, t, started);
      FinishedMeans(old(State()), State(), k, rq, last, t.late);
      reply := Ran;
    }

    predicate IsEligible(k: Key)
      requires k in journal
      reads this
      ensures IsEligible(k) && mode.Up? && k !in live && journal[k].status.AppliedPendingStart? <==> EligibleForStart(State(), k)
    {
      var e := journal[k];
      && e.request.start && e.request.dest in manifest && manifest[e.request.dest] == Target(e.request)
      && Target(e.request) in fs && e.installedIdent == Some(fs[Target(e.request)].ident)
      && fs[Target(e.request)].project == Some(e.request.dest)
    }

    /** Claim the id in the journal. */
    method Claim(k: Key, rq: Request)
      requires Starts(State(), k, rq) && !k.pull
      modifies this`journal, this`live
      ensures State() == StepClaim(old(State()), k, rq) && At(State(), k, AtClaimed)
      ensures journal[k].request == rq && journal[k].status == Active && journal[k].phase == Claimed
    {
      journal := journal[k := ClaimEntry(journal, k, rq)];
      live := live[k := FreshLive(k)];
    }

    /** Write the last entry of an attempt and clear its container. */
    method Close(k: Key, rq: Request, name: string, possible: bool, ghost before: World, ghost late: bool)
        returns (last: Live)
      requires Fact(Inv(before)) && Starts(before, k, rq) && IsContainerName(name)
      requires Fact(Reached(StepClaim(before, k, rq), State(), k, late)) && (AtReceipt(State(), k) || At(State(), k, Reporting))
      modifies this
      ensures mode.Up? && k in journal && k !in live && Fact(Finished(before, State(), k, rq, last, late))
    {
      last := live[k];
      Closes(before, State(), k, rq, late);
      Conclude(k);
      Swept(before, State(), k, rq, last, late, name);
      ClearContainer(name, possible && last.container == name);
    }

    /** Claim the id, run the attempt, write its last entry and clear its container. */
    method Attempt(k: Key, rq: Request, name: string, containerIdent: Ident, stage: Ident, t: Trouble, started: bool)
        returns (last: Live)
      requires Fact(Inv(State())) && Starts(State(), k, rq) && !Occupied(State(), k) && !k.pull && IsContainerName(name)
      requires containerIdent !in trail.born && stage !in trail.born && stage != containerIdent
      modifies this
      ensures mode.Up? && k in journal && k !in live
      ensures exists late: bool :: (late ==> t.late) && Fact(Finished(old(State()), State(), k, rq, last, late))
    {
      ghost var before := State();
      Claim(k, rq);
      ReachedNow(State(), k);
      ghost var late := StageAndInstall(k, name, containerIdent, stage, t, started, StepClaim(before, k, rq));
      last := Close(k, rq, name, t.clear, before, late);
    }
  }

  datatype Reply = Refused | AlreadyComplete | StartedApplied | Ran

  lemma ReachedNow(w0: World, k: Key)
    requires k in w0.live && !Occupied(w0, k)
    ensures Fact(Reached(w0, w0, k, false))
  {
    assert Undisturbed(w0, [], k) && w0 == Run(w0, []) && !SavedLate(w0, [], k);
  }

  lemma Closes(before: World, w: World, k: Key, rq: Request, late: bool)
    requires Fact(Inv(before)) && Starts(before, k, rq) && Fact(Reached(StepClaim(before, k, rq), w, k, late))
    ensures At(w, k, Reporting) ==> Fact(Finished(before, StepReport(w, k), k, rq, w.live[k], late))
    ensures AtReceipt(w, k) ==> Fact(Finished(before, StepSaveReceipt(w, k), k, rq, w.live[k], late))
  {
    assert Unsealed(0);
    var evs :| Undisturbed(StepClaim(before, k, rq), evs, k) && w == Run(StepClaim(before, k, rq), evs)
               && SavedLate(StepClaim(before, k, rq), evs, k) == late;
    SoloRun(before, k, rq, evs);
    SoloConcludes(before, w, k, rq, late);
    ReportKeeps(w, k);
    SaveReceiptKeeps(w, k);
  }

  ghost predicate Finished(before: World, w: World, k: Key, rq: Request, l: Live, late: bool) {
    Inv(w) && k in w.journal && Outcome(before, w, k, rq, l, late)
  }

  lemma FinishedMeans(before: World, w: World, k: Key, rq: Request, l: Live, torn: bool)
    requires exists late: bool :: (late ==> torn) && Fact(Finished(before, w, k, rq, l, late))
    ensures Fact(Inv(w)) && k in w.journal && exists late: bool :: (late ==> torn) && Outcome(before, w, k, rq, l, late)
  {
    var late: bool :| (late ==> torn) && Fact(Finished(before, w, k, rq, l, late));
    assert Outcome(before, w, k, rq, l, late);
  }

  /** Clearing the container changes nothing an operator can see. */
  lemma Swept(before: World, w: World, k: Key, rq: Request, l: Live, late: bool, name: string)
    requires Fact(Finished(before, w, k, rq, l, late)) && w.mode.Up? && IsRequest(k, rq) && IsContainerName(name)
    ensures Fact(Finished(before, StepSweep(w, name), k, rq, l, late))
  {
    SweepKeeps(w, name);
    SweptOutcome(before, w, k, rq, l, late, name);
  }

  lemma SweptOutcome(before: World, w: World, k: Key, rq: Request, l: Live, late: bool, name: string)
    requires k in w.journal && Fact(Outcome(before, w, k, rq, l, late)) && IsRequest(k, rq) && IsContainerName(name)
    ensures Fact(Outcome(before, StepSweep(w, name), k, rq, l, late))
  {
    ContainersAreHidden(name);
    NamesAreDisjoint(rq.folder, k.id, k.id, "");
  }

  function Unwind(pc: Pc): Pc {
    if HoldsPath(pc) then UnwindInstall else Reporting
  }

  // ----- runs of one attempt -----

  /** The state is reached from `w0` by undisturbed steps of this attempt, in which the manifest was or was
      not saved by a call that failed. */
  ghost predicate ReachedParts(w0: World, w: World, k: Key, late: bool) {
    !Occupied(w, k) && exists evs :: Undisturbed(w0, evs, k) && w == Run(w0, evs) && SavedLate(w0, evs, k) == late
  }

  /** The same, sealed. */
  ghost predicate Reached(w0: World, w: World, k: Key, late: bool) {
    forall u {:trigger Unsealed(u)} :: Unsealed(u) ==> ReachedParts(w0, w, k, late)
  }

  lemma InstallUndoneReached(w0: World, w: World, k: Key, ok: bool, late: bool)
    requires Fact(Reached(w0, w, k, late)) && At(w, k, UnwindInstall)
    ensures Fact(Reached(w0, StepUndoInstall(w, k, ok), k, late))
  {
    ReachedBy(w0, w, InstallMachine.UndoInstall(k, ok), StepUndoInstall(w, k, ok), k, late);
  }

  lemma BackupUndoneReached(w0: World, w: World, k: Key, ok: bool, late: bool)
    requires Fact(Reached(w0, w, k, late)) && At(w, k, UnwindBackup)
    ensures Fact(Reached(w0, StepUndoBackup(w, k, ok), k, late))
  {
    ReachedBy(w0, w, InstallMachine.UndoBackup(k, ok), StepUndoBackup(w, k, ok), k, late);
  }

  lemma MoveToBackupReached(w0: World, w: World, k: Key)
    requires Fact(Reached(w0, w, k, false)) && w.mode.Up? && k in w.live
    ensures Fact(Reached(w0, StepMoveToBackup(w, k), k, false))
  {
    ReachedBy(w0, w, InstallMachine.MoveToBackup(k), StepMoveToBackup(w, k), k, false);
  }

  lemma MoveToTargetReached(w0: World, w: World, k: Key)
    requires Fact(Reached(w0, w, k, false)) && w.mode.Up? && k in w.live
    ensures Fact(Reached(w0, StepMoveToTarget(w, k), k, false))
  {
    ReachedBy(w0, w, InstallMachine.MoveToTarget(k), StepMoveToTarget(w, k), k, false);
  }

  lemma SaveManifestReached(w0: World, w: World, k: Key)
    requires Fact(Reached(w0, w, k, false)) && w.mode.Up? && k in w.live
    ensures Fact(Reached(w0, StepSaveManifest(w, k), k, false))
  {
    ReachedBy(w0, w, InstallMachine.SaveManifest(k), StepSaveManifest(w, k), k, false);
  }

  lemma ReleaseLocksReached(w0: World, w: World, k: Key, late: bool)
    requires Fact(Reached(w0, w, k, late)) && w.mode.Up? && k in w.live
    ensures Fact(Reached(w0, StepReleaseLocks(w, k), k, late))
  {
    ReachedBy(w0, w, InstallMachine.ReleaseLocks(k), StepReleaseLocks(w, k), k, late);
  }

  lemma RecordRollbackReached(w0: World, w: World, k: Key, late: bool)
    requires Fact(Reached(w0, w, k, late)) && At(w, k, UnwindVerdict)
    ensures Fact(Reached(w0, StepRecordRollback(w, k), k, late))
  {
    ReachedBy(w0, w, InstallMachine.RecordRollback(k), StepRecordRollback(w, k), k, late);
  }

  /** Its own steps do not make room for others on the event loop. */
  lemma StaysFree(w: World, ev: Event, k: Key)
    requires w.mode.Up? && Serves(ev) == Some(k) && !Occupied(w, k)
    ensures !Occupied(Step(w, ev), k)
  {
    forall o | o in Step(w, ev).live && o != k
      ensures !Uninterrupted(Step(w, ev).live[o].pc)
    {
      StepForeign(w, ev, o);
    }
  }

  lemma ReachedBy(w0: World, w: World, ev: Event, w': World, k: Key, late: bool)
    requires Fact(Reached(w0, w, k, late)) && Serves(ev) == Some(k) && !ev.SaveManifestLate? && w' == Step(w, ev) && w.mode.Up? && k in w'.live
    ensures Fact(Reached(w0, w', k, late))
  {
    assert Unsealed(0);
    var evs :| Undisturbed(w0, evs, k) && w == Run(w0, evs) && SavedLate(w0, evs, k) == late;
    StaysFree(w, ev, k);
    Extended(w0, evs, ev, k);
    NotLate(w, ev, k);
  }

  lemma NotLate(w: World, ev: Event, k: Key)
    requires !ev.SaveManifestLate?
    ensures !SavesLate(w, ev, k)
  {
  }

  lemma ReachedTorn(w0: World, w: World, k: Key)
    requires Fact(Reached(w0, w, k, false)) && At(w, k, AtCommitting)
    ensures Fact(Reached(w0, StepSaveManifestLate(w, k), k, true))
  {
    assert Unsealed(0);
    var evs :| Undisturbed(w0, evs, k) && w == Run(w0, evs) && SavedLate(w0, evs, k) == false;
    TornServes(w, k);
    StaysFree(w, InstallMachine.SaveManifestLate(k), k);
    Extended(w0, evs, InstallMachine.SaveManifestLate(k), k);
  }

  lemma TornServes(w: World, k: Key)
    requires At(w, k, AtCommitting) && !Occupied(w, k)
    ensures var ev := InstallMachine.SaveManifestLate(k);
      Step(w, ev) == StepSaveManifestLate(w, k) && k in Step(w, ev).live && SavesLate(w, ev, k)
  {
  }

  lemma Extended(w0: World, evs: seq<Event>, ev: Event, k: Key)
    requires Undisturbed(w0, evs, k) && Serves(ev) == Some(k) && !Occupied(Run(w0, evs), k) && k in Step(Run(w0, evs), ev).live
    ensures var more := evs + [ev];
      && Undisturbed(w0, more, k) && Run(w0, more) == Step(Run(w0, evs), ev)
      && SavedLate(w0, more, k) == (SavedLate(w0, evs, k) || SavesLate(Run(w0, evs), ev, k))
  {
    var more := evs + [ev];
    assert more[..|more| - 1] == evs;
  }
}
