/** Startup reconciliation as the host runs it: the loop over the journal, which moves directories and
    edits the entries in place, branch by branch. */
module InstallReconcile {
  import opened Options
  import opened InstallNames
  import opened InstallModel
  import opened InstallDisk
  import opened InstallMachine
  import opened InstallInvariant
  import opened InstallRecovery
  import opened InstallClaims

  class Startup {
    var fs: Files
    const manifest: Manifest
    var entries: Journal
    /** The entries the loop has not settled yet, the history, and everything it cannot reach. */
    ghost var todo: set<Key>
    ghost var trail: Trail
    ghost const rest: World

    ghost function State(): World
      reads this
    {
      rest.(fs := fs, manifest := manifest, mode := Recovering(todo, entries), trail := trail)
    }

    /** Startup loads the journal of a host that was down. */
    constructor (world: World)
      requires world.mode.Down?
      ensures State() == StepBeginRecovery(world)
      ensures entries == world.journal && todo == ActiveKeys(world.journal)
    {
      fs := world.fs;
      manifest := world.manifest;
      entries := world.journal;
      todo := ActiveKeys(world.journal);
      trail := world.trail;
      rest := world;
    }

    method RenameBound(src: Path, dst: Path, ident: Ident) returns (ok: bool)
      modifies this`fs, this`trail
      ensures ok <==> CanRename(old(fs), src, dst, ident)
      ensures ok ==> State() == Move(old(State()), src, dst)
      ensures !ok ==> State() == old(State())
    {
      ok, fs := TryRename(fs, src, dst, ident);
      if ok { trail := trail.(loc := trail.loc[ident := dst]); }
    }

    /** Bind the directory at a path; `None` is the exception raised when it is missing. */
    method Bind(p: Path) returns (ident: Option<Ident>)
      ensures ident == if p in fs then Some(fs[p].ident) else None
    {
      ident := if p in fs then Some(fs[p].ident) else None;
    }

    /** Move the recorded backup back to the target, if it is the directory that was recorded. */
    method RestoreBackup(e: Entry) returns (ok: bool)
      requires e.backup.Some?
      modifies this`fs, this`trail
      ensures ok <==> Holds(old(fs), InRoot(e.backup.value), e.backupIdent)
                      && CanRename(old(fs), InRoot(e.backup.value), Target(e.request), e.backupIdent.GetOr(0))
      ensures ok ==> State() == Move(old(State()), InRoot(e.backup.value), Target(e.request))
      ensures !ok ==> State() == old(State())
    {
      var backup := InRoot(e.backup.value);
      var found := Bind(backup);
      if found.None? || found != e.backupIdent {
        return false;
      }
      ok := RenameBound(backup, Target(e.request), found.value);
    }

    /** Move the half-installed target aside, then the backup, if there is one, back. The identities of
        both directories are checked before the first rename. */
    method QuarantineTarget(k: Key, e: Entry, fault: Fault) returns (ok: bool)
      requires Target(e.request) in fs
      modifies this`fs, this`trail
      ensures ok ==> Holds(old(fs), Target(e.request), e.installedIdent)
      ensures Settle(State(), k, if ok then VerdictEntry(Quarantine, e) else StuckEntry(e))
        == if !(Holds(old(fs), Target(e.request), e.installedIdent)
                && (e.backup.Some? ==> Holds(old(fs), InRoot(e.backup.value), e.backupIdent))
                && CanRename(old(fs), Target(e.request), InRoot(QuarantineName(k.id)), e.installedIdent.GetOr(0)))
           then Settle(old(State()), k, StuckEntry(e))
           else AfterQuarantine(Move(old(State()), Target(e.request), InRoot(QuarantineName(k.id))), k, e, fault)
    {
      var target := Target(e.request);
      var found := Bind(target);
      if found != e.installedIdent {
        return false;
      }
      if e.backup.Some? {
        var kept := Bind(InRoot(e.backup.value));
        if kept.None? || kept != e.backupIdent {
          return false;
        }
      }
      ok := RenameBound(target, InRoot(QuarantineName(k.id)), found.value);
      if ok && e.backup.Some? {
        if fault.BetweenMoves? {
          return false;
        }
        ok := RenameBound(InRoot(e.backup.value), target, e.backupIdent.value);
      }
    }

    /** A backup was made, or was about to be made. */
    method UndoBackup(k: Key, e: Entry, fault: Fault) returns (settled: Option<Entry>)
      requires k in todo && k in entries && entries[k] == e && !fault.BeforeMoves?
      requires e.phase.BackingUp? || e.phase.BackupCreated?
      requires !(MayBeCommitted(manifest, e) && Target(e.request) !in fs)
      requires !(MayBeCommitted(manifest, e) && Holds(fs, Target(e.request), e.installedIdent)
                 && fs[Target(e.request)].project == Some(e.request.dest))
      modifies this`fs, this`trail
      ensures Settle(State(), k, settled.GetOr(StuckEntry(e))) == StepRecover(old(State()), k, fault)
    {
      var target := Target(e.request);
      if e.backup.Some? && target !in fs {
        var ok := RestoreBackup(e);
        return if ok then Some(e.(status := Error, phase := RolledBackAfterRestart)) else None;
      }
      if e.phase.BackingUp? && target in fs && (e.backup.None? || InRoot(e.backup.value) !in fs) {
        var found := Bind(target);
        return if found == e.backupIdent then Some(e.(status := Error, phase := InterruptedRetryable)) else None;
      }
      return None;
    }

    /** What is done for an install that was not committed. */
    method Undo(k: Key, e: Entry, fault: Fault) returns (settled: Option<Entry>)
      requires k in todo && k in entries && entries[k] == e && !NeverMovedTarget(e.phase) && !fault.BeforeMoves?
      requires !(MayBeCommitted(manifest, e) && Target(e.request) !in fs)
      requires !(MayBeCommitted(manifest, e) && Holds(fs, Target(e.request), e.installedIdent)
                 && fs[Target(e.request)].project == Some(e.request.dest))
      modifies this`fs, this`trail
      ensures Settle(State(), k, settled.GetOr(StuckEntry(e))) == StepRecover(old(State()), k, fault)
    {
      var target := Target(e.request);
      if e.phase.BackingUp? || e.phase.BackupCreated? {
        settled := UndoBackup(k, e, fault);
        return;
      }
      if (e.phase.Installing? || e.phase.Installed? || e.phase.CommittingManifest?) && target in fs {
        var ok := QuarantineTarget(k, e, fault);
        return if ok then Some(e.(status := Error, phase := RolledBackAfterRestart)) else None;
      }
      if e.phase.Installing? && target !in fs {
        if e.backup.None? {
          return Some(e.(status := Error, phase := InterruptedRetryable));
        }
        var ok := RestoreBackup(e);
        return if ok then Some(e.(status := Error, phase := RolledBackAfterRestart)) else None;
      }
      return None;
    }

    /** The guarded part of one iteration: `None` stands for the exception that makes the entry
        `recovery_required`. */
    method Prove(k: Key, e: Entry, fault: Fault) returns (settled: Option<Entry>)
      requires k in todo && k in entries && entries[k] == e && !NeverMovedTarget(e.phase)
      modifies this`fs, this`trail
      ensures Settle(State(), k, settled.GetOr(StuckEntry(e))) == StepRecover(old(State()), k, fault)
    {
      if fault.BeforeMoves? {
        return None;
      }
      var rq := e.request;
      var target := Target(rq);
      if rq.dest in manifest && manifest[rq.dest] == target && e.installedIdent.Some? {
        var found := Bind(target);
        if found.None? {
          return None;
        }
        if found == e.installedIdent && fs[target].project == Some(rq.dest) {
          trail := AddCommit(trail, k, found.value);
          return Some(if rq.start then e.(status := AppliedPendingStart, phase := PendingStart)
                      else e.(status := Complete, phase := Receipt));
        }
      }
      settled := Undo(k, e, fault);
    }

    /** One iteration over an active entry. */
    method ReconcileEntry(k: Key, fault: Fault)
      requires k in todo && k in entries
      modifies this`fs, this`trail, this`entries, this`todo
      ensures State() == StepRecover(old(State()), k, fault)
    {
      var e := entries[k];
      var settled := Some(e.(status := Error, phase := InterruptedRetryable));
      if !NeverMovedTarget(e.phase) {
        settled := Prove(k, e, fault);
      }
      var verdict := settled.GetOr(e.(status := RecoveryRequired, phase := Stranded));
      entries := entries[k := verdict];
      todo := todo - {k};
    }

    /** One iteration: an entry that is not active is skipped. */
    method Visit(k: Key, fault: Fault) returns (settled: bool)
      requires todo == ActiveKeys(entries)
      modifies this`fs, this`trail, this`entries, this`todo
      ensures State() == StepRecover(old(State()), k, fault)
      ensures settled <==> k in old(todo)
      ensures todo == old(todo) - {k} && entries.Keys == old(entries).Keys && todo == ActiveKeys(entries)
    {
      settled := k in entries && entries[k].status == Active;
      if settled {
        RecoverSettles(State(), k, fault);
        ReconcileEntry(k, fault);
      }
    }

    /** `_reconcile_install_journal`: visit every entry in the journal's own order and skip those that
        are not active. The host that comes up has no active entry, the entries that were settled
        before are untouched, and every invariant of the protocol still holds. */
    method ReconcileInstallJournal(order: seq<(Key, Fault)>) returns (changed: bool)
      requires entries.Keys <= Handled(order)
      requires todo == ActiveKeys(entries)
      modifies this`fs, this`trail, this`entries, this`todo
      ensures ActiveKeys(entries) == {} && entries.Keys == old(entries).Keys
      ensures forall k :: k in old(entries) && old(entries)[k].status != Active ==> entries[k] == old(entries)[k]
      ensures State() == Reconcile(old(State()), order)
      ensures changed <==> ActiveKeys(old(entries)) != {}
    {
      ghost var w := State();
      changed := false;
      var i := 0;
      while i < |order|
        invariant 0 <= i <= |order|
        invariant State() == Reconcile(w, order[..i]) && todo == ActiveKeys(entries) && todo <= w.mode.todo
        invariant entries.Keys == w.mode.mem.Keys
        invariant changed <==> todo != w.mode.todo
      {
        var (k, fault) := order[i];
        assert order[..i + 1][..i] == order[..i];
        var settled := Visit(k, fault);
        changed := changed || settled;
        i := i + 1;
      }
      assert order[..|order|] == order;
      ReconcileProgress(w, order);
    }
  }

  /** Reconciliation, whatever fails on its way, keeps every invariant of the protocol. */
  lemma {:induction false} ReconcileKeeps(w: World, order: seq<(Key, Fault)>)
    requires Fact(Inv(w))
    ensures Fact(Inv(Reconcile(w, order)))
    decreases |order|
  {
    if order != [] {
      var most, last := order[..|order| - 1], order[|order| - 1];
      ReconcileKeeps(w, most);
      RecoverKeeps(Reconcile(w, most), last.0, last.1);
    }
  }
}
