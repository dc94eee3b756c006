/** Every step of the install protocol that moves no directory keeps the invariant. */
module InstallSteps {
  import opened Options
  import opened InstallModel
  import opened InstallMachine
  import opened InstallInvariant
  import opened InstallFrame

  /** A half-installed payload stays accounted for across a change of pc or phase. */
  predicate KeepsPayload(e: Entry, l: Live, e': Entry, l': Live) {
    e.status == Active && l.installed && !l.committed && HoldsPath(l.pc) ==>
      || e'.status == RecoveryRequired
      || (e'.status == Active && e'.installedIdent == e.installedIdent && InstallPhase(e'.phase)
          && l'.installed && l'.stage == l.stage && !l'.committed && HoldsPath(l'.pc))
  }

  /** Only the pc, the flags and the journal entry of `k` change. */
  ghost predicate Quiet(w: World, w': World, k: Key) {
    && k in w.live && k in w.journal && k in w'.live && k in w'.journal
    && SameRest(w, w', k)
    && w'.fs == w.fs && w'.trail == w.trail && w'.manifest == w.manifest
    && (w'.manifestLock == w.manifestLock || w.manifestLock.None? || w.manifestLock == Some(k))
    && w'.journal[k].request == w.journal[k].request
    && KeepsPayload(w.journal[k], w.live[k], w'.journal[k], w'.live[k])
    && (w'.journal[k].status == Active ==> w.journal[k].status == Active)
    && (w'.journal[k].status == Active || w'.journal[k].status == RecoveryRequired)
    && EntryOk(w'.fs, w'.trail, w'.manifest, k, w'.journal[k]) && LiveOk(w', k)
    && (HoldsPath(w'.live[k].pc) ==> HoldsPath(w.live[k].pc) || PathFree(w, k))
  }

  lemma QuietVisible(w: World, w': World, k: Key)
    requires Fact(Inv(w)) && Fact(Quiet(w, w', k))
    ensures Fact(OwnVisible(w', k))
  {
    assert Unsealed(0);
    forall i | Seen(w'.trail, i) && i !in w'.trail.projects && Mine(w'.trail, k, i)
      ensures w'.journal[k].status == Active ==>
        && w.journal[k].installedIdent == Some(i) && w.trail.loc[i] == Target(w.journal[k].request)
        && w.live[k].installed && w.live[k].stage == i && HoldsPath(w.live[k].pc) && !w.live[k].committed
    {
      assert Accounted(w.trail, w.journal, i) && Served(w, i);
    }
  }

  lemma QuietFramed(w: World, w': World, k: Key)
    requires Fact(Quiet(w, w', k)) && Fact(DiskOk(w.fs, w.trail))
    ensures Fact(Framed(w, w', k))
  {
    assert ManifestKept(w, w', k);
    assert TrailGrows(w, w', k);
    assert DiskKept(w, w', k);
  }

  lemma QuietPath(w: World, w': World, k: Key)
    requires Fact(Quiet(w, w', k)) && Fact(OwnPath(w, k))
    ensures Fact(OwnPath(w', k))
  {
    forall o | o in w'.live && Holder(w', o) && o != k && Holder(w', k)
      ensures w'.journal[o].request.folder != w'.journal[k].request.folder
    {
      assert Holder(w, o);
    }
  }

  lemma QuietKeeps(w: World, w': World, k: Key)
    requires Fact(Inv(w)) && Fact(Quiet(w, w', k))
    ensures Fact(Inv(w'))
  {
    assert Unsealed(0);
    PartsOfInv(w, k);
    QuietFramed(w, w', k);
    QuietVisible(w, w', k);
    QuietPath(w, w', k);
    assert OneCommit(w.trail, w.journal, k);
    Assemble(w, w', k);
  }

  // ----- the step lemmas: what changes is one entry, one record of local variables, one lock -----

  /** The step kept the disk, the manifest and everybody else. */
  ghost predicate Becomes(w: World, w': World, k: Key, e: Entry, l: Live, lock: Option<Key>) {
    && w.mode.Up? && w'.mode.Up?
    && w'.fs == w.fs && w'.trail == w.trail && w'.manifest == w.manifest
    && w'.journal == w.journal[k := e] && w'.live == w.live[k := l] && w'.manifestLock == lock
  }

  lemma BecomesQuiet(w: World, w': World, k: Key, e: Entry, l: Live, lock: Option<Key>)
    requires k in w.live && k in w.journal && Fact(Becomes(w, w', k, e, l, lock))
    requires lock == w.manifestLock || w.manifestLock.None? || w.manifestLock == Some(k)
    requires e.request == w.journal[k].request && Fact(KeepsPayload(w.journal[k], w.live[k], e, l))
    requires e.status == Active ==> w.journal[k].status == Active
    requires e.status == Active || e.status == RecoveryRequired
    requires Fact(EntryOk(w.fs, w.trail, w.manifest, k, e))
    requires Fact(FlagsOk(l, e)) && Fact(PayloadOk(w.fs, w.trail, w.manifest, k, l, e)) && Fact(TransactionOk(w.manifest, lock, k, l, e))
    requires HoldsPath(l.pc) ==> HoldsPath(w.live[k].pc) || PathFree(w, k)
    ensures Fact(Quiet(w, w', k))
  {
    assert SameRest(w, w', k);
  }

  /** What the invariant says of `k` alone. */
  ghost predicate OwnFacts(w: World, k: Key) {
    && w.mode.Up? && k in w.live && k in w.journal
    && EntryOk(w.fs, w.trail, w.manifest, k, w.journal[k]) && LiveOk(w, k)
  }

  lemma FactsOf(w: World, k: Key)
    requires Fact(Inv(w)) && w.mode.Up? && k in w.live
    ensures Fact(OwnFacts(w, k))
  {
    assert Unsealed(0);
  }

  lemma AcquireLocksQuiet(w: World, k: Key)
    requires Fact(OwnFacts(w, k)) && At(w, k, AtValidated) && PathFree(w, k)
    ensures Fact(Quiet(w, StepAcquireLocks(w, k), k))
  {
    var l := w.live[k].(pc := AtLocked);
    BecomesQuiet(w, StepAcquireLocks(w, k), k, w.journal[k], l, w.manifestLock);
  }

  lemma AcquireLocksKeeps(w: World, k: Key)
    requires Fact(Inv(w))
    ensures Fact(Inv(StepAcquireLocks(w, k)))
  {
    if w.mode.Up? && k in w.live && k in w.journal && At(w, k, AtValidated) && PathFree(w, k) {
      FactsOf(w, k);
      AcquireLocksQuiet(w, k);
      QuietKeeps(w, StepAcquireLocks(w, k), k);
    }
  }

  lemma BindBackupQuiet(w: World, k: Key)
    requires Fact(OwnFacts(w, k)) && At(w, k, AtBackupMoved)
    ensures Fact(Quiet(w, StepBindBackup(w, k), k))
  {
    var l := w.live[k].(pc := AtBackupBound, backupBound := true);
    BecomesQuiet(w, StepBindBackup(w, k), k, w.journal[k], l, w.manifestLock);
  }

  lemma BindBackupKeeps(w: World, k: Key)
    requires Fact(Inv(w))
    ensures Fact(Inv(StepBindBackup(w, k)))
  {
    if w.mode.Up? && k in w.live && k in w.journal && At(w, k, AtBackupMoved) {
      FactsOf(w, k);
      BindBackupQuiet(w, k);
      QuietKeeps(w, StepBindBackup(w, k), k);
    }
  }

  lemma StartQuiet(w: World, k: Key, ok: bool)
    requires Fact(OwnFacts(w, k)) && Startable(w, k, ok)
    ensures Fact(Quiet(w, StepStart(w, k, ok), k))
  {
    var l := w.live[k].(pc := AtStarted, started := ok);
    BecomesQuiet(w, StepStart(w, k, ok), k, w.journal[k], l, w.manifestLock);
  }

  lemma StartKeeps(w: World, k: Key, ok: bool)
    requires Fact(Inv(w))
    ensures Fact(Inv(StepStart(w, k, ok)))
  {
    if Startable(w, k, ok) {
      FactsOf(w, k);
      StartQuiet(w, k, ok);
      QuietKeeps(w, StepStart(w, k, ok), k);
    }
  }

  lemma ReleaseLocal(fs: Files, t: Trail, m: Manifest, lock: Option<Key>, k: Key, l: Live, e: Entry, pc: Pc)
    requires Fact(FlagsOk(l, e)) && Fact(PayloadOk(fs, t, m, k, l, e)) && Fact(TransactionOk(m, lock, k, l, e))
    requires (l.pc.AtCommitted? && pc.AtReleased?) || (l.pc.Unwound? && pc.Reporting?)
    ensures var l' := l.(pc := pc);
      Fact(FlagsOk(l', e)) && Fact(KeepsPayload(e, l, e, l')) && Fact(PayloadOk(fs, t, m, k, l', e)) && Fact(TransactionOk(m, lock, k, l', e))
  {
  }

  lemma ReleaseLocksQuiet(w: World, k: Key)
    requires Fact(OwnFacts(w, k)) && (At(w, k, AtCommitted) || At(w, k, Unwound))
    ensures Fact(Quiet(w, StepReleaseLocks(w, k), k))
  {
    var l := w.live[k].(pc := if w.live[k].pc.AtCommitted? then AtReleased else Reporting);
    ReleaseLocal(w.fs, w.trail, w.manifest, w.manifestLock, k, w.live[k], w.journal[k], l.pc);
    BecomesQuiet(w, StepReleaseLocks(w, k), k, w.journal[k], l, w.manifestLock);
  }

  lemma ReleaseLocksKeeps(w: World, k: Key)
    requires Fact(Inv(w))
    ensures Fact(Inv(StepReleaseLocks(w, k)))
  {
    if w.mode.Up? && k in w.live && k in w.journal && (At(w, k, AtCommitted) || At(w, k, Unwound)) {
      FactsOf(w, k);
      ReleaseLocksQuiet(w, k);
      QuietKeeps(w, StepReleaseLocks(w, k), k);
    }
  }

  lemma RecordRollbackQuiet(w: World, k: Key)
    requires Fact(OwnFacts(w, k)) && At(w, k, UnwindVerdict)
    ensures Fact(Quiet(w, StepRecordRollback(w, k), k))
  {
    var l := w.live[k].(pc := Unwound);
    BecomesQuiet(w, StepRecordRollback(w, k), k, if l.rollbackFailed then w.journal[k].(status := RecoveryRequired, phase := Stranded) else w.journal[k], l, w.manifestLock);
  }

  lemma RecordRollbackKeeps(w: World, k: Key)
    requires Fact(Inv(w))
    ensures Fact(Inv(StepRecordRollback(w, k)))
  {
    if w.mode.Up? && k in w.live && k in w.journal && At(w, k, UnwindVerdict) {
      FactsOf(w, k);
      RecordRollbackQuiet(w, k);
      QuietKeeps(w, StepRecordRollback(w, k), k);
    }
  }

  lemma FailLocal(fs: Files, t: Trail, m: Manifest, lock: Option<Key>, k: Key, l: Live, e: Entry, cancelled: bool)
    requires Fact(FlagsOk(l, e)) && !Unwinding(l.pc) && Fact(PayloadOk(fs, t, m, k, l, e))
    ensures var l' := Failed(l, cancelled);
      Fact(FlagsOk(l', e)) && Fact(KeepsPayload(e, l, e, l')) && Fact(PayloadOk(fs, t, m, k, l', e)) && Fact(TransactionOk(m, lock, k, l', e))
  {
  }

  lemma FailQuiet(w: World, k: Key, cancelled: bool)
    requires Fact(OwnFacts(w, k)) && !Unwinding(w.live[k].pc)
    ensures Fact(Quiet(w, StepFail(w, k, cancelled), k))
  {
    var l, e := w.live[k], w.journal[k];
    var lock := if InTransaction(l.pc) then None else w.manifestLock;
    FailLocal(w.fs, w.trail, w.manifest, lock, k, l, e, cancelled);
    BecomesQuiet(w, StepFail(w, k, cancelled), k, e, Failed(l, cancelled), lock);
  }

  lemma FailKeeps(w: World, k: Key, cancelled: bool)
    requires Fact(Inv(w))
    ensures Fact(Inv(StepFail(w, k, cancelled)))
  {
    if w.mode.Up? && k in w.live && k in w.journal && !Unwinding(w.live[k].pc) {
      FactsOf(w, k);
      FailQuiet(w, k, cancelled);
      QuietKeeps(w, StepFail(w, k, cancelled), k);
    }
  }

  lemma WriteLocal(fs: Files, t: Trail, m: Manifest, lock: Option<Key>, k: Key, l: Live, e: Entry)
    requires Fact(FlagsOk(l, e)) && Writes(l, e) && Fact(TransactionOk(m, lock, k, l, e))
    ensures var l', e' := l.(pc := WrittenPc(l.pc, e.request.policy)), WrittenEntry(k, l, e);
      Fact(FlagsOk(l', e')) && Fact(KeepsPayload(e, l, e', l')) && Fact(TransactionOk(m, lock, k, l', e'))
  {
  }

  lemma WritePayload(fs: Files, t: Trail, m: Manifest, k: Key, l: Live, e: Entry)
    requires Fact(FlagsOk(l, e)) && Writes(l, e) && Fact(PayloadOk(fs, t, m, k, l, e))
    ensures Fact(PayloadOk(fs, t, m, k, l.(pc := WrittenPc(l.pc, e.request.policy)), WrittenEntry(k, l, e)))
  {
  }

  /** A written entry differs from the one before in its phase, and in what it records of the backup,
      the payload or the container. */
  lemma WriteEntryOk(fs: Files, t: Trail, m: Manifest, k: Key, l: Live, e: Entry)
    requires Fact(FlagsOk(l, e)) && Writes(l, e) && Fact(PayloadOk(fs, t, m, k, l, e)) && Fact(EntryOk(fs, t, m, k, e))
    ensures Fact(EntryOk(fs, t, m, k, WrittenEntry(k, l, e)))
  {
    if e.status == Active {
      WriteActiveOk(fs, t, m, k, l, e);
    }
  }

  lemma WriteActiveOk(fs: Files, t: Trail, m: Manifest, k: Key, l: Live, e: Entry)
    requires Fact(FlagsOk(l, e)) && Writes(l, e) && Fact(PayloadOk(fs, t, m, k, l, e))
    requires Fact(ActiveOk(fs, t, m, k, e)) && e.status == Active
    ensures Fact(ActiveOk(fs, t, m, k, WrittenEntry(k, l, e)))
  {
  }

  lemma WriteBecomes(w: World, k: Key)
    requires w.mode.Up? && k in w.live && k in w.journal && Writes(w.live[k], w.journal[k]) && w.journal[k].status != RecoveryRequired
    ensures var l, e := w.live[k], w.journal[k];
      Fact(Becomes(w, StepWriteJournal(w, k), k, WrittenEntry(k, l, e), l.(pc := WrittenPc(l.pc, e.request.policy)), w.manifestLock))
  {
  }

  lemma WriteKeepsStatus(k: Key, l: Live, e: Entry)
    requires Fact(FlagsOk(l, e)) && Writes(l, e)
    ensures var e', pc := WrittenEntry(k, l, e), WrittenPc(l.pc, e.request.policy);
      e.status == Active && e'.status == Active && e'.request == e.request && (HoldsPath(pc) ==> HoldsPath(l.pc))
  {
  }

  lemma WriteJournalQuiet(w: World, k: Key)
    requires Fact(OwnFacts(w, k)) && Writes(w.live[k], w.journal[k])
    ensures Fact(Quiet(w, StepWriteJournal(w, k), k))
  {
    var l, e := w.live[k], w.journal[k];
    WriteKeepsStatus(k, l, e);
    WriteLocal(w.fs, w.trail, w.manifest, w.manifestLock, k, l, e);
    WritePayload(w.fs, w.trail, w.manifest, k, l, e);
    WriteEntryOk(w.fs, w.trail, w.manifest, k, l, e);
    WriteBecomes(w, k);
    BecomesQuiet(w, StepWriteJournal(w, k), k, WrittenEntry(k, l, e), l.(pc := WrittenPc(l.pc, e.request.policy)), w.manifestLock);
  }

  lemma WriteJournalKeeps(w: World, k: Key)
    requires Fact(Inv(w))
    ensures Fact(Inv(StepWriteJournal(w, k)))
  {
    if w.mode.Up? && k in w.live && k in w.journal && Writes(w.live[k], w.journal[k]) {
      FactsOf(w, k);
      WriteJournalQuiet(w, k);
      QuietKeeps(w, StepWriteJournal(w, k), k);
    }
  }
}
