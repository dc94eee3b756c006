/** Crashes, startup reconciliation and container sweeps keep the invariant. */
module InstallRecovery {
  import opened Options
  import opened InstallNames
  import opened InstallModel
  import opened InstallMachine
  import opened InstallInvariant
  import opened InstallFrame
  import opened InstallMoves
  import opened InstallRecords

  // ----- sweeping hidden directories -----

  /** Only hidden directories disappeared. */
  ghost predicate Shrunk(fs: Files, t: Trail, fs': Files, t': Trail) {
    && (forall i :: i in t'.loc ==> i in t.loc && t'.loc[i] == t.loc[i])
    && (forall i :: i in t.loc && Visible(t.loc[i]) ==> i in t'.loc)
    && (forall p :: p in fs' ==> p in fs && fs'[p] == fs[p])
    && DiskOk(fs', t')
    && t'.born == t.born && t'.owner == t.owner && t'.projects == t.projects && t'.commits == t.commits
  }

  lemma SweepShrinks(w: World, name: string)
    requires Fact(DiskOk(w.fs, w.trail)) && IsContainerName(name)
    ensures Fact(Shrunk(w.fs, w.trail, Sweep(w, name).fs, Sweep(w, name).trail))
  {
    ContainersAreHidden(name);
  }

  lemma ShrunkEntry(fs: Files, t: Trail, fs': Files, t': Trail, m: Manifest, k: Key, e: Entry)
    requires Fact(DiskOk(fs, t)) && Fact(Shrunk(fs, t, fs', t')) && Fact(EntryOk(fs, t, m, k, e))
    ensures Fact(EntryOk(fs', t', m, k, e))
  {
    assert CommitsOf(t', k) == CommitsOf(t, k);
  }

  lemma ShrunkPayload(fs: Files, t: Trail, fs': Files, t': Trail, m: Manifest, k: Key, l: Live, e: Entry)
    requires Fact(DiskOk(fs, t)) && Fact(Shrunk(fs, t, fs', t')) && Fact(PayloadOk(fs, t, m, k, l, e)) && IsRequest(k, e.request)
    ensures Fact(PayloadOk(fs', t', m, k, l, e))
  {
    assert CommitsOf(t', k) == CommitsOf(t, k);
    NamesAreDisjoint(e.request.folder, k.id, k.id, "");
  }

  lemma ShrunkJournal(w: World, w': World, j: Journal)
    requires Fact(DiskOk(w.fs, w.trail)) && Fact(Shrunk(w.fs, w.trail, w'.fs, w'.trail)) && w'.manifest == w.manifest
    requires Fact(JournalOk(w.fs, w.trail, w.manifest, j))
    ensures Fact(JournalOk(w'.fs, w'.trail, w'.manifest, j))
  {
    forall k | k in j
      ensures EntryOk(w'.fs, w'.trail, w'.manifest, k, j[k])
    {
      ShrunkEntry(w.fs, w.trail, w'.fs, w'.trail, w.manifest, k, j[k]);
    }
    forall i | Seen(w'.trail, i) && i !in w'.trail.projects
      ensures Accounted(w'.trail, j, i)
    {
      assert Seen(w.trail, i);
    }
  }

  lemma ShrunkLives(w: World, w': World)
    requires Fact(DiskOk(w.fs, w.trail)) && Fact(Shrunk(w.fs, w.trail, w'.fs, w'.trail))
    requires w' == w.(fs := w'.fs, trail := w'.trail) && Fact(LiveAllOk(w)) && Fact(UpOk(w)) && Fact(JournalOk(w.fs, w.trail, w.manifest, w.journal))
    ensures Fact(LiveAllOk(w')) && Fact(UpOk(w'))
  {
    ShrunkServed(w, w');
    ShrunkPaths(w, w');
    forall k | k in w'.live
      ensures k in w'.journal && Fact(LiveOk(w', k))
    {
      ShrunkLive(w, w', k);
    }
  }

  lemma ShrunkPaths(w: World, w': World)
    requires w' == w.(fs := w'.fs, trail := w'.trail) && Fact(LiveAllOk(w))
    ensures Fact(PathsExclusive(w'))
  {
    forall k, o | Holder(w', k) && Holder(w', o) && k != o
      ensures w'.journal[k].request.folder != w'.journal[o].request.folder
    {
      assert Holder(w, k) && Holder(w, o);
    }
  }

  lemma ShrunkLive(w: World, w': World, k: Key)
    requires Fact(DiskOk(w.fs, w.trail)) && Fact(Shrunk(w.fs, w.trail, w'.fs, w'.trail))
    requires w' == w.(fs := w'.fs, trail := w'.trail) && k in w.live && k in w.journal && Fact(LiveOk(w, k))
    requires Fact(JournalOk(w.fs, w.trail, w.manifest, w.journal))
    ensures Fact(LiveOk(w', k))
  {
    assert EntryOk(w.fs, w.trail, w.manifest, k, w.journal[k]);
    ShrunkPayload(w.fs, w.trail, w'.fs, w'.trail, w.manifest, k, w.live[k], w.journal[k]);
  }

  lemma ShrunkServed(w: World, w': World)
    requires Fact(Shrunk(w.fs, w.trail, w'.fs, w'.trail)) && w' == w.(fs := w'.fs, trail := w'.trail) && Fact(UpOk(w))
    ensures Fact(UpOk(w'))
  {
    forall i | Seen(w'.trail, i) && i !in w'.trail.projects && i in w'.trail.owner
      ensures Served(w', i)
    {
      assert Seen(w.trail, i) && Served(w, i);
    }
  }

  lemma CommitsSame(w: World, w': World)
    requires Fact(CommitsOk(w.trail, w.journal)) && w'.trail.commits == w.trail.commits && w'.journal == w.journal
    requires w.trail.projects <= w'.trail.projects
    ensures Fact(CommitsOk(w'.trail, w'.journal))
  {
    forall k: Key
      ensures OneCommit(w'.trail, w'.journal, k)
    {
      assert OneCommit(w.trail, w.journal, k);
    }
  }

  lemma SweepKeeps(w: World, name: string)
    requires Fact(Inv(w))
    ensures Fact(Inv(StepSweep(w, name)))
  {
    if !w.mode.Down? && IsContainerName(name) {
      assert Unsealed(0);
      SweepShrinks(w, name);
      SweptInv(w, StepSweep(w, name));
    }
  }

  lemma SweptInv(w: World, w': World)
    requires Fact(Inv(w)) && !w.mode.Down? && w' == w.(fs := w'.fs, trail := w'.trail)
    requires Fact(Shrunk(w.fs, w.trail, w'.fs, w'.trail))
    ensures Fact(Inv(w'))
  {
    assert Unsealed(0);
    CommitsSame(w, w');
    ShrunkJournal(w, w', w.journal);
    if w.mode.Up? {
      ShrunkLives(w, w');
    } else {
      ShrunkJournal(w, w', w.mode.mem);
    }
  }

  // ----- crash -----

  lemma CrashKeeps(w: World)
    requires Fact(Inv(w))
    ensures Fact(Inv(StepCrash(w)))
  {
    assert Unsealed(0);
    CommitsSame(w, StepCrash(w));
  }

  lemma BeginRecoveryKeeps(w: World)
    requires Fact(Inv(w))
    ensures Fact(Inv(StepBeginRecovery(w)))
  {
    assert Unsealed(0);
    CommitsSame(w, StepBeginRecovery(w));
  }

  lemma FinishRecoveryKeeps(w: World)
    requires Fact(Inv(w))
    ensures Fact(Inv(StepFinishRecovery(w)))
  {
    assert Unsealed(0);
    var w' := StepFinishRecovery(w);
    forall k: Key
      ensures OneCommit(w'.trail, w'.journal, k)
    {
      assert OneCommit(w.trail, w.journal, k);
    }
  }

  /** An entry of either journal is fine, so a journal mixed of both is. */
  lemma FlushedJournal(w: World, pull: bool)
    requires Fact(JournalOk(w.fs, w.trail, w.manifest, w.journal)) && w.mode.Recovering? && Fact(RecoveringOk(w))
    ensures Fact(JournalOk(w.fs, w.trail, w.manifest, Flushed(w.journal, w.mode.mem, pull)))
  {
    FlushedVisible(w, pull);
  }

  lemma FlushedVisible(w: World, pull: bool)
    requires w.mode.Recovering? && Fact(VisibleOk(w.trail, w.journal)) && Fact(VisibleOk(w.trail, w.mode.mem))
    ensures Fact(VisibleOk(w.trail, Flushed(w.journal, w.mode.mem, pull)))
  {
    forall i | Seen(w.trail, i) && i !in w.trail.projects
      ensures Accounted(w.trail, Flushed(w.journal, w.mode.mem, pull), i)
    {
      assert Accounted(w.trail, w.journal, i) && Accounted(w.trail, w.mode.mem, i);
    }
  }

  lemma FlushedMode(w: World, pull: bool)
    requires w.mode.Recovering? && Fact(RecoveringOk(w)) && forall k :: k in w.mode.todo ==> k.pull != pull
    ensures Fact(RecoveringOk(w.(journal := Flushed(w.journal, w.mode.mem, pull))))
  {
  }

  lemma FlushedCommits(t: Trail, j: Journal, mem: Journal, pull: bool)
    requires Fact(CommitsOk(t, j))
    ensures Fact(CommitsOk(t, Flushed(j, mem, pull)))
  {
    forall k: Key
      ensures OneCommit(t, Flushed(j, mem, pull), k)
    {
      assert OneCommit(t, j, k);
    }
  }

  lemma FlushedInv(w: World, pull: bool)
    requires w.mode.Recovering? && w.live == map[] && w.manifestLock.None? && forall k :: k in w.mode.todo ==> k.pull != pull
    requires Fact(DiskOk(w.fs, w.trail)) && Fact(ProjectsSafe(w.trail)) && Fact(CommitsOk(w.trail, w.journal))
    requires Fact(JournalOk(w.fs, w.trail, w.manifest, w.journal)) && Fact(RecoveringOk(w))
    ensures Fact(Inv(w.(journal := Flushed(w.journal, w.mode.mem, pull))))
  {
    var w' := w.(journal := Flushed(w.journal, w.mode.mem, pull));
    FlushedJournal(w, pull);
    FlushedMode(w, pull);
    FlushedCommits(w.trail, w.journal, w.mode.mem, pull);
    RecoveringInv(w');
  }

  lemma FlushJournalKeeps(w: World, pull: bool)
    requires Fact(Inv(w))
    ensures Fact(Inv(StepFlushJournal(w, pull)))
  {
    if w.mode.Recovering? && forall k :: k in w.mode.todo ==> k.pull != pull {
      RecoveringParts(w);
      FlushedInv(w, pull);
    }
  }

  lemma RunningServed(w: World, ids: set<string>)
    requires Fact(UpOk(w))
    ensures Fact(UpOk(w.(running := ids)))
  {
    var w' := w.(running := ids);
    forall i | Seen(w'.trail, i) && i !in w'.trail.projects && i in w'.trail.owner
      ensures Served(w', i)
    {
      assert Served(w, i);
    }
  }

  lemma RunningLives(w: World, ids: set<string>)
    requires Fact(LiveAllOk(w))
    ensures Fact(LiveAllOk(w.(running := ids)))
  {
    var w' := w.(running := ids);
    forall k, o | Holder(w', k) && Holder(w', o) && k != o
      ensures w'.journal[k].request.folder != w'.journal[o].request.folder
    {
      assert Holder(w, k) && Holder(w, o);
    }
    assert forall k :: k in w.live ==> LiveOk(w, k);
  }

  lemma SetRunningKeeps(w: World, ids: set<string>)
    requires Fact(Inv(w))
    ensures Fact(Inv(w.(running := ids)))
  {
    assert Unsealed(0);
    CommitsSame(w, w.(running := ids));
    if w.mode.Up? {
      RunningServed(w, ids);
      RunningLives(w, ids);
    }
  }

  // ----- one rename during recovery -----

  /** Projects move to visible places; a half-installed payload moves out of sight. */
  predicate SafeMove(w: World, src: Path, dst: Path)
  {
    && src in w.fs && dst !in w.fs
    && (w.fs[src].ident in w.trail.projects ==> Visible(dst))
    && (w.fs[src].ident !in w.trail.projects ==> !Visible(dst))
  }

  lemma MovedVisible(w: World, src: Path, dst: Path, j: Journal)
    requires Fact(DiskOk(w.fs, w.trail)) && SafeMove(w, src, dst) && Fact(JournalOk(w.fs, w.trail, w.manifest, j))
    ensures Fact(JournalOk(Move(w, src, dst).fs, Move(w, src, dst).trail, w.manifest, j))
  {
    var w' := Move(w, src, dst);
    forall k | k in j
      ensures EntryOk(w'.fs, w'.trail, w'.manifest, k, j[k])
    {
      MovedEntry(w.fs, w.trail, w.manifest, k, j[k], src, dst);
    }
    forall i | Seen(w'.trail, i) && i !in w'.trail.projects
      ensures Accounted(w'.trail, j, i)
    {
      assert Seen(w.trail, i);
    }
  }

  lemma MoveKeeps(w: World, src: Path, dst: Path)
    requires Fact(Inv(w)) && w.mode.Recovering? && SafeMove(w, src, dst)
    ensures Fact(Inv(Move(w, src, dst)))
  {
    assert Unsealed(0);
    var w' := Move(w, src, dst);
    MovedDisk(w.fs, w.trail, src, dst);
    MovedProjects(w.fs, w.trail, src, dst);
    MovedVisible(w, src, dst, w.journal);
    MovedVisible(w, src, dst, w.mode.mem);
    CommitsSame(w, w');
  }

  // ----- one verdict -----

  lemma SettledJournal(w: World, w': World, k: Key, e: Entry, j: Journal)
    requires Fact(JournalOk(w.fs, w.trail, w.manifest, j)) && Fact(EntryOk(w.fs, w.trail, w.manifest, k, e)) && k in j
    requires w'.fs == w.fs && w'.trail == w.trail && w'.manifest == w.manifest
    requires e.status == RecoveryRequired || NothingShown(w.trail, k)
    ensures Fact(JournalOk(w'.fs, w'.trail, w'.manifest, j[k := e]))
  {
    forall i | Seen(w.trail, i) && i !in w.trail.projects
      ensures Accounted(w.trail, j[k := e], i)
    {
      assert Accounted(w.trail, j, i);
    }
  }

  lemma SettledMode(w: World, k: Key, e: Entry)
    requires w.mode.Recovering? && Fact(RecoveringOk(w)) && k in w.mode.todo && k in w.mode.mem
    requires e.status != Active && Fact(EntryOk(w.fs, w.trail, w.manifest, k, e))
    requires e.status == RecoveryRequired || NothingShown(w.trail, k)
    ensures Fact(RecoveringOk(Settle(w, k, e)))
  {
    SettledTodo(w, k, e);
    MemOk(w);
    SettledJournal(w, Settle(w, k, e), k, e, w.mode.mem);
  }

  lemma MemOk(w: World)
    requires w.mode.Recovering? && Fact(RecoveringOk(w))
    ensures Fact(JournalOk(w.fs, w.trail, w.manifest, w.mode.mem))
  {
  }

  lemma SettledTodo(w: World, k: Key, e: Entry)
    requires w.mode.Recovering? && Fact(RecoveringOk(w)) && k in w.mode.todo && k in w.mode.mem && e.status != Active
    ensures var m := Settle(w, k, e).mode;
      && m.mem.Keys == w.journal.Keys
      && (forall o :: o in m.todo <==> o in m.mem && m.mem[o].status == Active)
      && (forall o :: o in m.todo ==> m.mem[o] == w.journal[o])
  {
  }

  lemma RecoveringInv(w: World)
    requires w.mode.Recovering? && w.live == map[] && w.manifestLock.None?
    requires Fact(DiskOk(w.fs, w.trail)) && Fact(ProjectsSafe(w.trail)) && Fact(CommitsOk(w.trail, w.journal))
    requires Fact(JournalOk(w.fs, w.trail, w.manifest, w.journal)) && Fact(RecoveringOk(w))
    ensures Fact(Inv(w))
  {
  }

  lemma RecoveringParts(w: World)
    requires Fact(Inv(w)) && w.mode.Recovering?
    ensures w.live == map[] && w.manifestLock.None?
    ensures Fact(DiskOk(w.fs, w.trail)) && Fact(ProjectsSafe(w.trail)) && Fact(CommitsOk(w.trail, w.journal))
    ensures Fact(JournalOk(w.fs, w.trail, w.manifest, w.journal)) && Fact(RecoveringOk(w))
  {
    assert Unsealed(0);
  }

  lemma SettleKeeps(w: World, k: Key, e: Entry)
    requires Fact(Inv(w)) && w.mode.Recovering? && k in w.mode.todo && k in w.mode.mem
    requires e.status != Active && Fact(EntryOk(w.fs, w.trail, w.manifest, k, e))
    requires e.status == RecoveryRequired || NothingShown(w.trail, k)
    ensures Fact(Inv(Settle(w, k, e)))
  {
    RecoveringParts(w);
    SettledMode(w, k, e);
    RecoveringInv(Settle(w, k, e));
  }

  /** What recovery knows of an entry it has not decided yet. */
  ghost predicate Undecided(w: World, k: Key, e: Entry) {
    && EntryOk(w.fs, w.trail, w.manifest, k, e) && e.status == Active && OneCommit(w.trail, w.journal, k)
    && (forall i :: Seen(w.trail, i) && i !in w.trail.projects && Mine(w.trail, k, i) ==>
          e.installedIdent == Some(i) && w.trail.loc[i] == Target(e.request) && InstallPhase(e.phase))
  }

  lemma UndecidedOf(w: World, k: Key)
    requires Fact(Inv(w)) && w.mode.Recovering? && k in w.mode.todo && k in w.mode.mem
    ensures Fact(Undecided(w, k, w.mode.mem[k])) && Fact(DiskOk(w.fs, w.trail)) && Fact(ProjectsSafe(w.trail))
  {
    assert Unsealed(0);
    forall i | Seen(w.trail, i) && i !in w.trail.projects && Mine(w.trail, k, i)
      ensures var e := w.mode.mem[k];
        e.installedIdent == Some(i) && w.trail.loc[i] == Target(e.request) && InstallPhase(e.phase)
    {
      assert Accounted(w.trail, w.mode.mem, i);
    }
    assert OneCommit(w.trail, w.journal, k);
  }

  /** A payload that is already a project is never judged retryable, rolled back or quarantined. */
  lemma RollbackSparesProjects(w: World, k: Key, e: Entry)
    requires Fact(Undecided(w, k, e)) && Fact(DiskOk(w.fs, w.trail)) && Fact(ProjectsSafe(w.trail))
    requires var v := Decide(w.fs, w.manifest, e); v.Retry? || v.Restore? || v.Quarantine?
    ensures e.installedIdent.Some? ==> e.installedIdent.value !in w.trail.projects
    ensures CommitsOf(w.trail, k) == {}
  {
    if e.installedIdent.Some? && e.installedIdent.value in w.trail.projects {
      var i := e.installedIdent.value;
      assert Named(w.fs, w.trail, i, e.request.dest);
      assert MayBeCommitted(w.manifest, e);
    }
  }

  lemma RolledBackEntry(w: World, k: Key, e: Entry)
    requires Fact(Undecided(w, k, e))
    requires e.installedIdent.Some? ==> e.installedIdent.value !in w.trail.projects
    requires CommitsOf(w.trail, k) == {}
    ensures forall v: Verdict :: v.Retry? || v.Restore? || v.Quarantine? ==>
      Fact(EntryOk(w.fs, w.trail, w.manifest, k, VerdictEntry(v, e)))
  {
  }

  lemma StuckEntryOk(w: World, k: Key, e: Entry)
    requires Fact(Undecided(w, k, e))
    ensures Fact(EntryOk(w.fs, w.trail, w.manifest, k, StuckEntry(e)))
  {
  }

  /** Where nothing was installed, nothing of `k` is in sight. */
  lemma NotShown(w: World, k: Key, e: Entry)
    requires Fact(Undecided(w, k, e)) && Fact(DiskOk(w.fs, w.trail))
    requires !InstallPhase(e.phase) || Target(e.request) !in w.fs
    ensures NothingShown(w.trail, k)
  {
  }

  lemma RecoverStuck(w: World, k: Key)
    requires Fact(Inv(w)) && w.mode.Recovering? && k in w.mode.todo && k in w.mode.mem
    ensures Fact(Inv(Settle(w, k, StuckEntry(w.mode.mem[k]))))
  {
    UndecidedOf(w, k);
    StuckEntryOk(w, k, w.mode.mem[k]);
    SettleKeeps(w, k, StuckEntry(w.mode.mem[k]));
  }

  lemma RecoverRetry(w: World, k: Key)
    requires Fact(Inv(w)) && w.mode.Recovering? && k in w.mode.todo && k in w.mode.mem
    requires Decide(w.fs, w.manifest, w.mode.mem[k]).Retry?
    ensures Fact(Inv(Settle(w, k, VerdictEntry(Retry, w.mode.mem[k]))))
  {
    var e := w.mode.mem[k];
    UndecidedOf(w, k);
    RollbackSparesProjects(w, k, e);
    RolledBackEntry(w, k, e);
    NotShown(w, k, e);
    SettleKeeps(w, k, VerdictEntry(Retry, e));
  }

  // ----- committing -----

  lemma CommitSeen(w: World, k: Key, e: Entry)
    requires Fact(Undecided(w, k, e)) && Fact(DiskOk(w.fs, w.trail)) && Decide(w.fs, w.manifest, e).Commit?
    ensures e.installedIdent.Some? && Seen(w.trail, e.installedIdent.value) && Mine(w.trail, k, e.installedIdent.value)
    ensures InstallPhase(e.phase) || e.phase.ManifestCommitted? || e.phase.Starting?
    ensures e.request.dest in w.manifest && w.manifest[e.request.dest] == Target(e.request)
  {
    NamesAreDisjoint(e.request.folder, k.id, k.id, "");
  }

  lemma CommittedEntries(w: World, k: Key, i: Ident, o: Key, e: Entry, mine: Entry)
    requires Fact(EntryOk(w.fs, w.trail, w.manifest, o, e)) && Mine(w.trail, k, i)
    requires o == k ==> e == mine
    requires mine.installedIdent == Some(i) && mine.status == Active
    requires InstallPhase(mine.phase) || mine.phase.ManifestCommitted? || mine.phase.Starting?
    requires mine.request.dest in w.manifest && w.manifest[mine.request.dest] == Target(mine.request)
    ensures Fact(EntryOk(w.fs, AddCommit(w.trail, k, i), w.manifest, o, e))
  {
    var t' := AddCommit(w.trail, k, i);
    assert o != k ==> CommitsOf(t', o) == CommitsOf(w.trail, o);
    assert CommitsOf(t', k) == CommitsOf(w.trail, k) + {i};
  }

  lemma CommittedJournal(w: World, k: Key, i: Ident, j: Journal)
    requires Fact(JournalOk(w.fs, w.trail, w.manifest, j)) && Mine(w.trail, k, i) && k in j && j[k].status == Active
    requires j[k].installedIdent == Some(i)
    requires InstallPhase(j[k].phase) || j[k].phase.ManifestCommitted? || j[k].phase.Starting?
    requires j[k].request.dest in w.manifest && w.manifest[j[k].request.dest] == Target(j[k].request)
    ensures Fact(JournalOk(w.fs, AddCommit(w.trail, k, i), w.manifest, j))
  {
    var w' := w.(trail := AddCommit(w.trail, k, i));
    forall o | o in j
      ensures EntryOk(w'.fs, w'.trail, w'.manifest, o, j[o])
    {
      CommittedEntries(w, k, i, o, j[o], j[k]);
    }
    forall x | Seen(w'.trail, x) && x !in w'.trail.projects
      ensures Accounted(w'.trail, j, x)
    {
      assert Seen(w.trail, x) && Accounted(w.trail, j, x);
    }
  }

  lemma CommittedKeeps(w: World, k: Key, i: Ident)
    requires Fact(Inv(w)) && w.mode.Recovering? && k in w.mode.todo && k in w.mode.mem && k in w.journal
    requires w.mode.mem[k] == w.journal[k]
    requires Seen(w.trail, i) && Mine(w.trail, k, i) && w.journal[k].status == Active
    requires w.journal[k].installedIdent == Some(i)
    requires var ph := w.journal[k].phase; InstallPhase(ph) || ph.ManifestCommitted? || ph.Starting?
    requires w.journal[k].request.dest in w.manifest && w.manifest[w.journal[k].request.dest] == Target(w.journal[k].request)
    requires forall x :: x in CommitsOf(w.trail, k) ==> x == i
    ensures Fact(Inv(w.(trail := AddCommit(w.trail, k, i))))
  {
    assert Unsealed(0);
    var w' := w.(trail := AddCommit(w.trail, k, i));
    CommittedJournal(w, k, i, w.journal);
    CommittedJournal(w, k, i, w.mode.mem);
    forall o: Key
      ensures OneCommit(w'.trail, w'.journal, o)
    {
      assert OneCommit(w.trail, w.journal, o);
    }
    assert ProjectsSafe(w'.trail);
  }

  lemma RecoverCommit(w: World, k: Key)
    requires Fact(Inv(w)) && w.mode.Recovering? && k in w.mode.todo && k in w.mode.mem
    requires Decide(w.fs, w.manifest, w.mode.mem[k]).Commit?
    ensures var e := w.mode.mem[k];
      Fact(Inv(Settle(w, k, VerdictEntry(Commit, e)).(trail := AddCommit(w.trail, k, e.installedIdent.GetOr(0)))))
  {
    assert Unsealed(0);
    var e := w.mode.mem[k];
    var i := e.installedIdent.GetOr(0);
    UndecidedOf(w, k);
    CommitSeen(w, k, e);
    assert w.mode.mem[k] == w.journal[k];
    CommittedKeeps(w, k, i);
    var w1 := w.(trail := AddCommit(w.trail, k, i));
    CommitVerdict(w, k, e, i);
    SettleKeeps(w1, k, VerdictEntry(Commit, e));
    assert Settle(w1, k, VerdictEntry(Commit, e)) == Settle(w, k, VerdictEntry(Commit, e)).(trail := w1.trail);
  }

  lemma CommitVerdict(w: World, k: Key, e: Entry, i: Ident)
    requires Fact(Undecided(w, k, e)) && e.installedIdent == Some(i)
    requires e.request.dest in w.manifest && w.manifest[e.request.dest] == Target(e.request)
    ensures var t' := AddCommit(w.trail, k, i);
      && NothingShown(t', k)
      && VerdictEntry(Commit, e).status != Active && VerdictEntry(Commit, e).status != RecoveryRequired
      && Fact(EntryOk(w.fs, t', w.manifest, k, VerdictEntry(Commit, e)))
  {
    assert i in CommitsOf(AddCommit(w.trail, k, i), k);
  }

  // ----- rolling back -----

  lemma RecoverRestore(w: World, k: Key)
    requires Fact(Inv(w)) && w.mode.Recovering? && k in w.mode.todo && k in w.mode.mem
    requires var e := w.mode.mem[k];
      && Decide(w.fs, w.manifest, e).Restore?
      && CanRename(w.fs, InRoot(e.backup.GetOr("")), Target(e.request), e.backupIdent.GetOr(0))
    ensures var e := w.mode.mem[k];
      Fact(Inv(Settle(Move(w, InRoot(e.backup.GetOr("")), Target(e.request)), k, VerdictEntry(Restore, e))))
  {
    var e := w.mode.mem[k];
    var src, dst := InRoot(e.backup.GetOr("")), Target(e.request);
    UndecidedOf(w, k);
    RollbackSparesProjects(w, k, e);
    NotShown(w, k, e);
    NamesAreDisjoint(e.request.folder, k.id, k.id, "");
    MoveKeeps(w, src, dst);
    var w1 := Move(w, src, dst);
    UndecidedOf(w1, k);
    RolledBackEntry(w1, k, e);
    StillNotShown(w, k, src, dst);
    SettleKeeps(w1, k, VerdictEntry(Restore, e));
  }

  lemma StillNotShown(w: World, k: Key, src: Path, dst: Path)
    requires Fact(DiskOk(w.fs, w.trail)) && SafeMove(w, src, dst) && NothingShown(w.trail, k)
    ensures NothingShown(Move(w, src, dst).trail, k)
  {
    var t' := Move(w, src, dst).trail;
    forall i | Seen(t', i) && i !in t'.projects
      ensures !Mine(t', k, i)
    {
      assert Seen(w.trail, i);
    }
  }

  /** Moving the half-installed target aside: afterwards nothing of `k` is in sight. */
  lemma QuarantineMove(w: World, k: Key)
    requires Fact(Inv(w)) && w.mode.Recovering? && k in w.mode.todo && k in w.mode.mem
    requires var e := w.mode.mem[k];
      && Decide(w.fs, w.manifest, e).Quarantine?
      && CanRename(w.fs, Target(e.request), InRoot(QuarantineName(k.id)), e.installedIdent.GetOr(0))
    ensures var e := w.mode.mem[k];
      var w1 := Move(w, Target(e.request), InRoot(QuarantineName(k.id)));
      && Fact(Inv(w1)) && NothingShown(w1.trail, k)
      && (e.installedIdent.Some? ==> e.installedIdent.value !in w1.trail.projects) && CommitsOf(w1.trail, k) == {}
  {
    var e := w.mode.mem[k];
    var src, dst := Target(e.request), InRoot(QuarantineName(k.id));
    UndecidedOf(w, k);
    RollbackSparesProjects(w, k, e);
    NamesAreDisjoint(e.request.folder, k.id, k.id, "");
    MoveKeeps(w, src, dst);
    QuarantineHides(w, k, e, src, dst);
  }

  lemma QuarantineHides(w: World, k: Key, e: Entry, src: Path, dst: Path)
    requires Fact(DiskOk(w.fs, w.trail)) && Fact(Undecided(w, k, e)) && src == Target(e.request)
    requires src in w.fs && !Visible(dst)
    ensures NothingShown(Move(w, src, dst).trail, k)
    ensures CommitsOf(Move(w, src, dst).trail, k) == CommitsOf(w.trail, k)
  {
    var t' := Move(w, src, dst).trail;
    forall i | Seen(t', i) && i !in t'.projects
      ensures !Mine(t', k, i)
    {
      assert Seen(w.trail, i);
    }
  }

  lemma QuarantineRest(w: World, k: Key, e: Entry)
    requires Fact(Inv(w)) && w.mode.Recovering? && k in w.mode.todo && k in w.mode.mem && e == w.mode.mem[k]
    requires NothingShown(w.trail, k) && CommitsOf(w.trail, k) == {}
    requires e.installedIdent.Some? ==> e.installedIdent.value !in w.trail.projects
    ensures Fact(Inv(Settle(w, k, VerdictEntry(Quarantine, e))))
  {
    UndecidedOf(w, k);
    RolledBackEntry(w, k, e);
    SettleKeeps(w, k, VerdictEntry(Quarantine, e));
  }

  lemma QuarantineRestore(w: World, k: Key, e: Entry)
    requires Fact(Inv(w)) && w.mode.Recovering? && k in w.mode.todo && k in w.mode.mem && e == w.mode.mem[k]
    requires NothingShown(w.trail, k) && CommitsOf(w.trail, k) == {}
    requires e.installedIdent.Some? ==> e.installedIdent.value !in w.trail.projects
    requires e.backup.Some? && e.backupIdent.Some?
    requires CanRename(w.fs, InRoot(e.backup.value), Target(e.request), e.backupIdent.value)
    ensures Fact(Inv(Settle(Move(w, InRoot(e.backup.value), Target(e.request)), k, VerdictEntry(Quarantine, e))))
  {
    var src, dst := InRoot(e.backup.value), Target(e.request);
    UndecidedOf(w, k);
    NamesAreDisjoint(e.request.folder, k.id, k.id, "");
    MoveKeeps(w, src, dst);
    StillNotShown(w, k, src, dst);
    var w1 := Move(w, src, dst);
    assert CommitsOf(w1.trail, k) == CommitsOf(w.trail, k);
    QuarantineRest(w1, k, e);
  }

  lemma AfterQuarantineKeeps(w: World, k: Key, e: Entry, fault: Fault)
    requires Fact(Inv(w)) && w.mode.Recovering? && k in w.mode.todo && k in w.mode.mem && e == w.mode.mem[k]
    requires NothingShown(w.trail, k) && CommitsOf(w.trail, k) == {}
    requires e.installedIdent.Some? ==> e.installedIdent.value !in w.trail.projects
    requires e.backup.Some? ==> e.backupIdent.Some?
    ensures Fact(Inv(AfterQuarantine(w, k, e, fault)))
  {
    if e.backup.None? {
      QuarantineRest(w, k, e);
    } else if fault.BetweenMoves? || !CanRename(w.fs, InRoot(e.backup.value), Target(e.request), e.backupIdent.GetOr(0)) {
      RecoverStuck(w, k);
    } else {
      QuarantineRestore(w, k, e);
    }
  }

  lemma RecoverQuarantine(w: World, k: Key, fault: Fault)
    requires Fact(Inv(w)) && w.mode.Recovering? && k in w.mode.todo && k in w.mode.mem
    requires Decide(w.fs, w.manifest, w.mode.mem[k]).Quarantine? && !fault.BeforeMoves?
    ensures Fact(Inv(StepRecover(w, k, fault)))
  {
    var e := w.mode.mem[k];
    var target, quarantine := Target(e.request), InRoot(QuarantineName(k.id));
    if !CanRename(w.fs, target, quarantine, e.installedIdent.GetOr(0)) {
      RecoverStuck(w, k);
    } else {
      QuarantineMove(w, k);
      AfterQuarantineKeeps(Move(w, target, quarantine), k, e, fault);
    }
  }

  lemma RecoverKeeps(w: World, k: Key, fault: Fault)
    requires Fact(Inv(w))
    ensures Fact(Inv(StepRecover(w, k, fault)))
  {
    if w.mode.Recovering? && k in w.mode.todo && k in w.mode.mem {
      var e := w.mode.mem[k];
      var v := Decide(w.fs, w.manifest, e);
      if fault.BeforeMoves? && !NeverMovedTarget(e.phase) {
        RecoverStuck(w, k);
      } else {
        match v
        case Retry => RecoverRetry(w, k);
        case Stuck => RecoverStuck(w, k);
        case Commit => RecoverCommit(w, k);
        case Restore =>
          if CanRename(w.fs, InRoot(e.backup.GetOr("")), Target(e.request), e.backupIdent.GetOr(0)) {
            RecoverRestore(w, k);
          } else {
            RecoverStuck(w, k);
          }
        case Quarantine => RecoverQuarantine(w, k, fault);
      }
    }
  }

  lemma RecoverTornKeeps(w: World, k: Key)
    requires Fact(Inv(w))
    ensures Fact(Inv(StepRecoverTorn(w, k)))
  {
    if w.mode.Recovering? && k in w.mode.todo && k in w.mode.mem {
      var e := w.mode.mem[k];
      var target, quarantine := Target(e.request), InRoot(QuarantineName(k.id));
      if && Decide(w.fs, w.manifest, e).Quarantine?
         && CanRename(w.fs, target, quarantine, e.installedIdent.GetOr(0))
      {
        QuarantineMove(w, k);
        CrashKeeps(Move(w, target, quarantine));
      }
    }
  }
}
