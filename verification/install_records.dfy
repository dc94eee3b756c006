/** The steps of the install protocol that change the journal, the manifest, the set of projects or
    the set of staged directories keep the invariant. */
module InstallRecords {
  import opened Options
  import opened InstallNames
  import opened InstallModel
  import opened InstallMachine
  import opened InstallInvariant
  import opened InstallFrame
  import opened InstallSteps
  import opened InstallMoves

  /** No visible directory is a half-installed payload of `k`. */
  ghost predicate NothingShown(t: Trail, k: Key) {
    forall i :: Seen(t, i) && i !in t.projects ==> !Mine(t, k, i)
  }

  lemma NothingShownOf(w: World, k: Key)
    requires Fact(Inv(w)) && w.mode.Up?
    requires
      || k !in w.journal
      || Settled(w.journal[k].status)
      || (k in w.live && w.journal[k].status == Active && (w.live[k].committed || !w.live[k].installed))
    ensures NothingShown(w.trail, k)
  {
    assert Unsealed(0);
    forall i | Seen(w.trail, i) && i !in w.trail.projects
      ensures !Mine(w.trail, k, i)
    {
      assert Accounted(w.trail, w.journal, i) && Served(w, i);
    }
  }

  // ----- claims, verdicts and pruning -----

  /** Only what is recorded about `k` changes. */
  ghost predicate Restated(w: World, w': World, k: Key) {
    && SameRest(w, w', k)
    && w'.fs == w.fs && w'.manifest == w.manifest && w'.manifestLock == w.manifestLock
    && w'.trail.loc == w.trail.loc && w'.trail.born == w.trail.born
    && w'.trail.owner == w.trail.owner && w'.trail.projects == w.trail.projects
    && !Holder(w', k)
  }

  lemma RestatedKeeps(w: World, w': World, k: Key)
    requires Fact(Inv(w)) && Fact(Restated(w, w', k)) && Fact(OwnOk(w', k))
    ensures Fact(Inv(w'))
  {
    assert Unsealed(0);
    assert ManifestKept(w, w', k);
    assert TrailGrows(w, w', k);
    assert DiskKept(w, w', k);
    Assemble(w, w', k);
  }

  lemma ClaimLocal(fs: Files, t: Trail, m: Manifest, j: Journal, k: Key, rq: Request)
    requires IsRequest(k, rq) && MayClaim(j, k, rq) && NothingShown(t, k)
    requires k in j ==> Fact(EntryOk(fs, t, m, k, j[k]))
    requires k !in j ==> CommitsOf(t, k) == {}
    ensures var e, l := ClaimEntry(j, k, rq), FreshLive(k);
      && Fact(EntryOk(fs, t, m, k, e)) && Fact(FlagsOk(l, e)) && Fact(PayloadOk(fs, t, m, k, l, e))
  {
  }

  lemma ClaimNext(w: World, k: Key, rq: Request)
    requires w.mode.Up? && Fact(OwnOk(w, k)) && k !in w.live && IsRequest(k, rq) && MayClaim(w.journal, k, rq)
             && Admits(w.fs, w.manifest, w.running, rq)
    requires NothingShown(w.trail, k)
    ensures Fact(Restated(w, StepClaim(w, k, rq), k)) && Fact(OwnOk(StepClaim(w, k, rq), k))
  {
    var w' := StepClaim(w, k, rq);
    ClaimLocal(w.fs, w.trail, w.manifest, w.journal, k, rq);
    assert w'.journal[k] == ClaimEntry(w.journal, k, rq) && w'.live[k] == FreshLive(k);
    assert CommitsOf(w'.trail, k) == CommitsOf(w.trail, k);
  }

  lemma ClaimKeeps(w: World, k: Key, rq: Request)
    requires Fact(Inv(w))
    ensures Fact(Inv(StepClaim(w, k, rq)))
  {
    if w.mode.Up? && k !in w.live && IsRequest(k, rq) && MayClaim(w.journal, k, rq)
             && Admits(w.fs, w.manifest, w.running, rq) {
      PartsOfInv(w, k);
      NothingShownOf(w, k);
      ClaimNext(w, k, rq);
      RestatedKeeps(w, StepClaim(w, k, rq), k);
    }
  }

  lemma StartAppliedNext(w: World, k: Key, ok: bool)
    requires w.mode.Up? && Fact(OwnOk(w, k)) && EligibleForStart(w, k)
    requires NothingShown(w.trail, k)
    ensures Fact(Restated(w, StepStartApplied(w, k, ok), k)) && Fact(OwnOk(StepStartApplied(w, k, ok), k))
  {
    assert CommitsOf(StepStartApplied(w, k, ok).trail, k) == CommitsOf(w.trail, k);
  }

  lemma StartAppliedKeeps(w: World, k: Key, ok: bool)
    requires Fact(Inv(w))
    ensures Fact(Inv(StepStartApplied(w, k, ok)))
  {
    if w.mode.Up? && EligibleForStart(w, k) {
      PartsOfInv(w, k);
      NothingShownOf(w, k);
      StartAppliedNext(w, k, ok);
      RestatedKeeps(w, StepStartApplied(w, k, ok), k);
    }
  }

  lemma ReportLocal(fs: Files, t: Trail, m: Manifest, k: Key, l: Live, e: Entry)
    requires Fact(EntryOk(fs, t, m, k, e)) && Fact(FlagsOk(l, e)) && Fact(PayloadOk(fs, t, m, k, l, e))
    requires l.pc.Reporting? && e.status == Active
    ensures Fact(EntryOk(fs, t, m, k, ReportEntry(e, l)))
    ensures l.committed || !l.installed
  {
  }

  lemma ReportNext(w: World, k: Key)
    requires Fact(OwnOk(w, k)) && At(w, k, Reporting)
    requires w.journal[k].status == Active ==> NothingShown(w.trail, k)
    ensures Fact(Restated(w, StepReport(w, k), k)) && Fact(OwnOk(StepReport(w, k), k))
  {
    var w' := StepReport(w, k);
    assert CommitsOf(w'.trail, k) == CommitsOf(w.trail, k);
    if w.journal[k].status == Active {
      ReportLocal(w.fs, w.trail, w.manifest, k, w.live[k], w.journal[k]);
      assert w'.journal[k] == ReportEntry(w.journal[k], w.live[k]);
    } else {
      assert w'.journal == w.journal;
    }
  }

  lemma ReportKeeps(w: World, k: Key)
    requires Fact(Inv(w))
    ensures Fact(Inv(StepReport(w, k)))
  {
    if At(w, k, Reporting) {
      FactsOf(w, k);
      PartsOfInv(w, k);
      if w.journal[k].status == Active {
        ReportLocal(w.fs, w.trail, w.manifest, k, w.live[k], w.journal[k]);
        NothingShownOf(w, k);
      }
      ReportNext(w, k);
      RestatedKeeps(w, StepReport(w, k), k);
    }
  }

  predicate AtReceipt(w: World, k: Key) {
    At(w, k, AtStarted) || (At(w, k, AtReleased) && !Asked(w, k).start)
  }

  lemma SaveReceiptLocal(fs: Files, t: Trail, m: Manifest, k: Key, l: Live, e: Entry)
    requires Fact(EntryOk(fs, t, m, k, e)) && Fact(FlagsOk(l, e)) && Fact(PayloadOk(fs, t, m, k, l, e))
    requires l.pc.AtStarted? || l.pc.AtReleased?
    ensures l.committed && e.status == Active && Fact(EntryOk(fs, t, m, k, ReceiptEntry(e.request, l.started)))
  {
  }

  lemma SaveReceiptNext(w: World, k: Key)
    requires Fact(OwnFacts(w, k)) && Fact(OneCommit(w.trail, w.journal, k)) && AtReceipt(w, k) && NothingShown(w.trail, k)
    ensures Fact(Restated(w, StepSaveReceipt(w, k), k)) && Fact(OwnOk(StepSaveReceipt(w, k), k))
  {
    SaveReceiptLocal(w.fs, w.trail, w.manifest, k, w.live[k], w.journal[k]);
    assert CommitsOf(StepSaveReceipt(w, k).trail, k) == CommitsOf(w.trail, k);
  }

  lemma SaveReceiptKeeps(w: World, k: Key)
    requires Fact(Inv(w))
    ensures Fact(Inv(StepSaveReceipt(w, k)))
  {
    if AtReceipt(w, k) {
      FactsOf(w, k);
      SaveReceiptLocal(w.fs, w.trail, w.manifest, k, w.live[k], w.journal[k]);
      NothingShownOf(w, k);
      CommitOf(w, k);
      SaveReceiptNext(w, k);
      RestatedKeeps(w, StepSaveReceipt(w, k), k);
    }
  }

  lemma CommitOf(w: World, k: Key)
    requires Fact(Inv(w))
    ensures Fact(OneCommit(w.trail, w.journal, k))
  {
    assert Unsealed(0);
    assert OneCommit(w.trail, w.journal, k);
  }

  lemma PruneNext(w: World, k: Key)
    requires w.mode.Up? && Fact(OwnOk(w, k)) && k in w.journal && k !in w.live && Settled(w.journal[k].status)
    requires NothingShown(w.trail, k)
    ensures Fact(Restated(w, StepPrune(w, k), k)) && Fact(OwnOk(StepPrune(w, k), k))
  {
    var w' := StepPrune(w, k);
    forall o | o != k
      ensures CommitsOf(w'.trail, o) == CommitsOf(w.trail, o)
    {
    }
  }

  lemma PruneKeeps(w: World, k: Key)
    requires Fact(Inv(w))
    ensures Fact(Inv(StepPrune(w, k)))
  {
    if w.mode.Up? && k in w.journal && k !in w.live && Settled(w.journal[k].status) {
      PartsOfInv(w, k);
      NothingShownOf(w, k);
      PruneNext(w, k);
      RestatedKeeps(w, StepPrune(w, k), k);
    }
  }

  // ----- the manifest transaction -----

  function WithProject(t: Trail, i: Ident): Trail {
    t.(projects := t.projects + {i})
  }

  lemma OpenReplaceLocal(fs: Files, t: Trail, m: Manifest, k: Key, l: Live, e: Entry, origin: Ident)
    requires Fact(EntryOk(fs, t, m, k, e)) && Fact(FlagsOk(l, e)) && Fact(PayloadOk(fs, t, m, k, l, e))
    requires Fact(PayloadSeen(t, k, l, e)) && l.pc.AtLocked? && e.status == Active && Seen(t, origin)
    requires e.request.policy.Replace? && e.request.dest in m && m[e.request.dest] == Target(e.request)
    ensures var l', t' := l.(pc := AtOpened, snapshot := m, origin := origin), WithProject(t, origin);
      && Fact(EntryOk(fs, t', m, k, e)) && Fact(FlagsOk(l', e)) && Fact(PayloadOk(fs, t', m, k, l', e))
      && Fact(TransactionOk(m, Some(k), k, l', e)) && Fact(PayloadSeen(t', k, l', e))
  {
  }

  /** A visible directory at a locked target is a project, or was left there by a transfer whose
      rollback failed. */
  lemma OriginIsFree(w: World, k: Key, i: Ident)
    requires Fact(Inv(w)) && At(w, k, AtLocked)
    requires Target(Asked(w, k)) in w.fs && i == w.fs[Target(Asked(w, k))].ident
    ensures Seen(w.trail, i)
    ensures i !in w.trail.projects ==>
      && i in w.trail.owner && w.trail.owner[i] in w.journal && w.journal[w.trail.owner[i]].status == RecoveryRequired
  {
    assert Unsealed(0);
    FactsOf(w, k);
    NamesAreDisjoint(Asked(w, k).folder, k.id, k.id, "");
    assert Seen(w.trail, i);
    if i !in w.trail.projects {
      assert Accounted(w.trail, w.journal, i) && Served(w, i);
      var o := w.trail.owner[i];
      if w.journal[o].status == Active {
        assert Holder(w, o) && Holder(w, k);
      }
    }
  }

  lemma OpenReplaceFramed(w: World, k: Key, origin: Ident)
    requires At(w, k, AtLocked) && w.manifestLock.None? && TransactionChecks(w, k) && Fact(DiskOk(w.fs, w.trail))
    requires Asked(w, k).policy.Replace? && origin == w.fs[Target(Asked(w, k))].ident && Seen(w.trail, origin)
    requires origin !in w.trail.projects ==>
      origin in w.trail.owner && w.trail.owner[origin] in w.journal && w.journal[w.trail.owner[origin]].status == RecoveryRequired
    ensures Fact(Framed(w, StepOpenTransaction(w, k), k))
  {
    var w' := StepOpenTransaction(w, k);
    assert SameRest(w, w', k) by {
      forall o ensures CommitsOf(w'.trail, o) == CommitsOf(w.trail, o) {}
    }
    assert TrailGrows(w, w', k);
    assert DiskKept(w, w', k);
  }

  lemma OpenReplaceNext(w: World, k: Key, origin: Ident)
    requires At(w, k, AtLocked) && w.manifestLock.None? && TransactionChecks(w, k) && Fact(DiskOk(w.fs, w.trail))
    requires Asked(w, k).policy.Replace? && origin == w.fs[Target(Asked(w, k))].ident && Seen(w.trail, origin)
    requires w.journal[k].status == Active && Fact(OwnOk(w, k)) && Fact(PayloadSeen(w.trail, k, w.live[k], w.journal[k]))
    requires Fact(ProjectsSafe(w.trail))
    ensures var w' := StepOpenTransaction(w, k);
      Fact(OwnOk(w', k)) && Fact(DiskOk(w'.fs, w'.trail)) && Fact(ProjectsSafe(w'.trail))
  {
    var w' := StepOpenTransaction(w, k);
    OpenReplaceLocal(w.fs, w.trail, w.manifest, k, w.live[k], w.journal[k], origin);
    assert CommitsOf(w'.trail, k) == CommitsOf(w.trail, k);
    ChangedOwn(w, w', k);
  }

  lemma OpenReplaceKeeps(w: World, k: Key)
    requires Fact(Inv(w)) && At(w, k, AtLocked) && w.manifestLock.None? && TransactionChecks(w, k)
    requires Asked(w, k).policy.Replace?
    ensures Fact(Inv(StepOpenTransaction(w, k)))
  {
    assert Unsealed(0);
    var origin := w.fs[Target(Asked(w, k))].ident;
    FactsOf(w, k);
    PartsOfInv(w, k);
    PayloadSeenOf(w, k);
    OriginIsFree(w, k, origin);
    OpenReplaceFramed(w, k, origin);
    OpenReplaceNext(w, k, origin);
    MovedPath(w, StepOpenTransaction(w, k), k);
    Assemble(w, StepOpenTransaction(w, k), k);
  }

  /** The own part of the invariant, put together again. */
  lemma ChangedOwn(w: World, w': World, k: Key)
    requires k in w'.live && k in w'.journal && w'.journal[k].status == Active
    requires Fact(EntryOk(w'.fs, w'.trail, w'.manifest, k, w'.journal[k]))
    requires Fact(LocallyOk(w', k, w'.live[k], w'.journal[k]))
    requires Fact(OneCommit(w.trail, w.journal, k)) && CommitsOf(w'.trail, k) == CommitsOf(w.trail, k)
    requires w.trail.projects <= w'.trail.projects
    ensures Fact(OwnOk(w', k))
  {
    PayloadVisible(w', k);
  }

  lemma OpenFreshQuiet(w: World, k: Key)
    requires Fact(OwnFacts(w, k)) && At(w, k, AtLocked) && w.manifestLock.None? && TransactionChecks(w, k)
    requires !Asked(w, k).policy.Replace?
    ensures Fact(Quiet(w, StepOpenTransaction(w, k), k))
  {
    OpenFreshLocal(w.fs, w.trail, w.manifest, k, w.live[k], w.journal[k]);
    BecomesQuiet(w, StepOpenTransaction(w, k), k, w.journal[k],
                 w.live[k].(pc := AtOpened, snapshot := w.manifest), Some(k));
  }

  lemma OpenTransactionKeeps(w: World, k: Key)
    requires Fact(Inv(w))
    ensures Fact(Inv(StepOpenTransaction(w, k)))
  {
    if At(w, k, AtLocked) && w.manifestLock.None? && TransactionChecks(w, k) {
      if Asked(w, k).policy.Replace? {
        OpenReplaceKeeps(w, k);
      } else {
        FactsOf(w, k);
        OpenFreshQuiet(w, k);
        QuietKeeps(w, StepOpenTransaction(w, k), k);
      }
    }
  }

  lemma OpenFreshLocal(fs: Files, t: Trail, m: Manifest, k: Key, l: Live, e: Entry)
    requires Fact(FlagsOk(l, e)) && Fact(PayloadOk(fs, t, m, k, l, e)) && l.pc.AtLocked?
    requires !e.request.policy.Replace? && e.request.dest !in m
    ensures var l' := l.(pc := AtOpened, snapshot := m);
      && Fact(FlagsOk(l', e)) && Fact(PayloadOk(fs, t, m, k, l', e))
      && Fact(TransactionOk(m, Some(k), k, l', e)) && Fact(KeepsPayload(e, l, e, l'))
  {
  }

  // ----- saving the manifest -----

  /** What a request about to save the manifest knows. */
  ghost predicate Saving(fs: Files, t: Trail, m: Manifest, k: Key, l: Live, e: Entry) {
    && DiskOk(fs, t) && ProjectsSafe(t) && IsRequest(k, e.request) && e.status == Active && l.pc.AtCommitting?
    && EntryOk(fs, t, m, k, e) && FlagsOk(l, e) && PayloadOk(fs, t, m, k, l, e) && TransactionOk(m, Some(k), k, l, e)
  }

  function SavedManifest(l: Live, e: Entry): Manifest {
    l.snapshot[e.request.dest := Target(e.request)]
  }

  lemma SavedEntry(fs: Files, t: Trail, m: Manifest, k: Key, l: Live, e: Entry)
    requires Fact(Saving(fs, t, m, k, l, e))
    ensures Fact(EntryOk(fs, AddCommit(t, k, l.stage), SavedManifest(l, e), k, e))
  {
  }

  lemma SavedPayload(fs: Files, t: Trail, m: Manifest, k: Key, l: Live, e: Entry)
    requires Fact(Saving(fs, t, m, k, l, e))
    ensures var l', t', m' := l.(pc := AtSaved, committed := true), AddCommit(t, k, l.stage), SavedManifest(l, e);
      Fact(FlagsOk(l', e)) && Fact(PayloadOk(fs, t', m', k, l', e)) && Fact(TransactionOk(m', None, k, l', e))
  {
  }

  lemma SavedTrail(fs: Files, t: Trail, m: Manifest, k: Key, l: Live, e: Entry)
    requires Fact(Saving(fs, t, m, k, l, e))
    ensures var t' := AddCommit(t, k, l.stage);
      && Fact(ProjectsSafe(t')) && Fact(DiskOk(fs, t')) && CommitsOf(t', k) == {l.stage} && Mine(t, k, l.stage)
  {
    NamesAreDisjoint(e.request.folder, k.id, k.id, "");
  }

  lemma SaveLateLocal(fs: Files, t: Trail, m: Manifest, lock: Option<Key>, k: Key, l: Live, e: Entry)
    requires Fact(EntryOk(fs, t, m, k, e)) && Fact(FlagsOk(l, e)) && Fact(PayloadOk(fs, t, m, k, l, e))
    requires Fact(TransactionOk(m, Some(k), k, l, e)) && l.pc.AtCommitting?
    ensures var l', m' := l.(pc := UnwindInstall), l.snapshot[e.request.dest := Target(e.request)];
      && Fact(EntryOk(fs, t, m', k, e)) && Fact(FlagsOk(l', e)) && Fact(PayloadOk(fs, t, m', k, l', e))
      && Fact(TransactionOk(m', lock, k, l', e))
      && (forall id :: id in m ==> id in m' && m'[id] == m[id])
  {
  }

  lemma SaveManifestFramed(w: World, k: Key)
    requires Fact(DiskOk(w.fs, w.trail)) && At(w, k, AtCommitting) && Mine(w.trail, k, w.live[k].stage)
    requires Fact(TransactionOk(w.manifest, w.manifestLock, k, w.live[k], w.journal[k]))
    ensures Fact(Framed(w, StepSaveManifest(w, k), k))
  {
    var w' := StepSaveManifest(w, k);
    assert SameRest(w, w', k) by {
      forall o | o != k ensures CommitsOf(w'.trail, o) == CommitsOf(w.trail, o) {}
    }
    assert TrailGrows(w, w', k);
    assert DiskKept(w, w', k);
  }

  lemma SaveManifestOwn(w: World, k: Key)
    requires Fact(DiskOk(w.fs, w.trail)) && Fact(ProjectsSafe(w.trail)) && Fact(OwnFacts(w, k))
    requires At(w, k, AtCommitting) && w.journal[k].status == Active
    requires Fact(PayloadSeen(w.trail, k, w.live[k], w.journal[k]))
    ensures var w' := StepSaveManifest(w, k);
      && Fact(DiskOk(w'.fs, w'.trail)) && Fact(ProjectsSafe(w'.trail)) && Fact(OwnOk(w', k))
      && Mine(w.trail, k, w.live[k].stage)
  {
    var w' := StepSaveManifest(w, k);
    SavedEntry(w.fs, w.trail, w.manifest, k, w.live[k], w.journal[k]);
    SavedPayload(w.fs, w.trail, w.manifest, k, w.live[k], w.journal[k]);
    SavedTrail(w.fs, w.trail, w.manifest, k, w.live[k], w.journal[k]);
    assert PayloadSeen(w'.trail, k, w'.live[k], w'.journal[k]);
    PayloadVisible(w', k);
  }

  lemma SaveManifestKeeps(w: World, k: Key)
    requires Fact(Inv(w))
    ensures Fact(Inv(StepSaveManifest(w, k)))
  {
    assert Unsealed(0);
    if At(w, k, AtCommitting) {
      FactsOf(w, k);
      PartsOfInv(w, k);
      PayloadSeenOf(w, k);
      SaveManifestOwn(w, k);
      SaveManifestFramed(w, k);
      MovedPath(w, StepSaveManifest(w, k), k);
      Assemble(w, StepSaveManifest(w, k), k);
    }
  }

  lemma SaveManifestLateNext(w: World, k: Key)
    requires Fact(DiskOk(w.fs, w.trail)) && Fact(OwnFacts(w, k)) && Fact(OneCommit(w.trail, w.journal, k))
    requires At(w, k, AtCommitting) && w.journal[k].status == Active
    requires Fact(PayloadSeen(w.trail, k, w.live[k], w.journal[k]))
    ensures Fact(Framed(w, StepSaveManifestLate(w, k), k)) && Fact(OwnOk(StepSaveManifestLate(w, k), k))
  {
    var w' := StepSaveManifestLate(w, k);
    SaveLateLocal(w.fs, w.trail, w.manifest, None, k, w.live[k], w.journal[k]);
    assert SameRest(w, w', k);
    assert TrailGrows(w, w', k);
    assert DiskKept(w, w', k);
    PayloadVisible(w', k);
  }

  lemma SaveManifestLateKeeps(w: World, k: Key)
    requires Fact(Inv(w))
    ensures Fact(Inv(StepSaveManifestLate(w, k)))
  {
    assert Unsealed(0);
    if At(w, k, AtCommitting) {
      FactsOf(w, k);
      PartsOfInv(w, k);
      CommitOf(w, k);
      PayloadSeenOf(w, k);
      SaveManifestLateNext(w, k);
      MovedPath(w, StepSaveManifestLate(w, k), k);
      Assemble(w, StepSaveManifestLate(w, k), k);
    }
  }

  // ----- creating staged directories -----

  /** A hidden directory with a new identity appeared; `k` may have become its owner. */
  ghost predicate Created(w: World, w': World, k: Key, p: Path, d: Dir, own: bool, l: Live) {
    && k in w.live && k in w.journal && w.mode.Up? && w'.mode.Up?
    && p !in w.fs && !Visible(p) && d.ident !in w.trail.born
    && w'.fs == w.fs[p := d]
    && w'.trail == w.trail.(loc := w.trail.loc[d.ident := p], born := w.trail.born + {d.ident},
                            owner := if own then w.trail.owner[d.ident := k] else w.trail.owner)
    && w'.manifest == w.manifest && w'.manifestLock == w.manifestLock
    && w'.journal == w.journal && w'.live == w.live[k := l]
  }

  lemma CreatedDisk(w: World, w': World, k: Key, p: Path, d: Dir, own: bool, l: Live)
    requires Fact(Created(w, w', k, p, d, own, l)) && Fact(DiskOk(w.fs, w.trail)) && Fact(ProjectsSafe(w.trail))
    ensures Fact(DiskOk(w'.fs, w'.trail)) && Fact(ProjectsSafe(w'.trail))
  {
  }

  lemma CreatedFramed(w: World, w': World, k: Key, p: Path, d: Dir, own: bool, l: Live)
    requires Fact(Created(w, w', k, p, d, own, l)) && Fact(DiskOk(w.fs, w.trail))
    ensures Fact(Framed(w, w', k))
  {
    assert SameRest(w, w', k) by {
      forall o ensures CommitsOf(w'.trail, o) == CommitsOf(w.trail, o) {}
    }
    assert TrailGrows(w, w', k);
    assert DiskKept(w, w', k);
  }

  /** The two places where a staged directory is created. */
  predicate CreatesAt(l: Live, e: Entry, d: Dir, own: bool, l': Live) {
    && e.status == Active
    && (!own ==> l.pc.AtClaimed? && l' == l.(pc := AtContainer, container := l'.container, containerIdent := d.ident))
    && (own ==> l.pc.AtExtracting? && d.project == Some(e.request.dest) && l' == l.(pc := AtUnpacked, stage := d.ident))
  }

  function CreatedTrail(t: Trail, k: Key, p: Path, i: Ident, own: bool): Trail {
    t.(loc := t.loc[i := p], born := t.born + {i}, owner := if own then t.owner[i := k] else t.owner)
  }

  lemma CreatedEntry(fs: Files, t: Trail, m: Manifest, k: Key, e: Entry, p: Path, d: Dir, own: bool)
    requires Fact(DiskOk(fs, t)) && p !in fs && d.ident !in t.born && Fact(EntryOk(fs, t, m, k, e))
    ensures Fact(EntryOk(fs[p := d], CreatedTrail(t, k, p, d.ident, own), m, k, e))
  {
    assert CommitsOf(CreatedTrail(t, k, p, d.ident, own), k) == CommitsOf(t, k);
  }

  lemma CreatedPayload(fs: Files, t: Trail, m: Manifest, k: Key, l: Live, e: Entry, p: Path, d: Dir, own: bool, l': Live)
    requires Fact(DiskOk(fs, t)) && Fact(ProjectsSafe(t)) && CreatesAt(l, e, d, own, l')
    requires p !in fs && !Visible(p) && d.ident !in t.born
    requires Fact(FlagsOk(l, e)) && Fact(PayloadOk(fs, t, m, k, l, e))
    ensures Fact(FlagsOk(l', e)) && Fact(PayloadOk(fs[p := d], CreatedTrail(t, k, p, d.ident, own), m, k, l', e))
  {
    assert CommitsOf(CreatedTrail(t, k, p, d.ident, own), k) == CommitsOf(t, k);
    CreatedFlags(k, l, e, d, own, l');
    if own { } else { }
  }

  lemma CreatedFlags(k: Key, l: Live, e: Entry, d: Dir, own: bool, l': Live)
    requires CreatesAt(l, e, d, own, l') && Fact(FlagsOk(l, e))
    ensures Fact(FlagsOk(l', e))
  {
  }

  lemma CreatedLocal(fs: Files, t: Trail, m: Manifest, lock: Option<Key>, k: Key, l: Live, e: Entry,
                     p: Path, d: Dir, own: bool, l': Live)
    requires Fact(DiskOk(fs, t)) && CreatesAt(l, e, d, own, l') && p !in fs && !Visible(p) && d.ident !in t.born
    requires Fact(FlagsOk(l, e)) && Fact(PayloadSeen(t, k, l, e))
    ensures var t' := CreatedTrail(t, k, p, d.ident, own);
      Fact(TransactionOk(m, lock, k, l', e)) && Fact(PayloadSeen(t', k, l', e))
  {
    assert forall i :: Seen(CreatedTrail(t, k, p, d.ident, own), i) ==> Seen(t, i);
  }

  lemma CreatedOwn(w: World, w': World, k: Key, p: Path, d: Dir, own: bool, l: Live)
    requires Fact(Created(w, w', k, p, d, own, l)) && Fact(DiskOk(w.fs, w.trail)) && Fact(ProjectsSafe(w.trail))
    requires Fact(OwnFacts(w, k)) && Fact(OneCommit(w.trail, w.journal, k)) && CreatesAt(w.live[k], w.journal[k], d, own, l)
    requires Fact(PayloadSeen(w.trail, k, w.live[k], w.journal[k]))
    ensures Fact(OwnOk(w', k))
  {
    CreatedEntry(w.fs, w.trail, w.manifest, k, w.journal[k], p, d, own);
    CreatedPayload(w.fs, w.trail, w.manifest, k, w.live[k], w.journal[k], p, d, own, l);
    CreatedLocal(w.fs, w.trail, w.manifest, w.manifestLock, k, w.live[k], w.journal[k], p, d, own, l);
    assert CommitsOf(w'.trail, k) == CommitsOf(w.trail, k);
    assert w'.trail == CreatedTrail(w.trail, k, p, d.ident, own);
    PayloadVisible(w', k);
  }

  /** What a step must show for the invariant to be kept. */
  ghost predicate NextOk(w: World, w': World, k: Key) {
    && Framed(w, w', k) && DiskOk(w'.fs, w'.trail) && ProjectsSafe(w'.trail) && OwnOk(w', k) && OwnPath(w', k)
  }

  lemma CreatedNext(w: World, w': World, k: Key, p: Path, d: Dir, own: bool, l: Live)
    requires Fact(Created(w, w', k, p, d, own, l)) && CreatesAt(w.live[k], w.journal[k], d, own, l)
    requires Fact(DiskOk(w.fs, w.trail)) && Fact(ProjectsSafe(w.trail)) && Fact(OwnFacts(w, k))
    requires Fact(OneCommit(w.trail, w.journal, k)) && Fact(OwnPath(w, k))
    requires Fact(PayloadSeen(w.trail, k, w.live[k], w.journal[k]))
    ensures Fact(NextOk(w, w', k))
  {
    CreatedDisk(w, w', k, p, d, own, l);
    CreatedFramed(w, w', k, p, d, own, l);
    CreatedOwn(w, w', k, p, d, own, l);
    CreatedPath(w, w', k, p, d, own, l);
    NextParts(w, w', k);
  }

  lemma CreatedPath(w: World, w': World, k: Key, p: Path, d: Dir, own: bool, l: Live)
    requires Fact(Created(w, w', k, p, d, own, l)) && CreatesAt(w.live[k], w.journal[k], d, own, l) && Fact(OwnPath(w, k))
    ensures Fact(OwnPath(w', k))
  {
    assert SameRest(w, w', k) by {
      forall o ensures CommitsOf(w'.trail, o) == CommitsOf(w.trail, o) {}
    }
    MovedPath(w, w', k);
  }

  lemma NextParts(w: World, w': World, k: Key)
    requires Fact(Framed(w, w', k)) && Fact(DiskOk(w'.fs, w'.trail)) && Fact(ProjectsSafe(w'.trail))
    requires Fact(OwnOk(w', k)) && Fact(OwnPath(w', k))
    ensures Fact(NextOk(w, w', k))
  {
  }

  lemma NextKeeps(w: World, w': World, k: Key)
    requires Fact(Inv(w)) && Fact(NextOk(w, w', k))
    ensures Fact(Inv(w'))
  {
    Assemble(w, w', k);
  }

  /** All that the invariant says about `k`. */
  lemma View(w: World, k: Key)
    requires Fact(Inv(w)) && w.mode.Up? && k in w.live && k in w.journal && w.journal[k].status == Active
    ensures Fact(DiskOk(w.fs, w.trail)) && Fact(ProjectsSafe(w.trail)) && Fact(OwnFacts(w, k))
    ensures Fact(OneCommit(w.trail, w.journal, k)) && Fact(OwnPath(w, k))
    ensures Fact(PayloadSeen(w.trail, k, w.live[k], w.journal[k]))
  {
    assert Unsealed(0);
    FactsOf(w, k);
    PartsOfInv(w, k);
    CommitOf(w, k);
    PayloadSeenOf(w, k);
  }

  lemma MakeContainerKeeps(w: World, k: Key, name: string, ident: Ident)
    requires Fact(Inv(w))
    ensures Fact(Inv(StepMakeContainer(w, k, name, ident)))
  {
    if At(w, k, AtClaimed) && IsContainerName(name) && InRoot(name) !in w.fs && ident !in w.trail.born {
      ActiveAt(w, k);
      View(w, k);
      ContainersAreHidden(name);
      CreatedNext(w, StepMakeContainer(w, k, name, ident), k, InRoot(name), Dir(ident, None), false,
                  w.live[k].(pc := AtContainer, container := name, containerIdent := ident));
      NextKeeps(w, StepMakeContainer(w, k, name, ident), k);
    }
  }

  lemma ActiveAt(w: World, k: Key)
    requires Fact(Inv(w)) && w.mode.Up? && k in w.live && k in w.journal && !w.live[k].pc.Unwound? && !w.live[k].pc.Reporting?
    ensures w.journal[k].status == Active
  {
    assert Unsealed(0);
  }

  lemma UnpackKeeps(w: World, k: Key, ident: Ident)
    requires Fact(Inv(w))
    ensures Fact(Inv(StepUnpack(w, k, ident)))
  {
    if At(w, k, AtExtracting) && ident !in w.trail.born && CanUnpack(w.fs, w.live[k], Asked(w, k)) {
      ActiveAt(w, k);
      View(w, k);
      CreatedNext(w, StepUnpack(w, k, ident), k, InContainer(w.live[k].container, PAYLOAD),
                  Dir(ident, Some(Asked(w, k).dest)), true, w.live[k].(pc := AtUnpacked, stage := ident));
      NextKeeps(w, StepUnpack(w, k, ident), k);
    }
  }
}
