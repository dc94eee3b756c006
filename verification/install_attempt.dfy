/** The verdict of an attempt, and exactly what the attempt left on disk and in the manifest, while any
    number of other transfers interleave with it. */
module InstallAttempt {
  import opened Options
  import opened InstallNames
  import opened InstallModel
  import opened InstallMachine
  import opened InstallInvariant
  import opened InstallSteps
  import opened InstallMoves
  import opened InstallRecords
  import opened InstallSafety
  import opened InstallTracking
  import opened InstallBackups
  import opened InstallRestore

  // ----- what an attempt leaves -----

  /** Everything an operator can see is as it was - or the old project, moved away but not yet bound, stays
      at the backup path - and the manifest too, unless it was saved by a call that failed. */
  ghost predicate PutBack(w0: World, w: World, k: Key, rq: Request, l: Live, late: bool) {
    var target, backup := Target(rq), Backup(k, rq);
    && (!l.backedUp ==> SameInSight(w0.fs, w.fs))
    && (l.backedUp ==>
          && !l.backupBound && target in w0.fs && w0.fs[target].ident == l.origin
          && target !in w.fs && backup !in w0.fs && backup in w.fs && w.fs[backup] == w0.fs[target]
          && (forall p :: Visible(p) && p != target && p != backup ==> SameAt(w0.fs, w.fs, p)))
    && w.manifest == if late then w0.manifest[rq.dest := target] else w0.manifest
  }

  /** The payload, named after the destination, is at the target, the project it replaced at the backup path,
      all else in sight untouched, and the manifest extended by exactly this project. */
  ghost predicate PutIn(w0: World, w: World, k: Key, rq: Request, l: Live) {
    var target, backup := Target(rq), Backup(k, rq);
    && Holds(w.fs, target, Some(l.stage)) && w.fs[target].project == Some(rq.dest)
    && (rq.policy.Replace? ==> target in w0.fs && backup !in w0.fs && backup in w.fs && w.fs[backup] == w0.fs[target])
    && (!rq.policy.Replace? ==> target !in w0.fs && SameAt(w0.fs, w.fs, backup))
    && (forall p :: Visible(p) && p != target && p != backup ==> SameAt(w0.fs, w.fs, p))
    && w.manifest == w0.manifest[rq.dest := target]
  }

  /** What one attempt left behind, by its verdict. */
  ghost predicate Outcome(w0: World, w: World, k: Key, rq: Request, l: Live, late: bool)
    requires k in w.journal
  {
    var status := w.journal[k].status;
    && (status == Error || status == Cancelled ==> PutBack(w0, w, k, rq, l, late))
    && (status == Complete || status == AppliedPendingStart ==> PutIn(w0, w, k, rq, l))
    && (status == RecoveryRequired <==> l.rollbackFailed)
    && status != Active
  }

  lemma FailedIsPutBack(w0: World, w: World, k: Key, rq: Request, late: bool)
    requires Fact(Solo(w0, w, k, rq, late)) && Fact(OwnFacts(w, k)) && Fact(Tracked(w, k))
    requires w.live[k].pc.Reporting? && !w.live[k].committed && !w.live[k].rollbackFailed
    ensures Fact(PutBack(w0, w, k, rq, w.live[k], late))
  {
    NamesAreDisjoint(rq.folder, k.id, k.id, "");
  }

  lemma CommittedIsPutIn(w0: World, w: World, k: Key, rq: Request, late: bool)
    requires Fact(Solo(w0, w, k, rq, late)) && Fact(OwnFacts(w, k)) && Fact(Tracked(w, k)) && Fact(DiskOk(w.fs, w.trail))
    requires w.live[k].committed
    ensures Fact(PutIn(w0, w, k, rq, w.live[k]))
  {
    NamesAreDisjoint(rq.folder, k.id, k.id, "");
  }

  /** The status of the last journal write. */
  lemma ReportStatus(w: World, k: Key)
    requires Fact(OwnFacts(w, k)) && At(w, k, Reporting)
    ensures var w', l := StepReport(w, k), w.live[k];
      && k in w'.journal && w'.fs == w.fs && w'.manifest == w.manifest
      && w'.journal[k].status == if l.rollbackFailed then RecoveryRequired else ReportEntry(w.journal[k], l).status
  {
  }

  lemma ReportOutcome(w0: World, w: World, k: Key, rq: Request, late: bool)
    requires Fact(Solo(w0, w, k, rq, late)) && Fact(OwnFacts(w, k)) && Fact(Tracked(w, k)) && Fact(DiskOk(w.fs, w.trail))
    requires At(w, k, Reporting)
    ensures k in StepReport(w, k).journal && Fact(Outcome(w0, StepReport(w, k), k, rq, w.live[k], late))
  {
    ReportStatus(w, k);
    if w.live[k].committed {
      CommittedIsPutIn(w0, w, k, rq, late);
    } else if !w.live[k].rollbackFailed {
      FailedIsPutBack(w0, w, k, rq, late);
    }
  }

  lemma ReceiptOutcome(w0: World, w: World, k: Key, rq: Request, late: bool)
    requires Fact(Solo(w0, w, k, rq, late)) && Fact(OwnFacts(w, k)) && Fact(Tracked(w, k)) && Fact(DiskOk(w.fs, w.trail))
    requires AtReceipt(w, k)
    ensures k in StepSaveReceipt(w, k).journal && Fact(Outcome(w0, StepSaveReceipt(w, k), k, rq, w.live[k], late))
  {
    CommittedAtReceipt(w, k);
    CommittedIsPutIn(w0, w, k, rq, late);
    var w' := StepSaveReceipt(w, k);
    assert w'.journal[k].status == Complete && w'.fs == w.fs && w'.manifest == w.manifest;
  }

  lemma CommittedAtReceipt(w: World, k: Key)
    requires Fact(OwnFacts(w, k)) && AtReceipt(w, k)
    ensures w.live[k].committed && !w.live[k].rollbackFailed
  {
  }

  lemma SoloConcludes(w0: World, w: World, k: Key, rq: Request, late: bool)
    requires Fact(SoloOk(w0, w, k, rq, late))
    ensures At(w, k, Reporting) ==> k in StepReport(w, k).journal && Fact(Outcome(w0, StepReport(w, k), k, rq, w.live[k], late))
    ensures AtReceipt(w, k) ==> k in StepSaveReceipt(w, k).journal && Fact(Outcome(w0, StepSaveReceipt(w, k), k, rq, w.live[k], late))
  {
    FactsOf(w, k);
    DiskOf(w);
    KnownConcludes(w0, w, k, rq, late);
  }

  lemma KnownConcludes(w0: World, w: World, k: Key, rq: Request, late: bool)
    requires Fact(Solo(w0, w, k, rq, late)) && Fact(OwnFacts(w, k)) && Fact(Tracked(w, k)) && Fact(DiskOk(w.fs, w.trail))
    ensures At(w, k, Reporting) ==> k in StepReport(w, k).journal && Fact(Outcome(w0, StepReport(w, k), k, rq, w.live[k], late))
    ensures AtReceipt(w, k) ==> k in StepSaveReceipt(w, k).journal && Fact(Outcome(w0, StepSaveReceipt(w, k), k, rq, w.live[k], late))
  {
    if At(w, k, Reporting) {
      ReportOutcome(w0, w, k, rq, late);
    } else if AtReceipt(w, k) {
      ReceiptOutcome(w0, w, k, rq, late);
    }
  }

  // ----- the verdict of an interleaved attempt -----

  lemma OkAfter(start: World, evs: seq<Event>)
    requires Initial(start)
    ensures Fact(AllOk(Run(start, evs)))
  {
    InitialAllOk(start);
    AllRun(start, evs);
  }

  /** In every run, with any number of other transfers taking any steps, whatever fails in the attempt and
      whenever it is cancelled. Between the moment `w1` at which a transfer has the lock of its folder and the
      end of its uninterrupted stretch: `error` and `cancelled` mean that everything an operator can see is
      back as it was - unless the failure struck between the backup rename and the check that follows it, when
      the old project stays under its backup name - and that the manifest is what it was, unless it was saved
      by a call that failed; `complete` and `applied_pending_start` mean that the payload, named after the
      destination, is at the target, the replaced project at the backup path, all else untouched and the
      manifest extended by exactly this project; `recovery_required` appears exactly after a failed rollback. */
  lemma AttemptOutcome(start: World, before: seq<Event>, evs: seq<Event>, k: Key)
    requires Initial(start) && At(Run(start, before), k, AtLocked) && Stretch(Run(start, before), evs, k)
    ensures var w1 := Run(start, before);
      var w, rq, late := Run(w1, evs), w1.journal[k].request, SavedLate(w1, evs, k);
      && (At(w, k, Reporting) ==> Outcome(w1, StepReport(w, k), k, rq, w.live[k], late))
      && (AtReceipt(w, k) ==> Outcome(w1, StepSaveReceipt(w, k), k, rq, w.live[k], late))
  {
    var w1 := Run(start, before);
    OkAfter(start, before);
    HeldThrough(w1, evs, k);
    SoloConcludes(w1, Run(w1, evs), k, w1.journal[k].request, SavedLate(w1, evs, k));
  }

  // ----- an attempt that starts its project -----

  /** Transfer `k` is being served during all of `evs`. */
  predicate StillServed(w: World, evs: seq<Event>, k: Key)
    decreases |evs|
  {
    && k in Run(w, evs).live
    && (evs != [] ==> StillServed(w, evs[..|evs| - 1], k))
  }

  lemma CommittedNext(w: World, ev: Event, k: Key)
    requires Fact(AllOk(w)) && w.mode.Up? && k in w.live && w.live[k].committed && k in Next(w, ev).live
    ensures Next(w, ev).live[k].committed
  {
    if !Waits(w, ev) {
      KnownIn(w, k);
      if ev.Crash? { CrashServesNobody(w, ev); }
      else if Serves(ev) == Some(k) { OwnCommitted(w, ev, k); }
      else { StepForeign(w, ev, k); }
    }
  }

  lemma OwnCommitted(w: World, ev: Event, k: Key)
    requires Fact(Known(w, k)) && k in w.live && w.live[k].committed && Serves(ev) == Some(k) && k in Step(w, ev).live
    ensures Step(w, ev).live[k].committed
  {
    if Saves(ev) || ev.OpenTransaction? { EntryCommitted(w, ev, k); } else { OwnRecord(w, ev, k); }
  }

  lemma EntryCommitted(w: World, ev: Event, k: Key)
    requires (Saves(ev) || ev.OpenTransaction?) && ev.k == k && k in w.live && w.live[k].committed && k in Step(w, ev).live
    ensures Step(w, ev).live[k].committed
  {
    match ev
    case SaveManifest(_) => assert StepSaveManifest(w, k).live[k].committed;
    case SaveManifestLate(_) => assert StepSaveManifestLate(w, k).live[k].committed;
    case OpenTransaction(_) => assert StepOpenTransaction(w, k).live[k].committed;
  }

  lemma {:induction false} StaysCommitted(w: World, evs: seq<Event>, k: Key)
    requires Fact(AllOk(w)) && k in w.live && w.live[k].committed && StillServed(w, evs, k)
    ensures Fact(AllOk(Run(w, evs))) && k in Run(w, evs).live && Run(w, evs).live[k].committed
    decreases |evs|
  {
    AllRun(w, evs);
    if evs != [] {
      StaysCommitted(w, evs[..|evs| - 1], k);
      ServedIsUp(Run(w, evs[..|evs| - 1]), k);
      CommittedNext(Run(w, evs[..|evs| - 1]), evs[|evs| - 1], k);
    }
  }

  lemma ServedIsUp(w: World, k: Key)
    requires Fact(AllOk(w)) && k in w.live
    ensures w.mode.Up? && k in w.journal
  {
    WatchedIn(w, k);
  }

  /** Its last journal write reports the commit. */
  predicate EndsCommitted(w: World, k: Key) {
    && (At(w, k, Reporting) ==> var w' := StepReport(w, k);
          && k in w'.journal
          && w'.journal[k].status == if w.journal[k].request.start then AppliedPendingStart else Complete)
    && (AtReceipt(w, k) ==> var w' := StepSaveReceipt(w, k); k in w'.journal && w'.journal[k].status == Complete)
  }

  lemma CommittedConcludes(w: World, k: Key)
    requires Fact(AllOk(w)) && k in w.live && w.live[k].committed
    ensures EndsCommitted(w, k)
  {
    WatchedIn(w, k);
  }

  /** After the commit the attempt may wait for the start of its project, and others run meanwhile: what it
      put in was in place when it released its locks, and it ends committed whatever fails later. */
  lemma StartedOutcome(start: World, before: seq<Event>, evs: seq<Event>, after: seq<Event>, k: Key)
    requires Initial(start) && At(Run(start, before), k, AtLocked) && Stretch(Run(start, before), evs, k)
    requires At(Run(Run(start, before), evs), k, AtReleased) && StillServed(Run(Run(start, before), evs), after, k)
    ensures var w1 := Run(start, before); var w2 := Run(w1, evs); var w3 := Run(w2, after);
      PutIn(w1, w2, k, w1.journal[k].request, w2.live[k]) && EndsCommitted(w3, k)
  {
    var w1 := Run(start, before);
    var w2 := Run(w1, evs);
    OkAfter(start, before);
    AllRun(w1, evs);
    HeldThrough(w1, evs, k);
    ReleasedIsPutIn(w1, w2, k, w1.journal[k].request, SavedLate(w1, evs, k));
    StaysCommitted(w2, after, k);
    CommittedConcludes(Run(w2, after), k);
  }

  lemma ReleasedIsPutIn(w0: World, w: World, k: Key, rq: Request, late: bool)
    requires Fact(SoloOk(w0, w, k, rq, late)) && At(w, k, AtReleased)
    ensures Fact(PutIn(w0, w, k, rq, w.live[k])) && w.live[k].committed
  {
    FactsOf(w, k);
    DiskOf(w);
    ReleasedIsCommitted(w, k);
    CommittedIsPutIn(w0, w, k, rq, late);
  }

  lemma ReleasedIsCommitted(w: World, k: Key)
    requires Fact(OwnFacts(w, k)) && At(w, k, AtReleased)
    ensures w.live[k].committed
  {
  }

  // ----- an attempt on its own -----

  /** A claim that is granted. */
  predicate Starts(w0: World, k: Key, rq: Request) {
    && w0.mode.Up? && k !in w0.live && IsRequest(k, rq) && MayClaim(w0.journal, k, rq)
    && Admits(w0.fs, w0.manifest, w0.running, rq)
  }

  /** A run of steps of this attempt alone, during all of which it is being served. */
  predicate Undisturbed(w: World, evs: seq<Event>, k: Key)
    decreases |evs|
  {
    && k in Run(w, evs).live
    && (evs != [] ==> Undisturbed(w, evs[..|evs| - 1], k) && Alone(evs[|evs| - 1], k))
  }

  lemma {:induction false} SoloRun(w0: World, k: Key, rq: Request, evs: seq<Event>)
    requires Fact(Inv(w0)) && Starts(w0, k, rq) && Undisturbed(StepClaim(w0, k, rq), evs, k)
    ensures Fact(SoloOk(w0, Run(StepClaim(w0, k, rq), evs), k, rq, SavedLate(StepClaim(w0, k, rq), evs, k)))
    decreases |evs|
  {
    if evs == [] {
      StepKeeps(w0, Claim(k, rq));
      ClaimTracked(w0, k, rq);
      SoloStart(w0, k, rq);
    } else {
      var w1, most := StepClaim(w0, k, rq), evs[..|evs| - 1];
      SoloRun(w0, k, rq, most);
      if !Waits(Run(w1, most), evs[|evs| - 1]) { SoloNext(w0, Run(w1, most), k, rq, SavedLate(w1, most, k), evs[|evs| - 1]); }
    }
  }

  lemma SoloStart(w0: World, k: Key, rq: Request)
    requires Starts(w0, k, rq)
    ensures Fact(Solo(w0, StepClaim(w0, k, rq), k, rq, false))
  {
    NamesAreDisjoint(rq.folder, k.id, k.id, "");
  }


  // ----- the manifest of a failed attempt -----

  predicate ManifestAfter(w0: World, w: World, k: Key, rq: Request, late: bool) {
    k in w.journal && (w.journal[k].status == Error || w.journal[k].status == Cancelled) ==>
      && (rq.policy.Replace? ==> w.manifest == w0.manifest)
      && (!rq.policy.Replace? ==>
            && (w.manifest != w0.manifest <==> late)
            && (late ==> w.manifest == w0.manifest[rq.dest := Target(rq)] && Target(rq) !in w.fs))
  }

  /** The manifest after an attempt that ends in `error` or `cancelled`, in every run: a creating attempt
      changed it if and only if the save failed after it had replaced the file, and then it names a target
      that does not exist; a replacing attempt never changed it. */
  lemma FailedAttemptAndManifest(start: World, before: seq<Event>, evs: seq<Event>, k: Key)
    requires Initial(start) && At(Run(start, before), k, AtLocked) && Stretch(Run(start, before), evs, k)
    requires At(Run(Run(start, before), evs), k, Reporting)
    ensures var w1 := Run(start, before); var w := Run(w1, evs);
      ManifestAfter(w1, StepReport(w, k), k, w1.journal[k].request, SavedLate(w1, evs, k))
  {
    var w1 := Run(start, before);
    OkAfter(start, before);
    HeldThrough(w1, evs, k);
    SoloManifest(w1, Run(w1, evs), k, w1.journal[k].request, SavedLate(w1, evs, k));
  }

  lemma SoloManifest(w0: World, w: World, k: Key, rq: Request, late: bool)
    requires Fact(SoloOk(w0, w, k, rq, late)) && At(w, k, Reporting)
    ensures Fact(ManifestAfter(w0, StepReport(w, k), k, rq, late))
  {
    SoloConcludes(w0, w, k, rq, late);
    RecordOf(w0, w, k, rq, late);
    SavedManifest(w0, StepReport(w, k), k, rq, w.live[k], late);
  }

  /** What the manifest said when the attempt had its lock. */
  predicate FoundManifest(w0: World, rq: Request, l: Live, late: bool) {
    && (late ==> if rq.policy.Replace? then rq.dest in w0.manifest && w0.manifest[rq.dest] == Target(rq)
                 else rq.dest !in w0.manifest && Target(rq) !in w0.fs)
    && (l.backedUp ==> rq.policy.Replace?)
  }

  lemma RecordOf(w0: World, w: World, k: Key, rq: Request, late: bool)
    requires Fact(SoloOk(w0, w, k, rq, late))
    ensures IsRequest(k, rq) && FoundManifest(w0, rq, w.live[k], late)
  {
  }

  lemma SavedManifest(w0: World, w: World, k: Key, rq: Request, l: Live, late: bool)
    requires k in w.journal && Fact(Outcome(w0, w, k, rq, l, late)) && IsRequest(k, rq) && FoundManifest(w0, rq, l, late)
    ensures Fact(ManifestAfter(w0, w, k, rq, late))
  {
    NamesAreDisjoint(rq.folder, k.id, k.id, "");
  }

  lemma SavesGrow(w: World, ev: Event, id: string)
    requires Saves(ev) && At(w, ev.k, AtCommitting) && Fact(OwnFacts(w, ev.k)) && id in w.manifest
    ensures id in Step(w, ev).manifest && Step(w, ev).manifest[id] == w.manifest[id]
  {
  }

  /** No step takes an entry out of the manifest or moves it. */
  lemma StepGrowsManifest(w: World, ev: Event, id: string)
    requires Fact(Inv(w)) && id in w.manifest
    ensures id in Step(w, ev).manifest && Step(w, ev).manifest[id] == w.manifest[id]
  {
    if !Saves(ev) {
      StepGrowsProjects(w, ev);
    } else if At(w, ev.k, AtCommitting) {
      FactsOf(w, ev.k);
      SavesGrow(w, ev, id);
    }
  }

  lemma {:induction false} RunGrowsManifest(w: World, evs: seq<Event>, id: string)
    requires Fact(Inv(w)) && id in w.manifest
    ensures id in Run(w, evs).manifest && Run(w, evs).manifest[id] == w.manifest[id]
    decreases |evs|
  {
    if evs != [] {
      RunGrowsManifest(w, evs[..|evs| - 1], id);
      RunKeeps(w, evs[..|evs| - 1]);
      StepGrowsManifest(Run(w, evs[..|evs| - 1]), evs[|evs| - 1], id);
    }
  }

  lemma LateSaveTakes(w: World, k: Key)
    requires At(w, k, AtCommitting)
    ensures w.journal[k].request.dest in StepSaveManifestLate(w, k).manifest
  {
  }

  lemma TakenBlocks(w: World, o: Key, rq: Request)
    requires !rq.policy.Replace? && rq.dest in w.manifest
    ensures !Admits(w.fs, w.manifest, w.running, rq) && StepClaim(w, o, rq) == w
  {
  }

  /** Once a creating attempt has saved the manifest and failed, no later retry of it is ever admitted,
      in no continuation of the run: the destination id is taken. */
  lemma LateSaveBlocksRetries(w: World, k: Key, evs: seq<Event>, o: Key, rq: Request)
    requires Fact(Inv(w)) && At(w, k, AtCommitting) && !rq.policy.Replace? && rq.dest == w.journal[k].request.dest
    ensures var w' := Run(StepSaveManifestLate(w, k), evs);
      !Admits(w'.fs, w'.manifest, w'.running, rq) && StepClaim(w', o, rq) == w'
  {
    SaveManifestLateKeeps(w, k);
    LateSaveTakes(w, k);
    RunGrowsManifest(StepSaveManifestLate(w, k), evs, rq.dest);
    TakenBlocks(Run(StepSaveManifestLate(w, k), evs), o, rq);
  }

  // ----- the one failure that is reported as an error but not undone -----

  /** A failure between the backup rename and the check right after it: the handlers run to the end,
      move nothing, and report an error. */
  function HandledFailure(w: World, k: Key): World {
    StepReport(StepReleaseLocks(StepRecordRollback(StepUndoBackup(StepUndoInstall(StepFail(w, k, false), k, true), k, true), k), k), k)
  }

  lemma UndoesNothing(w: World, k: Key)
    requires Fact(Watched(w, k)) && At(w, k, AtBackupMoved) && w.journal[k].status == Active
    ensures var w' := StepUndoBackup(StepUndoInstall(StepFail(w, k, false), k, true), k, true);
      && At(w', k, UnwindVerdict) && !w'.live[k].rollbackFailed && !w'.live[k].committed && !w'.live[k].cancelled
      && w'.fs == w.fs && w'.journal == w.journal
  {
    var w1 := StepFail(w, k, false);
    assert w1.live[k] == Failed(w.live[k], false) && w1.fs == w.fs && w1.journal == w.journal;
    var w2 := StepUndoInstall(w1, k, true);
    assert w2.live[k] == w1.live[k].(pc := UnwindBackup) && w2.fs == w.fs && w2.journal == w.journal;
  }

  lemma ReportsError(w: World, k: Key)
    requires At(w, k, UnwindVerdict) && w.journal[k].status == Active
    requires !w.live[k].rollbackFailed && !w.live[k].committed && !w.live[k].cancelled
    ensures var w' := StepReport(StepReleaseLocks(StepRecordRollback(w, k), k), k);
      w'.fs == w.fs && k in w'.journal && w'.journal[k].status == Error && k !in w'.live
  {
    var w1 := StepRecordRollback(w, k);
    assert At(w1, k, Unwound) && w1.live[k] == w.live[k].(pc := Unwound) && w1.journal == w.journal;
  }

  lemma StrandedByLateCheck(w: World, k: Key)
    requires Fact(Watched(w, k)) && At(w, k, AtBackupMoved) && w.journal[k].status == Active
    ensures var w' := HandledFailure(w, k);
      w'.fs == w.fs && k in w'.journal && w'.journal[k].status == Error && k !in w'.live
  {
    UndoesNothing(w, k);
    ReportsError(StepUndoBackup(StepUndoInstall(StepFail(w, k, false), k, true), k, true), k);
  }
}
