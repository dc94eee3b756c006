/** How long a committed install stays at its target while its transfer waits for the project to start: until
    another transfer replaces that very folder. */
module InstallKept {
  import opened Options
  import opened InstallNames
  import opened InstallModel
  import opened InstallMachine
  import opened InstallInvariant
  import opened InstallSteps
  import opened InstallMoves
  import opened InstallRecords
  import opened InstallSafety
  import opened InstallTracking
  import opened InstallBackups
  import opened InstallRestore
  import opened InstallAttempt

  /** Committed, with the locks given up and the last journal write still to come. */
  predicate Released(l: Live) {
    l.committed && (l.pc.AtReleased? || l.pc.AtStarting? || l.pc.AtStarted? || l.pc.Reporting?)
  }

  /** Transfer `o` has not moved this directory away. */
  predicate HasNot(w: World, o: Key, i: Ident) {
    o in w.live && HoldsPath(w.live[o].pc) && w.live[o].backedUp ==> w.live[o].origin != i
  }

  /** The released transfer `k` has the install `i` at its target `p`, and nobody is about to put it elsewhere. */
  ghost predicate Kept(w: World, k: Key, i: Ident, p: Path) {
    && w.mode.Up? && k in w.live && k in w.journal && Released(w.live[k])
    && w.live[k].stage == i && Target(w.journal[k].request) == p && Visible(p)
    && Holds(w.fs, p, Some(i))
    && forall o :: o != k ==> HasNot(w, o, i)
  }

  /** The step moves what lies at `p` to a backup path, for a transfer whose target `p` is. */
  predicate Replaces(w: World, ev: Event, p: Path) {
    && ev.MoveToBackup? && !Waits(w, ev) && At(w, ev.k, AtBackingUp)
    && Target(w.journal[ev.k].request) == p && w.journal[ev.k].request.policy.Replace?
  }

  predicate Replaced(w: World, evs: seq<Event>, p: Path)
    decreases |evs|
  {
    evs != [] && (Replaced(w, evs[..|evs| - 1], p) || Replaces(Run(w, evs[..|evs| - 1]), evs[|evs| - 1], p))
  }

  // ----- the disk -----

  /** Another transfer, and what it may hold. */
  ghost predicate Other(w: World, o: Key, i: Ident) {
    o in w.live ==> Known(w, o) && HasNot(w, o, i) && (w.live[o].installed ==> w.live[o].stage != i)
  }

  lemma BackupKeeps(w: World, o: Key, i: Ident, p: Path)
    requires Fact(Other(w, o, i)) && Holds(w.fs, p, Some(i))
    requires At(w, o, AtBackingUp) ==> Target(w.journal[o].request) != p
    ensures Holds(StepMoveToBackup(w, o).fs, p, Some(i))
  {
  }

  lemma InstallKeeps(w: World, o: Key, i: Ident, p: Path)
    requires Holds(w.fs, p, Some(i)) && p.InRoot?
    ensures Holds(StepMoveToTarget(w, o).fs, p, Some(i))
  {
  }

  lemma UndoInstallKeeps(w: World, o: Key, ok: bool, i: Ident, p: Path)
    requires Fact(Other(w, o, i)) && Holds(w.fs, p, Some(i))
    ensures Holds(StepUndoInstall(w, o, ok).fs, p, Some(i))
  {
  }

  lemma UndoBackupKeeps(w: World, o: Key, ok: bool, i: Ident, p: Path)
    requires Fact(Other(w, o, i)) && Holds(w.fs, p, Some(i))
    ensures Holds(StepUndoBackup(w, o, ok).fs, p, Some(i))
  {
  }

  lemma MoveKeeps(w: World, ev: Event, i: Ident, p: Path)
    requires MovesDirectories(ev) && Fact(Other(w, ev.k, i)) && Holds(w.fs, p, Some(i)) && p.InRoot? && !Waits(w, ev) && !Replaces(w, ev, p)
    ensures Holds(Step(w, ev).fs, p, Some(i))
  {
    match ev
    case MoveToBackup(o) => BackingUpReplaces(w, o); BackupKeeps(w, o, i, p);
    case MoveToTarget(o) => InstallKeeps(w, o, i, p);
    case UndoInstall(o, ok) => UndoInstallKeeps(w, o, ok, i, p);
    case UndoBackup(o, ok) => UndoBackupKeeps(w, o, ok, i, p);
  }

  lemma BackingUpReplaces(w: World, o: Key)
    requires o in w.live ==> Fact(Known(w, o))
    ensures At(w, o, AtBackingUp) ==> w.journal[o].request.policy.Replace?
  {
  }

  // ----- what others have -----

  lemma CalmHasNot(w: World, w': World, o: Key, i: Ident)
    requires Fact(CalmFor(w, w', o)) && HasNot(w, o, i) && (o in w'.live ==> o in w'.journal)
    ensures HasNot(w', o, i)
  {
  }

  lemma BackupHasNot(w: World, o: Key, i: Ident, p: Path)
    requires Fact(Other(w, o, i)) && Holds(w.fs, p, Some(i)) && Fact(DiskOk(w.fs, w.trail))
    requires At(w, o, AtBackingUp) ==> Target(w.journal[o].request) != p
    ensures HasNot(StepMoveToBackup(w, o), o, i)
  {
  }

  lemma InstallHasNot(w: World, o: Key, i: Ident)
    requires Fact(Other(w, o, i))
    ensures HasNot(StepMoveToTarget(w, o), o, i) && HasNot(StepOpenTransaction(w, o), o, i)
  {
  }

  lemma UndoHasNot(w: World, o: Key, ok: bool, i: Ident)
    requires Fact(Other(w, o, i))
    ensures HasNot(StepUndoInstall(w, o, ok), o, i) && HasNot(StepUndoBackup(w, o, ok), o, i)
  {
  }

  lemma MoveHasNot(w: World, ev: Event, i: Ident)
    requires Moves(ev) && !ev.MoveToBackup? && Fact(Other(w, ev.k, i))
    ensures HasNot(Step(w, ev), ev.k, i)
  {
    match ev
    case OpenTransaction(o) => InstallHasNot(w, o, i);
    case MoveToTarget(o) => InstallHasNot(w, o, i);
    case UndoInstall(o, ok) => UndoHasNot(w, o, ok, i);
    case UndoBackup(o, ok) => UndoHasNot(w, o, ok, i);
  }

  lemma OtherHasNot(w: World, ev: Event, o: Key, k: Key, i: Ident, p: Path)
    requires Fact(AllOk(w)) && Fact(Kept(w, k, i, p)) && !ev.Crash? && !Waits(w, ev) && !Replaces(w, ev, p) && o != k
    ensures HasNot(Step(w, ev), o, i)
  {
    OtherIn(w, o, k, i, p);
    if Serves(ev) != Some(o) {
      StepForeign(w, ev, o);
    } else if ev.MoveToBackup? {
      DiskIn(w);
      BackingUpReplaces(w, o);
      BackupHasNot(w, o, i, p);
    } else if Moves(ev) {
      MoveHasNot(w, ev, i);
    } else {
      WatchedIn(w, o);
      StepTracked(w, ev, o);
      AllStep(w, ev);
      WatchedIn(Step(w, ev), o);
      CalmHasNot(w, Step(w, ev), o, i);
    }
  }

  lemma OtherIn(w: World, o: Key, k: Key, i: Ident, p: Path)
    requires Fact(AllOk(w)) && Fact(Kept(w, k, i, p)) && o != k
    ensures Fact(Other(w, o, i)) && HasNot(w, o, i)
  {
    KnownIn(w, k);
    if o in w.live {
      KnownIn(w, o);
      StagesDiffer(w, o, k);
    }
  }

  lemma StagesDiffer(w: World, o: Key, k: Key)
    requires Fact(Known(w, o)) && Fact(Known(w, k)) && k in w.live && o in w.live && o != k && w.live[k].committed
    ensures w.live[o].installed ==> w.live[o].stage != w.live[k].stage
  {
  }

  // ----- the transfer itself -----

  /** What its own steps leave of a released transfer. */
  ghost predicate StaysReleased(w: World, w': World, k: Key) {
    && k in w.live && k in w.journal && k in w'.live && k in w'.journal && w'.mode.Up?
    && Released(w'.live[k]) && w'.live[k].stage == w.live[k].stage && w'.journal[k].request == w.journal[k].request
  }

  /** A released transfer takes no early step, no rename and no save any more. */
  lemma ReleasedIdles(w: World, ev: Event, k: Key)
    requires k in w.live && Released(w.live[k]) && Serves(ev) == Some(k) && w.mode.Up?
    requires (Early(ev) && !ev.WriteJournal?) || Moves(ev) || Saves(ev) || ev.BindBackup? || ev.RecordRollback? || ev.ReleaseLocks?
    ensures Step(w, ev) == w
  {
  }

  lemma ReleasedWrites(w: World, k: Key)
    requires w.mode.Up? && k in w.live && k in w.journal && Released(w.live[k]) && Fact(FlagsOk(w.live[k], w.journal[k]))
    ensures Fact(StaysReleased(w, StepWriteJournal(w, k), k))
  {
  }

  lemma ReleasedStarts(w: World, k: Key, ok: bool)
    requires w.mode.Up? && k in w.live && k in w.journal && Released(w.live[k])
    ensures Fact(StaysReleased(w, StepStart(w, k, ok), k)) && Fact(StaysReleased(w, StepFail(w, k, ok), k))
  {
  }

  lemma ReleasedEnds(w: World, ev: Event, k: Key)
    requires w.mode.Up? && k in w.live && k in w.journal && Released(w.live[k]) && Serves(ev) == Some(k) && k in Step(w, ev).live
    requires ev.SaveReceipt? || ev.Report? || ev.Prune? || ev.Recover? || ev.RecoverTorn?
    ensures Fact(StaysReleased(w, Step(w, ev), k))
  {
  }

  lemma OwnReleased(w: World, ev: Event, k: Key)
    requires w.mode.Up? && k in w.live && k in w.journal && Released(w.live[k]) && Fact(FlagsOk(w.live[k], w.journal[k]))
    requires Serves(ev) == Some(k) && k in Step(w, ev).live
    ensures Fact(StaysReleased(w, Step(w, ev), k))
  {
    if ev.WriteJournal? { ReleasedWrites(w, k); }
    else if ev.Start? { ReleasedStarts(w, k, ev.ok); }
    else if ev.Fail? { ReleasedStarts(w, k, ev.cancelled); }
    else if ev.SaveReceipt? || ev.Report? || ev.Prune? || ev.Recover? || ev.RecoverTorn? { ReleasedEnds(w, ev, k); }
    else { ReleasedIdles(w, ev, k); }
  }

  // ----- every step -----

  lemma StillReleased(w: World, ev: Event, k: Key, i: Ident, p: Path)
    requires Fact(AllOk(w)) && Fact(Kept(w, k, i, p)) && !ev.Crash? && k in Step(w, ev).live
    ensures Fact(StaysReleased(w, Step(w, ev), k))
  {
    if Serves(ev) == Some(k) {
      WatchedIn(w, k);
      OwnReleased(w, ev, k);
    } else {
      StepForeign(w, ev, k);
    }
  }

  lemma StaysThere(w: World, ev: Event, k: Key, i: Ident, p: Path)
    requires Fact(AllOk(w)) && Fact(Kept(w, k, i, p)) && !Waits(w, ev) && !Replaces(w, ev, p)
    ensures Holds(Step(w, ev).fs, p, Some(i))
  {
    if !MovesDirectories(ev) {
      ForeignStill(w, ev);
    } else if ev.k == k {
      ReleasedIdles(w, ev, k);
    } else {
      OtherIn(w, ev.k, k, i, p);
      MoveKeeps(w, ev, i, p);
    }
  }

  lemma KeptNext(w: World, ev: Event, k: Key, i: Ident, p: Path)
    requires Fact(AllOk(w)) && Fact(Kept(w, k, i, p)) && !ev.Crash? && !Waits(w, ev) && !Replaces(w, ev, p) && k in Step(w, ev).live
    ensures Fact(Kept(Step(w, ev), k, i, p))
  {
    StillReleased(w, ev, k, i, p);
    StaysThere(w, ev, k, i, p);
    forall o: Key | o != k
      ensures HasNot(Step(w, ev), o, i)
    {
      OtherHasNot(w, ev, o, k, i, p);
    }
  }

  lemma KeptFirst(w: World, k: Key)
    requires Fact(AllOk(w)) && At(w, k, AtReleased)
    ensures Fact(Kept(w, k, w.live[k].stage, Target(w.journal[k].request)))
  {
    KnownIn(w, k);
    NamesAreDisjoint(w.journal[k].request.folder, k.id, k.id, "");
    Unseal(w);
    forall o: Key | o != k
      ensures HasNot(w, o, w.live[k].stage)
    {
      if o in w.live { KnownIn(w, o); }
    }
  }

  lemma {:induction false} KeptThrough(w: World, evs: seq<Event>, k: Key)
    requires Fact(AllOk(w)) && At(w, k, AtReleased) && StillServed(w, evs, k) && !Replaced(w, evs, Target(w.journal[k].request))
    ensures Fact(Kept(Run(w, evs), k, w.live[k].stage, Target(w.journal[k].request)))
    decreases |evs|
  {
    if evs == [] {
      KeptFirst(w, k);
    } else {
      var w1, ev := Run(w, evs[..|evs| - 1]), evs[|evs| - 1];
      KeptThrough(w, evs[..|evs| - 1], k);
      AllRun(w, evs[..|evs| - 1]);
      if ev.Crash? { CrashServesNobody(w1, ev); }
      if !Waits(w1, ev) { KeptNext(w1, ev, k, w.live[k].stage, Target(w.journal[k].request)); }
    }
  }

  /** In every run, from the release of its locks to its last journal write, a committed install lies at its
      target, unless another transfer has moved it to a backup path in order to replace that very folder. */
  lemma OnlyAReplacementTakesIt(start: World, before: seq<Event>, evs: seq<Event>, k: Key)
    requires Initial(start) && At(Run(start, before), k, AtReleased) && StillServed(Run(start, before), evs, k)
    ensures var w1 := Run(start, before);
      var target := Target(w1.journal[k].request);
      Holds(Run(w1, evs).fs, target, Some(w1.live[k].stage)) || Replaced(w1, evs, target)
  {
    OkAfter(start, before);
    if !Replaced(Run(start, before), evs, Target(Run(start, before).journal[k].request)) {
      KeptThrough(Run(start, before), evs, k);
    }
  }
}
