/** Where the directories of one transfer are while the event loop runs it: from the moment its manifest
    transaction is open, no other transfer renames anything, so its flags say what lies at its target and at
    its backup path. */
module InstallBackups {
  import opened Options
  import opened InstallNames
  import opened InstallModel
  import opened InstallMachine
  import opened InstallInvariant
  import opened InstallSteps
  import opened InstallMoves
  import opened InstallRecords
  import opened InstallSafety
  import opened InstallTracking

  predicate PlacedAt(fs: Files, k: Key, l: Live, rq: Request) {
    && (InTransaction(l.pc) && rq.policy.Replace? && !l.backedUp ==>
          Holds(fs, Target(rq), Some(l.origin)) && Backup(k, rq) !in fs)
    && (HoldsPath(l.pc) && l.backedUp ==> Holds(fs, Backup(k, rq), Some(l.origin)))
    && (HoldsPath(l.pc) && l.backedUp && !l.installed ==> Target(rq) !in fs)
    && (KnowsPlaces(l.pc) && l.installed ==> Holds(fs, Target(rq), Some(l.stage)))
  }

  predicate Placed(w: World, k: Key) {
    k in w.live && k in w.journal ==> PlacedAt(w.fs, k, w.live[k], w.journal[k].request)
  }

  /** The event loop runs one request at a time. */
  predicate OneAtATime(w: World) {
    forall o, k | o in w.live && k in w.live && Uninterrupted(w.live[o].pc) && Uninterrupted(w.live[k].pc) :: o == k
  }

  /** What is known of a request that is being served. */
  ghost predicate Known(w: World, k: Key) {
    w.mode.Up? && OwnFacts(w, k) && Tracked(w, k) && Placed(w, k)
  }

  // ----- the transfer's own steps -----

  lemma CalmPlaced(w: World, w': World, k: Key)
    requires Fact(SameInSight(w.fs, w'.fs)) && Fact(CalmFor(w, w', k)) && (k in w.live ==> Fact(Known(w, k)))
    ensures Fact(Placed(w', k))
  {
    if k in w'.live && k in w'.journal && k in w.live {
      NamesAreDisjoint(w.journal[k].request.folder, k.id, k.id, "");
    }
  }

  lemma OpenPlaced(w: World, k: Key)
    requires Fact(Known(w, k))
    ensures Fact(Placed(StepOpenTransaction(w, k), k))
  {
    NamesAreDisjoint(w.journal[k].request.folder, k.id, k.id, "");
  }

  lemma BackupPlaced(w: World, k: Key)
    requires Fact(Known(w, k))
    ensures Fact(Placed(StepMoveToBackup(w, k), k))
  {
    NamesAreDisjoint(w.journal[k].request.folder, k.id, k.id, "");
  }

  lemma InstallPlaced(w: World, k: Key)
    requires Fact(Known(w, k))
    ensures Fact(Placed(StepMoveToTarget(w, k), k))
  {
    NamesAreDisjoint(w.journal[k].request.folder, k.id, k.id, "");
  }

  lemma UndoInstallPlaced(w: World, k: Key, ok: bool)
    requires Fact(Known(w, k))
    ensures Fact(Placed(StepUndoInstall(w, k, ok), k))
  {
    NamesAreDisjoint(w.journal[k].request.folder, k.id, k.id, "");
  }

  lemma UndoBackupPlaced(w: World, k: Key, ok: bool)
    requires Fact(Known(w, k))
    ensures Fact(Placed(StepUndoBackup(w, k, ok), k))
  {
    NamesAreDisjoint(w.journal[k].request.folder, k.id, k.id, "");
  }

  lemma MovesPlaced(w: World, ev: Event, k: Key)
    requires Moves(ev) && ev.k == k && k in w.live && Fact(Known(w, k))
    ensures Fact(Placed(Step(w, ev), k))
  {
    match ev
    case OpenTransaction(_) => OpenPlaced(w, k);
    case MoveToBackup(_) => BackupPlaced(w, k);
    case MoveToTarget(_) => InstallPlaced(w, k);
    case UndoInstall(_, ok) => UndoInstallPlaced(w, k, ok);
    case UndoBackup(_, ok) => UndoBackupPlaced(w, k, ok);
  }

  lemma OwnPlaced(w: World, ev: Event, k: Key)
    requires Serves(ev) == Some(k) && w.mode.Up? && Fact(Watched(w, k)) && (k in w.live ==> Fact(Known(w, k)))
    ensures Fact(Placed(Step(w, ev), k))
  {
    if k in w.live && Moves(ev) {
      MovesPlaced(w, ev, k);
    } else if Moves(ev) {
      MovesNeedServing(w, ev);
    } else {
      ForeignStill(w, ev);
      StepTracked(w, ev, k);
      CalmPlaced(w, Step(w, ev), k);
    }
  }

  lemma MovesNeedServing(w: World, ev: Event)
    requires Moves(ev) && ev.k !in w.live
    ensures Step(w, ev) == w
  {
  }

  // ----- the steps of everyone else -----

  /** Without a lock nothing is claimed, and with one either nothing was moved yet, or nobody else moves. */
  lemma ForeignPlaced(w: World, ev: Event, k: Key)
    requires Foreign(ev, k) && w.mode.Up? && !Waits(w, ev) && (k in w.live ==> Fact(Known(w, k)))
    ensures Fact(Placed(Step(w, ev), k))
  {
    StepForeign(w, ev, k);
    if k in w.live && Uninterrupted(w.live[k].pc) {
      assert MovesDirectories(ev) ==> Occupied(w, ev.k);
      ForeignStill(w, ev);
      StillPlaced(w, Step(w, ev), k);
    } else {
      IdlePlaced(w, Step(w, ev), k);
    }
  }

  lemma StillPlaced(w: World, w': World, k: Key)
    requires Fact(LeftAlone(w, w', k)) && Fact(SameInSight(w.fs, w'.fs)) && k in w.live && Fact(Known(w, k))
    ensures Fact(Placed(w', k))
  {
    NamesAreDisjoint(w.journal[k].request.folder, k.id, k.id, "");
  }

  lemma IdlePlaced(w: World, w': World, k: Key)
    requires Fact(LeftAlone(w, w', k)) && (k in w.live ==> Fact(Known(w, k)) && !Uninterrupted(w.live[k].pc))
    ensures Fact(Placed(w', k))
  {
  }

  // ----- one at a time -----

  /** Only its own steps on the event loop take a request into an uninterrupted stretch. */
  predicate Enters(w: World, w': World, o: Key) {
    o in w'.live && Uninterrupted(w'.live[o].pc) ==> o in w.live && Uninterrupted(w.live[o].pc)
  }

  lemma NoEntry(w: World, ev: Event, o: Key)
    requires w.mode.Up? && !(OnLoop(ev) && ev.k == o)
    ensures Fact(Enters(w, Step(w, ev), o))
  {
    if Serves(ev) == Some(o) {
      OwnNoEntry(w, ev, o);
    } else if ev.Crash? {
      CrashServesNobody(w, ev);
    } else {
      StepForeign(w, ev, o);
    }
  }

  lemma OwnNoEntry(w: World, ev: Event, o: Key)
    requires w.mode.Up? && Serves(ev) == Some(o) && !OnLoop(ev)
    ensures Fact(Enters(w, Step(w, ev), o))
  {
  }

  lemma OneStays(w: World, ev: Event)
    requires w.mode.Up? && OneAtATime(w) && !Waits(w, ev)
    ensures OneAtATime(Step(w, ev))
  {
    var w' := Step(w, ev);
    assert OnLoop(ev) ==> !Occupied(w, ev.k);
    forall o, k | o in w'.live && k in w'.live && Uninterrupted(w'.live[o].pc) && Uninterrupted(w'.live[k].pc)
      ensures o == k
    {
      if o != k {
        if !(OnLoop(ev) && ev.k == o) { NoEntry(w, ev, o); }
        if !(OnLoop(ev) && ev.k == k) { NoEntry(w, ev, k); }
      }
    }
  }

  // ----- every step -----

  /** The invariant, the flags of every request, and the places of their directories. */
  ghost predicate AllParts(w: World) {
    Inv(w) && OneAtATime(w) && (forall k :: k in w.live ==> Placed(w, k)) && forall k {:trigger Tracked(w, k)} :: Tracked(w, k)
  }

  /** All of that, sealed: lemmas that only hand it on need not look into it. */
  ghost predicate AllOk(w: World) {
    forall u {:trigger Unsealed(u)} :: Unsealed(u) ==> AllParts(w)
  }

  lemma Unseal(w: World)
    requires Fact(AllOk(w))
    ensures Fact(Inv(w)) && OneAtATime(w)
  {
    assert Unsealed(0);
  }

  lemma UnsealOne(w: World, k: Key)
    requires Fact(AllOk(w))
    ensures Fact(Tracked(w, k)) && Fact(Placed(w, k))
  {
    assert Unsealed(0);
  }

  lemma Seal(w: World)
    requires Fact(Inv(w)) && OneAtATime(w) && forall k :: Fact(Tracked(w, k)) && Fact(Placed(w, k))
    ensures Fact(AllOk(w))
  {
    forall k: Key
      ensures Tracked(w, k) && Placed(w, k)
    {
      assert Fact(Tracked(w, k)) && Fact(Placed(w, k));
    }
  }

  lemma WatchedIn(w: World, k: Key)
    requires Fact(AllOk(w))
    ensures Fact(Watched(w, k))
  {
    Unseal(w);
    UnsealOne(w, k);
    WatchedOf(w, k);
  }

  lemma KnownIn(w: World, k: Key)
    requires Fact(AllOk(w)) && w.mode.Up? && k in w.live
    ensures Fact(Known(w, k))
  {
    Unseal(w);
    UnsealOne(w, k);
    FactsOf(w, k);
  }

  lemma DiskIn(w: World)
    requires Fact(AllOk(w))
    ensures Fact(DiskOk(w.fs, w.trail)) && Fact(ProjectsSafe(w.trail))
  {
    Unseal(w);
    assert Unsealed(0);
  }

  lemma TrackedNext(w: World, ev: Event, k: Key)
    requires Fact(AllOk(w))
    ensures Fact(Tracked(Step(w, ev), k))
  {
    WatchedIn(w, k);
    StepTracked(w, ev, k);
  }

  lemma PlacedNext(w: World, ev: Event, k: Key)
    requires Fact(AllOk(w)) && w.mode.Up? && !Waits(w, ev)
    ensures Fact(Placed(Step(w, ev), k))
  {
    if k in w.live { KnownIn(w, k); }
    if Serves(ev) == Some(k) {
      WatchedIn(w, k);
      OwnPlaced(w, ev, k);
    } else if ev.Crash? {
      CrashServesNobody(w, ev);
    } else {
      ForeignPlaced(w, ev, k);
    }
  }

  lemma IdleServesNobody(w: World)
    requires Fact(Inv(w)) && !w.mode.Up?
    ensures w.live == map[]
  {
    assert Unsealed(0);
  }

  lemma IdleNext(w: World, ev: Event)
    requires !w.mode.Up? && w.live == map[]
    ensures Step(w, ev).live == map[]
  {
    forall k: Key
      ensures k !in Step(w, ev).live
    {
      IdleStays(w, ev, k);
    }
  }

  lemma AllStep(w: World, ev: Event)
    requires Fact(AllOk(w)) && !Waits(w, ev)
    ensures Fact(AllOk(Step(w, ev)))
  {
    Unseal(w);
    StepKeeps(w, ev);
    if w.mode.Up? {
      OneStays(w, ev);
    } else {
      IdleServesNobody(w);
      IdleNext(w, ev);
    }
    forall k: Key
      ensures Fact(Tracked(Step(w, ev), k)) && Fact(Placed(Step(w, ev), k))
    {
      TrackedNext(w, ev, k);
      if w.mode.Up? { PlacedNext(w, ev, k); }
    }
    Seal(Step(w, ev));
  }

  lemma {:induction false} AllRun(w: World, evs: seq<Event>)
    requires Fact(AllOk(w))
    ensures Fact(AllOk(Run(w, evs)))
    decreases |evs|
  {
    if evs != [] {
      var w1, ev := Run(w, evs[..|evs| - 1]), evs[|evs| - 1];
      AllRun(w, evs[..|evs| - 1]);
      if !Waits(w1, ev) { AllStep(w1, ev); }
    }
  }

  lemma InitialAllOk(w: World)
    requires Initial(w)
    ensures Fact(AllOk(w))
  {
    InitialOk(w);
    Seal(w);
  }

  /** In every state of every run: the invariant, at most one request in an uninterrupted stretch, and the
      directories of every request where its flags say. */
  lemma EveryRun(start: World, evs: seq<Event>, k: Key)
    requires Initial(start)
    ensures var w := Run(start, evs);
      Fact(AllOk(w)) && OneAtATime(w) && (k in w.live ==> w.mode.Up? && k in w.journal && PlacedAt(w.fs, k, w.live[k], w.journal[k].request))
  {
    InitialAllOk(start);
    AllRun(start, evs);
    var w := Run(start, evs);
    Unseal(w);
    WatchedIn(w, k);
    UnsealOne(w, k);
  }
}
