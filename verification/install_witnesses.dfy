/** Runs from a fresh host that reach the cases in which a promise of the protocol fails. */
module InstallWitnesses {
  import opened Options
  import opened Strings
  import opened InstallNames
  import opened InstallModel
  import opened InstallMachine
  import opened InstallInvariant
  import opened InstallSafety
  import opened InstallTracking
  import opened InstallBackups
  import opened InstallRestore
  import opened InstallAttempt
  import opened InstallCrash
  import opened InstallScenarios

  // ----- the host of the demonstrations, and the names on it -----

  const T := Key(false, "t")
  const U := Key(false, "u")
  const FOLDER_A := InRoot("a")
  const BACKUP_A := InRoot("a.bak-t")
  const CONTAINER_T := ContainerName("t", "x")
  const CONTAINER_T2 := ContainerName("t", "y")
  const CONTAINER_U := ContainerName("u", "x")
  const REPLACE_P := Request("p", "p", "a", Replace, true, false, "zip")

  /** A request that creates project `q` in a folder. */
  function CreateQ(folder: string): Request {
    Request("q", "q", folder, Reject, false, false, "zip")
  }

  /** A host with one project, `p`, in folder `a`. */
  function Fresh(): World {
    World(map[FOLDER_A := Dir(1, Some("p"))], map["p" := FOLDER_A], {}, map[], map[], None, Up,
          Trail(map[1 := FOLDER_A], {1}, map[], {1}, map[]))
  }

  lemma Names()
    ensures IsRequest(T, REPLACE_P) && IsRequest(T, CreateQ("b")) && IsRequest(U, CreateQ("a.bak-t"))
    ensures Target(REPLACE_P) == FOLDER_A && Backup(T, REPLACE_P) == BACKUP_A
    ensures IsContainerName(CONTAINER_T) && IsContainerName(CONTAINER_T2) && IsContainerName(CONTAINER_U)
    ensures CONTAINER_T != CONTAINER_T2 && CONTAINER_T != CONTAINER_U
  {
    assert 'a' in "a" && 'b' in "b" && 'a' in "a.bak-t" && !IsSpace('a') && !IsSpace('b');
    NamesAreDisjoint("a", "t", "t", "x");
    NamesAreDisjoint("a", "t", "t", "y");
    NamesAreDisjoint("a", "u", "t", "x");
    assert CONTAINER_T[|CONTAINER_T| - 1] == 'x' && CONTAINER_T2[|CONTAINER_T2| - 1] == 'y';
    assert CONTAINER_T[|CONTAINER_PREFIX|] == 't' && CONTAINER_U[|CONTAINER_PREFIX|] == 'u';
  }

  lemma HiddenNames()
    ensures CONTAINER_T[0] == '.' && CONTAINER_T2[0] == '.' && CONTAINER_U[0] == '.' && QuarantineName("t")[0] == '.'
    ensures !IsContainerName(QuarantineName("t"))
  {
    Names();
    NamesAreDisjoint("a", "t", "t", "x");
    NamesAreDisjoint("a", "t", "t", "y");
    NamesAreDisjoint("a", "u", "t", "x");
  }

  /** A replacement right after its backup rename. */
  function Backed(w: World, k: Key, rq: Request, name: string, c: Ident, s: Ident): World {
    PutAside(Readied(w, k, rq, name, c, s), k)
  }

  function BackedLive(m: Manifest, i: Ident, name: string, c: Ident, s: Ident): Live {
    AsideLive(ValidLive(name, c, s), m, i)
  }

  function BackedEntry(k: Key, rq: Request, i: Ident, name: string, c: Ident): Entry {
    AsideEntry(k, ValidEntry(rq, name, c), i)
  }

  lemma BackedIs(w: World, k: Key, rq: Request, name: string, c: Ident, s: Ident, i: Ident)
    requires CanServe(w, k, rq, name, c, s) && NobodyElse(w, k) && rq.policy.Replace?
    requires Target(rq) in w.fs && w.fs[Target(rq)].ident == i && Backup(k, rq) !in w.fs
    ensures Target(rq) in WithPayload(w, k, name, c, s, rq.dest).fs
    ensures Backed(w, k, rq, name, c, s)
      == With(AsideHost(WithPayload(w, k, name, c, s, rq.dest), k, rq, i), k, BackedLive(w.manifest, i, name, c, s), BackedEntry(k, rq, i, name, c))
  {
    VisibleStay(w, k, rq, name, c, s);
    ReadiedIs(w, k, rq, name, c, s);
    PutAsideIs(WithPayload(w, k, name, c, s, rq.dest), k, ValidLive(name, c, s), ValidEntry(rq, name, c), i);
  }

  lemma ReachesBacked(start: World, w: World, k: Key, rq: Request, name: string, c: Ident, s: Ident)
    requires Fact(Ready(start, w, k))
    ensures Fact(Ready(start, Backed(w, k, rq, name, c, s), k))
  {
    ReachesReadied(start, w, k, rq, name, c, s);
    ReachesPutAside(start, Readied(w, k, rq, name, c, s), k);
  }

  // ----- a failed check strands the old project -----

  lemma FreshServes()
    ensures CanServe(Fresh(), T, REPLACE_P, CONTAINER_T, 2, 3) && NobodyElse(Fresh(), T)
    ensures BACKUP_A !in Fresh().fs
  {
    Names();
    HiddenNames();
  }

  /** The transfer reported an error, and the project is not where the manifest says. */
  predicate Stranding(w: World) {
    && w.mode.Up? && w.live == map[] && T in w.journal && w.journal[T].status == Error
    && FOLDER_A !in w.fs && Holds(w.fs, BACKUP_A, Some(1)) && "p" in w.manifest && w.manifest["p"] == FOLDER_A
  }

  /** The host after the backup rename, without the record and the entry of the transfer. */
  function MovedHost(): World {
    Move(Replacing(WithPayload(Fresh(), T, CONTAINER_T, 2, 3, "p"), T, 1), FOLDER_A, BACKUP_A)
  }

  lemma MovedHostIs()
    ensures FOLDER_A !in MovedHost().fs && Holds(MovedHost().fs, BACKUP_A, Some(1))
    ensures MovedHost().live == map[] && MovedHost().journal == map[] && MovedHost().manifest == Fresh().manifest
  {
    Names();
    HiddenNames();
  }

  lemma BackedHost() returns (w: World)
    ensures Fact(Ready(Fresh(), w, T))
    ensures w == With(MovedHost(), T, BackedLive(Fresh().manifest, 1, CONTAINER_T, 2, 3), BackedEntry(T, REPLACE_P, 1, CONTAINER_T, 2))
  {
    FreshServes();
    Names();
    BackedIs(Fresh(), T, REPLACE_P, CONTAINER_T, 2, 3, 1);
    ReadyAtStart(Fresh(), T);
    ReachesBacked(Fresh(), Fresh(), T, REPLACE_P, CONTAINER_T, 2, 3);
    w := Backed(Fresh(), T, REPLACE_P, CONTAINER_T, 2, 3);
  }

  lemma StrandedHost() returns (w: World)
    ensures Fact(Ready(Fresh(), w, T)) && Stranding(w)
  {
    var w1 := BackedHost();
    MovedHostIs();
    FailedAfterBackup(MovedHost(), T, BackedLive(Fresh().manifest, 1, CONTAINER_T, 2, 3), BackedEntry(T, REPLACE_P, 1, CONTAINER_T, 2));
    ReachesHandled(Fresh(), w1, T);
    w := HandledFailure(w1, T);
  }

  /** A replacement of `p` reaches the state right after its backup rename, and if the check there fails,
      ends in `error` with the project under its backup name and nothing at its folder. */
  lemma ErrorStrandsTheProject() returns (evs: seq<Event>)
    ensures Initial(Fresh()) && Stranding(Run(Fresh(), evs))
  {
    var w := StrandedHost();
    evs := RunReaching(Fresh(), w, T);
  }

  // ----- a replacement that crashes in its installing phase -----

  lemma InstallingReplacement() returns (w: World)
    ensures Fact(Ready(Fresh(), w, T)) && Shows(w, T, REPLACE_P, AtInstalling)
  {
    var w1 := BackedHost();
    InstallPhaseReached(MovedHost(), T, BackedLive(Fresh().manifest, 1, CONTAINER_T, 2, 3), BackedEntry(T, REPLACE_P, 1, CONTAINER_T, 2));
    ReachesInstallPhase(Fresh(), w1, T);
    w := StepWriteJournal(StepWriteJournal(StepBindBackup(w1, T), T), T);
  }

  /** A replacement of `p` that crashes between the journal's `installing` and its rename ends
      `recovery_required`. */
  lemma CrashedReplacementGetsStuck() returns (evs: seq<Event>)
    ensures Initial(Fresh()) && Shows(Run(Fresh(), evs), T, REPLACE_P, AtInstalling) && EndsStuck(Fresh(), evs, T)
  {
    var w := InstallingReplacement();
    evs := RunReaching(Fresh(), w, T);
    CrashedReplacingPush(Fresh(), evs, T);
  }

  // ----- a save that fails after the file was replaced -----

  lemma FreshCreates()
    ensures CanCreate(Fresh(), T, CreateQ("b"), CONTAINER_T, 2, 3)
  {
    Names();
    HiddenNames();
  }

  lemma CreatedHost() returns (w: World)
    ensures Fact(Ready(Fresh(), w, T))
    ensures w == With(InHost(Fresh(), T, CreateQ("b"), CONTAINER_T, 2, 3), T, InLive(Fresh().manifest, CONTAINER_T, 2, 3),
                      InEntry(CreateQ("b"), CONTAINER_T, 2, 3))
  {
    FreshCreates();
    MovedToIs(Fresh(), T, CreateQ("b"), CONTAINER_T, 2, 3);
    ReadyAtStart(Fresh(), T);
    ReachesMovedTo(Fresh(), Fresh(), T, CreateQ("b"), CONTAINER_T, 2, 3);
    w := MovedTo(Fresh(), T, CreateQ("b"), CONTAINER_T, 2, 3);
  }

  lemma InHostIs()
    ensures var w := InHost(Fresh(), T, CreateQ("b"), CONTAINER_T, 2, 3);
      && w.mode.Up? && w.manifestLock == Some(T) && w.live == map[] && w.journal == map[] && w.manifest == Fresh().manifest
      && w.running == {} && w.trail.born == {1, 2, 3}
      && w.fs.Keys == {FOLDER_A, InRoot(CONTAINER_T), InRoot("b")} && w.fs[InRoot("b")] == Dir(3, Some("q"))
  {
    Names();
    HiddenNames();
    var p := InContainer(CONTAINER_T, PAYLOAD);
    assert WithPayload(Fresh(), T, CONTAINER_T, 2, 3, "q").fs.Keys == {FOLDER_A, InRoot(CONTAINER_T), p};
  }

  /** The transfer reported an error, nothing is at its folder, and the manifest names it. */
  predicate LateSaved(w: World) {
    && w.mode.Up? && w.live == map[] && T in w.journal && w.journal[T].status == Error
    && InRoot("b") !in w.fs && "q" in w.manifest && w.manifest["q"] == InRoot("b")
  }

  const LATE_LIVE := InLive(Fresh().manifest, CONTAINER_T, 2, 3)
  const LATE_ENTRY := InEntry(CreateQ("b"), CONTAINER_T, 2, 3).(phase := CommittingManifest)

  function LateHost(): World {
    InHost(Fresh(), T, CreateQ("b"), CONTAINER_T, 2, 3).(manifest := Fresh().manifest["q" := InRoot("b")], manifestLock := None)
  }

  lemma LateHostUndoes()
    ensures CanRename(LateHost().fs, InRoot("b"), InContainer(CONTAINER_T, REJECTED), 3)
    ensures var w := Move(LateHost(), InRoot("b"), InContainer(CONTAINER_T, REJECTED));
      InRoot("b") !in w.fs && w.mode.Up? && w.live == map[] && "q" in w.manifest && w.manifest["q"] == InRoot("b")
  {
    InHostIs();
  }

  lemma UndoneHost() returns (w: World)
    ensures Fact(Ready(Fresh(), w, T)) && InRoot("b") in LateHost().fs
    ensures w == With(Move(LateHost(), InRoot("b"), InContainer(CONTAINER_T, REJECTED)), T,
                      LATE_LIVE.(pc := UnwindVerdict, installed := false), LATE_ENTRY)
  {
    var w1 := CreatedHost();
    CommittingIs(InHost(Fresh(), T, CreateQ("b"), CONTAINER_T, 2, 3), T, LATE_LIVE, InEntry(CreateQ("b"), CONTAINER_T, 2, 3));
    SavedLateIs(InHost(Fresh(), T, CreateQ("b"), CONTAINER_T, 2, 3), T, LATE_LIVE.(pc := AtCommitting), LATE_ENTRY);
    LateHostUndoes();
    UndoneIs(LateHost(), T, LATE_LIVE.(pc := UnwindInstall), LATE_ENTRY);
    ReachesSavedAndFailed(Fresh(), w1, T);
    w := SavedAndFailed(w1, T);
  }

  lemma LateSavedHost() returns (w: World)
    ensures Fact(Ready(Fresh(), w, T)) && LateSaved(w)
  {
    var w1 := UndoneHost();
    LateHostUndoes();
    w := FailedHost(w1, Move(LateHost(), InRoot("b"), InContainer(CONTAINER_T, REJECTED)), LATE_LIVE.(installed := false), LATE_ENTRY);
  }

  lemma FailedHost(w1: World, v: World, l: Live, e: Entry) returns (w: World)
    requires Fact(Ready(Fresh(), w1, T)) && w1 == With(v, T, l.(pc := UnwindVerdict), e)
    requires v.mode.Up? && e.status == Active && !l.committed && !l.rollbackFailed && !l.cancelled && v.live == map[]
    ensures Fact(Ready(Fresh(), w, T)) && w.mode.Up? && w.live == map[] && T in w.journal && w.journal[T].status == Error
    ensures w.fs == v.fs && w.manifest == v.manifest
  {
    Unwinds(v, T, l, e);
    ReachesReport(Fresh(), w1, T);
    w := StepReport(StepReleaseLocks(StepRecordRollback(w1, T), T), T);
  }

  /** Creating `q` in folder `b` ends in `error` with nothing installed, and yet the manifest names it, so
      that no retry is admitted. */
  lemma ErrorKeepsTheManifestEntry() returns (evs: seq<Event>)
    ensures Initial(Fresh())
    ensures var w := Run(Fresh(), evs); LateSaved(w) && StepClaim(w, T, CreateQ("b")) == w
  {
    var w := LateSavedHost();
    evs := RunReaching(Fresh(), w, T);
    TakenBlocks(w, T, CreateQ("b"));
  }

  // ----- a creating push whose quarantine name is taken -----

  /** The host after the first attempt was quarantined. */
  function SecondHost(): World {
    Move(InHost(Fresh(), T, CreateQ("b"), CONTAINER_T, 2, 3), InRoot("b"), InRoot(QuarantineName("t")))
      .(live := map[], manifestLock := None, mode := Up,
        journal := map[T := InEntry(CreateQ("b"), CONTAINER_T, 2, 3).(status := Error, phase := RolledBackAfterRestart)])
  }

  lemma SecondHostIs()
    ensures SecondHost().fs.Keys == {FOLDER_A, InRoot(CONTAINER_T), InRoot(QuarantineName("t"))}
    ensures SecondHost().trail.born == {1, 2, 3} && SecondHost().manifest == Fresh().manifest && SecondHost().running == {}
  {
    InHostIs();
  }

  lemma SecondHostCreates()
    ensures InRoot(QuarantineName("t")) in SecondHost().fs
    ensures CanCreate(SecondHost(), T, CreateQ("b"), CONTAINER_T2, 4, 5)
  {
    SecondHostIs();
    CreatesAgain(SecondHost(), InEntry(CreateQ("b"), CONTAINER_T, 2, 3).(status := Error, phase := RolledBackAfterRestart));
  }

  lemma CreatesAgain(v: World, e: Entry)
    requires v.mode.Up? && v.live == map[] && v.manifestLock.None? && v.journal == map[T := e]
    requires e.request == CreateQ("b") && e.status == Error && v.manifest == Fresh().manifest && v.running == {}
    requires v.fs.Keys == {FOLDER_A, InRoot(CONTAINER_T), InRoot(QuarantineName("t"))} && v.trail.born == {1, 2, 3}
    ensures CanCreate(v, T, CreateQ("b"), CONTAINER_T2, 4, 5)
  {
    Names();
    HiddenNames();
  }

  lemma QuarantinedHost()
    ensures Fact(Ready(Fresh(), SecondHost(), T))
  {
    var w1 := CreatedHost();
    InHostIs();
    HiddenNames();
    QuarantineIs(InHost(Fresh(), T, CreateQ("b"), CONTAINER_T, 2, 3), T, InLive(Fresh().manifest, CONTAINER_T, 2, 3),
                 InEntry(CreateQ("b"), CONTAINER_T, 2, 3));
    ReachesRebooted(Fresh(), w1, T);
  }

  /** The second attempt is in its folder again. */
  lemma SecondAttempt() returns (w: World)
    ensures Fact(Ready(Fresh(), w, T)) && Shows(w, T, CreateQ("b"), AtMoved) && !w.live[T].committed
    ensures InRoot(QuarantineName("t")) in w.fs
  {
    QuarantinedHost();
    SecondHostCreates();
    QuarantineStays();
    w := MovedAgain(SecondHost(), T, CreateQ("b"), CONTAINER_T2, 4, 5);
  }

  lemma MovedAgain(v: World, k: Key, rq: Request, name: string, c: Ident, i: Ident) returns (w: World)
    requires Fact(Ready(Fresh(), v, k)) && CanCreate(v, k, rq, name, c, i)
    ensures Fact(Ready(Fresh(), w, k)) && Shows(w, k, rq, AtMoved) && !w.live[k].committed
    ensures w.fs == InHost(v, k, rq, name, c, i).fs
  {
    MovedToShows(v, k, rq, name, c, i);
    ReachesMovedTo(Fresh(), v, k, rq, name, c, i);
    w := MovedTo(v, k, rq, name, c, i);
  }

  lemma MovedToShows(v: World, k: Key, rq: Request, name: string, c: Ident, i: Ident)
    requires CanCreate(v, k, rq, name, c, i)
    ensures var w := MovedTo(v, k, rq, name, c, i);
      Shows(w, k, rq, AtMoved) && !w.live[k].committed && w.fs == InHost(v, k, rq, name, c, i).fs
  {
    MovedToIs(v, k, rq, name, c, i);
    ShowsWith(InHost(v, k, rq, name, c, i), k, InLive(v.manifest, name, c, i), InEntry(rq, name, c, i));
  }

  lemma QuarantineStays()
    ensures InRoot(QuarantineName("t")) in InHost(SecondHost(), T, CreateQ("b"), CONTAINER_T2, 4, 5).fs
  {
    SecondHostCreates();
  }

  /** A creating push that crashes after its rename, is quarantined, is retried and crashes there again
      ends `recovery_required`. */
  lemma CrashedRetryGetsStuck() returns (evs: seq<Event>)
    ensures Initial(Fresh()) && EndsStuck(Fresh(), evs, T)
    ensures var w := Run(Fresh(), evs); Shows(w, T, CreateQ("b"), AtMoved) && InRoot(QuarantineName("t")) in w.fs
  {
    var w := SecondAttempt();
    evs := RunReaching(Fresh(), w, T);
    CrashedCreatingPush(Fresh(), evs, T);
  }

  // ----- a creating push that finds a foreign directory at its target -----

  /** `q` is to be created in the folder that is the backup of the replacement of `p`. */
  const CREATE_THERE := CreateQ("a.bak-t")

  /** Both transfers can be served, and the creating one waits for its lock. */
  predicate Beside(w: World) {
    && CanServe(w, T, REPLACE_P, CONTAINER_T, 4, 5) && NobodyElse(w, T)
    && FOLDER_A in w.fs && w.fs[FOLDER_A].ident == 1 && BACKUP_A !in w.fs && w.manifest == Fresh().manifest
    && w.live.Keys == {U} && Shows(w, U, CREATE_THERE, AtValidated)
  }

  /** The other transfer's container and names do not get in the way. */
  lemma BesideNames()
    ensures CONTAINER_T != CONTAINER_U && InRoot(CONTAINER_T) !in {FOLDER_A, BACKUP_A} && InRoot(CONTAINER_U) !in {FOLDER_A, BACKUP_A}
    ensures IsContainerName(CONTAINER_T) && IsRequest(T, REPLACE_P)
  {
    Names();
    HiddenNames();
  }

  lemma BesideIs()
    ensures Beside(With(WithPayload(Fresh(), U, CONTAINER_U, 2, 3, "q"), U, ValidLive(CONTAINER_U, 2, 3), ValidEntry(CREATE_THERE, CONTAINER_U, 2)))
  {
    BesideNames();
  }

  lemma BesideHost() returns (w: World)
    ensures Fact(Ready(Fresh(), w, T)) && Beside(w)
  {
    Names();
    HiddenNames();
    BesideIs();
    ReadiedIs(Fresh(), U, CREATE_THERE, CONTAINER_U, 2, 3);
    ReadyAtStart(Fresh(), U);
    ReachesReadied(Fresh(), Fresh(), U, CREATE_THERE, CONTAINER_U, 2, 3);
    w := Readied(Fresh(), U, CREATE_THERE, CONTAINER_U, 2, 3);
    Turns(Fresh(), w, U, T);
  }

  lemma BackedBeside(w0: World) returns (w: World, v: World)
    requires Fact(Ready(Fresh(), w0, T)) && Beside(w0)
    ensures Fact(Ready(Fresh(), w, T))
    ensures w == With(v, T, BackedLive(Fresh().manifest, 1, CONTAINER_T, 4, 5), BackedEntry(T, REPLACE_P, 1, CONTAINER_T, 4))
    ensures v.mode.Up? && v.live == w0.live && v.journal == w0.journal && v.manifest == w0.manifest && BACKUP_A in v.fs
  {
    Names();
    BackedIs(w0, T, REPLACE_P, CONTAINER_T, 4, 5, 1);
    ReachesBacked(Fresh(), w0, T, REPLACE_P, CONTAINER_T, 4, 5);
    w := Backed(w0, T, REPLACE_P, CONTAINER_T, 4, 5);
    v := Move(Replacing(WithPayload(w0, T, CONTAINER_T, 4, 5, "p"), T, 1), FOLDER_A, BACKUP_A);
  }

  /** The same host after a replacement of `p` failed right after its backup rename. */
  lemma OccupiedHost() returns (w: World)
    ensures Fact(Ready(Fresh(), w, U)) && Shows(w, U, CREATE_THERE, AtValidated) && w.live.Keys == {U}
    ensures BACKUP_A in w.fs && w.manifestLock.None? && w.manifest == Fresh().manifest
  {
    var w0 := BesideHost();
    var w1, v := BackedBeside(w0);
    FailedAfterBackup(v, T, BackedLive(Fresh().manifest, 1, CONTAINER_T, 4, 5), BackedEntry(T, REPLACE_P, 1, CONTAINER_T, 4));
    ReachesHandled(Fresh(), w1, T);
    w := HandledFailure(w1, T);
    Turns(Fresh(), w, T, U);
  }

  lemma OccupiedInstalls(w1: World) returns (w: World)
    requires Fact(Ready(Fresh(), w1, U)) && Shows(w1, U, CREATE_THERE, AtValidated) && w1.live.Keys == {U}
    requires BACKUP_A in w1.fs && w1.manifestLock.None? && w1.manifest == Fresh().manifest
    ensures Fact(Ready(Fresh(), w, U)) && Shows(w, U, CREATE_THERE, AtInstalling) && BACKUP_A in w.fs
  {
    WithItself(w1, U);
    OpenedCreating(w1, U, w1.live[U], w1.journal[U]);
    ReachesOpened(Fresh(), w1, U);
    w := Opened(w1, U);
  }

  /** A creating push in its installing phase finds the stranded backup of another transfer at its target;
      if it crashes there, it ends `recovery_required`. */
  lemma ForeignDirectoryGetsStuck() returns (evs: seq<Event>)
    ensures Initial(Fresh()) && EndsStuck(Fresh(), evs, U)
    ensures var w := Run(Fresh(), evs); Shows(w, U, CREATE_THERE, AtInstalling) && Target(CREATE_THERE) in w.fs
  {
    var w1 := OccupiedHost();
    var w := OccupiedInstalls(w1);
    evs := RunReaching(Fresh(), w, U);
    InstallingIsUncommitted(evs);
    CrashedCreatingPush(Fresh(), evs, U);
  }

  lemma InstallingIsUncommitted(evs: seq<Event>)
    requires Shows(Run(Fresh(), evs), U, CREATE_THERE, AtInstalling)
    ensures Initial(Fresh()) && !Run(Fresh(), evs).live[U].committed
  {
    ForwardInEveryRun(Fresh(), evs, U);
  }

  // ----- a pull that is retried after its entry recorded an install -----

  const P := Key(true, "t")

  /** A host before an attempt of the pull: `p` is in its folder, and the hidden names `taken` are in use. */
  predicate Pullable(w: World, name: string, c: Ident, s: Ident) {
    && w.mode.Up? && w.live == map[] && w.manifestLock.None? && w.running == {} && w.manifest == Fresh().manifest
    && Holds(w.fs, FOLDER_A, Some(1)) && BACKUP_A !in w.fs
    && IsContainerName(name) && InRoot(name) !in w.fs && InContainer(name, PAYLOAD) !in w.fs
    && c !in w.trail.born && s !in w.trail.born && c != s
    && MayClaim(w.journal, P, REPLACE_P)
  }

  lemma PullNames()
    ensures IsRequest(P, REPLACE_P) && Target(REPLACE_P) == FOLDER_A && Backup(P, REPLACE_P) == BACKUP_A
  {
    Names();
  }

  lemma PullableStarts(w: World, name: string, c: Ident, s: Ident)
    requires Pullable(w, name, c, s)
    ensures CanPull(w, P, REPLACE_P, name, c, s)
  {
    PullNames();
  }

  lemma PullableOpens(w: World, name: string, c: Ident, s: Ident)
    requires Pullable(w, name, c, s)
    ensures CanPutAside(WithPayload(w, P, name, c, s, "p"), P, ValidLive(name, c, s), PulledEntry(w.journal, P, REPLACE_P, name, c), 1)
  {
    PullNames();
    VisibleStay(w, P, REPLACE_P, name, c, s);
  }

  /** The pull fails in its installing phase and is undone. */
  function PullFailed(w: World, name: string, c: Ident, s: Ident): World {
    HandledFailure(Poised(Pulled(w, P, REPLACE_P, name, c, s), P), P)
  }

  lemma PullPoised(w: World, name: string, c: Ident, s: Ident)
    requires Pullable(w, name, c, s)
    ensures FOLDER_A in WithPayload(w, P, name, c, s, "p").fs
    ensures Poised(Pulled(w, P, REPLACE_P, name, c, s), P)
      == With(AsideHost(WithPayload(w, P, name, c, s, "p"), P, REPLACE_P, 1), P, PoisedLive(ValidLive(name, c, s), w.manifest, 1),
              PoisedEntry(P, ValidLive(name, c, s), PulledEntry(w.journal, P, REPLACE_P, name, c), 1))
  {
    PullableStarts(w, name, c, s);
    PullableOpens(w, name, c, s);
    PulledIs(w, P, REPLACE_P, name, c, s);
    PoisedIs(WithPayload(w, P, name, c, s, "p"), P, ValidLive(name, c, s), PulledEntry(w.journal, P, REPLACE_P, name, c), 1);
  }

  lemma PullAside(w: World, name: string, c: Ident, s: Ident)
    requires Pullable(w, name, c, s)
    ensures FOLDER_A in WithPayload(w, P, name, c, s, "p").fs
    ensures CanRename(AsideHost(WithPayload(w, P, name, c, s, "p"), P, REPLACE_P, 1).fs, BACKUP_A, FOLDER_A, 1)
  {
    PullNames();
    VisibleStay(w, P, REPLACE_P, name, c, s);
  }

  lemma ThereAndBack(fs: Files, p: Path, q: Path)
    requires p in fs && q !in fs
    ensures Renamed(Renamed(fs, p, q), q, p) == fs
  {
  }

  lemma AsideIs(w: World, i: Ident)
    requires FOLDER_A in w.fs && BACKUP_A !in w.fs
    ensures var v := AsideHost(w, P, REPLACE_P, i);
      && v.mode == w.mode && v.live == w.live && v.journal == w.journal && v.manifest == w.manifest && v.running == w.running
      && v.trail.born == w.trail.born && BACKUP_A in v.fs && Renamed(v.fs, BACKUP_A, FOLDER_A) == w.fs
  {
    PullNames();
    ThereAndBack(w.fs, FOLDER_A, BACKUP_A);
  }

  /** The host that is left, but for its history. */
  predicate LeftBy(w: World, v: World, fs: Files, e: Entry) {
    && w.mode.Up? && w.live == map[] && w.manifestLock.None? && w.running == v.running && w.manifest == v.manifest
    && w.fs == fs && w.trail.born == v.trail.born && w.journal == v.journal[P := e.(status := Error, phase := ErrorAfterRollback)]
  }

  lemma HandledPull(v: World, l: Live, e: Entry)
    requires v.mode.Up? && v.live == map[] && e.request == REPLACE_P && e.status == Active
    requires l.pc.AtInstalling? && l.backedUp && l.backupBound && !l.installed && !l.committed && !l.rollbackFailed
    requires CanRename(v.fs, BACKUP_A, FOLDER_A, l.origin)
    ensures LeftBy(HandledFailure(With(v, P, l, e), P), v, Renamed(v.fs, BACKUP_A, FOLDER_A), e)
  {
    PullNames();
    FailedPoised(v, P, l, e);
    assert v.live - {P} == map[];
  }

  lemma PullFailedIs(w: World, name: string, c: Ident, s: Ident)
    requires Pullable(w, name, c, s)
    ensures var x := WithPayload(w, P, name, c, s, "p");
      LeftBy(PullFailed(w, name, c, s), x, x.fs, PoisedEntry(P, ValidLive(name, c, s), PulledEntry(w.journal, P, REPLACE_P, name, c), 1))
  {
    var x := WithPayload(w, P, name, c, s, "p");
    PullNames();
    PullPoised(w, name, c, s);
    PullAside(w, name, c, s);
    VisibleStay(w, P, REPLACE_P, name, c, s);
    AsideIs(x, 1);
    HandledPull(AsideHost(x, P, REPLACE_P, 1), PoisedLive(ValidLive(name, c, s), w.manifest, 1),
                PoisedEntry(P, ValidLive(name, c, s), PulledEntry(w.journal, P, REPLACE_P, name, c), 1));
  }

  lemma ReachesPullFailed(start: World, w: World, name: string, c: Ident, s: Ident)
    requires Fact(Ready(start, w, P))
    ensures Fact(Ready(start, PullFailed(w, name, c, s), P))
  {
    ReachesPulled(start, w, P, REPLACE_P, name, c, s);
    ReachesPoised(start, Pulled(w, P, REPLACE_P, name, c, s), P);
    ReachesHandled(start, Poised(Pulled(w, P, REPLACE_P, name, c, s), P), P);
  }

  lemma FreshPulls()
    ensures Pullable(Fresh(), CONTAINER_T, 2, 3)
  {
    Names();
    HiddenNames();
  }

  /** The same host after the failed attempt: the entry still names the directory `3`. */
  lemma PullableAgain()
    ensures var w := PullFailed(Fresh(), CONTAINER_T, 2, 3);
      Pullable(w, CONTAINER_T2, 4, 5) && P in w.journal && w.journal[P].installedIdent == Some(3)
  {
    FreshPulls();
    PullFailedIs(Fresh(), CONTAINER_T, 2, 3);
    StagedOnce();
    var e := PoisedEntry(P, ValidLive(CONTAINER_T, 2, 3), PulledEntry(map[], P, REPLACE_P, CONTAINER_T, 2), 1);
    LeftPullable(PullFailed(Fresh(), CONTAINER_T, 2, 3), WithPayload(Fresh(), P, CONTAINER_T, 2, 3, "p"), e);
  }

  lemma StagedOnce()
    ensures var x := WithPayload(Fresh(), P, CONTAINER_T, 2, 3, "p");
      && x.running == {} && x.manifest == Fresh().manifest && x.trail.born == {1, 2, 3} && x.journal == map[]
      && Holds(x.fs, FOLDER_A, Some(1)) && BACKUP_A !in x.fs && InRoot(CONTAINER_T2) !in x.fs && InContainer(CONTAINER_T2, PAYLOAD) !in x.fs
  {
    Names();
    HiddenNames();
  }

  lemma LeftPullable(w: World, x: World, e: Entry)
    requires LeftBy(w, x, x.fs, e) && e.request == REPLACE_P
    requires x.running == {} && x.manifest == Fresh().manifest && x.trail.born == {1, 2, 3}
    requires Holds(x.fs, FOLDER_A, Some(1)) && BACKUP_A !in x.fs && InRoot(CONTAINER_T2) !in x.fs && InContainer(CONTAINER_T2, PAYLOAD) !in x.fs
    ensures Pullable(w, CONTAINER_T2, 4, 5) && P in w.journal && w.journal[P].installedIdent == e.installedIdent
  {
    Names();
  }

  lemma PulledAgain() returns (w: World)
    ensures Fact(Ready(Fresh(), w, P)) && Shows(w, P, REPLACE_P, AtBackupMoved) && w.journal[P].installedIdent == Some(3)
  {
    var v := PullFailed(Fresh(), CONTAINER_T, 2, 3);
    ReadyAtStart(Fresh(), P);
    ReachesPullFailed(Fresh(), Fresh(), CONTAINER_T, 2, 3);
    PullableAgain();
    w := PulledAside(v, CONTAINER_T2, 4, 5);
  }

  lemma PulledAside(v: World, name: string, c: Ident, s: Ident) returns (w: World)
    requires Fact(Ready(Fresh(), v, P)) && Pullable(v, name, c, s) && P in v.journal
    ensures Fact(Ready(Fresh(), w, P)) && Shows(w, P, REPLACE_P, AtBackupMoved) && w.journal[P].installedIdent == v.journal[P].installedIdent
  {
    PulledAsideIs(v, name, c, s);
    ReachesPulled(Fresh(), v, P, REPLACE_P, name, c, s);
    ReachesPutAside(Fresh(), Pulled(v, P, REPLACE_P, name, c, s), P);
    w := PutAside(Pulled(v, P, REPLACE_P, name, c, s), P);
  }

  lemma PulledAsideIs(v: World, name: string, c: Ident, s: Ident)
    requires Pullable(v, name, c, s) && P in v.journal
    ensures var w := PutAside(Pulled(v, P, REPLACE_P, name, c, s), P);
      Shows(w, P, REPLACE_P, AtBackupMoved) && w.journal[P].installedIdent == v.journal[P].installedIdent
  {
    var e := PulledEntry(v.journal, P, REPLACE_P, name, c);
    PullableStarts(v, name, c, s);
    PullableOpens(v, name, c, s);
    PulledIs(v, P, REPLACE_P, name, c, s);
    PutAsideIs(WithPayload(v, P, name, c, s, "p"), P, ValidLive(name, c, s), e, 1);
    ShowsWith(AsideHost(WithPayload(v, P, name, c, s, "p"), P, REPLACE_P, 1), P, AsideLive(ValidLive(name, c, s), v.manifest, 1), AsideEntry(P, e, 1));
  }

  /** A pull that replaces `p` fails in its installing phase, is undone, is retried under the same id and
      crashes right after its backup rename: its entry still names the directory of the first attempt, so it
      ends `recovery_required` with the project at its backup path. */
  lemma RetriedPullGetsStuck() returns (evs: seq<Event>)
    ensures Initial(Fresh()) && Shows(Run(Fresh(), evs), P, REPLACE_P, AtBackupMoved) && EndsStuck(Fresh(), evs, P)
  {
    var w := PulledAgain();
    evs := RunReaching(Fresh(), w, P);
    CrashedBackedUp(Fresh(), evs, P);
  }

  // ----- a committed install that is replaced while its project is being started -----

  const BACKUP_U := InRoot("a.bak-u")
  const IN_T := InContainer(CONTAINER_T, PAYLOAD)
  const IN_U := InContainer(CONTAINER_U, PAYLOAD)
  const REPLACE_AND_START := REPLACE_P.(start := true)

  /** What lies where the two replacements of `p` look. */
  predicate Lies(fs: Files, a: Ident) {
    && Holds(fs, FOLDER_A, Some(a)) && Holds(fs, IN_U, Some(3)) && BACKUP_U !in fs
  }

  /** The second replacement waits for the lock of the folder. */
  predicate InLine(w: World) {
    && w.mode.Up? && w.manifestLock.None? && w.running == {} && w.manifest == Fresh().manifest
    && U in w.live && w.live[U] == ValidLive(CONTAINER_U, 2, 3) && U in w.journal && w.journal[U] == ValidEntry(REPLACE_P, CONTAINER_U, 2)
  }

  lemma TwoNames()
    ensures IsRequest(T, REPLACE_AND_START) && IsRequest(U, REPLACE_P)
    ensures Target(REPLACE_AND_START) == FOLDER_A && Target(REPLACE_P) == FOLDER_A
    ensures Backup(T, REPLACE_AND_START) == BACKUP_A && Backup(U, REPLACE_P) == BACKUP_U && BACKUP_A != BACKUP_U
    ensures IN_T != IN_U && InRoot(CONTAINER_T) != InRoot(CONTAINER_U)
  {
    Names();
    assert "a.bak-t"[6] != "a.bak-u"[6];
  }

  /** Before the first replacement. */
  predicate FirstInLine(w: World) {
    && InLine(w) && w.live.Keys == {U} && w.journal.Keys == {U} && Lies(w.fs, 1) && BACKUP_A !in w.fs
    && InRoot(CONTAINER_T) !in w.fs && IN_T !in w.fs && w.trail.born == {1, 2, 3}
  }

  lemma FirstServes()
    ensures CanServe(Fresh(), U, REPLACE_P, CONTAINER_U, 2, 3)
  {
    TwoNames();
    Names();
    HiddenNames();
  }

  lemma FirstInLineIs()
    ensures Fact(FirstInLine(With(WithPayload(Fresh(), U, CONTAINER_U, 2, 3, "p"), U, ValidLive(CONTAINER_U, 2, 3), ValidEntry(REPLACE_P, CONTAINER_U, 2))))
  {
    TwoNames();
    Names();
    HiddenNames();
  }

  lemma FirstTurns(w: World)
    requires Fact(Ready(Fresh(), w, U)) && Fact(FirstInLine(w))
    ensures Fact(Ready(Fresh(), w, T))
  {
    Turns(Fresh(), w, U, T);
  }

  lemma LineHost() returns (w: World)
    ensures Fact(Ready(Fresh(), w, T)) && Fact(FirstInLine(w))
  {
    FirstServes();
    FirstInLineIs();
    ReadiedIs(Fresh(), U, REPLACE_P, CONTAINER_U, 2, 3);
    ReadyAtStart(Fresh(), U);
    ReachesReadied(Fresh(), Fresh(), U, REPLACE_P, CONTAINER_U, 2, 3);
    w := Readied(Fresh(), U, REPLACE_P, CONTAINER_U, 2, 3);
    FirstTurns(w);
  }

  lemma SecondServes(w: World)
    requires Fact(FirstInLine(w))
    ensures CanServe(w, T, REPLACE_AND_START, CONTAINER_T, 4, 5)
  {
    TwoNames();
    Names();
  }

  /** Both payloads are staged. */
  predicate BothStaged(x: World) {
    InLine(x) && x.live.Keys == {U} && Lies(x.fs, 1) && BACKUP_A !in x.fs && Holds(x.fs, IN_T, Some(5))
  }

  lemma BothAreStaged(w: World)
    requires Fact(FirstInLine(w))
    ensures Fact(BothStaged(WithPayload(w, T, CONTAINER_T, 4, 5, "p")))
  {
    TwoNames();
    HiddenNames();
  }

  lemma FirstSwaps(x: World)
    requires Fact(BothStaged(x))
    ensures CanSwap(x, T, ValidLive(CONTAINER_T, 4, 5), ValidEntry(REPLACE_AND_START, CONTAINER_T, 4), 1)
  {
    TwoNames();
  }

  /** The first replacement, up to the start of its project. */
  function Replacement(w: World): World {
    Launching(Saved(Swapped(Readied(w, T, REPLACE_AND_START, CONTAINER_T, 4, 5), T), T), T)
  }

  lemma ReachesReplacement(w: World)
    requires Fact(Ready(Fresh(), w, T))
    ensures Fact(Ready(Fresh(), Replacement(w), T))
  {
    ReachesReadied(Fresh(), w, T, REPLACE_AND_START, CONTAINER_T, 4, 5);
    ReachesSwapped(Fresh(), Readied(w, T, REPLACE_AND_START, CONTAINER_T, 4, 5), T);
    ReachesSaved(Fresh(), Swapped(Readied(w, T, REPLACE_AND_START, CONTAINER_T, 4, 5), T), T);
    ReachesLaunching(Fresh(), Saved(Swapped(Readied(w, T, REPLACE_AND_START, CONTAINER_T, 4, 5), T), T), T);
  }

  /** The host the first replacement leaves, with the second one in line. */
  predicate SecondInLine(w: World) {
    && InLine(w) && w.live.Keys == {T, U} && Lies(w.fs, 5)
    && Shows(w, T, REPLACE_AND_START, AtStarting) && w.live[T].committed && w.live[T].stage == 5
  }

  const FIRST_LIVE := PoisedLive(ValidLive(CONTAINER_T, 4, 5), Fresh().manifest, 1).(pc := AtMoved, installed := true)
  const FIRST_ENTRY := PoisedEntry(T, ValidLive(CONTAINER_T, 4, 5), ValidEntry(REPLACE_AND_START, CONTAINER_T, 4), 1)

  function FirstHost(x: World): World
    requires FOLDER_A in x.fs && IN_T in x.fs
  {
    SavedHost(SwappedHost(x, T, REPLACE_AND_START, CONTAINER_T, 1), T, FIRST_LIVE, REPLACE_AND_START)
  }

  lemma ReplacedIs(x: World)
    requires Fact(BothStaged(x))
    ensures FOLDER_A in x.fs && IN_T in x.fs
    ensures var w := With(x, T, ValidLive(CONTAINER_T, 4, 5), ValidEntry(REPLACE_AND_START, CONTAINER_T, 4));
      Launching(Saved(Swapped(w, T), T), T)
      == With(FirstHost(x), T, FIRST_LIVE.(pc := AtStarting, committed := true), FIRST_ENTRY.(phase := Starting))
  {
    FirstSwaps(x);
    TwoNames();
    SwappedIs(x, T, ValidLive(CONTAINER_T, 4, 5), ValidEntry(REPLACE_AND_START, CONTAINER_T, 4), 1);
    SavedIs(SwappedHost(x, T, REPLACE_AND_START, CONTAINER_T, 1), T, FIRST_LIVE, FIRST_ENTRY);
    LaunchingIs(FirstHost(x), T, FIRST_LIVE.(pc := AtCommitted, committed := true), FIRST_ENTRY.(phase := ManifestCommitted));
  }

  /** Where the renames leave things. */
  lemma FirstHostIs(x: World)
    requires Fact(BothStaged(x))
    ensures FOLDER_A in x.fs && IN_T in x.fs
    ensures Fact(InLine(FirstHost(x)) && FirstHost(x).live.Keys == {U} && Lies(FirstHost(x).fs, 5))
  {
    TwoNames();
    assert Fresh().manifest["p" := FOLDER_A] == Fresh().manifest;
  }

  lemma FirstShows(v: World, l: Live, e: Entry)
    requires Fact(InLine(v) && v.live.Keys == {U} && Lies(v.fs, 5))
    requires l.pc.AtStarting? && l.committed && l.stage == 5 && e.request == REPLACE_AND_START && e.status == Active
    ensures Fact(SecondInLine(With(v, T, l, e)))
  {
  }

  lemma ReplacementShows(w: World)
    requires Fact(FirstInLine(w))
    ensures Fact(SecondInLine(Replacement(w)))
  {
    var x := WithPayload(w, T, CONTAINER_T, 4, 5, "p");
    SecondServes(w);
    BothAreStaged(w);
    ReadiedIs(w, T, REPLACE_AND_START, CONTAINER_T, 4, 5);
    ReplacedIs(x);
    FirstHostIs(x);
    FirstShows(FirstHost(x), FIRST_LIVE.(pc := AtStarting, committed := true), FIRST_ENTRY.(phase := Starting));
  }

  lemma SecondTurns(w: World)
    requires Fact(Ready(Fresh(), w, T)) && Fact(SecondInLine(w))
    ensures Fact(Ready(Fresh(), w, U))
  {
    Turns(Fresh(), w, T, U);
  }

  lemma SecondSwaps(w: World)
    requires Fact(SecondInLine(w))
    ensures U in w.live && U in w.journal && CanSwap(w, U, w.live[U], w.journal[U], 5)
  {
    TwoNames();
    WithItself(w, U);
  }

  /** The install of the first replacement has been taken away while its project was being started. */
  predicate Superseded(w: World) {
    && Shows(w, T, REPLACE_AND_START, AtStarting) && w.live[T].committed && w.live[T].stage == 5
    && Holds(w.fs, FOLDER_A, Some(3))
  }

  lemma SecondSwapped(w: World)
    requires Fact(SecondInLine(w))
    ensures Fact(Superseded(Swapped(w, U)))
  {
    SecondSwaps(w);
    WithItself(w, U);
    TwoNames();
    SwappedIs(w, U, w.live[U], w.journal[U], 5);
    SupersededIs(w, SwappedHost(w, U, REPLACE_P, CONTAINER_U, 5));
  }

  lemma SupersededIs(w: World, v: World)
    requires Fact(SecondInLine(w)) && FOLDER_A in w.fs && IN_U in w.fs && v == SwappedHost(w, U, REPLACE_P, CONTAINER_U, 5)
    ensures forall l: Live, e: Entry :: Superseded(With(v, U, l, e))
  {
    TwoNames();
  }

  lemma SupersededGetsStuck(evs: seq<Event>)
    requires Fact(Superseded(Run(Fresh(), evs)))
    ensures Initial(Fresh()) && EndsStuck(Fresh(), evs, T)
  {
    TwoNames();
    CrashedAfterSave(Fresh(), evs, T);
  }

  /** Two replacements of `p`: the first commits and waits for the project to start, the second takes its
      install away and puts its own there. If the host crashes now, the first ends `recovery_required`,
      although it was committed. */
  lemma ReplacedInstallGetsStuck() returns (evs: seq<Event>)
    ensures Initial(Fresh()) && Superseded(Run(Fresh(), evs)) && EndsStuck(Fresh(), evs, T)
  {
    var w0 := LineHost();
    ReachesReplacement(w0);
    ReplacementShows(w0);
    SecondTurns(Replacement(w0));
    ReachesSwapped(Fresh(), Replacement(w0), U);
    SecondSwapped(Replacement(w0));
    evs := RunReaching(Fresh(), Swapped(Replacement(w0), U), U);
    SupersededGetsStuck(evs);
  }
}
