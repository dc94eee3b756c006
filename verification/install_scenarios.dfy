/** Stretches of runs, computed: the state that the steps of one attempt lead to, given the state, record and
    entry they start from. */
module InstallScenarios {
  import opened Options
  import opened Strings
  import opened InstallNames
  import opened InstallModel
  import opened InstallMachine
  import opened InstallInvariant
  import opened InstallSafety
  import opened InstallTracking
  import opened InstallBackups
  import opened InstallRestore
  import opened InstallAttempt
  import opened InstallCrash

  ghost predicate ReachesParts(start: World, w: World) {
    exists evs :: w == Run(start, evs)
  }

  /** Some run leads from the one to the other (sealed, like the invariant). */
  ghost predicate Reaches(start: World, w: World) {
    forall u {:trigger Unsealed(u)} :: Unsealed(u) ==> ReachesParts(start, w)
  }

  ghost predicate ReadyParts(start: World, w: World, k: Key) {
    Reaches(start, w) && w.mode.Up? && !Occupied(w, k)
  }

  /** Some run leads there, and the event loop can run `k` next (sealed, like the invariant). */
  ghost predicate Ready(start: World, w: World, k: Key) {
    forall u {:trigger Unsealed(u)} :: Unsealed(u) ==> ReadyParts(start, w, k)
  }

  lemma ReadyAtStart(start: World, k: Key)
    requires start.mode.Up? && start.live == map[]
    ensures Fact(Ready(start, start, k))
  {
    assert Run(start, []) == start;
  }

  lemma ReachesNext(start: World, w: World, ev: Event)
    requires Fact(Reaches(start, w)) && !Waits(w, ev)
    ensures Fact(Reaches(start, Step(w, ev)))
  {
    assert Unsealed(0);
    var evs :| w == Run(start, evs);
    var more := evs + [ev];
    assert more[..|more| - 1] == evs;
    assert Run(start, more) == Step(w, ev);
  }

  /** One more step of the same transfer. */
  lemma ReadyNext(start: World, w: World, ev: Event, k: Key)
    requires Fact(Ready(start, w, k)) && Serves(ev) == Some(k)
    ensures Fact(Ready(start, Step(w, ev), k))
  {
    assert Unsealed(0);
    ReachesNext(start, w, ev);
    StepForeign(w, ev, Key(!k.pull, k.id));
    forall o | o in Step(w, ev).live && o != k
      ensures !Uninterrupted(Step(w, ev).live[o].pc)
    {
      StepForeign(w, ev, o);
    }
  }

  /** The event loop turns to another transfer. */
  lemma Turns(start: World, w: World, k: Key, o: Key)
    requires Fact(Ready(start, w, k)) && !Occupied(w, o)
    ensures Fact(Ready(start, w, o))
  {
    assert Unsealed(0);
  }

  lemma RunReaching(start: World, w: World, k: Key) returns (evs: seq<Event>)
    requires Fact(Ready(start, w, k))
    ensures Run(start, evs) == w
  {
    assert Unsealed(0);
    evs :| w == Run(start, evs);
  }

  // ----- one step -----

  lemma ReachesWritten(start: World, w: World, k: Key)
    requires Fact(Ready(start, w, k))
    ensures Fact(Ready(start, StepWriteJournal(w, k), k))
  {
    ReadyNext(start, w, WriteJournal(k), k);
  }

  lemma ReachesMovedOut(start: World, w: World, k: Key)
    requires Fact(Ready(start, w, k))
    ensures Fact(Ready(start, StepMoveToBackup(w, k), k))
  {
    ReadyNext(start, w, MoveToBackup(k), k);
  }

  lemma ReachesMovedIn(start: World, w: World, k: Key)
    requires Fact(Ready(start, w, k))
    ensures Fact(Ready(start, StepMoveToTarget(w, k), k))
  {
    ReadyNext(start, w, MoveToTarget(k), k);
  }

  lemma ReachesUndoneBackup(start: World, w: World, k: Key)
    requires Fact(Ready(start, w, k))
    ensures Fact(Ready(start, StepUndoBackup(w, k, true), k))
  {
    ReadyNext(start, w, UndoBackup(k, true), k);
  }

  lemma ReachesRecorded(start: World, w: World, k: Key)
    requires Fact(Ready(start, w, k))
    ensures Fact(Ready(start, StepRecordRollback(w, k), k))
  {
    ReadyNext(start, w, RecordRollback(k), k);
  }

  lemma ReachesReleased(start: World, w: World, k: Key)
    requires Fact(Ready(start, w, k))
    ensures Fact(Ready(start, StepReleaseLocks(w, k), k))
  {
    ReadyNext(start, w, ReleaseLocks(k), k);
    assert Step(w, ReleaseLocks(k)) == StepReleaseLocks(w, k);
  }

  lemma ReachesReported(start: World, w: World, k: Key)
    requires Fact(Ready(start, w, k))
    ensures Fact(Ready(start, StepReport(w, k), k))
  {
    ReadyNext(start, w, Report(k), k);
  }

  lemma ReachesTransaction(start: World, w: World, k: Key)
    requires Fact(Ready(start, w, k))
    ensures Fact(Ready(start, StepOpenTransaction(w, k), k))
  {
    ReadyNext(start, w, OpenTransaction(k), k);
  }

  // ----- the record and the entry of one transfer -----

  lemma Overwritten<K, V>(m: map<K, V>, k: K, a: V, b: V)
    ensures m[k := a][k := b] == m[k := b]
  {
  }

  /** The world in which `k` has this record and this entry. */
  function With(w: World, k: Key, l: Live, e: Entry): World {
    w.(live := w.live[k := l], journal := w.journal[k := e])
  }

  lemma WithTwice(w: World, k: Key, l: Live, e: Entry, l': Live, e': Entry)
    ensures With(With(w, k, l, e), k, l', e') == With(w, k, l', e')
  {
    Overwritten(w.live, k, l, l');
    Overwritten(w.journal, k, e, e');
  }

  lemma WithItself(w: World, k: Key)
    requires k in w.live && k in w.journal
    ensures With(w, k, w.live[k], w.journal[k]) == w
  {
    assert w.live[k := w.live[k]] == w.live && w.journal[k := w.journal[k]] == w.journal;
  }

  /** A host that serves the transfer in this record, with this entry. */
  predicate Shows(w: World, k: Key, rq: Request, pc: Pc) {
    At(w, k, pc) && w.journal[k].request == rq && w.journal[k].status == Active
  }

  lemma ShowsWith(v: World, k: Key, l: Live, e: Entry)
    requires v.mode.Up? && e.status == Active
    ensures var w := With(v, k, l, e); Shows(w, k, e.request, l.pc) && w.live[k] == l && w.journal[k] == e && w.fs == v.fs
  {
  }

  /** One journal write. */
  lemma Written(w: World, k: Key, l: Live, e: Entry)
    requires w.mode.Up? && Writes(l, e) && e.status != RecoveryRequired
    ensures StepWriteJournal(With(w, k, l, e), k)
      == With(w, k, l.(pc := WrittenPc(l.pc, e.request.policy)), WrittenEntry(k, l, e))
  {
    WithTwice(w, k, l, e, l.(pc := WrittenPc(l.pc, e.request.policy)), WrittenEntry(k, l, e));
  }

  // ----- from the claim to the validated payload -----

  /** From the claim to the validated payload. */
  function Prepared(w: World, k: Key, name: string, c: Ident, s: Ident): World {
    StepWriteJournal(StepUnpack(StepWriteJournal(StepMakeContainer(w, k, name, c), k), k, s), k)
  }

  predicate CanPrepare(w: World, k: Key, l: Live, e: Entry, name: string, c: Ident, s: Ident) {
    && w.mode.Up? && l.pc.AtClaimed? && e.status == Active && IsContainerName(name)
    && InRoot(name) !in w.fs && InContainer(name, PAYLOAD) !in w.fs
    && c !in w.trail.born && s !in w.trail.born && c != s
    && (e.request.policy.Reject? ==> e.request.dest == e.request.source)
  }

  /** The disk and the history once the payload is staged. */
  function WithPayload(w: World, k: Key, name: string, c: Ident, s: Ident, id: string): World {
    var p := InContainer(name, PAYLOAD);
    w.(fs := w.fs[InRoot(name) := Dir(c, None)][p := Dir(s, Some(id))],
       trail := w.trail.(loc := w.trail.loc[c := InRoot(name)][s := p], born := w.trail.born + {c} + {s},
                         owner := w.trail.owner[s := k]))
  }

  function Contained(w: World, name: string, c: Ident): World {
    w.(fs := w.fs[InRoot(name) := Dir(c, None)],
       trail := w.trail.(loc := w.trail.loc[c := InRoot(name)], born := w.trail.born + {c}))
  }

  lemma ContainerMade(w: World, k: Key, l: Live, e: Entry, name: string, c: Ident, s: Ident)
    requires CanPrepare(w, k, l, e, name, c, s)
    ensures StepMakeContainer(With(w, k, l, e), k, name, c)
      == With(Contained(w, name, c), k, l.(pc := AtContainer, container := name, containerIdent := c), e)
  {
    var w1 := StepMakeContainer(With(w, k, l, e), k, name, c);
    Overwritten(w.live, k, l, l.(pc := AtContainer, container := name, containerIdent := c));
    assert w1.journal == w.journal[k := e];
  }

  lemma PayloadUnpacked(w: World, k: Key, l: Live, e: Entry, name: string, c: Ident, s: Ident)
    requires w.mode.Up? && l.pc.AtExtracting? && l.container == name && InContainer(name, PAYLOAD) !in w.fs
    requires s !in w.trail.born && s != c && (e.request.policy.Reject? ==> e.request.dest == e.request.source)
    ensures StepUnpack(With(Contained(w, name, c), k, l, e), k, s)
      == With(WithPayload(w, k, name, c, s, e.request.dest), k, l.(pc := AtUnpacked, stage := s), e)
  {
    Overwritten(w.live, k, l, l.(pc := AtUnpacked, stage := s));
  }

  lemma PreparedIs(w: World, k: Key, l: Live, e: Entry, name: string, c: Ident, s: Ident)
    requires CanPrepare(w, k, l, e, name, c, s)
    ensures Prepared(With(w, k, l, e), k, name, c, s)
      == With(WithPayload(w, k, name, c, s, e.request.dest), k,
              l.(pc := AtValidated, container := name, containerIdent := c, stage := s),
              e.(phase := Validated, container := Some(name), containerIdent := Some(c)))
  {
    var l1 := l.(pc := AtContainer, container := name, containerIdent := c);
    var e1 := e.(phase := Extracting, container := Some(name), containerIdent := Some(c));
    ContainerMade(w, k, l, e, name, c, s);
    Written(Contained(w, name, c), k, l1, e);
    PayloadUnpacked(w, k, l1.(pc := AtExtracting), e1, name, c, s);
    Written(WithPayload(w, k, name, c, s, e.request.dest), k, l1.(pc := AtUnpacked, stage := s), e1);
  }

  lemma ReachesContained(start: World, w: World, k: Key, name: string, c: Ident)
    requires Fact(Ready(start, w, k))
    ensures Fact(Ready(start, StepWriteJournal(StepMakeContainer(w, k, name, c), k), k))
  {
    ReadyNext(start, w, MakeContainer(k, name, c), k);
    ReachesWritten(start, StepMakeContainer(w, k, name, c), k);
  }

  lemma ReachesStaged(start: World, w: World, k: Key, s: Ident)
    requires Fact(Ready(start, w, k))
    ensures Fact(Ready(start, StepWriteJournal(StepUnpack(w, k, s), k), k))
  {
    ReadyNext(start, w, Unpack(k, s), k);
    ReachesWritten(start, StepUnpack(w, k, s), k);
  }

  lemma ReachesPrepared(start: World, w: World, k: Key, name: string, c: Ident, s: Ident)
    requires Fact(Ready(start, w, k))
    ensures Fact(Ready(start, Prepared(w, k, name, c, s), k))
  {
    ReachesContained(start, w, k, name, c);
    ReachesStaged(start, StepWriteJournal(StepMakeContainer(w, k, name, c), k), k, s);
  }

  lemma Claimed(w: World, k: Key, rq: Request)
    requires Starts(w, k, rq) && !k.pull
    ensures StepClaim(w, k, rq) == With(w, k, FreshLive(k), ClaimEntry(w.journal, k, rq))
  {
  }

  /** The host can serve a first attempt of `k` in this container, with these new directories. */
  predicate CanServe(w: World, k: Key, rq: Request, name: string, c: Ident, s: Ident) {
    && Starts(w, k, rq) && !k.pull && w.manifestLock.None?
    && CanPrepare(w, k, FreshLive(k), ClaimEntry(w.journal, k, rq), name, c, s)
  }

  function Readied(w: World, k: Key, rq: Request, name: string, c: Ident, s: Ident): World {
    Prepared(StepClaim(w, k, rq), k, name, c, s)
  }

  function ValidLive(name: string, c: Ident, s: Ident): Live {
    FreshLive(Key(false, "")).(pc := AtValidated, container := name, containerIdent := c, stage := s)
  }

  function ValidEntry(rq: Request, name: string, c: Ident): Entry {
    Entry(rq, Active, Validated, None, None, None, Some(name), Some(c), false)
  }

  lemma ReadiedIs(w: World, k: Key, rq: Request, name: string, c: Ident, s: Ident)
    requires CanServe(w, k, rq, name, c, s)
    ensures Readied(w, k, rq, name, c, s)
      == With(WithPayload(w, k, name, c, s, rq.dest), k, ValidLive(name, c, s), ValidEntry(rq, name, c))
  {
    Claimed(w, k, rq);
    PreparedIs(w, k, FreshLive(k), ClaimEntry(w.journal, k, rq), name, c, s);
  }

  lemma ReachesReadied(start: World, w: World, k: Key, rq: Request, name: string, c: Ident, s: Ident)
    requires Fact(Ready(start, w, k))
    ensures Fact(Ready(start, Readied(w, k, rq, name, c, s), k))
  {
    ReadyNext(start, w, Claim(k, rq), k);
    ReachesPrepared(start, StepClaim(w, k, rq), k, name, c, s);
  }

  /** Staging shows at neither of the two paths. */
  lemma VisibleStay(w: World, k: Key, rq: Request, name: string, c: Ident, s: Ident)
    requires IsRequest(k, rq) && IsContainerName(name)
    ensures var fs := WithPayload(w, k, name, c, s, rq.dest).fs;
      SameAt(w.fs, fs, Target(rq)) && SameAt(w.fs, fs, Backup(k, rq))
  {
    NamesAreDisjoint(rq.folder, k.id, k.id, "");
    ContainersAreHidden(name);
  }

  // ----- the same for a pull, whose entry keeps what earlier attempts recorded -----

  /** A pull from its claim to the validated payload. */
  function Pulled(w: World, k: Key, rq: Request, name: string, c: Ident, s: Ident): World {
    Prepared(StepWriteJournal(StepWriteJournal(StepClaim(w, k, rq), k), k), k, name, c, s)
  }

  /** Its entry, which keeps what earlier attempts recorded. */
  function PulledEntry(j: Journal, k: Key, rq: Request, name: string, c: Ident): Entry {
    ClaimEntry(j, k, rq).(phase := Validated, container := Some(name), containerIdent := Some(c))
  }

  predicate CanPull(w: World, k: Key, rq: Request, name: string, c: Ident, s: Ident) {
    && Starts(w, k, rq) && k.pull && w.manifestLock.None?
    && CanPrepare(w, k, FreshLive(k).(pc := AtClaimed), ClaimEntry(w.journal, k, rq), name, c, s)
  }

  lemma DownloadedIs(w: World, k: Key, rq: Request)
    requires Starts(w, k, rq) && k.pull
    ensures StepWriteJournal(StepWriteJournal(StepClaim(w, k, rq), k), k)
      == With(w, k, FreshLive(k).(pc := AtClaimed), ClaimEntry(w.journal, k, rq).(phase := Extracting))
  {
    var l, e := FreshLive(k), ClaimEntry(w.journal, k, rq);
    assert StepClaim(w, k, rq) == With(w, k, l, e);
    Written(w, k, l, e);
    Written(w, k, l.(pc := AtDownloading), e.(phase := Downloading));
  }

  lemma PulledIs(w: World, k: Key, rq: Request, name: string, c: Ident, s: Ident)
    requires CanPull(w, k, rq, name, c, s)
    ensures Pulled(w, k, rq, name, c, s)
      == With(WithPayload(w, k, name, c, s, rq.dest), k, ValidLive(name, c, s), PulledEntry(w.journal, k, rq, name, c))
  {
    DownloadedIs(w, k, rq);
    PreparedIs(w, k, FreshLive(k).(pc := AtClaimed), ClaimEntry(w.journal, k, rq).(phase := Extracting), name, c, s);
  }

  lemma ReachesPulled(start: World, w: World, k: Key, rq: Request, name: string, c: Ident, s: Ident)
    requires Fact(Ready(start, w, k))
    ensures Fact(Ready(start, Pulled(w, k, rq, name, c, s), k))
  {
    ReadyNext(start, w, Claim(k, rq), k);
    ReachesWritten(start, StepClaim(w, k, rq), k);
    ReachesWritten(start, StepWriteJournal(StepClaim(w, k, rq), k), k);
    ReachesPrepared(start, StepWriteJournal(StepWriteJournal(StepClaim(w, k, rq), k), k), k, name, c, s);
  }

  // ----- locks and transaction -----

  /** Locks, transaction and the first journal write inside it. */
  function Opened(w: World, k: Key): World {
    StepWriteJournal(StepOpenTransaction(StepAcquireLocks(w, k), k), k)
  }

  lemma ReachesOpened(start: World, w: World, k: Key)
    requires Fact(Ready(start, w, k))
    ensures Fact(Ready(start, Opened(w, k), k))
  {
    ReadyNext(start, w, AcquireLocks(k), k);
    ReachesTransaction(start, StepAcquireLocks(w, k), k);
    ReachesWritten(start, StepOpenTransaction(StepAcquireLocks(w, k), k), k);
  }

  predicate CanOpen(w: World, k: Key, l: Live, e: Entry) {
    && w.mode.Up? && l.pc.AtValidated? && e.status == Active && w.manifestLock.None?
    && PathFree(With(w, k, l, e), k) && TransactionChecks(With(w, k, l, e), k)
  }

  lemma Locked(w: World, k: Key, l: Live, e: Entry)
    requires CanOpen(w, k, l, e)
    ensures StepAcquireLocks(With(w, k, l, e), k) == With(w, k, l.(pc := AtLocked), e)
  {
    WithTwice(w, k, l, e, l.(pc := AtLocked), e);
    assert With(w, k, l, e).journal[k := e] == With(w, k, l, e).journal;
  }

  lemma OpenedCreating(w: World, k: Key, l: Live, e: Entry)
    requires CanOpen(w, k, l, e) && !e.request.policy.Replace?
    ensures Opened(With(w, k, l, e), k)
      == With(w.(manifestLock := Some(k)), k, l.(pc := AtInstalling, snapshot := w.manifest),
              e.(phase := Installing, installedIdent := Some(l.stage)))
  {
    var l1 := l.(pc := AtOpened, snapshot := w.manifest);
    Locked(w, k, l, e);
    Overwritten(w.live, k, l.(pc := AtLocked), l1);
    assert StepOpenTransaction(With(w, k, l.(pc := AtLocked), e), k) == With(w.(manifestLock := Some(k)), k, l1, e);
    Written(w.(manifestLock := Some(k)), k, l1, e);
  }

  /** The world inside the transaction of a replacement of the directory `i`. */
  function Replacing(w: World, k: Key, i: Ident): World {
    w.(manifestLock := Some(k), trail := w.trail.(projects := w.trail.projects + {i}))
  }

  lemma OpenedReplacing(w: World, k: Key, l: Live, e: Entry, i: Ident)
    requires CanOpen(w, k, l, e) && e.request.policy.Replace? && w.fs[Target(e.request)].ident == i
    ensures Opened(With(w, k, l, e), k)
      == With(Replacing(w, k, i), k, l.(pc := AtBackingUp, snapshot := w.manifest, origin := i),
              e.(phase := BackingUp, backup := Some(BackupName(e.request.folder, k.id)), backupIdent := Some(i)))
  {
    var l1 := l.(pc := AtOpened, snapshot := w.manifest, origin := i);
    Locked(w, k, l, e);
    Overwritten(w.live, k, l.(pc := AtLocked), l1);
    assert StepOpenTransaction(With(w, k, l.(pc := AtLocked), e), k) == With(Replacing(w, k, i), k, l1, e);
    Written(Replacing(w, k, i), k, l1, e);
  }

  /** No other transfer holds a folder. */
  predicate NobodyElse(w: World, k: Key) {
    forall o :: o in w.live && o != k ==> !HoldsPath(w.live[o].pc)
  }

  /** A creating attempt about to rename its payload. */
  lemma InstallingIs(w: World, k: Key, rq: Request, name: string, c: Ident, s: Ident)
    requires CanServe(w, k, rq, name, c, s) && NobodyElse(w, k) && !rq.policy.Replace?
    requires rq.dest !in w.manifest && forall id :: id in w.manifest ==> w.manifest[id] != Target(rq)
    ensures Opened(Readied(w, k, rq, name, c, s), k)
      == With(WithPayload(w, k, name, c, s, rq.dest).(manifestLock := Some(k)), k,
              ValidLive(name, c, s).(pc := AtInstalling, snapshot := w.manifest),
              ValidEntry(rq, name, c).(phase := Installing, installedIdent := Some(s)))
  {
    ReadiedIs(w, k, rq, name, c, s);
    OpenedCreating(WithPayload(w, k, name, c, s, rq.dest), k, ValidLive(name, c, s), ValidEntry(rq, name, c));
  }

  // ----- the payload of a creating attempt goes in -----

  lemma MovedIn(w: World, k: Key, l: Live, e: Entry)
    requires w.mode.Up? && l.pc.AtInstalling? && CanRename(w.fs, InContainer(l.container, PAYLOAD), Target(e.request), l.stage)
    ensures StepMoveToTarget(With(w, k, l, e), k)
      == With(Move(w, InContainer(l.container, PAYLOAD), Target(e.request)), k, l.(pc := AtMoved, installed := true), e)
  {
    Overwritten(w.live, k, l, l.(pc := AtMoved, installed := true));
  }

  /** A creating attempt whose payload is at its target, in its record and its entry. */
  function InLive(m: Manifest, name: string, c: Ident, s: Ident): Live {
    ValidLive(name, c, s).(pc := AtMoved, snapshot := m, installed := true)
  }

  function InEntry(rq: Request, name: string, c: Ident, s: Ident): Entry {
    ValidEntry(rq, name, c).(phase := Installing, installedIdent := Some(s))
  }

  /** The host around it. */
  function InHost(w: World, k: Key, rq: Request, name: string, c: Ident, s: Ident): World {
    Move(WithPayload(w, k, name, c, s, rq.dest).(manifestLock := Some(k)), InContainer(name, PAYLOAD), Target(rq))
  }

  function MovedTo(w: World, k: Key, rq: Request, name: string, c: Ident, s: Ident): World {
    StepMoveToTarget(Opened(Readied(w, k, rq, name, c, s), k), k)
  }

  predicate CanCreate(w: World, k: Key, rq: Request, name: string, c: Ident, s: Ident) {
    && CanServe(w, k, rq, name, c, s) && NobodyElse(w, k) && !rq.policy.Replace? && Target(rq) !in w.fs
    && rq.dest !in w.manifest && forall id :: id in w.manifest ==> w.manifest[id] != Target(rq)
  }

  lemma MovedToIs(w: World, k: Key, rq: Request, name: string, c: Ident, s: Ident)
    requires CanCreate(w, k, rq, name, c, s)
    ensures MovedTo(w, k, rq, name, c, s)
      == With(InHost(w, k, rq, name, c, s), k, InLive(w.manifest, name, c, s), InEntry(rq, name, c, s))
  {
    InstallingIs(w, k, rq, name, c, s);
    VisibleStay(w, k, rq, name, c, s);
    MovedIn(WithPayload(w, k, name, c, s, rq.dest).(manifestLock := Some(k)), k,
            InLive(w.manifest, name, c, s).(pc := AtInstalling, installed := false), InEntry(rq, name, c, s));
  }

  lemma ReachesMovedTo(start: World, w: World, k: Key, rq: Request, name: string, c: Ident, s: Ident)
    requires Fact(Ready(start, w, k))
    ensures Fact(Ready(start, MovedTo(w, k, rq, name, c, s), k))
  {
    ReachesReadied(start, w, k, rq, name, c, s);
    ReachesOpened(start, Readied(w, k, rq, name, c, s), k);
    ReachesMovedIn(start, Opened(Readied(w, k, rq, name, c, s), k), k);
  }

  // ----- a replacement -----

  lemma BackedUp(w: World, k: Key, l: Live, e: Entry)
    requires w.mode.Up? && l.pc.AtBackingUp? && CanRename(w.fs, Target(e.request), Backup(k, e.request), l.origin)
    ensures StepMoveToBackup(With(w, k, l, e), k)
      == With(Move(w, Target(e.request), Backup(k, e.request)), k, l.(pc := AtBackupMoved, backedUp := true), e)
  {
    Overwritten(w.live, k, l, l.(pc := AtBackupMoved, backedUp := true));
  }

  /** From the validated payload of a replacement to its backup rename. */
  function PutAside(w: World, k: Key): World {
    StepMoveToBackup(Opened(w, k), k)
  }

  function AsideLive(l: Live, m: Manifest, i: Ident): Live {
    l.(pc := AtBackupMoved, snapshot := m, origin := i, backedUp := true)
  }

  function AsideEntry(k: Key, e: Entry, i: Ident): Entry {
    e.(phase := BackingUp, backup := Some(BackupName(e.request.folder, k.id)), backupIdent := Some(i))
  }

  function AsideHost(w: World, k: Key, rq: Request, i: Ident): World
    requires Target(rq) in w.fs
  {
    Move(Replacing(w, k, i), Target(rq), Backup(k, rq))
  }

  predicate CanPutAside(w: World, k: Key, l: Live, e: Entry, i: Ident) {
    && CanOpen(w, k, l, e) && e.request.policy.Replace?
    && Target(e.request) in w.fs && w.fs[Target(e.request)].ident == i && Backup(k, e.request) !in w.fs
  }

  lemma PutAsideIs(w: World, k: Key, l: Live, e: Entry, i: Ident)
    requires CanPutAside(w, k, l, e, i)
    ensures PutAside(With(w, k, l, e), k) == With(AsideHost(w, k, e.request, i), k, AsideLive(l, w.manifest, i), AsideEntry(k, e, i))
  {
    OpenedReplacing(w, k, l, e, i);
    BackedUp(Replacing(w, k, i), k, l.(pc := AtBackingUp, snapshot := w.manifest, origin := i), AsideEntry(k, e, i));
  }

  lemma ReachesPutAside(start: World, w: World, k: Key)
    requires Fact(Ready(start, w, k))
    ensures Fact(Ready(start, PutAside(w, k), k))
  {
    ReachesOpened(start, w, k);
    ReachesMovedOut(start, Opened(w, k), k);
  }

  lemma InstallPhaseReached(w: World, k: Key, l: Live, e: Entry)
    requires w.mode.Up? && l.pc.AtBackupMoved? && e.status == Active
    ensures StepWriteJournal(StepWriteJournal(StepBindBackup(With(w, k, l, e), k), k), k)
      == With(w, k, l.(pc := AtInstalling, backupBound := true),
              e.(phase := Installing, backupIdent := Some(l.origin), installedIdent := Some(l.stage)))
  {
    var l1 := l.(pc := AtBackupBound, backupBound := true);
    assert StepBindBackup(With(w, k, l, e), k) == With(w, k, l1, e) by { Overwritten(w.live, k, l, l1); }
    Written(w, k, l1, e);
    Written(w, k, l1.(pc := AtBackupCreated), e.(phase := BackupCreated, backupIdent := Some(l.origin)));
  }

  lemma ReachesInstallPhase(start: World, w: World, k: Key)
    requires Fact(Ready(start, w, k))
    ensures Fact(Ready(start, StepWriteJournal(StepWriteJournal(StepBindBackup(w, k), k), k), k))
  {
    ReadyNext(start, w, BindBackup(k), k);
    ReadyNext(start, StepBindBackup(w, k), WriteJournal(k), k);
    ReadyNext(start, StepWriteJournal(StepBindBackup(w, k), k), WriteJournal(k), k);
  }

  /** And on to its installing phase. */
  function Poised(w: World, k: Key): World {
    StepWriteJournal(StepWriteJournal(StepBindBackup(PutAside(w, k), k), k), k)
  }

  function PoisedLive(l: Live, m: Manifest, i: Ident): Live {
    AsideLive(l, m, i).(pc := AtInstalling, backupBound := true)
  }

  function PoisedEntry(k: Key, l: Live, e: Entry, i: Ident): Entry {
    AsideEntry(k, e, i).(phase := Installing, installedIdent := Some(l.stage))
  }

  lemma PoisedIs(w: World, k: Key, l: Live, e: Entry, i: Ident)
    requires CanPutAside(w, k, l, e, i)
    ensures Poised(With(w, k, l, e), k) == With(AsideHost(w, k, e.request, i), k, PoisedLive(l, w.manifest, i), PoisedEntry(k, l, e, i))
  {
    PutAsideIs(w, k, l, e, i);
    InstallPhaseReached(AsideHost(w, k, e.request, i), k, AsideLive(l, w.manifest, i), AsideEntry(k, e, i));
  }

  lemma ReachesPoised(start: World, w: World, k: Key)
    requires Fact(Ready(start, w, k))
    ensures Fact(Ready(start, Poised(w, k), k))
  {
    ReachesPutAside(start, w, k);
    ReachesInstallPhase(start, PutAside(w, k), k);
  }

  /** A replacement from its validated payload to the rename of the payload. */
  function Swapped(w: World, k: Key): World {
    StepMoveToTarget(Poised(w, k), k)
  }

  function SwappedHost(w: World, k: Key, rq: Request, name: string, i: Ident): World
    requires Target(rq) in w.fs && InContainer(name, PAYLOAD) in w.fs
  {
    Move(AsideHost(w, k, rq, i), InContainer(name, PAYLOAD), Target(rq))
  }

  predicate CanSwap(w: World, k: Key, l: Live, e: Entry, i: Ident) {
    && CanPutAside(w, k, l, e, i) && IsRequest(k, e.request) && Holds(w.fs, InContainer(l.container, PAYLOAD), Some(l.stage))
  }

  lemma AsideFrees(w: World, k: Key, l: Live, e: Entry, i: Ident)
    requires CanSwap(w, k, l, e, i)
    ensures CanRename(AsideHost(w, k, e.request, i).fs, InContainer(l.container, PAYLOAD), Target(e.request), l.stage)
  {
    NamesAreDisjoint(e.request.folder, k.id, k.id, "");
  }

  lemma SwappedIs(w: World, k: Key, l: Live, e: Entry, i: Ident)
    requires CanSwap(w, k, l, e, i)
    ensures Swapped(With(w, k, l, e), k)
      == With(SwappedHost(w, k, e.request, l.container, i), k, PoisedLive(l, w.manifest, i).(pc := AtMoved, installed := true),
              PoisedEntry(k, l, e, i))
  {
    AsideFrees(w, k, l, e, i);
    PoisedIs(w, k, l, e, i);
    MovedIn(AsideHost(w, k, e.request, i), k, PoisedLive(l, w.manifest, i), PoisedEntry(k, l, e, i));
  }

  lemma ReachesSwapped(start: World, w: World, k: Key)
    requires Fact(Ready(start, w, k))
    ensures Fact(Ready(start, Swapped(w, k), k))
  {
    ReachesPoised(start, w, k);
    ReachesMovedIn(start, Poised(w, k), k);
  }

  // ----- the save, and the start of the project -----

  lemma CommittingIs(w: World, k: Key, l: Live, e: Entry)
    requires w.mode.Up? && l.pc.AtMoved? && e.status == Active
    ensures StepWriteJournal(StepWriteJournal(With(w, k, l, e), k), k)
      == With(w, k, l.(pc := AtCommitting), e.(phase := CommittingManifest, installedIdent := Some(l.stage)))
  {
    Written(w, k, l, e);
    Written(w, k, l.(pc := AtInstalled), e.(phase := Installed, installedIdent := Some(l.stage)));
  }

  /** Two more phases, the save, and one more phase. */
  function Saved(w: World, k: Key): World {
    StepWriteJournal(StepSaveManifest(StepWriteJournal(StepWriteJournal(w, k), k), k), k)
  }

  /** The locks are given up, and the project is about to start. */
  function Launching(w: World, k: Key): World {
    StepWriteJournal(StepReleaseLocks(w, k), k)
  }

  function SavedHost(w: World, k: Key, l: Live, rq: Request): World {
    w.(manifest := l.snapshot[rq.dest := Target(rq)], manifestLock := None, trail := AddCommit(w.trail, k, l.stage))
  }

  lemma ManifestSaved(w: World, k: Key, l: Live, e: Entry)
    requires w.mode.Up? && l.pc.AtCommitting?
    ensures StepSaveManifest(With(w, k, l, e), k) == With(SavedHost(w, k, l, e.request), k, l.(pc := AtSaved, committed := true), e)
  {
    Overwritten(w.live, k, l, l.(pc := AtSaved, committed := true));
  }

  lemma SavedIs(w: World, k: Key, l: Live, e: Entry)
    requires w.mode.Up? && l.pc.AtMoved? && e.status == Active
    ensures Saved(With(w, k, l, e), k)
      == With(SavedHost(w, k, l, e.request), k, l.(pc := AtCommitted, committed := true),
              e.(phase := ManifestCommitted, installedIdent := Some(l.stage)))
  {
    var l1, e1 := l.(pc := AtCommitting), e.(phase := CommittingManifest, installedIdent := Some(l.stage));
    CommittingIs(w, k, l, e);
    ManifestSaved(w, k, l1, e1);
    Written(SavedHost(w, k, l, e.request), k, l1.(pc := AtSaved, committed := true), e1);
  }

  lemma LaunchingIs(w: World, k: Key, l: Live, e: Entry)
    requires w.mode.Up? && l.pc.AtCommitted? && e.status == Active && e.request.start
    ensures Launching(With(w, k, l, e), k) == With(w, k, l.(pc := AtStarting), e.(phase := Starting))
  {
    assert StepReleaseLocks(With(w, k, l, e), k) == With(w, k, l.(pc := AtReleased), e) by {
      Overwritten(w.live, k, l, l.(pc := AtReleased));
    }
    Written(w, k, l.(pc := AtReleased), e);
  }

  lemma ReachesTwoPhases(start: World, w: World, k: Key)
    requires Fact(Ready(start, w, k))
    ensures Fact(Ready(start, StepWriteJournal(StepWriteJournal(w, k), k), k))
  {
    ReachesWritten(start, w, k);
    ReachesWritten(start, StepWriteJournal(w, k), k);
  }

  lemma ReachesManifestSaved(start: World, w: World, k: Key)
    requires Fact(Ready(start, w, k))
    ensures Fact(Ready(start, StepSaveManifest(w, k), k))
  {
    ReadyNext(start, w, SaveManifest(k), k);
  }

  lemma ReachesSaved(start: World, w: World, k: Key)
    requires Fact(Ready(start, w, k))
    ensures Fact(Ready(start, Saved(w, k), k))
  {
    ReachesTwoPhases(start, w, k);
    ReachesManifestSaved(start, StepWriteJournal(StepWriteJournal(w, k), k), k);
    ReachesWritten(start, StepSaveManifest(StepWriteJournal(StepWriteJournal(w, k), k), k), k);
  }

  lemma ReachesLaunching(start: World, w: World, k: Key)
    requires Fact(Ready(start, w, k))
    ensures Fact(Ready(start, Launching(w, k), k))
  {
    ReachesReleased(start, w, k);
    ReachesWritten(start, StepReleaseLocks(w, k), k);
  }

  // ----- failures -----

  lemma Reported(w: World, k: Key, l: Live, e: Entry)
    requires w.mode.Up? && e.status == Active && l.pc.Reporting? && !l.committed && !l.cancelled
    ensures StepReport(With(w, k, l, e), k)
      == w.(journal := w.journal[k := e.(status := Error, phase := ErrorAfterRollback)], live := w.live - {k})
  {
    Overwritten(w.journal, k, e, e.(status := Error, phase := ErrorAfterRollback));
    assert w.live[k := l] - {k} == w.live - {k};
  }

  /** The end of every unwinding that had nothing left to undo. */
  lemma Unwinds(w: World, k: Key, l: Live, e: Entry)
    requires w.mode.Up? && e.status == Active && !l.committed && !l.rollbackFailed && !l.cancelled
    ensures StepReport(StepReleaseLocks(StepRecordRollback(With(w, k, l.(pc := UnwindVerdict), e), k), k), k)
      == w.(journal := w.journal[k := e.(status := Error, phase := ErrorAfterRollback)], live := w.live - {k})
  {
    var w1 := StepRecordRollback(With(w, k, l.(pc := UnwindVerdict), e), k);
    assert w1 == With(w, k, l.(pc := Unwound), e) by { Overwritten(w.live, k, l.(pc := UnwindVerdict), l.(pc := Unwound)); }
    var w2 := StepReleaseLocks(w1, k);
    assert w2 == With(w, k, l.(pc := Reporting), e) by { Overwritten(w.live, k, l.(pc := Unwound), l.(pc := Reporting)); }
    Reported(w, k, l.(pc := Reporting), e);
  }

  lemma ReachesUnwound(start: World, w: World, k: Key)
    requires Fact(Ready(start, w, k))
    ensures Fact(Ready(start, StepUndoBackup(StepUndoInstall(w, k, true), k, true), k))
  {
    ReadyNext(start, w, UndoInstall(k, true), k);
    ReachesUndoneBackup(start, StepUndoInstall(w, k, true), k);
  }

  lemma ReachesReport(start: World, w: World, k: Key)
    requires Fact(Ready(start, w, k))
    ensures Fact(Ready(start, StepReport(StepReleaseLocks(StepRecordRollback(w, k), k), k), k))
  {
    ReachesRecorded(start, w, k);
    ReachesReleased(start, StepRecordRollback(w, k), k);
    ReachesReported(start, StepReleaseLocks(StepRecordRollback(w, k), k), k);
  }

  lemma ReachesHandled(start: World, w: World, k: Key)
    requires Fact(Ready(start, w, k))
    ensures Fact(Ready(start, HandledFailure(w, k), k))
  {
    var w1 := StepFail(w, k, false);
    ReadyNext(start, w, Fail(k, false), k);
    ReachesUnwound(start, w1, k);
    ReachesReport(start, StepUndoBackup(StepUndoInstall(w1, k, true), k, true), k);
  }

  lemma FailedAfterBackup(w: World, k: Key, l: Live, e: Entry)
    requires w.mode.Up? && l.pc.AtBackupMoved? && e.status == Active
    requires l.backedUp && !l.backupBound && !l.installed && !l.committed && !l.rollbackFailed
    ensures HandledFailure(With(w, k, l, e), k) == w.(
      journal := w.journal[k := e.(status := Error, phase := ErrorAfterRollback)],
      live := w.live - {k}, manifestLock := None)
  {
    var v := w.(manifestLock := None);
    var l1 := Failed(l, false);
    var w1 := StepFail(With(w, k, l, e), k, false);
    assert w1 == With(v, k, l1, e) by { Overwritten(w.live, k, l, l1); }
    var w2 := StepUndoInstall(w1, k, true);
    assert w2 == With(v, k, l1.(pc := UnwindBackup), e) by { Overwritten(w.live, k, l1, l1.(pc := UnwindBackup)); }
    var w3 := StepUndoBackup(w2, k, true);
    assert w3 == With(v, k, l1.(pc := UnwindVerdict), e) by {
      Overwritten(w.live, k, l1.(pc := UnwindBackup), l1.(pc := UnwindVerdict));
    }
    Unwinds(v, k, l1, e);
  }

  /** A failure there: the backup goes back, and the entry keeps the directory it was about to install. */
  lemma FailedPoised(w: World, k: Key, l: Live, e: Entry)
    requires w.mode.Up? && l.pc.AtInstalling? && e.status == Active && l.backedUp && l.backupBound
    requires !l.installed && !l.committed && !l.rollbackFailed
    requires CanRename(w.fs, Backup(k, e.request), Target(e.request), l.origin)
    ensures HandledFailure(With(w, k, l, e), k)
      == Move(w, Backup(k, e.request), Target(e.request)).(
           journal := w.journal[k := e.(status := Error, phase := ErrorAfterRollback)],
           live := w.live - {k}, manifestLock := None)
  {
    var v := w.(manifestLock := None);
    var l1 := Failed(l, false);
    var w1 := StepFail(With(w, k, l, e), k, false);
    assert w1 == With(v, k, l1, e) by { Overwritten(w.live, k, l, l1); }
    var w2 := StepUndoInstall(w1, k, true);
    assert w2 == With(v, k, l1.(pc := UnwindBackup), e) by { Overwritten(w.live, k, l1, l1.(pc := UnwindBackup)); }
    BackupUndone(v, k, l1.(pc := UnwindBackup), e);
    Unwinds(Move(v, Backup(k, e.request), Target(e.request)), k, l1.(backedUp := false), e);
  }

  lemma BackupUndone(w: World, k: Key, l: Live, e: Entry)
    requires w.mode.Up? && l.pc.UnwindBackup? && l.backedUp && l.backupBound && !l.installed && !l.committed
    requires CanRename(w.fs, Backup(k, e.request), Target(e.request), l.origin)
    ensures StepUndoBackup(With(w, k, l, e), k, true)
      == With(Move(w, Backup(k, e.request), Target(e.request)), k, l.(pc := UnwindVerdict, backedUp := false), e)
  {
    Overwritten(w.live, k, l, l.(pc := UnwindVerdict, backedUp := false));
  }

  /** Two more phases, the save that fails, and the unwinding. */
  function SavedAndFailed(w: World, k: Key): World {
    StepUndoBackup(StepUndoInstall(StepSaveManifestLate(StepWriteJournal(StepWriteJournal(w, k), k), k), k, true), k, true)
  }

  lemma SavedLateIs(w: World, k: Key, l: Live, e: Entry)
    requires w.mode.Up? && l.pc.AtCommitting?
    ensures StepSaveManifestLate(With(w, k, l, e), k)
      == With(w.(manifest := l.snapshot[e.request.dest := Target(e.request)], manifestLock := None), k, l.(pc := UnwindInstall), e)
  {
    Overwritten(w.live, k, l, l.(pc := UnwindInstall));
  }

  lemma UndoneIs(w: World, k: Key, l: Live, e: Entry)
    requires w.mode.Up? && l.pc.UnwindInstall? && l.installed && !l.committed && !l.backedUp
    requires CanRename(w.fs, Target(e.request), InContainer(l.container, REJECTED), l.stage)
    ensures StepUndoBackup(StepUndoInstall(With(w, k, l, e), k, true), k, true)
      == With(Move(w, Target(e.request), InContainer(l.container, REJECTED)), k, l.(pc := UnwindVerdict, installed := false), e)
  {
    var l1 := l.(pc := UnwindBackup, installed := false);
    var v := Move(w, Target(e.request), InContainer(l.container, REJECTED));
    assert StepUndoInstall(With(w, k, l, e), k, true) == With(v, k, l1, e) by { Overwritten(w.live, k, l, l1); }
    Overwritten(w.live, k, l1, l1.(pc := UnwindVerdict));
  }

  lemma ReachesSavedLate(start: World, w: World, k: Key)
    requires Fact(Ready(start, w, k))
    ensures Fact(Ready(start, StepSaveManifestLate(w, k), k))
  {
    ReadyNext(start, w, SaveManifestLate(k), k);
  }

  lemma ReachesSavedAndFailed(start: World, w: World, k: Key)
    requires Fact(Ready(start, w, k))
    ensures Fact(Ready(start, SavedAndFailed(w, k), k))
  {
    ReachesTwoPhases(start, w, k);
    ReachesSavedLate(start, StepWriteJournal(StepWriteJournal(w, k), k), k);
    ReachesUnwound(start, StepSaveManifestLate(StepWriteJournal(StepWriteJournal(w, k), k), k), k);
  }

  // ----- crashes -----

  ghost predicate EndsStuck(start: World, evs: seq<Event>, k: Key) {
    && Advancing(start, evs, k)
    && var w := Restarted(Run(start, evs), k);
    && w.mode.Recovering? && k in w.mode.mem && w.mode.mem[k].status == RecoveryRequired
  }

  /** A crash, and the startup after it. */
  function Rebooted(w: World, k: Key): World {
    StepFinishRecovery(Restarted(w, k))
  }

  lemma ReachesRecovery(start: World, w: World, k: Key)
    requires Fact(Ready(start, w, k))
    ensures Fact(Reaches(start, StepBeginRecovery(StepCrash(w))))
  {
    assert Unsealed(0);
    ReachesNext(start, w, Crash);
    ReachesNext(start, StepCrash(w), BeginRecovery);
  }

  lemma ReachesRebooted(start: World, w: World, k: Key)
    requires Fact(Ready(start, w, k)) && Rebooted(w, k).mode.Up? && Rebooted(w, k).live == map[]
    ensures Fact(Ready(start, Rebooted(w, k), k))
  {
    ReachesRecovery(start, w, k);
    ReachesRecovered(start, w, k);
    ReachesNext(start, Restarted(w, k), FinishRecovery);
  }

  lemma ReachesRecovered(start: World, w: World, k: Key)
    requires Fact(Reaches(start, StepBeginRecovery(StepCrash(w))))
    ensures Fact(Reaches(start, Restarted(w, k)))
  {
    ReachesNext(start, StepBeginRecovery(StepCrash(w)), Recover(k, NoFault));
  }

  /** Recovery of a half-installed payload: it goes to the quarantine, and the entry is retryable. */
  lemma QuarantineIs(w: World, k: Key, l: Live, e: Entry)
    requires e.status == Active && e.phase.Installing? && e.backup.None? && !MayBeCommitted(w.manifest, e)
    requires Holds(w.fs, Target(e.request), e.installedIdent) && InRoot(QuarantineName(k.id)) !in w.fs
    requires w.journal == map[]
    ensures Rebooted(With(w, k, l, e), k)
      == Move(w, Target(e.request), InRoot(QuarantineName(k.id)))
         .(live := map[], manifestLock := None, mode := Up,
           journal := map[k := e.(status := Error, phase := RolledBackAfterRestart)])
  {
    var w1 := StepBeginRecovery(StepCrash(With(w, k, l, e)));
    assert w1.mode == Recovering({k}, map[k := e]);
    var v := Move(w1, Target(e.request), InRoot(QuarantineName(k.id)));
    var w2 := StepRecover(w1, k, NoFault);
    assert w2 == Settle(v, k, VerdictEntry(Quarantine, e));
    Overwritten(map[], k, e, VerdictEntry(Quarantine, e));
  }
}
