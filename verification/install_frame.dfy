/** What a step of one transfer leaves alone, and why that keeps the invariant of all the others. */
module InstallFrame {
  import opened Options
  import opened InstallNames
  import opened InstallModel
  import opened InstallMachine
  import opened InstallInvariant

  /** Journal, volatile state and commits change for `k` only. */
  ghost predicate SameRest(w: World, w': World, k: Key) {
    && w.mode.Up? && w'.mode.Up?
    && (forall o :: o != k ==> (o in w'.live <==> o in w.live))
    && (forall o :: o != k && o in w.live && o in w'.live ==> w'.live[o] == w.live[o])
    && (forall o :: o != k ==> (o in w'.journal <==> o in w.journal))
    && (forall o :: o != k && o in w.journal && o in w'.journal ==> w'.journal[o] == w.journal[o])
    && (forall o :: o != k ==> CommitsOf(w'.trail, o) == CommitsOf(w.trail, o))
  }

  /** The manifest only grows, and not at all while another transfer holds its lock. */
  ghost predicate ManifestKept(w: World, w': World, k: Key) {
    && (forall id :: id in w.manifest ==> id in w'.manifest && w'.manifest[id] == w.manifest[id])
    && (w.manifestLock.Some? && w.manifestLock.value != k ==>
          w'.manifest == w.manifest && w'.manifestLock == w.manifestLock)
  }

  ghost predicate Mine(t: Trail, k: Key, i: Ident) {
    i in t.owner && t.owner[i] == k
  }

  /** Ownership and the set of projects only grow. */
  ghost predicate TrailGrows(w: World, w': World, k: Key) {
    && w.trail.born <= w'.trail.born
    && w.trail.projects <= w'.trail.projects
    && (forall i :: i in w.trail.owner ==> i in w'.trail.owner && w'.trail.owner[i] == w.trail.owner[i])
    && (forall i :: i in w'.trail.owner && i !in w.trail.owner ==> w'.trail.owner[i] == k && i !in w.trail.born)
    && (forall i :: i in w'.trail.projects && i !in w.trail.projects && i in w.trail.owner && w.trail.owner[i] != k ==>
          && Seen(w.trail, i)
          && w.trail.owner[i] in w.journal && w.journal[w.trail.owner[i]].status == RecoveryRequired)
  }

  /** Directories keep their identity and name; what `k` neither staged nor registered stays put. */
  ghost predicate DiskKept(w: World, w': World, k: Key) {
    && (forall i :: i in w'.trail.loc && i in w.trail.born ==> i in w.trail.loc)
    && (forall i :: i in w'.trail.loc && i in w.trail.loc && w'.trail.loc[i] in w'.fs && w.trail.loc[i] in w.fs ==>
          w'.fs[w'.trail.loc[i]].project == w.fs[w.trail.loc[i]].project)
    && (forall i :: i in w.trail.loc && !Mine(w.trail, k, i) && i !in w.trail.projects ==>
          && (i in w'.trail.loc ==> w'.trail.loc[i] == w.trail.loc[i])
          && (Visible(w.trail.loc[i]) ==> i in w'.trail.loc))
    && (forall i :: i in w'.trail.loc && i !in w.trail.born ==> !Visible(w'.trail.loc[i]))
  }

  ghost predicate Framed(w: World, w': World, k: Key) {
    && SameRest(w, w', k)
    && ManifestKept(w, w', k)
    && TrailGrows(w, w', k)
    && DiskKept(w, w', k)
  }

  lemma NamedKept(w: World, w': World, k: Key, i: Ident, id: string)
    requires Fact(Framed(w, w', k)) && Fact(DiskOk(w.fs, w.trail)) && Fact(DiskOk(w'.fs, w'.trail))
    requires i in w.trail.born && Named(w.fs, w.trail, i, id)
    ensures Named(w'.fs, w'.trail, i, id)
  {
  }

  lemma EntryKept(w: World, w': World, k: Key, o: Key, e: Entry)
    requires Fact(Framed(w, w', k)) && Fact(DiskOk(w.fs, w.trail)) && Fact(DiskOk(w'.fs, w'.trail))
    requires o != k && o in w.journal && e == w.journal[o] && Fact(EntryOk(w.fs, w.trail, w.manifest, o, e))
    ensures Fact(EntryOk(w'.fs, w'.trail, w'.manifest, o, e))
  {
    if e.installedIdent.Some? && e.installedIdent.value in w.trail.owner {
      var i := e.installedIdent.value;
      if Named(w.fs, w.trail, i, e.request.dest) {
        NamedKept(w, w', k, i, e.request.dest);
      }
    }
  }

  lemma PayloadKept(w: World, w': World, k: Key, o: Key, l: Live, e: Entry)
    requires Fact(Framed(w, w', k)) && Fact(DiskOk(w.fs, w.trail)) && Fact(DiskOk(w'.fs, w'.trail))
    requires Fact(ProjectsSafe(w.trail)) && Fact(EntryOk(w.fs, w.trail, w.manifest, o, e))
    requires o != k && o in w.journal && e == w.journal[o] && Fact(PayloadOk(w.fs, w.trail, w.manifest, o, l, e))
    ensures Fact(PayloadOk(w'.fs, w'.trail, w'.manifest, o, l, e))
  {
    if l.stage in w.trail.owner && Named(w.fs, w.trail, l.stage, e.request.dest) {
      NamedKept(w, w', k, l.stage, e.request.dest);
    }
  }

  lemma LiveKept(w: World, w': World, k: Key, o: Key)
    requires Fact(Framed(w, w', k)) && Fact(DiskOk(w.fs, w.trail)) && Fact(DiskOk(w'.fs, w'.trail))
    requires Fact(ProjectsSafe(w.trail))
    requires o != k && o in w.live && o in w.journal && Fact(LiveOk(w, o)) && Fact(EntryOk(w.fs, w.trail, w.manifest, o, w.journal[o]))
    ensures o in w'.live && o in w'.journal && Fact(LiveOk(w', o))
  {
    assert w'.live[o] == w.live[o] && w'.journal[o] == w.journal[o];
    assert Fact(PayloadOk(w.fs, w.trail, w.manifest, o, w.live[o], w.journal[o]));
    PayloadKept(w, w', k, o, w.live[o], w.journal[o]);
    TransactionKept(w, w', k, o, w.live[o], w.journal[o]);
  }

  lemma TransactionKept(w: World, w': World, k: Key, o: Key, l: Live, e: Entry)
    requires Fact(Framed(w, w', k)) && o != k && Fact(TransactionOk(w.manifest, w.manifestLock, o, l, e))
    ensures Fact(TransactionOk(w'.manifest, w'.manifestLock, o, l, e))
  {
  }

  /** The visible directories `k` staged are accounted for. */
  ghost predicate OwnVisible(w: World, k: Key) {
    forall i :: Seen(w.trail, i) && i !in w.trail.projects && Mine(w.trail, k, i) ==>
      && k in w.journal
      && var e := w.journal[k];
      && (e.status == Active || e.status == RecoveryRequired)
      && (e.status == Active ==>
            && e.installedIdent == Some(i) && w.trail.loc[i] == Target(e.request) && InstallPhase(e.phase)
            && k in w.live && w.live[k].installed && w.live[k].stage == i
            && HoldsPath(w.live[k].pc) && !w.live[k].committed)
  }

  ghost predicate OwnOk(w: World, k: Key) {
    && (k in w.journal ==> EntryOk(w.fs, w.trail, w.manifest, k, w.journal[k]))
    && (k in w.live ==> k in w.journal && LiveOk(w, k))
    && (k in w.journal && w.journal[k].status == Active ==> k in w.live)
    && OwnVisible(w, k)
    && OneCommit(w.trail, w.journal, k)
  }

  ghost predicate OwnPath(w: World, k: Key) {
    Holder(w, k) ==> PathFree(w, k)
  }

  lemma PartsOfInv(w: World, k: Key)
    requires Fact(Inv(w)) && w.mode.Up?
    ensures Fact(OwnOk(w, k)) && Fact(OwnPath(w, k))
  {
    assert Unsealed(0);
    assert OneCommit(w.trail, w.journal, k);
  }

  lemma OthersSeen(w: World, w': World, k: Key, i: Ident)
    requires Fact(Inv(w)) && Fact(Framed(w, w', k)) && Seen(w'.trail, i) && i !in w'.trail.projects && !Mine(w'.trail, k, i)
    ensures Seen(w.trail, i) && i !in w.trail.projects && w'.trail.loc[i] == w.trail.loc[i]
    ensures Fact(Accounted(w.trail, w.journal, i)) && (w.mode.Up? ==> Fact(Served(w, i)))
  {
    assert Unsealed(0);
    assert i in w.trail.born && i in w.trail.loc;
    assert Seen(w.trail, i);
  }

  lemma OthersVisible(w: World, w': World, k: Key, i: Ident)
    requires Fact(Framed(w, w', k)) && Seen(w'.trail, i) && i !in w'.trail.projects && !Mine(w'.trail, k, i)
    requires Seen(w.trail, i) && w'.trail.loc[i] == w.trail.loc[i] && Fact(Accounted(w.trail, w.journal, i)) && Fact(Served(w, i))
    ensures Fact(Accounted(w'.trail, w'.journal, i)) && Fact(Served(w', i))
  {
  }

  lemma VisibleKept(w: World, w': World, k: Key, i: Ident)
    requires Fact(Inv(w)) && Fact(Framed(w, w', k)) && Fact(OwnOk(w', k))
    requires Seen(w'.trail, i) && i !in w'.trail.projects
    ensures Fact(Accounted(w'.trail, w'.journal, i)) && Fact(Served(w', i))
  {
    if !Mine(w'.trail, k, i) {
      OthersSeen(w, w', k, i);
      OthersVisible(w, w', k, i);
    }
  }

  lemma CommitsKept(w: World, w': World, k: Key)
    requires Fact(Inv(w)) && Fact(Framed(w, w', k)) && Fact(OwnOk(w', k))
    ensures Fact(CommitsOk(w'.trail, w'.journal))
  {
    assert Unsealed(0);
    forall o: Key
      ensures Fact(OneCommit(w'.trail, w'.journal, o))
    {
      assert OneCommit(w.trail, w.journal, o);
    }
  }

  lemma EntriesKept(w: World, w': World, k: Key)
    requires Fact(Inv(w)) && Fact(Framed(w, w', k)) && Fact(DiskOk(w'.fs, w'.trail)) && Fact(OwnOk(w', k))
    ensures Fact(JournalOk(w'.fs, w'.trail, w'.manifest, w'.journal))
  {
    assert Unsealed(0);
    forall o | o in w'.journal
      ensures Fact(EntryOk(w'.fs, w'.trail, w'.manifest, o, w'.journal[o]))
    {
      if o != k { EntryKept(w, w', k, o, w.journal[o]); }
    }
    forall i | Seen(w'.trail, i) && i !in w'.trail.projects
      ensures Fact(Accounted(w'.trail, w'.journal, i))
    {
      VisibleKept(w, w', k, i);
    }
  }

  lemma LivesKept(w: World, w': World, k: Key)
    requires Fact(Inv(w)) && Fact(Framed(w, w', k)) && Fact(DiskOk(w'.fs, w'.trail)) && Fact(OwnOk(w', k))
    ensures forall o :: o in w'.live ==> o in w'.journal && Fact(LiveOk(w', o))
  {
    assert Unsealed(0);
    forall o | o in w'.live
      ensures o in w'.journal && Fact(LiveOk(w', o))
    {
      if o != k { LiveKept(w, w', k, o); }
    }
  }

  lemma PathsKept(w: World, w': World, k: Key)
    requires Fact(PathsExclusive(w)) && Fact(SameRest(w, w', k)) && Fact(OwnPath(w', k))
    ensures Fact(PathsExclusive(w'))
  {
    forall a, b | Holder(w', a) && Holder(w', b) && a != b
      ensures w'.journal[a].request.folder != w'.journal[b].request.folder
    {
      assert a != k ==> Holder(w, a);
      assert b != k ==> Holder(w, b);
    }
  }

  lemma ServedKept(w: World, w': World, k: Key)
    requires Fact(Inv(w)) && Fact(Framed(w, w', k)) && Fact(DiskOk(w'.fs, w'.trail)) && Fact(OwnOk(w', k))
    ensures Fact(UpOk(w'))
  {
    assert Unsealed(0);
    forall i | Seen(w'.trail, i) && i !in w'.trail.projects && i in w'.trail.owner
      ensures Fact(Served(w', i))
    {
      VisibleKept(w, w', k, i);
    }
  }

  /** The invariant follows from the frame and from what the step shows of its own transfer. */
  lemma Assemble(w: World, w': World, k: Key)
    requires Fact(Inv(w)) && Fact(Framed(w, w', k))
    requires Fact(DiskOk(w'.fs, w'.trail)) && Fact(ProjectsSafe(w'.trail))
    requires Fact(OwnOk(w', k)) && Fact(OwnPath(w', k))
    ensures Fact(Inv(w'))
  {
    assert Unsealed(0);
    EntriesKept(w, w', k);
    LivesKept(w, w', k);
    PathsKept(w, w', k);
    ServedKept(w, w', k);
    CommitsKept(w, w', k);
  }
}
