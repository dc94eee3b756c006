/** Whole trees: what the migration leaves on every node, what a second run does, and the walk itself. */
module SizeWalk {
  import opened Options
  import opened SizeModel
  import opened SizePasses
  import opened SizeTheorems
  import opened SizeLayout
  import opened SizeTrees

  // ----- on every node -----

  predicate NodeTidy(kind: string, l: Option<Layout>, flow: Flow, types: Types) {
    l.Some? ==>
      Tidy(l.value, flow) && (kind in types.owned || kind in types.flows || l.value.container == map[])
  }

  /** Every node of a tree has the normal form of the flow it sits under. */
  predicate TreeTidy(n: Node, flow: Flow, types: Types) {
    && NodeTidy(n.kind, n.layout, flow, types)
    && forall c :: c in n.children ==> TreeTidy(c, ChildFlow(n.kind, n.layout, types), types)
  }

  lemma FinishedTidies(kind: string, l: Layout, early: Flow, late: Flow, types: Types)
    ensures NodeTidy(kind, Some(Finished(kind, l, early, late, types)), late, types)
  {
    MigratedTidies(l, early, late, IsInstance(kind));
  }

  lemma MigratedKeepsContainer(l: Layout, early: Flow, late: Flow, explicit: bool)
    ensures Migrated(l, early, late, explicit).container == l.container
  {
    NormalisedKeepsContainer(l, early.axis, explicit);
    ModedKeepsContainer(Normalised(l, early.axis, explicit), early.axis, early.align);
    RetiredKeepsContainer(Moded(Normalised(l, early.axis, explicit), early.axis, early.align), late.axis, late.align);
  }

  lemma MigrateKeepsChildFlow(n: Node, early: Flow, late: Flow, types: Types)
    ensures Similar(ChildFlow(n.kind, FinishedIn(n, early, late, types), types), ChildFlow(n.kind, n.layout, types))
  {
    if n.layout.Some? { MigratedKeepsContainer(n.layout.value, early, late, IsInstance(n.kind)); }
  }

  lemma TidyAlike(n: Node, f: Flow, g: Flow, types: Types)
    requires Similar(f, g) && TreeTidy(n, f, types)
    ensures TreeTidy(n, g, types)
  {
  }

  /** No node of a migrated tree, at any depth, keeps a margin, an `alignSelf` or a raw flex key the
      panel has no row for, nor - unless its type flows children - a container key. */
  lemma {:induction false} MigratedTreeIsTidy(n: Node, early: Flow, late: Flow, types: Types)
    ensures TreeTidy(Migrate(n, early, late, types), late, types)
    decreases n, 1
  {
    var r, flow := Migrate(n, early, late, types), ChildFlow(n.kind, n.layout, types);
    if n.layout.Some? { FinishedTidies(n.kind, n.layout.value, early, late, types); }
    MigrateKeepsChildFlow(n, early, late, types);
    MigratedAllTidy(n, n.children, flow, types);
    forall c | c in r.children
      ensures TreeTidy(c, ChildFlow(n.kind, r.layout, types), types)
    {
      TidyAlike(c, flow, ChildFlow(n.kind, r.layout, types), types);
    }
  }

  lemma {:induction false} MigratedAllTidy(parent: Node, ns: seq<Node>, flow: Flow, types: Types)
    requires forall c :: c in ns ==> c in parent.children
    ensures forall c :: c in MigrateAll(ns, flow, types) ==> TreeTidy(c, flow, types)
    decreases parent, 0, |ns|
  {
    if ns != [] {
      assert ns[0] in parent.children;
      MigratedTreeIsTidy(ns[0], flow, flow, types);
      MigratedAllTidy(parent, ns[1..], flow, types);
    }
  }

  // ----- again -----

  lemma MigratedIgnoresContainer(l: Layout, c: map<ContainerKey, Value>, early: Flow, late: Flow, explicit: bool)
    ensures Migrated(l.(container := c), early, late, explicit) == Migrated(l, early, late, explicit).(container := c)
  {
    var n := Normalised(l, early.axis, explicit);
    NormalisedIgnoresContainer(l, c, early.axis, explicit);
    ModedIgnoresContainer(n, c, early.axis, early.align);
    RetiredIgnoresContainer(Moded(n, early.axis, early.align), c, late.axis, late.align);
  }

  lemma NormalisedIgnoresContainer(l: Layout, c: map<ContainerKey, Value>, axis: Option<Axis>, explicit: bool)
    ensures Normalised(l.(container := c), axis, explicit) == Normalised(l, axis, explicit).(container := c)
  {
    var lc := l.(container := c);
    assert HasFlex(lc) == HasFlex(l) && HasBoundFlex(lc) == HasBoundFlex(l) && IsInert(lc) == IsInert(l);
    if axis.Some? {
      SizeIgnoresContainer(l, c, axis.value);
      if axis.value.Row? {
      } else {
      }
    }
  }

  lemma SizeIgnoresContainer(l: Layout, c: map<ContainerKey, Value>, axis: Axis)
    ensures var lc := l.(container := c); Size(lc, axis) == Size(l, axis) && Promoted(lc, axis) == Promoted(l, axis)
    ensures forall v :: SetSize(l.(container := c), axis, v) == SetSize(l, axis, v).(container := c)
  {
  }

  lemma MainModeIgnoresContainer(l: Layout, c: map<ContainerKey, Value>, axis: Axis)
    ensures WithMainMode(l.(container := c), axis) == WithMainMode(l, axis).(container := c)
  {
    assert MainAxisMode(l.(container := c), axis) == MainAxisMode(l, axis);
    if MainAxisMode(l, axis) == Some(FILL) { FlooredIgnoresContainer(l, c, axis); }
  }

  lemma FlooredIgnoresContainer(l: Layout, c: map<ContainerKey, Value>, axis: Axis)
    ensures Floored(l.(container := c), axis) == Floored(l, axis).(container := c)
  {
  }

  lemma CrossModeIgnoresContainer(l: Layout, c: map<ContainerKey, Value>, cross: Axis, align: string)
    ensures WithCrossMode(l.(container := c), cross, align) == WithCrossMode(l, cross, align).(container := c)
  {
  }

  lemma ModedIgnoresContainer(l: Layout, c: map<ContainerKey, Value>, axis: Option<Axis>, align: string)
    ensures Moded(l.(container := c), axis, align) == Moded(l, axis, align).(container := c)
  {
    if axis.Some? {
      MainModeIgnoresContainer(l, c, axis.value);
      CrossModeIgnoresContainer(WithMainMode(l, axis.value), c, Other(axis.value), align);
    }
  }

  lemma ReadModeIgnoresContainer(l: Layout, c: map<ContainerKey, Value>, axis: Axis)
    ensures WithReadMode(l.(container := c), axis) == WithReadMode(l, axis).(container := c)
  {
    var lc := l.(container := c);
    assert SizeInEffect(lc, axis) == SizeInEffect(l, axis);
    if !IsBound(SizeInEffect(l, axis)) {
      var sized := if IsLength(l.basis) then SetSize(l, axis, l.basis) else l;
      ReadLooseIgnoresContainer(sized, c, axis);
    }
  }

  lemma ReadLooseIgnoresContainer(l: Layout, c: map<ContainerKey, Value>, axis: Axis)
    ensures var lc := l.(container := c);
      && MainAxisMode(lc, axis) == MainAxisMode(l, axis)
      && MainAxisMode(lc.(shrink := None), axis) == MainAxisMode(l.(shrink := None), axis)
  {
  }

  lemma RetiredMainIgnoresContainer(l: Layout, c: map<ContainerKey, Value>, axis: Axis)
    ensures RetiredMain(l.(container := c), axis) == RetiredMain(l, axis).(container := c)
  {
    if Mode(l, axis).Some? {
    } else if Grows(l.grow) {
    } else {
      ReadModeIgnoresContainer(l, c, axis);
    }
  }

  lemma RetiredIgnoresContainer(l: Layout, c: map<ContainerKey, Value>, axis: Option<Axis>, align: string)
    ensures Retired(l.(container := c), axis, align) == Retired(l, axis, align).(container := c)
  {
    if axis.Some? {
      var m := l.(margins := map[]);
      var n := RetiredMain(m, axis.value);
      assert l.(container := c).(margins := map[]) == m.(container := c);
      RetiredMainIgnoresContainer(m, c, axis.value);
      RetiredCrossIgnoresContainer(n, c, Other(axis.value), align);
    }
  }

  lemma RetiredCrossIgnoresContainer(l: Layout, c: map<ContainerKey, Value>, cross: Axis, align: string)
    ensures RetiredCross(l.(container := c), cross, align) == RetiredCross(l, cross, align).(container := c)
  {
    assert Mode(l.(container := c), cross) == Mode(l, cross);
    assert CrossAxisMode(l.(container := c), cross, align) == CrossAxisMode(l, cross, align);
    assert BoundCrossMode(l.(container := c), cross, align) == BoundCrossMode(l, cross, align);
    if cross.Row? {
    } else {
    }
  }

  lemma MigratedAlike(l: Layout, f: Flow, g: Flow, explicit: bool)
    requires Similar(f, g)
    ensures Migrated(l, f, f, explicit) == Migrated(l, g, g, explicit)
  {
  }

  /** Running the migration on one node again comes to running it on its layout again. */
  lemma FinishedAgain(kind: string, l: Layout, early: Flow, late: Flow, types: Types)
    ensures Finished(kind, Finished(kind, l, early, late, types), early, late, types)
      == WithoutContainer(kind, Migrated(Migrated(l, early, late, IsInstance(kind)), early, late, IsInstance(kind)), types)
  {
    MigratedIgnoresContainer(Migrated(l, early, late, IsInstance(kind)), map[], early, late, IsInstance(kind));
  }

  /** Every layout sits under a known axis and stores no main mode. */
  predicate Ready(n: Node, flow: Flow, types: Types) {
    && (n.layout.Some? ==> flow.axis.Some? && Mode(n.layout.value, flow.axis.value).None?)
    && forall c :: c in n.children ==> Ready(c, ChildFlow(n.kind, n.layout, types), types)
  }

  lemma MigratedTreeAlike(n: Node, f: Flow, g: Flow, types: Types)
    requires Similar(f, g)
    ensures Migrate(n, f, f, types) == Migrate(n, g, g, types)
  {
    if n.layout.Some? { MigratedAlike(n.layout.value, f, g, IsInstance(n.kind)); }
  }

  lemma {:induction false} MigratedAllAlike(ns: seq<Node>, f: Flow, g: Flow, types: Types)
    requires Similar(f, g)
    ensures MigrateAll(ns, f, types) == MigrateAll(ns, g, types)
  {
    if ns != [] {
      MigratedTreeAlike(ns[0], f, g, types);
      MigratedAllAlike(ns[1..], f, g, types);
    }
  }

  /** The children of a node that is migrated again see the flow they saw the first time. */
  lemma ChildrenAgain(n: Node, early: Flow, late: Flow, types: Types)
    ensures var r, flow := Migrate(n, early, late, types), ChildFlow(n.kind, n.layout, types);
      Migrate(r, early, late, types).children == MigrateAll(MigrateAll(n.children, flow, types), flow, types)
  {
    var r, flow := Migrate(n, early, late, types), ChildFlow(n.kind, n.layout, types);
    MigrateKeepsChildFlow(n, early, late, types);
    MigratedAllAlike(r.children, ChildFlow(n.kind, r.layout, types), flow, types);
  }

  /** A tree without stored modes, all of whose flows are known, is not changed by a second run. */
  lemma {:induction false} TreeMigrationIsIdempotent(n: Node, flow: Flow, types: Types)
    requires Ready(n, flow, types)
    ensures var r := Migrate(n, flow, flow, types); Migrate(r, flow, flow, types) == r
    decreases n, 1
  {
    ChildrenAgain(n, flow, flow, types);
    AllIdempotent(n, n.children, ChildFlow(n.kind, n.layout, types), types);
    if n.layout.Some? {
      MigrationIsIdempotent(n.layout.value, flow, IsInstance(n.kind));
      FinishedAgain(n.kind, n.layout.value, flow, flow, types);
    }
  }

  lemma {:induction false} AllIdempotent(parent: Node, ns: seq<Node>, flow: Flow, types: Types)
    requires forall c :: c in ns ==> c in parent.children && Ready(c, flow, types)
    ensures var rs := MigrateAll(ns, flow, types); MigrateAll(rs, flow, types) == rs
    decreases parent, 0, |ns|
  {
    if ns != [] {
      assert ns[0] in parent.children;
      TreeMigrationIsIdempotent(ns[0], flow, types);
      AllIdempotent(parent, ns[1..], flow, types);
    }
  }

  // ----- the three passes -----

  /** What the three passes, each over the tree the one before it left, guarantee for a whole tree. */
  lemma PassesAreTidyAndIdempotent(n: Node, early: Flow, late: Flow, types: Types)
    ensures TreeTidy(Passes(n, early, late, types), late, types)
    ensures early == late && Ready(n, late, types) ==>
              var r := Passes(n, early, late, types); Passes(r, early, late, types) == r
  {
    PassesFuse(n, early, late, types);
    MigratedTreeIsTidy(n, early, late, types);
    if early == late && Ready(n, late, types) {
      PassesFuse(Migrate(n, early, late, types), early, late, types);
      TreeMigrationIsIdempotent(n, late, types);
    }
  }

  // ----- the walk as it runs -----

  /** The visit of one node, on its layout alone. */
  method Visit(d: Draft, pass: Pass, kind: string, flow: Flow, types: Types) returns (changed: bool)
    modifies d
    ensures d.layout == Visited(pass, kind, old(d.layout), flow, types)
    ensures !changed ==> d.layout == old(d.layout)
  {
    match pass
    case Normalise => changed := d.NormaliseLayout(flow.axis, IsInstance(kind));
    case ModeFields => changed := d.ModeFieldsLayout(flow.axis, flow.align);
    case Retire =>
      changed := d.RetireRawKeysLayout(flow.axis, flow.align);
      if kind in types.owned {
        if d.layout.container != map[] {
          d.Report(Kept(set c | c in d.layout.container :: ContainerSide(c)));
        }
      } else if kind !in types.flows {
        var dropped := d.DropContainerKeys();
        changed := dropped || changed;
      }
  }

  /** One pass over a node and its children. The file is written only if the walk reports a change, and
      a walk that reports none has changed nothing. */
  method MigrateNode(pass: Pass, n: Node, flow: Flow, types: Types) returns (r: Node, changed: bool)
    ensures r == Walk(pass, n, flow, types)
    ensures !changed ==> r == n
    decreases n
  {
    var l := n.layout;
    changed := false;
    if l.Some? {
      var d := new Draft(l.value);
      changed := Visit(d, pass, n.kind, flow, types);
      l := Some(d.layout);
    }
    var children, moved := MigrateNodes(pass, n.children, ChildFlow(n.kind, l, types), types);
    changed := changed || moved;
    r := Node(n.kind, l, children);
  }

  lemma {:induction false} WalkAllStep(pass: Pass, ns: seq<Node>, n: Node, flow: Flow, types: Types)
    ensures WalkAll(pass, ns + [n], flow, types) == WalkAll(pass, ns, flow, types) + [Walk(pass, n, flow, types)]
  {
    if ns == [] {
      assert ns + [n] == [n] && [n][1..] == [];
    } else {
      WalkAllStep(pass, ns[1..], n, flow, types);
      assert (ns + [n])[1..] == ns[1..] + [n];
    }
  }

  method MigrateNodes(pass: Pass, ns: seq<Node>, flow: Flow, types: Types) returns (rs: seq<Node>, changed: bool)
    ensures rs == WalkAll(pass, ns, flow, types)
    ensures !changed ==> rs == ns
    decreases ns
  {
    rs, changed := [], false;
    for i := 0 to |ns|
      invariant rs == WalkAll(pass, ns[..i], flow, types)
      invariant !changed ==> rs == ns[..i]
    {
      WalkAllStep(pass, ns[..i], ns[i], flow, types);
      assert ns[..i + 1] == ns[..i] + [ns[i]];
      var r, moved := MigrateNode(pass, ns[i], flow, types);
      rs := rs + [r];
      changed := changed || moved;
    }
    assert ns[..|ns|] == ns;
  }
}
