/** The passes over widget trees: each pass walks the tree on its own and works out, from the nodes as
    it has just left them, the flow their children sit under. */
module SizeTrees {
  import opened Options
  import opened SizeModel
  import opened SizePasses

  /** A widget. `kind` is its type name; a component instance names its definition. */
  datatype Node = Node(kind: string, layout: Option<Layout>, children: seq<Node>)

  /** The widget catalogs: which types flow their children, and which the project implements itself. */
  datatype Types = Types(flows: set<string>, owned: set<string>)

  const INSTANCE := "$component:"
  const SLOT_FLOW := Flow(Some(Column), "stretch")

  predicate IsInstance(kind: string) {
    INSTANCE <= kind
  }

  // ----- flows -----

  function Authored(l: Option<Layout>, key: ContainerKey): Option<Value> {
    if l.Some? && key in l.value.container then Some(l.value.container[key]) else None
  }

  function ChildAxis(kind: string, l: Option<Layout>, types: Types): Option<Axis> {
    if kind !in types.flows || IsBound(Authored(l, Direction)) then None
    else Some(if Authored(l, Direction) == Some(Text("column")) then Column else Row)
  }

  function ChildAlign(l: Option<Layout>): string {
    var align := Authored(l, Align);
    if align.Some? && align.value.Text? && align.value.text != "" then align.value.text else "stretch"
  }

  /** The flow a node's own children are laid out under. */
  function ChildFlow(kind: string, l: Option<Layout>, types: Types): Flow {
    if IsInstance(kind) then SLOT_FLOW else Flow(ChildAxis(kind, l, types), ChildAlign(l))
  }

  // ----- one pass -----

  datatype Pass = Normalise | ModeFields | Retire

  /** The container half of a layout goes, unless the type flows its children or is the project's own. */
  function WithoutContainer(kind: string, l: Layout, types: Types): Layout {
    if kind !in types.owned && kind !in types.flows then l.(container := map[]) else l
  }

  function Visited(pass: Pass, kind: string, l: Layout, flow: Flow, types: Types): Layout {
    match pass
    case Normalise => Normalised(l, flow.axis, IsInstance(kind))
    case ModeFields => Moded(l, flow.axis, flow.align)
    case Retire => WithoutContainer(kind, Retired(l, flow.axis, flow.align), types)
  }

  function VisitedIn(pass: Pass, n: Node, flow: Flow, types: Types): Option<Layout> {
    if n.layout.None? then None else Some(Visited(pass, n.kind, n.layout.value, flow, types))
  }

  function Walk(pass: Pass, n: Node, flow: Flow, types: Types): Node {
    var l := VisitedIn(pass, n, flow, types);
    Node(n.kind, l, WalkAll(pass, n.children, ChildFlow(n.kind, l, types), types))
  }

  function WalkAll(pass: Pass, ns: seq<Node>, flow: Flow, types: Types): seq<Node>
    ensures |WalkAll(pass, ns, flow, types)| == |ns|
  {
    if ns == [] then [] else [Walk(pass, ns[0], flow, types)] + WalkAll(pass, ns[1..], flow, types)
  }

  /** The three passes, each over the tree the one before it left. */
  function Passes(n: Node, early: Flow, late: Flow, types: Types): Node {
    Walk(Retire, Walk(ModeFields, Walk(Normalise, n, early, types), early, types), late, types)
  }

  // ----- the same, as a single walk -----

  function Finished(kind: string, l: Layout, early: Flow, late: Flow, types: Types): Layout {
    WithoutContainer(kind, Migrated(l, early, late, IsInstance(kind)), types)
  }

  function FinishedIn(n: Node, early: Flow, late: Flow, types: Types): Option<Layout> {
    if n.layout.None? then None else Some(Finished(n.kind, n.layout.value, early, late, types))
  }

  /** Every layout is migrated once, under the flow that the tree has as authored. */
  function Migrate(n: Node, early: Flow, late: Flow, types: Types): Node {
    var flow := ChildFlow(n.kind, n.layout, types);
    Node(n.kind, FinishedIn(n, early, late, types), MigrateAll(n.children, flow, types))
  }

  function MigrateAll(ns: seq<Node>, flow: Flow, types: Types): seq<Node>
    ensures |MigrateAll(ns, flow, types)| == |ns|
  {
    if ns == [] then [] else [Migrate(ns[0], flow, flow, types)] + MigrateAll(ns[1..], flow, types)
  }

  // ----- the flows agree across the passes -----

  /** Two flows that no pass can tell apart. */
  predicate Similar(f: Flow, g: Flow) {
    f.axis == g.axis && (f.axis.Some? ==> f.align == g.align)
  }

  lemma NormalisedKeepsContainer(l: Layout, axis: Option<Axis>, explicit: bool)
    ensures Normalised(l, axis, explicit).container == l.container
  {
  }

  lemma ModedKeepsContainer(l: Layout, axis: Option<Axis>, align: string)
    ensures Moded(l, axis, align).container == l.container
  {
  }

  lemma ReadModeKeepsContainer(l: Layout, axis: Axis)
    ensures WithReadMode(l, axis).container == l.container
  {
    if IsBound(SizeInEffect(l, axis)) {
    } else if IsLength(l.basis) {
    } else {
    }
  }

  lemma RetiredKeepsContainer(l: Layout, axis: Option<Axis>, align: string)
    ensures Retired(l, axis, align).container == l.container
  {
    if axis.Some? {
      var m := l.(margins := map[]);
      ReadModeKeepsContainer(m, axis.value);
      assert RetiredMain(m, axis.value).container == l.container;
    }
  }

  /** No pass moves the children of a node to another axis, although the last one drops `direction` and
      `align` from nodes that do not flow their children. */
  lemma VisitKeepsChildFlow(pass: Pass, n: Node, flow: Flow, types: Types)
    ensures Similar(ChildFlow(n.kind, VisitedIn(pass, n, flow, types), types), ChildFlow(n.kind, n.layout, types))
  {
    if n.layout.Some? {
      var l := n.layout.value;
      match pass
      case Normalise => NormalisedKeepsContainer(l, flow.axis, IsInstance(n.kind));
      case ModeFields => ModedKeepsContainer(l, flow.axis, flow.align);
      case Retire => RetiredKeepsContainer(l, flow.axis, flow.align);
    }
  }

  lemma VisitedAlike(pass: Pass, kind: string, l: Layout, f: Flow, g: Flow, types: Types)
    requires Similar(f, g)
    ensures Visited(pass, kind, l, f, types) == Visited(pass, kind, l, g, types)
  {
  }

  lemma WalkedAlike(pass: Pass, n: Node, f: Flow, g: Flow, types: Types)
    requires Similar(f, g)
    ensures Walk(pass, n, f, types) == Walk(pass, n, g, types)
  {
    if n.layout.Some? { VisitedAlike(pass, n.kind, n.layout.value, f, g, types); }
  }

  lemma {:induction false} WalkedAllAlike(pass: Pass, ns: seq<Node>, f: Flow, g: Flow, types: Types)
    requires Similar(f, g)
    ensures WalkAll(pass, ns, f, types) == WalkAll(pass, ns, g, types)
  {
    if ns != [] {
      WalkedAlike(pass, ns[0], f, g, types);
      WalkedAllAlike(pass, ns[1..], f, g, types);
    }
  }

  // ----- the passes fuse -----

  function PassesAll(ns: seq<Node>, flow: Flow, types: Types): seq<Node> {
    WalkAll(Retire, WalkAll(ModeFields, WalkAll(Normalise, ns, flow, types), flow, types), flow, types)
  }

  /** The children of a node see one flow: the one the tree has as authored. */
  lemma ChildrenOfPasses(n: Node, early: Flow, late: Flow, types: Types)
    ensures Passes(n, early, late, types).children == PassesAll(n.children, ChildFlow(n.kind, n.layout, types), types)
  {
    var flow := ChildFlow(n.kind, n.layout, types);
    var n1 := Walk(Normalise, n, early, types);
    VisitKeepsChildFlow(Normalise, n, early, types);
    WalkedAllAlike(Normalise, n.children, ChildFlow(n.kind, n1.layout, types), flow, types);
    var n2 := Walk(ModeFields, n1, early, types);
    VisitKeepsChildFlow(ModeFields, n1, early, types);
    WalkedAllAlike(ModeFields, n1.children, ChildFlow(n.kind, n2.layout, types), flow, types);
    var n3 := Walk(Retire, n2, late, types);
    VisitKeepsChildFlow(Retire, n2, late, types);
    WalkedAllAlike(Retire, n2.children, ChildFlow(n.kind, n3.layout, types), flow, types);
  }

  /** The three passes over a whole tree come to one migration of every layout, each under a single
      known or unknown axis. A component definition's root, which is read under another flow in the last
      pass, is the only node for which the two flows differ. */
  lemma {:induction false} PassesFuse(n: Node, early: Flow, late: Flow, types: Types)
    ensures Passes(n, early, late, types) == Migrate(n, early, late, types)
    decreases n, 1
  {
    ChildrenOfPasses(n, early, late, types);
    PassesAllFuse(n, n.children, ChildFlow(n.kind, n.layout, types), types);
  }

  lemma {:induction false} PassesAllFuse(parent: Node, ns: seq<Node>, flow: Flow, types: Types)
    requires forall c :: c in ns ==> c in parent.children
    ensures PassesAll(ns, flow, types) == MigrateAll(ns, flow, types)
    decreases parent, 0, |ns|
  {
    if ns != [] {
      assert ns[0] in parent.children;
      PassesFuse(ns[0], flow, flow, types);
      PassesAllFuse(parent, ns[1..], flow, types);
      var a := WalkAll(Normalise, ns, flow, types);
      var b := WalkAll(ModeFields, a, flow, types);
      assert a[1..] == WalkAll(Normalise, ns[1..], flow, types);
      assert b[1..] == WalkAll(ModeFields, a[1..], flow, types);
    }
  }
}
