/** The three passes over one node's layout, as functions from the layout before to the layout after. */
module SizePasses {
  import opened Options
  import opened SizeModel

  // ----- pass 1: normalise the raw flex keys -----

  predicate HasFlex(l: Layout) {
    l.grow.Some? || l.shrink.Some? || l.basis.Some?
  }

  predicate HasBoundFlex(l: Layout) {
    IsBound(l.grow) || IsBound(l.shrink) || IsBound(l.basis)
  }

  /** `grow` and `basis` say nothing a browser would not do anyway. */
  predicate IsInert(l: Layout) {
    && (l.grow.None? || l.grow == Some(NOTHING) || l.grow == Some(Flag(false)))
    && (l.basis.None? || l.basis == Some(AUTO))
  }

  /** The length to store on the axis key; a stored `basis` outranks it. */
  function Promoted(l: Layout, axis: Axis): Option<Value> {
    if IsLength(l.basis) then l.basis else if IsLength(Size(l, axis)) then Size(l, axis) else None
  }

  function Normalised(l: Layout, axis: Option<Axis>, explicit: bool): Layout {
    if !HasFlex(l) || HasBoundFlex(l) then l
    else if axis.None? then
      if !explicit && IsInert(l) then l.(grow := None, basis := None) else l
    else if IsBound(Size(l, axis.value)) || IsPositive(l.grow) then l
    else
      var flex := if explicit then l.(grow := Some(NOTHING), basis := Some(AUTO)) else l.(grow := None, basis := None);
      SetSize(flex.(shrink := Some(NOTHING)), axis.value, Promoted(l, axis.value))
  }

  // ----- pass 2: store the modes that can be read -----

  function MainAxisMode(l: Layout, axis: Axis): Option<Value> {
    if IsBound(Size(l, axis)) || HasBoundFlex(l) then None
    else if IsLiteral(Size(l, axis)) then Some(FIXED)
    else if IsPositive(l.grow) then Some(FILL) else Some(HUG)
  }

  /** What the cross axis does when the node does not align itself. */
  function Inherited(align: string): Value {
    if align == "stretch" then FILL else HUG
  }

  function CrossAxisMode(l: Layout, cross: Axis, align: string): Option<Value> {
    if IsBound(Size(l, cross)) || IsBound(l.alignSelf) then None
    else if IsLiteral(Size(l, cross)) then Some(FIXED)
    else if l.alignSelf.None? || l.alignSelf == Some(AUTO) then Some(Inherited(align))
    else Some(if l.alignSelf == Some(Text("stretch")) then FILL else HUG)
  }

  /** Pin the content size of a node that grew from a basis other than zero. */
  function Floored(l: Layout, axis: Axis): (r: Layout)
    ensures r == l.(minWidth := r.minWidth, minHeight := r.minHeight)
  {
    if l.basis == Some(Text("0")) then l
    else if Floor(l, axis).None? || IsZeroLength(Floor(l, axis).value) then SetFloor(l, axis, AUTO)
    else l
  }

  function WithoutMainKeys(l: Layout): Layout {
    l.(basis := None, shrink := None)
  }

  function WithMainMode(l: Layout, axis: Axis): Layout {
    var mode := MainAxisMode(l, axis);
    if mode.None? then l
    else WithoutMainKeys(SetMode(if mode.value == FILL then Floored(l, axis) else l, axis, mode.value))
  }

  function WithCrossMode(l: Layout, cross: Axis, align: string): Layout {
    var mode := CrossAxisMode(l, cross, align);
    if mode.None? then l else SetMode(l, cross, mode.value).(alignSelf := None)
  }

  function Moded(l: Layout, axis: Option<Axis>, align: string): Layout {
    if axis.None? || l.widthMode.Some? || l.heightMode.Some? then l
    else WithCrossMode(WithMainMode(l, axis.value), Other(axis.value), align)
  }

  // ----- pass 3: retire every key the panel has no row for -----

  /** The size in effect: a `basis` that is bound or a length outranks the axis key. */
  function SizeInEffect(l: Layout, axis: Axis): Option<Value> {
    if IsBound(l.basis) || IsLength(l.basis) then l.basis else Size(l, axis)
  }

  function WithReadMode(l: Layout, axis: Axis): Layout {
    var size := SizeInEffect(l, axis);
    if IsBound(size) then
      SetSize(SetMode(l, axis, ModeSwitch(size.value).GetOr(FIXED)), axis, size)
    else
      var sized := if IsLength(l.basis) then SetSize(l, axis, l.basis) else l;
      var loose := if IsBound(sized.shrink) then sized.(shrink := None) else sized;
      var mode := MainAxisMode(loose, axis);
      if mode.Some? then SetMode(loose, axis, mode.value) else loose
  }

  /** A growing node whose basis Fill has nowhere to carry. */
  predicate IsLeftGrowing(l: Layout) {
    IsBound(l.basis) && Grows(l.grow)
  }

  function RetiredMain(l: Layout, axis: Axis): Layout {
    if Mode(l, axis).Some? then WithoutMainKeys(l)
    else if IsLeftGrowing(l) then l
    else if Grows(l.grow) then WithoutMainKeys(Floored(SetMode(l, axis, FILL), axis))
    else WithoutMainKeys(WithReadMode(l, axis))
  }

  function BoundCrossMode(l: Layout, cross: Axis, align: string): Option<Value> {
    if IsBound(Size(l, cross)) then Some(FIXED)
    else if IsBound(l.alignSelf) then Some(Inherited(align))
    else None
  }

  function RetiredCross(l: Layout, cross: Axis, align: string): Layout {
    if Mode(l, cross).Some? then l.(alignSelf := None)
    else
      var read := CrossAxisMode(l, cross, align);
      var mode := if read.Some? then read else BoundCrossMode(l, cross, align);
      if mode.Some? then SetMode(l, cross, mode.value).(alignSelf := None) else l
  }

  predicate IsStale(mode: Option<Value>) {
    mode.Some? && mode.value.Text? && mode.value != FILL
  }

  function WithoutStaleGrow(l: Layout, axis: Axis): Layout {
    if IsStale(Mode(l, axis)) then l.(grow := None) else l
  }

  function Retired(l: Layout, axis: Option<Axis>, align: string): Layout {
    var m := l.(margins := map[]);
    if axis.None? then m.(basis := None, shrink := None, alignSelf := None)
    else WithoutStaleGrow(RetiredCross(RetiredMain(m, axis.value), Other(axis.value), align), axis.value)
  }

  // ----- the pipeline -----

  /** Where a node sits: its parent's main axis, if known, and its parent's alignment. */
  datatype Flow = Flow(axis: Option<Axis>, align: string)

  /** The three passes in order. A component definition's root is read under another flow in the last
      one; every other node under the same flow throughout. */
  function Migrated(l: Layout, early: Flow, late: Flow, explicit: bool): Layout {
    Retired(Moded(Normalised(l, early.axis, explicit), early.axis, early.align), late.axis, late.align)
  }

  predicate Agree(early: Flow, late: Flow) {
    early.axis.Some? ==> early == late
  }
}
