/** What the three passes guarantee for one layout, whatever mix of literals, bindings and switches it
    holds. */
module SizeTheorems {
  import opened Options
  import opened SizeModel
  import opened SizePasses

  // ----- normal form -----

  /** The node keeps its raw flex keys: no mode was stored, and its bound basis grows. */
  predicate IsLeftRaw(l: Layout, axis: Axis) {
    Mode(l, axis).None? && IsLeftGrowing(l)
  }

  lemma NormalisedKeepsRaw(l: Layout, axis: Option<Axis>, explicit: bool)
    ensures var n := Normalised(l, axis, explicit);
      && (IsLeftGrowing(n) <==> IsLeftGrowing(l)) && (IsLeftGrowing(l) ==> n == l)
      && n.widthMode == l.widthMode && n.heightMode == l.heightMode
  {
  }

  lemma ModedKeepsRaw(l: Layout, axis: Axis, align: string)
    ensures var n := Moded(l, Some(axis), align);
      && (IsLeftRaw(n, axis) <==> IsLeftRaw(l, axis)) && (IsLeftRaw(l, axis) ==> n.shrink == l.shrink)
  {
  }

  /** The node's main axis is as it was, raw keys included. */
  predicate SameMain(l: Layout, r: Layout, axis: Axis) {
    && Size(r, axis) == Size(l, axis) && Mode(r, axis) == Mode(l, axis) && Floor(r, axis) == Floor(l, axis)
    && r.basis == l.basis && r.shrink == l.shrink && r.grow == l.grow
  }

  /** Pass 3 always finds a mode for a node that does not grow: its last branch, which would leave the
      size undetermined, is never taken. */
  lemma ModeIsAlwaysWritten(l: Layout, axis: Axis)
    requires !Grows(l.grow)
    ensures var r := WithReadMode(l, axis);
      Mode(r, axis).Some? && r.grow == l.grow && r.margins == l.margins
  {
    if IsBound(SizeInEffect(l, axis)) {
    } else if IsLength(l.basis) {
      assert Size(SetSize(l, axis, l.basis), axis) == l.basis;
    }
  }

  lemma RetiredMainForm(l: Layout, axis: Axis)
    ensures var r, raw := RetiredMain(l, axis), IsLeftRaw(l, axis);
      && r.margins == l.margins
      && (Mode(r, axis).Some? <==> !raw) && (r.basis.Some? <==> raw)
      && r.shrink == (if raw then l.shrink else None) && r.grow == l.grow
  {
    if Mode(l, axis).Some? {
    } else if Grows(l.grow) {
    } else {
      ModeIsAlwaysWritten(l, axis);
    }
  }

  /** Past the main axis, pass 3 only touches the cross mode, `alignSelf` and a stale `grow`. */
  lemma RetiredCrossForm(l: Layout, axis: Axis, align: string)
    ensures var r := RetiredCross(l, Other(axis), align);
      SameMain(l, r, axis) && r.margins == l.margins && r.alignSelf.None? && Mode(r, Other(axis)).Some?
  {
  }

  lemma RetiredForm(l: Layout, axis: Axis, align: string)
    ensures var n, r := RetiredMain(l.(margins := map[]), axis), Retired(l, Some(axis), align);
      && r.margins == n.margins && r.alignSelf.None? && Mode(r, Other(axis)).Some?
      && SameMain(if IsStale(Mode(n, axis)) then n.(grow := None) else n, r, axis)
  {
    RetiredCrossForm(RetiredMain(l.(margins := map[]), axis), axis, align);
  }

  lemma RetiredNormalForm(l: Layout, axis: Axis, align: string)
    ensures var r, raw := Retired(l, Some(axis), align), IsLeftRaw(l, axis);
      && r.margins == map[] && r.alignSelf.None? && Mode(r, Other(axis)).Some?
      && (Mode(r, axis).Some? <==> !raw) && (r.basis.Some? <==> raw)
      && r.shrink == (if raw then l.shrink else None)
      && (r.grow.Some? ==> !IsStale(Mode(r, axis)))
  {
    RetiredMainForm(l.(margins := map[]), axis);
    RetiredForm(l, axis, align);
  }

  /** The normal form. No margin and no `alignSelf` survives anywhere. Under a known axis both modes
      are written - so no size is ever left undetermined - and `basis` and `shrink` are gone, with one
      exception: a node without a stored mode whose basis is bound and whose grow can grow keeps its
      raw main-axis keys. Under an unknown axis all three raw keys are gone. */
  lemma NormalForm(l: Layout, early: Flow, late: Flow, explicit: bool)
    requires Agree(early, late)
    ensures var r := Migrated(l, early, late, explicit);
      && r.margins == map[] && r.alignSelf.None?
      && match late.axis
         case None => r.basis.None? && r.shrink.None?
         case Some(axis) =>
           var raw := IsLeftRaw(l, axis);
           && Mode(r, Other(axis)).Some? && (Mode(r, axis).Some? <==> !raw)
           && (r.basis.Some? <==> raw) && r.shrink == (if raw then l.shrink else None)
           && (r.grow.Some? ==> !IsStale(Mode(r, axis)))
  {
    var n := Normalised(l, early.axis, explicit);
    NormalisedKeepsRaw(l, early.axis, explicit);
    if late.axis.Some? {
      if early.axis.Some? { ModedKeepsRaw(n, late.axis.value, early.align); }
      RetiredNormalForm(Moded(n, early.axis, early.align), late.axis.value, late.align);
    }
  }

  // ----- the size in effect -----

  /** What the pipeline owes the main axis of a node that does not grow. */
  predicate SizeKept(size: Option<Value>, r: Layout, axis: Axis) {
    && (IsBound(size) || IsLength(size) ==> Size(r, axis) == size)
    && (IsLength(size) ==> Mode(r, axis) == Some(FIXED))
    && (IsBound(size) ==> Mode(r, axis) == Some(ModeSwitch(size.value).GetOr(FIXED)))
    && (size.None? ==> Size(r, axis).None? && Mode(r, axis) == Some(HUG))
    && (!IsBound(size) ==> Mode(r, axis) == Some(FIXED) || Mode(r, axis) == Some(HUG))
  }

  /** Past pass 1, a basis that is a length stays only beside a binding. */
  predicate IsPromoted(l: Layout, axis: Axis) {
    IsLength(l.basis) ==> HasBoundFlex(l) || IsBound(Size(l, axis))
  }

  /** The same size is in effect, or there was none and the axis key is clear. */
  predicate SameSize(before: Option<Value>, after: Option<Value>) {
    after == before || (after.None? && before.Some? && !IsBound(before) && !IsLength(before))
  }

  lemma NormalisedKeepsSize(l: Layout, axis: Axis, known: bool, explicit: bool)
    requires !Grows(l.grow)
    ensures var n := Normalised(l, if known then Some(axis) else None, explicit);
      && !Grows(n.grow) && SameSize(SizeInEffect(l, axis), SizeInEffect(n, axis))
      && (known ==> IsPromoted(n, axis))
  {
    assert Strip("auto") == "auto";
  }

  lemma LengthIsLiteral(v: Option<Value>)
    ensures IsLength(v) ==> IsLiteral(v)
  {
  }

  lemma WithMainModeKeepsSize(l: Layout, axis: Axis)
    requires Mode(l, axis).None? && !Grows(l.grow) && IsPromoted(l, axis)
    ensures var n := WithMainMode(l, axis);
      && n.grow == l.grow
      && if Mode(n, axis).Some? then SizeKept(SizeInEffect(l, axis), n, axis) else n == l
  {
    LengthIsLiteral(Size(l, axis));
  }

  lemma ModedKeepsSize(l: Layout, axis: Axis, align: string)
    requires Mode(l, axis).None? && !Grows(l.grow) && IsPromoted(l, axis)
    ensures var n := Moded(l, Some(axis), align);
      && n.grow == l.grow
      && if Mode(n, axis).Some? then SizeKept(SizeInEffect(l, axis), n, axis)
         else SizeInEffect(n, axis) == SizeInEffect(l, axis)
  {
    WithMainModeKeepsSize(l, axis);
    WithCrossModeForm(WithMainMode(l, axis), axis, align);
  }

  lemma ReadModeKeepsSize(l: Layout, axis: Axis)
    requires !Grows(l.grow)
    ensures SizeKept(SizeInEffect(l, axis), WithReadMode(l, axis), axis)
  {
    LengthIsLiteral(Size(l, axis));
    LengthIsLiteral(l.basis);
    if IsBound(SizeInEffect(l, axis)) {
    } else if IsLength(l.basis) {
      assert Size(SetSize(l, axis, l.basis), axis) == l.basis;
    }
  }

  lemma RetiredKeepsSize(l: Layout, axis: Axis, align: string)
    requires !Grows(l.grow)
    ensures var r := Retired(l, Some(axis), align);
      if Mode(l, axis).Some? then Size(r, axis) == Size(l, axis) && Mode(r, axis) == Mode(l, axis)
      else SizeKept(SizeInEffect(l, axis), r, axis)
  {
    RetiredForm(l, axis, align);
    if Mode(l, axis).None? { ReadModeKeepsSize(l.(margins := map[]), axis); }
  }

  /** Without growth, the size in effect - a basis that is bound or a length, otherwise the axis key -
      ends up on the axis key; its mode is Fixed for a length, the same switch of modes for a readable
      switch, Fixed for any other binding, and Hug when no size is set. */
  lemma SizeIsPreserved(l: Layout, early: Flow, late: Flow, explicit: bool)
    requires Agree(early, late) && late.axis.Some?
    requires Mode(l, late.axis.value).None? && !Grows(l.grow)
    ensures SizeKept(SizeInEffect(l, late.axis.value), Migrated(l, early, late, explicit), late.axis.value)
  {
    var axis := late.axis.value;
    var n := Normalised(l, early.axis, explicit);
    NormalisedKeepsSize(l, axis, early.axis.Some?, explicit);
    NormalisedKeepsRaw(l, early.axis, explicit);
    if early.axis.Some? { ModedKeepsSize(n, axis, early.align); }
    RetiredKeepsSize(Moded(n, early.axis, early.align), axis, late.align);
  }

  // ----- growing nodes -----

  /** What a node that becomes Fill keeps: its weight, its stored length, and - unless it grew from a
      zero basis - a floor that holds its content size up. */
  predicate FillKept(l: Layout, r: Layout, axis: Axis) {
    && Mode(r, axis) == Some(FILL) && r.grow == l.grow && Size(r, axis) == Size(l, axis)
    && (l.basis == Some(Text("0")) ==> Floor(r, axis) == Floor(l, axis))
    && (l.basis != Some(Text("0")) ==>
          && Floor(r, axis).Some? && !IsZeroLength(Floor(r, axis).value)
          && (Floor(l, axis).Some? && !IsZeroLength(Floor(l, axis).value) ==> Floor(r, axis) == Floor(l, axis)))
  }

  /** Pass 2 reads a literal length before it reads growth. */
  predicate IsReadAsFixed(l: Layout, axis: Axis, known: bool) {
    known && l.widthMode.None? && l.heightMode.None? && MainAxisMode(l, axis) == Some(FIXED)
  }

  lemma AutoIsNotZero()
    ensures !IsZeroLength(AUTO)
  {
    assert Strip("auto") == "auto";
    assert "auto"[..3] == "aut" && "aut"[..2] == "au" && "au"[..1] == "a" && "a"[..0] == "";
    assert WithoutUnit("a") == "" && WithoutUnit("au") == "" && WithoutUnit("aut") == "" && WithoutUnit("auto") == "";
  }

  lemma FloorIsKept(l: Layout, axis: Axis)
    ensures FillKept(l, WithoutMainKeys(SetMode(Floored(l, axis), axis, FILL)), axis)
    ensures Floored(SetMode(l, axis, FILL), axis) == SetMode(Floored(l, axis), axis, FILL)
  {
    AutoIsNotZero();
  }

  lemma WithMainModeFills(l: Layout, axis: Axis)
    requires Grows(l.grow) && Mode(l, axis).None?
    ensures var n := WithMainMode(l, axis);
      match MainAxisMode(l, axis)
      case None => n == l
      case Some(mode) =>
        && Mode(n, axis) == Some(mode) && n.grow == l.grow && !IsBound(l.basis) && Size(n, axis) == Size(l, axis)
        && (mode == FIXED || FillKept(l, n, axis))
  {
    FloorIsKept(l, axis);
  }

  lemma WithCrossModeForm(l: Layout, axis: Axis, align: string)
    ensures SameMain(l, WithCrossMode(l, Other(axis), align), axis)
  {
  }

  lemma ModedFills(l: Layout, axis: Axis, align: string)
    requires Grows(l.grow) && Mode(l, axis).None?
    ensures var n := Moded(l, Some(axis), align);
      && n.grow == l.grow
      && if Mode(n, axis).None? then !IsReadAsFixed(l, axis, true) && SameMain(l, n, axis)
         else if IsReadAsFixed(l, axis, true) then Mode(n, axis) == Some(FIXED) && Size(n, axis) == Size(l, axis)
         else !IsBound(l.basis) && FillKept(l, n, axis)
  {
    WithMainModeFills(l, axis);
    WithCrossModeForm(WithMainMode(l, axis), axis, align);
  }

  lemma RetiredFills(l: Layout, axis: Axis, align: string)
    requires Grows(l.grow)
    ensures var r := Retired(l, Some(axis), align);
      if Mode(l, axis).Some? then
        && Size(r, axis) == Size(l, axis) && Mode(r, axis) == Mode(l, axis) && Floor(r, axis) == Floor(l, axis)
        && r.grow == (if IsStale(Mode(l, axis)) then None else l.grow)
      else if IsBound(l.basis) then SameMain(l, r, axis)
      else FillKept(l, r, axis)
  {
    RetiredForm(l, axis, align);
    FloorIsKept(l.(margins := map[]), axis);
  }

  /** Growth becomes Fill with its weight and its content floor, with two exceptions that follow from
      the order of the passes: a bound basis is left raw, and a node that pass 2 can read with a literal
      length becomes Fixed at that length and loses its weight. */
  lemma GrowthBecomesFill(l: Layout, early: Flow, late: Flow, explicit: bool)
    requires Agree(early, late) && late.axis.Some?
    requires Mode(l, late.axis.value).None? && Grows(l.grow)
    ensures var r, axis := Migrated(l, early, late, explicit), late.axis.value;
      if IsReadAsFixed(l, axis, early.axis.Some?) then
        Mode(r, axis) == Some(FIXED) && Size(r, axis) == Size(l, axis) && r.grow.None?
      else if IsBound(l.basis) then SameMain(l, r, axis)
      else FillKept(l, r, axis)
  {
    assert Normalised(l, early.axis, explicit) == l;
    if early.axis.Some? { ModedFills(l, late.axis.value, early.align); }
    RetiredFills(Moded(l, early.axis, early.align), late.axis.value, late.align);
  }

  // ----- the cross axis -----

  /** What the cross axis should read: a length of any kind is Fixed; without one the node is Fill where
      it stretches, by its own alignment or, if that is unset or bound, by its parent's. */
  function CrossRead(l: Layout, cross: Axis, align: string): Value {
    if IsBound(Size(l, cross)) || IsLiteral(Size(l, cross)) then FIXED
    else if l.alignSelf.None? || l.alignSelf == Some(AUTO) || IsBound(l.alignSelf) then Inherited(align)
    else if l.alignSelf == Some(Text("stretch")) then FILL
    else HUG
  }

  /** A literal length beside a bound `alignSelf`: pass 3 drops the binding without looking at the length. */
  predicate IsMisread(l: Layout, cross: Axis) {
    IsLiteral(Size(l, cross)) && IsBound(l.alignSelf)
  }

  function CrossWritten(l: Layout, cross: Axis, align: string): Option<Value> {
    if Mode(l, cross).Some? then Mode(l, cross)
    else Some(if IsMisread(l, cross) then Inherited(align) else CrossRead(l, cross, align))
  }

  lemma EarlyKeepsCross(l: Layout, early: Flow, axis: Axis, explicit: bool)
    requires early.axis.Some? ==> early.axis == Some(axis)
    ensures var n, cross := Moded(Normalised(l, early.axis, explicit), early.axis, early.align), Other(axis);
      && Size(n, cross) == Size(l, cross)
      && ((Mode(n, cross) == Mode(l, cross) && n.alignSelf == l.alignSelf)
          || (Mode(l, cross).None? && Mode(n, cross) == CrossWritten(l, cross, early.align)))
  {
    var n := Normalised(l, early.axis, explicit);
    assert Size(n, Other(axis)) == Size(l, Other(axis)) && Mode(n, Other(axis)) == Mode(l, Other(axis));
    assert n.alignSelf == l.alignSelf;
    MainLeavesCross(n, axis);
  }

  lemma MainLeavesCross(l: Layout, axis: Axis)
    ensures var n := WithMainMode(l, axis);
      Size(n, Other(axis)) == Size(l, Other(axis)) && Mode(n, Other(axis)) == Mode(l, Other(axis)) && n.alignSelf == l.alignSelf
  {
  }

  lemma ReadModeLeavesCross(l: Layout, axis: Axis)
    ensures var n := WithReadMode(l, axis);
      Size(n, Other(axis)) == Size(l, Other(axis)) && Mode(n, Other(axis)) == Mode(l, Other(axis)) && n.alignSelf == l.alignSelf
  {
    if IsBound(SizeInEffect(l, axis)) {
    } else if IsLength(l.basis) {
    } else {
    }
  }

  lemma RetiredMainLeavesCross(l: Layout, axis: Axis)
    ensures var n := RetiredMain(l, axis);
      Size(n, Other(axis)) == Size(l, Other(axis)) && Mode(n, Other(axis)) == Mode(l, Other(axis)) && n.alignSelf == l.alignSelf
  {
    if Mode(l, axis).Some? {
    } else if Grows(l.grow) {
    } else {
      ReadModeLeavesCross(l, axis);
    }
  }

  lemma RetiredCrossReads(l: Layout, cross: Axis, align: string)
    ensures var r := RetiredCross(l, cross, align);
      && Size(r, cross) == Size(l, cross)
      && Mode(r, cross) == CrossWritten(l, cross, align)
  {
  }

  lemma RetiredReadsCross(l: Layout, axis: Axis, align: string)
    ensures var r, cross := Retired(l, Some(axis), align), Other(axis);
      && Size(r, cross) == Size(l, cross)
      && Mode(r, cross) == CrossWritten(l, cross, align)
  {
    var m := l.(margins := map[]);
    RetiredMainLeavesCross(m, axis);
    RetiredCrossReads(RetiredMain(m, axis), Other(axis), align);
    assert CrossWritten(RetiredMain(m, axis), Other(axis), align) == CrossWritten(l, Other(axis), align);
  }

  /** The cross axis keeps its size and a stored mode. Without one it gets the mode it should read,
      whichever pass comes to write it, if and only if no literal length stands beside a bound
      `alignSelf`: then the mode comes from the parent's alignment, and the length is left without effect. */
  lemma CrossIsPreserved(l: Layout, early: Flow, late: Flow, explicit: bool)
    requires Agree(early, late) && late.axis.Some?
    ensures var r, cross := Migrated(l, early, late, explicit), Other(late.axis.value);
      && Size(r, cross) == Size(l, cross)
      && (Mode(l, cross).Some? ==> Mode(r, cross) == Mode(l, cross))
      && (Mode(l, cross).None? ==> (Mode(r, cross) == Some(CrossRead(l, cross, late.align)) <==> !IsMisread(l, cross)))
      && (Mode(l, cross).None? && IsMisread(l, cross) ==> Mode(r, cross) == Some(Inherited(late.align)))
  {
    var axis := late.axis.value;
    EarlyKeepsCross(l, early, axis, explicit);
    RetiredReadsCross(Moded(Normalised(l, early.axis, explicit), early.axis, early.align), axis, late.align);
  }

  // ----- running the step again -----

  /** The shape every migrated layout has. */
  predicate Tidy(r: Layout, late: Flow) {
    && r.margins == map[] && r.alignSelf.None?
    && match late.axis
       case None => r.basis.None? && r.shrink.None?
       case Some(axis) =>
         && Mode(r, Other(axis)).Some?
         && (if Mode(r, axis).Some? then r.basis.None? && r.shrink.None? else IsLeftGrowing(r))
         && (r.grow.Some? ==> !IsStale(Mode(r, axis)))
  }

  lemma RetiredTidies(l: Layout, axis: Axis, align: string)
    ensures Tidy(Retired(l, Some(axis), align), Flow(Some(axis), align))
  {
    RetiredNormalForm(l, axis, align);
    RetiredForm(l, axis, align);
  }

  lemma MigratedTidies(l: Layout, early: Flow, late: Flow, explicit: bool)
    ensures Tidy(Migrated(l, early, late, explicit), late)
  {
    var m := Moded(Normalised(l, early.axis, explicit), early.axis, early.align);
    if late.axis.Some? { RetiredTidies(m, late.axis.value, late.align); }
  }

  /** On a migrated layout the step comes down to pass 1: the keys that pass adds are retired again. */
  function Rerun(r: Layout, early: Flow, explicit: bool): Layout {
    Normalised(r, early.axis, explicit).(basis := r.basis, shrink := r.shrink)
  }

  lemma TidyRun(r: Layout, early: Flow, late: Flow, explicit: bool)
    requires Tidy(r, late) && Agree(early, late)
    ensures Migrated(r, early, late, explicit) == Rerun(r, early, explicit)
  {
    var n := Normalised(r, early.axis, explicit);
    assert Moded(n, early.axis, early.align) == n;
    if late.axis.Some? {
      assert RetiredMain(n, late.axis.value) == n.(basis := r.basis, shrink := r.shrink);
    }
  }

  /** With a known axis and no stored main mode, running the step again changes nothing. */
  lemma MigrationIsIdempotent(l: Layout, flow: Flow, explicit: bool)
    requires flow.axis.Some? && Mode(l, flow.axis.value).None?
    ensures var r := Migrated(l, flow, flow, explicit); Migrated(r, flow, flow, explicit) == r
  {
    var r, axis := Migrated(l, flow, flow, explicit), flow.axis.value;
    MigratedTidies(l, flow, flow, explicit);
    TidyRun(r, flow, flow, explicit);
    if Grows(l.grow) { GrowthBecomesFill(l, flow, flow, explicit); } else { SizeIsPreserved(l, flow, flow, explicit); }
    assert r.grow.Some? ==> Grows(r.grow) || IsBound(Size(r, axis));
  }

  /** For any layout under any flow, a second run reaches a layout no further run changes. */
  lemma SecondRunSettles(l: Layout, early: Flow, late: Flow, explicit: bool)
    requires Agree(early, late)
    ensures var r := Migrated(Migrated(l, early, late, explicit), early, late, explicit);
      Migrated(r, early, late, explicit) == r
  {
    var r1 := Migrated(l, early, late, explicit);
    var r2 := Migrated(r1, early, late, explicit);
    MigratedTidies(l, early, late, explicit);
    MigratedTidies(r1, early, late, explicit);
    TidyRun(r1, early, late, explicit);
    TidyRun(r2, early, late, explicit);
    RerunSettles(r1, early, explicit);
  }

  /** What pass 1 makes of the grow and the size of a node it rewrites. */
  function Settled(r: Layout, axis: Axis, explicit: bool): Layout {
    SetSize(r.(grow := if explicit then Some(NOTHING) else None), axis, Promoted(r, axis))
  }

  predicate IsRewritten(r: Layout, axis: Axis) {
    HasFlex(r) && !HasBoundFlex(r) && !IsBound(Size(r, axis)) && !IsPositive(r.grow)
  }

  lemma RerunOf(r: Layout, axis: Axis, align: string, explicit: bool)
    ensures Rerun(r, Flow(Some(axis), align), explicit) == if IsRewritten(r, axis) then Settled(r, axis, explicit) else r
  {
  }

  lemma SettledIsSettled(r: Layout, axis: Axis, explicit: bool)
    requires IsRewritten(r, axis)
    ensures Settled(Settled(r, axis, explicit), axis, explicit) == Settled(r, axis, explicit)
  {
    assert Promoted(Settled(r, axis, explicit), axis) == Promoted(r, axis);
  }

  lemma RerunSettles(r: Layout, early: Flow, explicit: bool)
    ensures var r2 := Rerun(r, early, explicit); Rerun(r2, early, explicit) == r2
  {
    if early.axis.Some? {
      var axis := early.axis.value;
      RerunOf(r, axis, early.align, explicit);
      if IsRewritten(r, axis) {
        SettledIsSettled(r, axis, explicit);
        RerunOf(Settled(r, axis, explicit), axis, early.align, explicit);
      }
    }
  }

  const BARE := Layout(None, None, None, None, None, None, None, None, None, None, map[], map[], map[])

  /** Neither condition of idempotence can be dropped: a zero grow outlives the first run where the
      axis is unknown, or where the stored mode is a binding beside a bound shrink. */
  lemma OneRunMayNotSettle()
    ensures var l, flow := BARE.(grow := Some(NOTHING), basis := Some(Text("10px"))), Flow(None, "stretch");
      var r := Migrated(l, flow, flow, false);
      r == BARE.(grow := Some(NOTHING)) && Migrated(r, flow, flow, false) == BARE
    ensures var l := BARE.(grow := Some(NOTHING), shrink := Some(Source("s")), widthMode := Some(Source("m")));
      var flow := Flow(Some(Row), "center"); var r := Migrated(l, flow, flow, false);
      r.grow == Some(NOTHING) && Migrated(r, flow, flow, false) == r.(grow := None)
  {
  }
}
