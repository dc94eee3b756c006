/** The passes as they run: one layout rewritten in place, with its diagnostics. */
module SizeLayout {
  import opened Options
  import opened SizeModel
  import opened SizePasses
  import opened SizeTheorems

  datatype Key =
    | SizeKey(axis: Axis) | GrowKey | ShrinkKey | BasisKey | AlignSelfKey
    | MarginSide(margin: MarginKey) | ContainerSide(container: ContainerKey)

  /** A diagnostic, by the keys it is about: kept as authored, dropped, or read as a mode. */
  datatype Note = Kept(keys: set<Key>) | Dropped(keys: set<Key>) | Read(keys: set<Key>)

  predicate ReportsDrop(notes: seq<Note>, key: Key) {
    exists n :: n in notes && n.Dropped? && key in n.keys
  }

  /** Every drop of pass 3 is reported, or a mode was stored in the place of the key. */
  predicate DropsReported(l: Layout, r: Layout, axis: Option<Axis>, notes: seq<Note>) {
    && (forall m :: m in l.margins && m !in r.margins ==> ReportsDrop(notes, MarginSide(m)))
    && (l.basis.Some? && r.basis.None? ==>
          ReportsDrop(notes, BasisKey) || (axis.Some? && Mode(r, axis.value).Some?))
    && (l.shrink.Some? && r.shrink.None? ==>
          ReportsDrop(notes, ShrinkKey) || (axis.Some? && Mode(r, axis.value).Some?))
    && (l.alignSelf.Some? && r.alignSelf.None? ==>
          ReportsDrop(notes, AlignSelfKey) || (axis.Some? && Mode(r, Other(axis.value)).Some?))
    && (l.grow.Some? && r.grow.None? ==> ReportsDrop(notes, GrowKey))
  }

  class Draft {
    var layout: Layout
    var notes: seq<Note>

    constructor (l: Layout)
      ensures layout == l && notes == []
    {
      layout := l;
      notes := [];
    }

    method Report(note: Note)
      modifies this`notes
      ensures notes == old(notes) + [note]
    {
      notes := notes + [note];
    }

    // ----- pass 1 -----

    method NormaliseLayout(axis: Option<Axis>, explicit: bool) returns (changed: bool)
      modifies this
      ensures layout == Normalised(old(layout), axis, explicit) && old(notes) <= notes
      ensures !changed ==> layout == old(layout)
    {
      if !HasFlex(layout) {
        return false;
      }
      if IsBound(layout.grow) || IsBound(layout.shrink) || IsBound(layout.basis) {
        Report(Kept({GrowKey, ShrinkKey, BasisKey}));
        return false;
      }
      if axis.None? {
        if explicit {
          Report(Kept({GrowKey, ShrinkKey, BasisKey}));
          return false;
        }
        if IsInert(layout) {
          changed := layout.grow.Some? || layout.basis.Some?;
          layout := layout.(grow := None, basis := None);
          return;
        }
        Report(Kept({GrowKey, BasisKey}));
        return false;
      }
      var main := axis.value;
      if IsBound(Size(layout, main)) {
        Report(Kept({GrowKey, ShrinkKey, BasisKey}));
        return false;
      }
      if IsPositive(layout.grow) {
        if layout.grow.value.number != 1.0 {
          Report(Kept({GrowKey}));
        }
        return false;
      }
      var length := if IsLength(Size(layout, main)) then Size(layout, main) else None;
      if IsLength(layout.basis) {
        if length.Some? && length != layout.basis {
          Report(Dropped({SizeKey(main)}));
        }
        length := layout.basis;
      }
      if explicit {
        layout := layout.(grow := Some(NOTHING), basis := Some(AUTO));
      } else {
        layout := layout.(grow := None, basis := None);
      }
      layout := layout.(shrink := Some(NOTHING));
      layout := SetSize(layout, main, length);
      changed := true;
    }

    // ----- pass 2 -----

    method WriteContentFloor(main: Axis)
      requires layout.basis != Some(Text("0"))
      modifies this
      ensures layout == Floored(old(layout), main) && old(notes) < notes
    {
      if Floor(layout, main).None? || IsZeroLength(Floor(layout, main).value) {
        layout := SetFloor(layout, main, AUTO);
      }
      Report(Read({SizeKey(main)}));
    }

    method WriteMainField(main: Axis) returns (changed: bool)
      requires Mode(layout, main).None?
      modifies this
      ensures layout == WithMainMode(old(layout), main) && old(notes) <= notes
      ensures changed <==> layout != old(layout)
    {
      var mode := MainAxisMode(layout, main);
      if mode.None? {
        Report(Kept({SizeKey(main), GrowKey, ShrinkKey, BasisKey}));
        return false;
      }
      if mode.value == FILL && layout.basis != Some(Text("0")) {
        WriteContentFloor(main);
      }
      layout := SetMode(layout, main, mode.value).(basis := None, shrink := None);
      changed := true;
    }

    method WriteCrossField(cross: Axis, align: string) returns (changed: bool)
      requires Mode(layout, cross).None?
      modifies this
      ensures layout == WithCrossMode(old(layout), cross, align) && old(notes) <= notes
      ensures changed <==> layout != old(layout)
    {
      var mode := CrossAxisMode(layout, cross, align);
      if mode.None? {
        Report(Kept({SizeKey(cross), AlignSelfKey}));
        return false;
      }
      layout := SetMode(layout, cross, mode.value).(alignSelf := None);
      changed := true;
    }

    method ModeFieldsLayout(axis: Option<Axis>, align: string) returns (changed: bool)
      modifies this
      ensures layout == Moded(old(layout), axis, align) && old(notes) <= notes
      ensures !changed ==> layout == old(layout)
    {
      if axis.None? {
        Report(Kept({SizeKey(Row), SizeKey(Column)}));
        return false;
      }
      changed := false;
      if layout.widthMode.None? && layout.heightMode.None? {
        MainLeavesCross(layout, axis.value);
        var main := WriteMainField(axis.value);
        var cross := WriteCrossField(Other(axis.value), align);
        changed := main || cross;
      }
    }

    // ----- pass 3 -----

    method DropMargins() returns (changed: bool)
      modifies this
      ensures layout == old(layout).(margins := map[]) && old(notes) <= notes
      ensures changed <==> layout != old(layout)
      ensures forall m :: m in old(layout).margins ==> ReportsDrop(notes, MarginSide(m))
    {
      changed := layout.margins != map[];
      if changed {
        var note := Dropped(set m | m in layout.margins :: MarginSide(m));
        Report(note);
        assert note in notes;
        layout := layout.(margins := map[]);
      }
    }

    method DropRetiredKeys() returns (changed: bool)
      modifies this
      ensures layout == old(layout).(basis := None, shrink := None, alignSelf := None) && old(notes) <= notes
      ensures changed <==> layout != old(layout)
      ensures old(layout).basis.Some? ==> ReportsDrop(notes, BasisKey)
      ensures old(layout).shrink.Some? ==> ReportsDrop(notes, ShrinkKey)
      ensures old(layout).alignSelf.Some? ==> ReportsDrop(notes, AlignSelfKey)
    {
      var keys: set<Key> := if layout.basis.Some? then {BasisKey} else {};
      keys := if layout.shrink.Some? then keys + {ShrinkKey} else keys;
      keys := if layout.alignSelf.Some? then keys + {AlignSelfKey} else keys;
      changed := layout.basis.Some? || layout.shrink.Some? || layout.alignSelf.Some?;
      if changed {
        Report(Dropped(keys));
        assert Dropped(keys) in notes;
        layout := layout.(basis := None, shrink := None, alignSelf := None);
      }
    }

    /** `_write_main_mode`, for a node that does not grow. A mode is always written. */
    method WriteMainMode(main: Axis) returns (written: bool)
      requires !Grows(layout.grow)
      modifies this
      ensures layout == WithReadMode(old(layout), main) && written && old(notes) <= notes
    {
      ModeIsAlwaysWritten(layout, main);
      var size := if IsBound(layout.basis) || IsLength(layout.basis) then layout.basis else Size(layout, main);
      var modes := if size.Some? then ModeSwitch(size.value) else None;
      if modes.Some? {
        layout := SetSize(SetMode(layout, main, modes.value), main, size);
        written := true;
      } else if IsBound(size) {
        layout := SetSize(SetMode(layout, main, FIXED), main, size);
        written := true;
        Report(Read({SizeKey(main)}));
      } else {
        if IsLength(layout.basis) {
          var replaced := Size(layout, main);
          layout := SetSize(layout, main, layout.basis);
          if IsBound(replaced) {
            Report(Dropped({SizeKey(main)}));
          }
        }
        if IsBound(layout.shrink) {
          layout := layout.(shrink := None);
          Report(Dropped({ShrinkKey}));
        }
        var mode := MainAxisMode(layout, main);
        written := mode.Some?;
        if written {
          layout := SetMode(layout, main, mode.value);
        } else {
          Report(Kept({SizeKey(main)}));
        }
      }
    }

    method RetireMain(main: Axis) returns (changed: bool)
      modifies this
      ensures layout == RetiredMain(old(layout), main) && old(notes) <= notes
      ensures !changed ==> layout == old(layout)
    {
      if Mode(layout, main).Some? {
        changed := layout.basis.Some? || layout.shrink.Some?;
        layout := layout.(basis := None, shrink := None);
        return;
      }
      var written := false;
      if IsBound(layout.basis) && Grows(layout.grow) {
        Report(Kept({GrowKey, BasisKey}));
      } else if Grows(layout.grow) {
        layout := SetMode(layout, main, FILL);
        written := true;
        if layout.basis != Some(Text("0")) {
          WriteContentFloor(main);
        }
      } else {
        written := WriteMainMode(main);
      }
      if written {
        layout := layout.(basis := None, shrink := None);
      }
      changed := written;
    }

    method RetireCross(cross: Axis, align: string) returns (changed: bool)
      modifies this
      ensures layout == RetiredCross(old(layout), cross, align) && old(notes) <= notes
      ensures !changed ==> layout == old(layout)
    {
      if Mode(layout, cross).Some? {
        changed := layout.alignSelf.Some?;
        layout := layout.(alignSelf := None);
        return;
      }
      var mode := CrossAxisMode(layout, cross, align);
      if mode.None? {
        if IsBound(Size(layout, cross)) {
          Report(Read({SizeKey(cross)}));
          mode := Some(FIXED);
        } else if IsBound(layout.alignSelf) {
          Report(Dropped({AlignSelfKey}));
          mode := Some(if align == "stretch" then FILL else HUG);
        }
      }
      changed := mode.Some?;
      if changed {
        layout := SetMode(layout, cross, mode.value).(alignSelf := None);
      }
    }

    method DropStaleGrow(main: Axis) returns (changed: bool)
      modifies this
      ensures layout == WithoutStaleGrow(old(layout), main) && old(notes) <= notes
      ensures changed <==> layout != old(layout)
      ensures changed ==> ReportsDrop(notes, GrowKey)
    {
      changed := layout.grow.Some? && IsStale(Mode(layout, main));
      if changed {
        layout := layout.(grow := None);
        Report(Dropped({GrowKey}));
        assert Dropped({GrowKey}) in notes;
      }
    }

    method RetireRawKeysLayout(axis: Option<Axis>, align: string) returns (changed: bool)
      modifies this
      ensures layout == Retired(old(layout), axis, align) && old(notes) <= notes
      ensures !changed ==> layout == old(layout)
      ensures DropsReported(old(layout), layout, axis, notes)
    {
      ghost var before := layout;
      changed := DropMargins();
      if axis.None? {
        var dropped := DropRetiredKeys();
        return changed || dropped;
      }
      ghost var said := notes;
      RetiredMainForm(layout, axis.value);
      RetiredForm(before, axis.value, align);
      var main := RetireMain(axis.value);
      RetiredCrossForm(layout, axis.value, align);
      var cross := RetireCross(Other(axis.value), align);
      var grow := DropStaleGrow(axis.value);
      changed := changed || main || cross || grow;
      forall m | m in before.margins
        ensures ReportsDrop(notes, MarginSide(m))
      {
        var n :| n in said && n.Dropped? && MarginSide(m) in n.keys;
        assert n in notes;
      }
    }

    method DropContainerKeys() returns (changed: bool)
      modifies this
      ensures layout == old(layout).(container := map[]) && old(notes) <= notes
      ensures changed <==> layout != old(layout)
      ensures forall c :: c in old(layout).container ==> ReportsDrop(notes, ContainerSide(c))
    {
      changed := layout.container != map[];
      if changed {
        var note := Dropped(set c | c in layout.container :: ContainerSide(c));
        Report(note);
        assert note in notes;
        layout := layout.(container := map[]);
      }
    }
  }
}
