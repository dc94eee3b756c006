/** Authored layouts of the size-mode migration: property values, layout keys, and the small readers
    every pass shares. Layouts hold no nulls. */
module SizeModel {
  import opened Options
  import opened Strings

  /** A property value: a literal, a readable `$switch`, or a property source whose value the file
      does not hold (a `$var`, or a `$switch` too malformed to read). A case keeps its test as it is. */
  datatype Value =
    | Text(text: string)
    | Number(number: real)
    | Flag(flag: bool)
    | Switch(cases: seq<Case>, otherwise: Option<Value>)
    | Source(name: string)

  datatype Case = Case(test: string, size: Value)

  /** The main axis of a row sizes widths, that of a column heights. */
  datatype Axis = Row | Column

  function Other(axis: Axis): Axis {
    if axis.Row? then Column else Row
  }

  datatype MarginKey = Margin | MarginTop | MarginRight | MarginBottom | MarginLeft

  datatype ContainerKey =
    | Direction | Gap | Wrap | Align | Justify
    | Padding | PaddingTop | PaddingRight | PaddingBottom | PaddingLeft | Radius

  /** A layout: one field per key the passes treat on its own, `None` where the key is absent. */
  datatype Layout = Layout(
    width: Option<Value>, height: Option<Value>,
    widthMode: Option<Value>, heightMode: Option<Value>,
    minWidth: Option<Value>, minHeight: Option<Value>,
    grow: Option<Value>, shrink: Option<Value>, basis: Option<Value>, alignSelf: Option<Value>,
    margins: map<MarginKey, Value>, container: map<ContainerKey, Value>, rest: map<string, Value>)

  function Size(l: Layout, axis: Axis): Option<Value> {
    if axis.Row? then l.width else l.height
  }

  function Mode(l: Layout, axis: Axis): Option<Value> {
    if axis.Row? then l.widthMode else l.heightMode
  }

  function Floor(l: Layout, axis: Axis): Option<Value> {
    if axis.Row? then l.minWidth else l.minHeight
  }

  function SetSize(l: Layout, axis: Axis, v: Option<Value>): Layout {
    if axis.Row? then l.(width := v) else l.(height := v)
  }

  function SetMode(l: Layout, axis: Axis, v: Value): Layout {
    if axis.Row? then l.(widthMode := Some(v)) else l.(heightMode := Some(v))
  }

  function SetFloor(l: Layout, axis: Axis, v: Value): Layout {
    if axis.Row? then l.(minWidth := Some(v)) else l.(minHeight := Some(v))
  }

  const FIXED := Text("fixed")
  const FILL := Text("fill")
  const HUG := Text("hug")
  const AUTO := Text("auto")
  const NOTHING := Number(0.0)

  // ----- reading one value -----

  predicate IsBound(v: Option<Value>) {
    v.Some? && (v.value.Switch? || v.value.Source?)
  }

  function Strip(s: string): string {
    Trim(s, IsSpace)
  }

  /** An explicit length, rather than "size yourself". */
  predicate IsLength(v: Option<Value>) {
    v.Some? && v.value.Text? && Strip(v.value.text) != "" && Strip(v.value.text) != "auto"
  }

  /** A non-empty literal; keyword lengths such as `auto` included. */
  predicate IsLiteral(v: Option<Value>) {
    v.Some? && v.value.Text? && v.value.text != ""
  }

  predicate IsPositive(v: Option<Value>) {
    v.Some? && v.value.Number? && v.value.number > 0.0
  }

  /** A `grow` that can take a share of the main axis. */
  predicate Grows(v: Option<Value>) {
    IsBound(v) || IsPositive(v)
  }

  predicate IsUnit(c: char) {
    'a' <= c <= 'z' || c == '%'
  }

  function WithoutUnit(s: string): string {
    TrimRight(s, IsUnit)
  }

  function WithoutSign(s: string): string {
    if s != "" && (s[0] == '+' || s[0] == '-') then s[1..] else s
  }

  function Zeros(s: string): nat
    ensures Zeros(s) <= |s|
  {
    if s != "" && s[0] == '0' then 1 + Zeros(s[1..]) else 0
  }

  /** An exponent as a decimal number spells it, or nothing. */
  predicate IsExponent(s: string) {
    s == "" || ((s[0] == 'e' || s[0] == 'E')
                && WithoutSign(s[1..]) != "" && AreDigits(WithoutSign(s[1..])))
  }

  /** A decimal number that is zero: zeros around at most one point, and at least one of them. */
  predicate IsZeroNumber(s: string) {
    var digits := WithoutSign(s);
    var whole := Zeros(digits);
    var rest := digits[whole..];
    if rest != "" && rest[0] == '.' then
      whole + Zeros(rest[1..]) > 0 && IsExponent(rest[1..][Zeros(rest[1..])..])
    else whole > 0 && IsExponent(rest)
  }

  predicate IsZeroLength(v: Value) {
    match v
    case Number(n) => n == 0.0
    case Text(s) => IsZeroNumber(Strip(WithoutUnit(Strip(s))))
    case _ => false
  }

  // ----- switches -----

  /** Every value a switch can resolve to. */
  function Branches(v: Value): seq<Value>
    requires v.Switch?
  {
    seq(|v.cases|, i requires 0 <= i < |v.cases| => v.cases[i].size)
      + if v.otherwise.Some? then [v.otherwise.value] else []
  }

  /** The mode a single literal length implies. */
  function ModeForLength(v: Value): Option<Value> {
    if !v.Text? || v.text == "" then None
    else Some(if v.text == "auto" then HUG else FIXED)
  }

  function ModeOf(v: Value): Value {
    ModeForLength(v).GetOr(FIXED)
  }

  predicate IsReadable(v: Value) {
    v.Switch? && forall i :: 0 <= i < |Branches(v)| ==> ModeForLength(Branches(v)[i]).Some?
  }

  /** A switch of literal lengths, rewritten as the same switch of modes. */
  function ModeSwitch(v: Value): Option<Value> {
    if !IsReadable(v) then None
    else Some(Switch(
      seq(|v.cases|, i requires 0 <= i < |v.cases| => Case(v.cases[i].test, ModeOf(v.cases[i].size))),
      if v.otherwise.Some? then Some(ModeOf(v.otherwise.value)) else None))
  }

  /** The mode switch asks the same questions in the same order, and whichever branch is taken, the
      mode is the mode of the length taken there. */
  lemma ModeSwitchAgrees(v: Value)
    requires IsReadable(v)
    ensures var m := ModeSwitch(v).value;
      && |m.cases| == |v.cases| && (forall i :: 0 <= i < |m.cases| ==> m.cases[i].test == v.cases[i].test)
      && |Branches(m)| == |Branches(v)|
      && (forall i :: 0 <= i < |Branches(v)| ==> Some(Branches(m)[i]) == ModeForLength(Branches(v)[i]))
  {
    var m := ModeSwitch(v).value;
    forall i | 0 <= i < |Branches(v)|
      ensures Some(Branches(m)[i]) == ModeForLength(Branches(v)[i])
    {
      if i < |v.cases| {
        assert Branches(v)[i] == v.cases[i].size && Branches(m)[i] == m.cases[i].size;
      }
    }
  }
}
