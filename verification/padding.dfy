/** Format 4 to 7, second half: the padding shorthand of a layout becomes its four sides. */
module Padding {
  import opened Options
  import opened Strings

  datatype Side = Top | Right | Bottom | Left
  datatype Key = Shorthand | Longhand(side: Side) | Other(name: string)

  /** A branch of a switch: a literal, a null, or something the file does not hold. */
  datatype Branch = Null | Literal(text: string) | Unreadable(name: string)
  datatype Case = Case(test: string, branch: Branch)

  /** A padding value: a literal, a `$switch`, or another property source. */
  datatype Value =
    | Text(text: string)
    | Switch(cases: seq<Case>, otherwise: Option<Branch>)
    | Source(name: string)

  type Layout = map<Key, Value>

  const SIDES: seq<Side> := [Top, Right, Bottom, Left]

  // ----- the box shorthand -----

  function Word(s: string): (w: string)
    ensures |w| <= |s|
  {
    if s == "" || IsSpace(s[0]) then "" else [s[0]] + Word(s[1..])
  }

  /** The words of a text, as `split` gives them. */
  function Words(s: string): seq<string>
    decreases |s|
  {
    if s == "" then []
    else if IsSpace(s[0]) then Words(s[1..])
    else [Word(s)] + Words(s[|Word(s)|..])
  }

  /** What a style sheet makes of a shorthand: one to four values, by the box rule. Any other number of
      values makes the declaration invalid, so it sets nothing. */
  function BoxSide(parts: seq<string>, side: Side): Option<string> {
    if |parts| == 0 || |parts| > 4 then None
    else if |parts| == 1 || side.Top? then Some(parts[0])
    else if side.Right? || (side.Left? && |parts| < 4) then Some(parts[1])
    else if side.Left? then Some(parts[3])
    else Some(if |parts| == 2 then parts[0] else parts[2])
  }

  /** `_parse_spacing`, for one side; values past the fourth are ignored. */
  function ParsedSide(text: string, side: Side): Option<string> {
    var parts := Words(text);
    if |parts| == 0 then None
    else if |parts| == 1 then Some(parts[0])
    else if |parts| == 2 then Some(if side.Top? || side.Bottom? then parts[0] else parts[1])
    else if |parts| == 3 then Some(if side.Top? then parts[0] else if side.Bottom? then parts[2] else parts[1])
    else Some(match side case Top => parts[0] case Right => parts[1] case Bottom => parts[2] case Left => parts[3])
  }

  predicate IsParsable(text: string) {
    '(' !in text
  }

  // ----- one layout -----

  function Branches(v: Value): seq<Branch>
    requires v.Switch?
  {
    seq(|v.cases|, i requires 0 <= i < |v.cases| => v.cases[i].branch)
      + if v.otherwise.Some? then [v.otherwise.value] else []
  }

  /** A literal shorthand the step can split, or a switch of such literals. */
  predicate IsReadable(v: Value) {
    match v
    case Text(text) => IsParsable(text)
    case Switch(_, _) =>
      forall i :: 0 <= i < |Branches(v)| ==> Branches(v)[i].Literal? && IsParsable(Branches(v)[i].text)
    case Source(_) => false
  }

  function SideBranch(b: Branch, side: Side): Branch {
    if b.Literal? && ParsedSide(b.text, side).Some? then Literal(ParsedSide(b.text, side).value) else Null
  }

  function SideSwitch(v: Value, side: Side): Value
    requires v.Switch?
  {
    Switch(
      seq(|v.cases|, i requires 0 <= i < |v.cases| => Case(v.cases[i].test, SideBranch(v.cases[i].branch, side))),
      if v.otherwise.Some? then Some(SideBranch(v.otherwise.value, side)) else None)
  }

  /** The value a side that is not stored gets from a readable shorthand. */
  function SideValue(v: Value, side: Side): Option<Value> {
    match v
    case Text(text) =>
      if IsParsable(text) && ParsedSide(text, side).Some? then Some(Text(ParsedSide(text, side).value)) else None
    case Switch(_, _) => if IsReadable(v) then Some(SideSwitch(v, side)) else None
    case Source(_) => None
  }

  function WithSide(l: Layout, v: Value, side: Side): Layout {
    if Longhand(side) in l || SideValue(v, side).None? then l else l[Longhand(side) := SideValue(v, side).value]
  }

  function Expanded(l: Layout): Layout {
    if Shorthand !in l then l
    else
      var v := l[Shorthand];
      WithSide(WithSide(WithSide(WithSide(l - {Shorthand}, v, Top), v, Right), v, Bottom), v, Left)
  }

  class Draft {
    var layout: Layout
    var dropped: nat

    constructor (l: Layout)
      ensures layout == l && dropped == 0
    {
      layout := l;
      dropped := 0;
    }

    /** `_expand_padding_layout`. A shorthand that cannot be split is dropped, and reported. */
    method ExpandPaddingLayout() returns (changed: bool)
      modifies this
      ensures layout == Expanded(old(layout))
      ensures changed <==> layout != old(layout)
      ensures dropped == old(dropped) + if Shorthand in old(layout) && !IsReadable(old(layout)[Shorthand]) then 1 else 0
    {
      if Shorthand !in layout {
        return false;
      }
      var v := layout[Shorthand];
      layout := layout - {Shorthand};
      changed := true;
      if !IsReadable(v) {
        forall side
          ensures SideValue(v, side).None?
        {
        }
        dropped := dropped + 1;
        return;
      }
      ghost var l := layout;
      for i := 0 to |SIDES|
        invariant layout == if i == 0 then l else if i == 1 then WithSide(l, v, Top)
                            else if i == 2 then WithSide(WithSide(l, v, Top), v, Right)
                            else if i == 3 then WithSide(WithSide(WithSide(l, v, Top), v, Right), v, Bottom)
                            else WithSide(WithSide(WithSide(WithSide(l, v, Top), v, Right), v, Bottom), v, Left)
        invariant Shorthand !in layout && dropped == old(dropped)
      {
        var side := SIDES[i];
        if Longhand(side) !in layout && SideValue(v, side).Some? {
          layout := layout[Longhand(side) := SideValue(v, side).value];
        }
      }
    }
  }

  // ----- what is rendered -----

  /** What a branch stands for as the value of one side. */
  function BranchText(b: Branch): Option<string> {
    match b
    case Null => None
    case Literal(text) => Some(text)
    case Unreadable(name) => Some(name)
  }

  /** A side's own value, where every switch takes its branch number `pick`. */
  function OwnSide(v: Value, pick: nat): Option<string> {
    match v
    case Text(text) => Some(text)
    case Switch(_, _) => if pick < |Branches(v)| then BranchText(Branches(v)[pick]) else None
    case Source(name) => Some(name)
  }

  /** The literal a shorthand resolves to. */
  function ShorthandText(v: Value, pick: nat): Option<string> {
    match v
    case Text(text) => Some(text)
    case Switch(_, _) => if pick < |Branches(v)| && Branches(v)[pick].Literal? then Some(Branches(v)[pick].text) else None
    case Source(_) => None
  }

  /** The padding of one side: the longhand wins over the shorthand. */
  function Rendered(l: Layout, side: Side, pick: nat): Option<string> {
    if Longhand(side) in l then OwnSide(l[Longhand(side)], pick)
    else if Shorthand in l && ShorthandText(l[Shorthand], pick).Some? then
      BoxSide(Words(ShorthandText(l[Shorthand], pick).value), side)
    else None
  }

  lemma WithSideForm(l: Layout, v: Value, side: Side, key: Key)
    ensures var r := WithSide(l, v, side);
      && (key != Longhand(side) ==> (key in r <==> key in l) && (key in r ==> r[key] == l[key]))
      && (key in l ==> key in r && r[key] == l[key])
      && (key == Longhand(side) && key !in l ==>
            (key in r <==> SideValue(v, side).Some?) && (key in r ==> r[key] == SideValue(v, side).value))
  {
  }

  lemma ExpandedForm(l: Layout, key: Key)
    ensures var r := Expanded(l);
      && Shorthand !in r
      && (key in l && key != Shorthand ==> key in r && r[key] == l[key])
      && (key.Longhand? && key !in l ==>
            (key in r <==> Shorthand in l && SideValue(l[Shorthand], key.side).Some?)
            && (key in r ==> r[key] == SideValue(l[Shorthand], key.side).value))
      && (key.Other? && key !in l ==> key !in r)
  {
    if Shorthand in l {
      var v, a := l[Shorthand], l - {Shorthand};
      var b := WithSide(a, v, Top);
      var c := WithSide(b, v, Right);
      var d := WithSide(c, v, Bottom);
      WithSideForm(a, v, Top, Shorthand);
      WithSideForm(a, v, Top, key);
      WithSideForm(b, v, Right, key);
      WithSideForm(c, v, Bottom, key);
      WithSideForm(d, v, Left, key);
      WithSideForm(b, v, Right, Shorthand);
      WithSideForm(c, v, Bottom, Shorthand);
      WithSideForm(d, v, Left, Shorthand);
      assert key != Shorthand ==> (key in a <==> key in l);
      if key.Longhand? {
        match key.side
        case Top =>
        case Right =>
        case Bottom =>
        case Left =>
      }
    }
  }

  lemma ParsedIsBox(text: string, side: Side)
    ensures ParsedSide(text, side) == BoxSide(Words(text), side) <==> |Words(text)| <= 4
  {
  }

  predicate FitsBox(v: Value) {
    match v
    case Text(text) => |Words(text)| <= 4
    case Switch(_, _) => forall i :: 0 <= i < |Branches(v)| && Branches(v)[i].Literal? ==> |Words(Branches(v)[i].text)| <= 4
    case Source(_) => true
  }

  lemma SideSwitchBranches(v: Value, side: Side, i: nat)
    requires v.Switch? && i < |Branches(v)|
    ensures |Branches(SideSwitch(v, side))| == |Branches(v)|
    ensures Branches(SideSwitch(v, side))[i] == SideBranch(Branches(v)[i], side)
  {
  }

  /** For one side and one outcome of the switches. */
  lemma SideIsPreserved(l: Layout, side: Side, pick: nat)
    requires Shorthand in l && IsReadable(l[Shorthand])
    ensures Rendered(Expanded(l), side, pick) == Rendered(l, side, pick)
      <==> Longhand(side) in l
           || (ShorthandText(l[Shorthand], pick).Some? ==> |Words(ShorthandText(l[Shorthand], pick).value)| <= 4)
  {
    var v := l[Shorthand];
    ExpandedForm(l, Longhand(side));
    if ShorthandText(v, pick).Some? { ParsedIsBox(ShorthandText(v, pick).value, side); }
    if v.Switch? && pick < |Branches(v)| {
      SideSwitchBranches(v, side, pick);
    } else if v.Switch? && Branches(v) != [] {
      SideSwitchBranches(v, side, 0);
    }
  }

  /** Expanding a shorthand that can be split preserves the padding of every side, whatever branches its
      switches take, if and only if every side is stored anyway or no literal has more than four values: a
      browser ignores a shorthand of five, while the step reads the first four. */
  lemma PaddingIsPreserved(l: Layout)
    requires Shorthand in l && IsReadable(l[Shorthand])
    ensures (forall side, pick: nat :: Rendered(Expanded(l), side, pick) == Rendered(l, side, pick))
      <==> (forall side :: Longhand(side) in l) || FitsBox(l[Shorthand])
  {
    var v := l[Shorthand];
    if (forall side :: Longhand(side) in l) || FitsBox(v) {
      forall side, pick: nat
        ensures Rendered(Expanded(l), side, pick) == Rendered(l, side, pick)
      {
        SideIsPreserved(l, side, pick);
      }
    } else {
      var side :| Longhand(side) !in l;
      var pick: nat := 0;
      if v.Switch? {
        pick :| 0 <= pick < |Branches(v)| && Branches(v)[pick].Literal? && |Words(Branches(v)[pick].text)| > 4;
      }
      SideIsPreserved(l, side, pick);
      assert Rendered(Expanded(l), side, pick) != Rendered(l, side, pick);
    }
  }

  // ----- trees -----

  datatype Node = Node(layout: Option<Layout>, children: seq<Node>)

  function Walk(n: Node): Node {
    Node(if n.layout.Some? then Some(Expanded(n.layout.value)) else None, WalkAll(n.children))
  }

  function WalkAll(ns: seq<Node>): seq<Node> {
    if ns == [] then [] else [Walk(ns[0])] + WalkAll(ns[1..])
  }

  predicate HasShorthand(n: Node) {
    (n.layout.Some? && Shorthand in n.layout.value) || AnyShorthand(n.children)
  }

  predicate AnyShorthand(ns: seq<Node>) {
    ns != [] && (HasShorthand(ns[0]) || AnyShorthand(ns[1..]))
  }

  /** The walk as it runs; it reports a change exactly when a shorthand was stored at some depth. */
  method MigrateNode(n: Node) returns (r: Node, changed: bool)
    ensures r == Walk(n) && (changed <==> HasShorthand(n))
    decreases n
  {
    var l := n.layout;
    changed := false;
    if l.Some? {
      var d := new Draft(l.value);
      changed := d.ExpandPaddingLayout();
      ExpandedForm(l.value, Shorthand);
      l := Some(d.layout);
    }
    var children, moved := MigrateNodes(n.children);
    r := Node(l, children);
    changed := changed || moved;
  }

  method MigrateNodes(ns: seq<Node>) returns (rs: seq<Node>, changed: bool)
    ensures rs == WalkAll(ns) && (changed <==> AnyShorthand(ns))
    decreases ns
  {
    rs, changed := [], false;
    for i := 0 to |ns|
      invariant WalkAll(ns) == rs + WalkAll(ns[i..])
      invariant AnyShorthand(ns) <==> changed || AnyShorthand(ns[i..])
    {
      var r, moved := MigrateNode(ns[i]);
      rs := rs + [r];
      changed := changed || moved;
    }
  }

  /** No shorthand is left anywhere in the tree, and a tree without one is not changed, so a second run
      changes nothing. */
  lemma {:induction false} NoShorthandIsLeft(n: Node)
    ensures !HasShorthand(Walk(n)) && (!HasShorthand(n) ==> Walk(n) == n)
    decreases n
  {
    if n.layout.Some? { ExpandedForm(n.layout.value, Shorthand); }
    NoShorthandInAll(n.children);
  }

  lemma {:induction false} NoShorthandInAll(ns: seq<Node>)
    ensures !AnyShorthand(WalkAll(ns)) && (!AnyShorthand(ns) ==> WalkAll(ns) == ns)
    decreases ns
  {
    if ns != [] {
      NoShorthandIsLeft(ns[0]);
      NoShorthandInAll(ns[1..]);
      assert WalkAll(ns)[1..] == WalkAll(ns[1..]);
    }
  }

  /** Five values: a browser sets nothing, and the step sets the first four. */
  lemma FiveValuesAreMisread(one: string, two: string, three: string, four: string, five: string)
    requires IsSimple(one) && IsSimple(two) && IsSimple(three) && IsSimple(four) && IsSimple(five)
    ensures var l := map[Shorthand := Text(one + " " + (two + " " + (three + " " + (four + " " + five))))];
      Rendered(l, Top, 0) == None && Rendered(Expanded(l), Top, 0) == Some(one)
  {
    var text := one + " " + (two + " " + (three + " " + (four + " " + five)));
    FiveWords(one, two, three, four, five);
    LongIsMisread(text);
  }

  lemma FiveWords(one: string, two: string, three: string, four: string, five: string)
    requires IsSimple(one) && IsSimple(two) && IsSimple(three) && IsSimple(four) && IsSimple(five)
    ensures var text := one + " " + (two + " " + (three + " " + (four + " " + five)));
      Words(text) == [one, two, three, four, five] && IsParsable(text)
  {
    WordThen(five, "");
    WordThen(four, five);
    WordThen(three, four + " " + five);
    WordThen(two, three + " " + (four + " " + five));
    WordThen(one, two + " " + (three + " " + (four + " " + five)));
  }

  lemma LongIsMisread(text: string)
    requires IsParsable(text) && |Words(text)| > 4
    ensures var l := map[Shorthand := Text(text)];
      Rendered(l, Top, 0) == None && Rendered(Expanded(l), Top, 0) == Some(Words(text)[0])
  {
    ExpandedForm(map[Shorthand := Text(text)], Longhand(Top));
  }

  /** A value of a single character. */
  predicate IsSimple(word: string) {
    |word| == 1 && !IsSpace(word[0]) && word[0] != '('
  }

  lemma WordThen(word: string, rest: string)
    requires IsSimple(word)
    ensures Words(word + " " + rest) == [word] + Words(rest) && Words(word) == [word]
  {
    var s := word + " " + rest;
    assert s[1..] == " " + rest && (" " + rest)[1..] == rest;
    assert Word(" " + rest) == "" && Word(s) == word;
    assert word[1..] == "" && Word(word) == word;
  }
}
