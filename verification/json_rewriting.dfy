/** The rewriters of stored documents: one walk over a whole JSON value that replaces every object of an
    old shape, wherever it sits, children before parents. The shape and its replacement are parameters. */
module JsonRewriting {
  import opened Options
  import opened Json

  type Shape = seq<Member> -> bool
  type Rule = seq<Member> -> seq<Member>

  /** An object of the old shape occurs in the value at some depth. */
  predicate HasOld(v: Json, isOld: Shape) {
    match v
    case Arr(items) => AnyItem(items, isOld)
    case Obj(ms) => isOld(ms) || AnyMember(ms, isOld)
    case _ => false
  }

  predicate AnyItem(items: seq<Json>, isOld: Shape) {
    items != [] && (HasOld(items[0], isOld) || AnyItem(items[1..], isOld))
  }

  predicate AnyMember(ms: seq<Member>, isOld: Shape) {
    ms != [] && (HasOld(ms[0].value, isOld) || AnyMember(ms[1..], isOld))
  }

  function Rewritten(v: Json, isOld: Shape, rule: Rule): Json {
    match v
    case Arr(items) => Arr(RewrittenItems(items, isOld, rule))
    case Obj(ms) =>
      var out := RewrittenMembers(ms, isOld, rule);
      Obj(if isOld(out) then rule(out) else out)
    case _ => v
  }

  function RewrittenItems(items: seq<Json>, isOld: Shape, rule: Rule): (r: seq<Json>)
    ensures |r| == |items|
  {
    if items == [] then []
    else [Rewritten(items[0], isOld, rule)] + RewrittenItems(items[1..], isOld, rule)
  }

  function RewrittenMembers(ms: seq<Member>, isOld: Shape, rule: Rule): (r: seq<Member>)
    ensures |r| == |ms|
  {
    if ms == [] then []
    else [Member(ms[0].key, Rewritten(ms[0].value, isOld, rule))] + RewrittenMembers(ms[1..], isOld, rule)
  }

  /** Rewriting what is inside an object does not change whether it has the old shape. */
  ghost predicate IsStable(isOld: Shape, rule: Rule) {
    forall ms :: isOld(RewrittenMembers(ms, isOld, rule)) == isOld(ms)
  }

  /** The rule removes the old shape from an object and puts none inside it. */
  ghost predicate IsNormalising(isOld: Shape, rule: Rule) {
    && (forall ms :: isOld(ms) ==> !isOld(rule(ms)))
    && (forall ms :: isOld(ms) && !AnyMember(ms, isOld) ==> !AnyMember(rule(ms), isOld))
  }

  // ----- the walk as it runs -----

  /** The walk returns the rewritten value, and whether it rewrote anything: exactly when an object of the
      old shape occurs at some depth. */
  method Rewrite(v: Json, isOld: Shape, rule: Rule) returns (r: Json, changed: bool)
    requires IsStable(isOld, rule)
    ensures r == Rewritten(v, isOld, rule)
    ensures changed <==> HasOld(v, isOld)
    decreases v
  {
    match v
    case Arr(items) =>
      var out;
      out, changed := RewriteItems(items, isOld, rule);
      r := if changed then Arr(out) else v;
      if !changed { Untouched(v, isOld, rule); }
    case Obj(ms) =>
      var out;
      out, changed := RewriteMembers(ms, isOld, rule);
      if isOld(out) {
        return Obj(rule(out)), true;
      }
      r := if changed then Obj(out) else v;
      if !changed { Untouched(v, isOld, rule); }
    case _ =>
      return v, false;
  }

  method RewriteItems(items: seq<Json>, isOld: Shape, rule: Rule) returns (out: seq<Json>, changed: bool)
    requires IsStable(isOld, rule)
    ensures out == RewrittenItems(items, isOld, rule)
    ensures changed <==> AnyItem(items, isOld)
    decreases items
  {
    out, changed := [], false;
    for i := 0 to |items|
      invariant RewrittenItems(items, isOld, rule) == out + RewrittenItems(items[i..], isOld, rule)
      invariant AnyItem(items, isOld) <==> changed || AnyItem(items[i..], isOld)
    {
      var item, moved := Rewrite(items[i], isOld, rule);
      out := out + [item];
      changed := changed || moved;
    }
  }

  method RewriteMembers(ms: seq<Member>, isOld: Shape, rule: Rule) returns (out: seq<Member>, changed: bool)
    requires IsStable(isOld, rule)
    ensures out == RewrittenMembers(ms, isOld, rule)
    ensures changed <==> AnyMember(ms, isOld)
    decreases ms
  {
    out, changed := [], false;
    for i := 0 to |ms|
      invariant RewrittenMembers(ms, isOld, rule) == out + RewrittenMembers(ms[i..], isOld, rule)
      invariant AnyMember(ms, isOld) <==> changed || AnyMember(ms[i..], isOld)
    {
      var item, moved := Rewrite(ms[i].value, isOld, rule);
      out := out + [Member(ms[i].key, item)];
      changed := changed || moved;
    }
  }

  // ----- what a walk guarantees -----

  /** Without an object of the old shape the value is not touched. */
  lemma {:induction false} Untouched(v: Json, isOld: Shape, rule: Rule)
    requires IsStable(isOld, rule) && !HasOld(v, isOld)
    ensures Rewritten(v, isOld, rule) == v
    decreases v
  {
    match v
    case Arr(items) => UntouchedItems(items, isOld, rule);
    case Obj(ms) => UntouchedMembers(ms, isOld, rule);
    case _ =>
  }

  lemma {:induction false} UntouchedItems(items: seq<Json>, isOld: Shape, rule: Rule)
    requires IsStable(isOld, rule) && !AnyItem(items, isOld)
    ensures RewrittenItems(items, isOld, rule) == items
    decreases items
  {
    if items != [] {
      Untouched(items[0], isOld, rule);
      UntouchedItems(items[1..], isOld, rule);
    }
  }

  lemma {:induction false} UntouchedMembers(ms: seq<Member>, isOld: Shape, rule: Rule)
    requires IsStable(isOld, rule) && !AnyMember(ms, isOld)
    ensures RewrittenMembers(ms, isOld, rule) == ms
    decreases ms
  {
    if ms != [] {
      Untouched(ms[0].value, isOld, rule);
      UntouchedMembers(ms[1..], isOld, rule);
    }
  }

  /** After the walk no object of the old shape is left at any depth. */
  lemma {:induction false} NothingOldIsLeft(v: Json, isOld: Shape, rule: Rule)
    requires IsNormalising(isOld, rule)
    ensures !HasOld(Rewritten(v, isOld, rule), isOld)
    decreases v
  {
    match v
    case Arr(items) => NothingOldInItems(items, isOld, rule);
    case Obj(ms) => NothingOldInMembers(ms, isOld, rule);
    case _ =>
  }

  lemma {:induction false} NothingOldInItems(items: seq<Json>, isOld: Shape, rule: Rule)
    requires IsNormalising(isOld, rule)
    ensures !AnyItem(RewrittenItems(items, isOld, rule), isOld)
    decreases items
  {
    if items != [] {
      NothingOldIsLeft(items[0], isOld, rule);
      NothingOldInItems(items[1..], isOld, rule);
      assert RewrittenItems(items, isOld, rule)[1..] == RewrittenItems(items[1..], isOld, rule);
    }
  }

  lemma {:induction false} NothingOldInMembers(ms: seq<Member>, isOld: Shape, rule: Rule)
    requires IsNormalising(isOld, rule)
    ensures !AnyMember(RewrittenMembers(ms, isOld, rule), isOld)
    decreases ms
  {
    if ms != [] {
      NothingOldIsLeft(ms[0].value, isOld, rule);
      NothingOldInMembers(ms[1..], isOld, rule);
      assert RewrittenMembers(ms, isOld, rule)[1..] == RewrittenMembers(ms[1..], isOld, rule);
    }
  }

  /** A walk changes a value if and only if an object of the old shape occurs in it, and a second walk
      changes nothing. */
  lemma RewritingIsExact(v: Json, isOld: Shape, rule: Rule)
    requires IsStable(isOld, rule) && IsNormalising(isOld, rule)
    ensures var r := Rewritten(v, isOld, rule);
      && (r != v <==> HasOld(v, isOld))
      && !HasOld(r, isOld) && Rewritten(r, isOld, rule) == r
  {
    NothingOldIsLeft(v, isOld, rule);
    Untouched(Rewritten(v, isOld, rule), isOld, rule);
    if !HasOld(v, isOld) { Untouched(v, isOld, rule); }
  }

  // ----- two rewriters in a row -----

  /** The second rule makes no object of the first old shape, neither of the object it replaces nor
      inside it. */
  ghost predicate Respects(rule: Rule, isOld: Shape, first: Shape) {
    && (forall ms :: isOld(ms) && !first(ms) ==> !first(rule(ms)))
    && (forall ms :: isOld(ms) && !AnyMember(ms, first) ==> !AnyMember(rule(ms), first))
    && (forall ms :: !first(ms) ==> !first(RewrittenMembers(ms, isOld, rule)))
  }

  /** Then a document free of the first old shape stays free of it. */
  lemma {:induction false} FirstStaysGone(v: Json, first: Shape, isOld: Shape, rule: Rule)
    requires Respects(rule, isOld, first) && !HasOld(v, first)
    ensures !HasOld(Rewritten(v, isOld, rule), first)
    decreases v
  {
    match v
    case Arr(items) => FirstStaysGoneInItems(items, first, isOld, rule);
    case Obj(ms) => FirstStaysGoneInMembers(ms, first, isOld, rule);
    case _ =>
  }

  lemma {:induction false} FirstStaysGoneInItems(items: seq<Json>, first: Shape, isOld: Shape, rule: Rule)
    requires Respects(rule, isOld, first) && !AnyItem(items, first)
    ensures !AnyItem(RewrittenItems(items, isOld, rule), first)
    decreases items
  {
    if items != [] {
      FirstStaysGone(items[0], first, isOld, rule);
      FirstStaysGoneInItems(items[1..], first, isOld, rule);
      assert RewrittenItems(items, isOld, rule)[1..] == RewrittenItems(items[1..], isOld, rule);
    }
  }

  lemma {:induction false} FirstStaysGoneInMembers(ms: seq<Member>, first: Shape, isOld: Shape, rule: Rule)
    requires Respects(rule, isOld, first) && !AnyMember(ms, first)
    ensures !AnyMember(RewrittenMembers(ms, isOld, rule), first)
    decreases ms
  {
    if ms != [] {
      FirstStaysGone(ms[0].value, first, isOld, rule);
      FirstStaysGoneInMembers(ms[1..], first, isOld, rule);
      assert RewrittenMembers(ms, isOld, rule)[1..] == RewrittenMembers(ms[1..], isOld, rule);
    }
  }

  // ----- members under a walk -----

  /** A walk keeps the keys of an object and rewrites the value of each. */
  lemma {:induction false} GetRewritten(ms: seq<Member>, key: string, isOld: Shape, rule: Rule)
    ensures var v, w := Get(ms, key), Get(RewrittenMembers(ms, isOld, rule), key);
      w == if v.None? then None else Some(Rewritten(v.value, isOld, rule))
  {
    if ms != [] {
      GetRewritten(ms[1..], key, isOld, rule);
      assert RewrittenMembers(ms, isOld, rule)[1..] == RewrittenMembers(ms[1..], isOld, rule);
    }
  }

  /** A walk never turns anything into a string, or a string into anything else. */
  lemma StringsStay(v: Json, isOld: Shape, rule: Rule)
    ensures v.Str? || Rewritten(v, isOld, rule).Str? ==> Rewritten(v, isOld, rule) == v
  {
  }

  lemma {:induction false} AnyMemberIn(ms: seq<Member>, isOld: Shape, m: Member)
    requires m in ms && HasOld(m.value, isOld)
    ensures AnyMember(ms, isOld)
  {
    if m != ms[0] { AnyMemberIn(ms[1..], isOld, m); }
  }

  lemma {:induction false} AnyMemberOf(ms: seq<Member>, isOld: Shape) returns (m: Member)
    requires AnyMember(ms, isOld)
    ensures m in ms && HasOld(m.value, isOld)
  {
    if HasOld(ms[0].value, isOld) { m := ms[0]; } else { m := AnyMemberOf(ms[1..], isOld); }
  }
}
