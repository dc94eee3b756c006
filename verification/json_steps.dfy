/** Facts the migration steps over JSON documents share. */
module JsonSteps {
  import opened Options
  import opened Json
  import opened JsonRewriting

  predicate IsText(v: Option<Json>, text: string) {
    v == Some(Str(text))
  }

  /** A walk leaves a string member as it is, and makes none. */
  lemma TextStays(ms: seq<Member>, key: string, text: string, isOld: Shape, rule: Rule)
    ensures IsText(Get(RewrittenMembers(ms, isOld, rule), key), text) <==> IsText(Get(ms, key), text)
  {
    GetRewritten(ms, key, isOld, rule);
    if Get(ms, key).Some? { StringsStay(Get(ms, key).value, isOld, rule); }
  }

  lemma {:induction false} AssignClean(ms: seq<Member>, key: string, value: Json, isOld: Shape)
    requires !AnyMember(ms, isOld) && !HasOld(value, isOld)
    ensures !AnyMember(Assign(ms, key, value), isOld)
  {
    if ms != [] && ms[0].key != key { AssignClean(ms[1..], key, value, isOld); }
  }

  lemma {:induction false} WithoutClean(ms: seq<Member>, keys: set<string>, isOld: Shape)
    requires !AnyMember(ms, isOld)
    ensures !AnyMember(Without(ms, keys), isOld)
  {
    if ms != [] { WithoutClean(ms[1..], keys, isOld); }
  }

  lemma {:induction false} GetClean(ms: seq<Member>, key: string, isOld: Shape)
    requires !AnyMember(ms, isOld) && Get(ms, key).Some?
    ensures !HasOld(Get(ms, key).value, isOld)
  {
    if ms[0].key != key { GetClean(ms[1..], key, isOld); }
  }

  predicate HasDistinctKeys(ms: seq<Member>) {
    forall i, j :: 0 <= i < j < |ms| ==> ms[i].key != ms[j].key
  }
}

/** Format 7 to 8: the dialog actions become page-overlay actions. */
module DialogActions {
  import opened Options
  import opened Json
  import opened JsonRewriting
  import opened JsonSteps

  predicate IsOldAction(ms: seq<Member>) {
    || IsText(Get(ms, "type"), "closeDialog")
    || (IsText(Get(ms, "type"), "openDialog") && Get(ms, "dialogId").Some?)
  }

  function RewrittenType(v: Json): Json {
    if v == Str("closeDialog") then Str("closePageOverlay") else v
  }

  /** One member after the other is assigned to the new action. */
  function Renamed(ms: seq<Member>, out: seq<Member>): seq<Member> {
    if ms == [] then out
    else
      var m := ms[0];
      Renamed(ms[1..],
        if m.key == "type" then Assign(out, "type", RewrittenType(m.value))
        else if m.key == "dialogId" then Assign(out, "pageId", m.value)
        else Assign(out, m.key, m.value))
  }

  function RewriteAction(ms: seq<Member>): seq<Member> {
    var renamed := Renamed(ms, []);
    if IsText(Get(ms, "type"), "openDialog") && Get(ms, "size").None? then Assign(renamed, "size", Str("auto"))
    else renamed
  }

  /** Neither old type name nor old field is ever assigned. */
  lemma {:induction false} RenamedIsNew(ms: seq<Member>, out: seq<Member>)
    requires !IsText(Get(out, "type"), "closeDialog") && Get(out, "dialogId").None?
    ensures !IsText(Get(Renamed(ms, out), "type"), "closeDialog") && Get(Renamed(ms, out), "dialogId").None?
  {
    if ms != [] {
      var m := ms[0];
      var key := if m.key == "dialogId" then "pageId" else m.key;
      var value := if m.key == "type" then RewrittenType(m.value) else m.value;
      GetAssign(out, key, value, "type");
      GetAssign(out, key, value, "dialogId");
      RenamedIsNew(ms[1..], Assign(out, key, value));
    }
  }

  lemma {:induction false} RenamedClean(ms: seq<Member>, out: seq<Member>)
    requires !AnyMember(ms, IsOldAction) && !AnyMember(out, IsOldAction)
    ensures !AnyMember(Renamed(ms, out), IsOldAction)
  {
    if ms != [] {
      var m := ms[0];
      var key := if m.key == "dialogId" then "pageId" else m.key;
      var value := if m.key == "type" then RewrittenType(m.value) else m.value;
      AssignClean(out, key, value, IsOldAction);
      RenamedClean(ms[1..], Assign(out, key, value));
    }
  }

  lemma IsRewriter()
    ensures IsStable(IsOldAction, RewriteAction) && IsNormalising(IsOldAction, RewriteAction)
  {
    forall ms
      ensures IsOldAction(RewrittenMembers(ms, IsOldAction, RewriteAction)) == IsOldAction(ms)
    {
      TextStays(ms, "type", "closeDialog", IsOldAction, RewriteAction);
      TextStays(ms, "type", "openDialog", IsOldAction, RewriteAction);
      GetRewritten(ms, "dialogId", IsOldAction, RewriteAction);
    }
    forall ms
      ensures !IsOldAction(RewriteAction(ms))
    {
      RenamedIsNew(ms, []);
      GetAssign(Renamed(ms, []), "size", Str("auto"), "type");
      GetAssign(Renamed(ms, []), "size", Str("auto"), "dialogId");
    }
    forall ms | !AnyMember(ms, IsOldAction)
      ensures !AnyMember(RewriteAction(ms), IsOldAction)
    {
      RenamedClean(ms, []);
      AssignClean(Renamed(ms, []), "size", Str("auto"), IsOldAction);
    }
  }

  /** The step changes a document if and only if an old dialog action occurs in it at some depth; it leaves
      none behind, and running it again changes nothing. */
  lemma StepIsExact(v: Json)
    ensures var r := Rewritten(v, IsOldAction, RewriteAction);
      (r != v <==> HasOld(v, IsOldAction)) && !HasOld(r, IsOldAction) && Rewritten(r, IsOldAction, RewriteAction) == r
  {
    IsRewriter();
    RewritingIsExact(v, IsOldAction, RewriteAction);
  }

  lemma {:induction false} RenamedGet(ms: seq<Member>, out: seq<Member>, key: string)
    requires HasDistinctKeys(ms) && key != "dialogId" && (key == "pageId" ==> Get(ms, "pageId").None?)
    ensures Get(Renamed(ms, out), key)
      == var from := if key == "pageId" then "dialogId" else key;
         var v := Get(ms, from);
         if v.None? then Get(out, key) else if key == "type" then Some(RewrittenType(v.value)) else v
  {
    if ms != [] {
      var m := ms[0];
      var to := if m.key == "dialogId" then "pageId" else m.key;
      var value := if m.key == "type" then RewrittenType(m.value) else m.value;
      GetAssign(out, to, value, key);
      RenamedGet(ms[1..], Assign(out, to, value), key);
      NotInRest(ms);
    }
  }

  lemma NotInRest(ms: seq<Member>)
    requires ms != [] && HasDistinctKeys(ms)
    ensures Get(ms[1..], ms[0].key).None?
  {
    HasGet(ms[1..], ms[0].key);
  }

  /** The action opens what it opened: the dialog's id is the page's id, an unsized dialog is sized to its
      content, and every other field is carried over. */
  lemma ActionIsCarriedOver(ms: seq<Member>, key: string)
    requires HasDistinctKeys(ms) && IsOldAction(ms) && Get(ms, "pageId").None?
    ensures var r := RewriteAction(ms);
      && Get(r, "pageId") == Get(ms, "dialogId")
      && Get(r, "type") == Some(RewrittenType(Get(ms, "type").value))
      && (IsText(Get(ms, "type"), "openDialog") && Get(ms, "size").None? ==> Get(r, "size") == Some(Str("auto")))
      && (key !in {"type", "dialogId", "pageId", "size"} ==> Get(r, key) == Get(ms, key))
      && (Get(ms, "size").Some? ==> Get(r, "size") == Get(ms, "size"))
  {
    RenamedGet(ms, [], "pageId");
    RenamedGet(ms, [], "type");
    RenamedGet(ms, [], "size");
    GetAssign(Renamed(ms, []), "size", Str("auto"), "pageId");
    GetAssign(Renamed(ms, []), "size", Str("auto"), "type");
    GetAssign(Renamed(ms, []), "size", Str("auto"), "size");
    GetAssign(Renamed(ms, []), "size", Str("auto"), key);
    if key !in {"type", "dialogId", "pageId", "size"} { RenamedGet(ms, [], key); }
  }
}

/** Format 8 to 9: the variable a write action names becomes one sourced target. */
module WriteTargets {
  import opened Options
  import opened Json
  import opened JsonRewriting
  import opened JsonSteps

  const OLD_KEYS: set<string> := {"datasource", "path", "repeatItem"}

  predicate IsWriteAction(ms: seq<Member>) {
    IsText(Get(ms, "type"), "writeDataVariable") || IsText(Get(ms, "type"), "toggleDataVariable")
  }

  predicate IsOldAction(ms: seq<Member>) {
    && IsWriteAction(ms)
    && (Get(ms, "datasource").Some? || Get(ms, "path").Some? || Get(ms, "repeatItem").Some?)
  }

  predicate IsName(v: Option<Json>) {
    v.Some? && v.value.Str? && v.value.text != ""
  }

  /** The target an old action names, if one was picked. */
  function TargetOf(ms: seq<Member>): Option<Json> {
    var repeated, source, path := Get(ms, "repeatItem"), Get(ms, "datasource"), Get(ms, "path");
    if repeated.Some? && repeated.value.Obj? then
      var member := Get(repeated.value.members, "member");
      Some(Obj([Member("$repeatItem", Obj(if IsName(member) then [Member("member", member.value)] else []))]))
    else if IsName(source) && IsName(path) then
      Some(Obj([Member("$var", Obj([Member("path", Str(source.value.text + ":" + path.value.text))]))]))
    else None
  }

  /** A target that is already there wins; a null one counts as none. */
  function NewTarget(ms: seq<Member>): Option<Json> {
    var target := Get(ms, "target");
    if target.None? then TargetOf(ms) else if target.value.Null? then None else target
  }

  /** The members in order; the target takes the place of the first old field. */
  function Targeted(ms: seq<Member>, target: Option<Json>, out: seq<Member>): seq<Member> {
    if ms == [] then out
    else if ms[0].key in OLD_KEYS || ms[0].key == "target" then
      Targeted(ms[1..], target,
        if target.Some? && Get(out, "target").None? then Assign(out, "target", target.value) else out)
    else Targeted(ms[1..], target, Assign(out, ms[0].key, ms[0].value))
  }

  function RewriteAction(ms: seq<Member>): seq<Member> {
    Targeted(ms, NewTarget(ms), [])
  }

  lemma {:induction false} TargetedIsNew(ms: seq<Member>, target: Option<Json>, out: seq<Member>, key: string)
    requires key in OLD_KEYS && Get(out, key).None?
    ensures Get(Targeted(ms, target, out), key).None?
  {
    if ms != [] {
      if target.Some? { GetAssign(out, "target", target.value, key); }
      GetAssign(out, ms[0].key, ms[0].value, key);
      if ms[0].key in OLD_KEYS || ms[0].key == "target" {
        TargetedIsNew(ms[1..], target,
          if target.Some? && Get(out, "target").None? then Assign(out, "target", target.value) else out, key);
      } else {
        TargetedIsNew(ms[1..], target, Assign(out, ms[0].key, ms[0].value), key);
      }
    }
  }

  lemma {:induction false} TargetedClean(ms: seq<Member>, target: Option<Json>, out: seq<Member>)
    requires !AnyMember(ms, IsOldAction) && !AnyMember(out, IsOldAction)
    requires target.Some? ==> !HasOld(target.value, IsOldAction)
    ensures !AnyMember(Targeted(ms, target, out), IsOldAction)
  {
    if ms != [] {
      if target.Some? { AssignClean(out, "target", target.value, IsOldAction); }
      AssignClean(out, ms[0].key, ms[0].value, IsOldAction);
      if ms[0].key in OLD_KEYS || ms[0].key == "target" {
        TargetedClean(ms[1..], target,
          if target.Some? && Get(out, "target").None? then Assign(out, "target", target.value) else out);
      } else {
        TargetedClean(ms[1..], target, Assign(out, ms[0].key, ms[0].value));
      }
    }
  }

  lemma UntypedClean(key: string, value: Json)
    requires key != "type" && !HasOld(value, IsOldAction)
    ensures !HasOld(Obj([Member(key, value)]), IsOldAction)
  {
    var ms := [Member(key, value)];
    assert ms[1..] == [] && Get(ms, "type") == Get(ms[1..], "type") == None;
    assert !AnyMember(ms[1..], IsOldAction) && !AnyMember(ms, IsOldAction);
    assert !IsWriteAction(ms);
  }

  lemma TargetClean(ms: seq<Member>)
    requires !AnyMember(ms, IsOldAction)
    ensures NewTarget(ms).Some? ==> !HasOld(NewTarget(ms).value, IsOldAction)
  {
    if Get(ms, "target").Some? {
      GetClean(ms, "target", IsOldAction);
    } else if TargetOf(ms).Some? {
      var outer := TargetOf(ms).value.members[0];
      var inner := outer.value.members;
      if inner != [] { UntypedClean(inner[0].key, inner[0].value); }
      UntypedClean(outer.key, outer.value);
    }
  }

  lemma IsRewriter()
    ensures IsStable(IsOldAction, RewriteAction) && IsNormalising(IsOldAction, RewriteAction)
  {
    forall ms
      ensures IsOldAction(RewrittenMembers(ms, IsOldAction, RewriteAction)) == IsOldAction(ms)
    {
      TextStays(ms, "type", "writeDataVariable", IsOldAction, RewriteAction);
      TextStays(ms, "type", "toggleDataVariable", IsOldAction, RewriteAction);
      GetRewritten(ms, "datasource", IsOldAction, RewriteAction);
      GetRewritten(ms, "path", IsOldAction, RewriteAction);
      GetRewritten(ms, "repeatItem", IsOldAction, RewriteAction);
    }
    forall ms
      ensures !IsOldAction(RewriteAction(ms))
    {
      TargetedIsNew(ms, NewTarget(ms), [], "datasource");
      TargetedIsNew(ms, NewTarget(ms), [], "path");
      TargetedIsNew(ms, NewTarget(ms), [], "repeatItem");
    }
    forall ms | !AnyMember(ms, IsOldAction)
      ensures !AnyMember(RewriteAction(ms), IsOldAction)
    {
      TargetClean(ms);
      TargetedClean(ms, NewTarget(ms), []);
    }
  }

  /** The step changes a document if and only if a write action with old fields occurs in it at some depth;
      it leaves none behind, and running it again changes nothing. */
  lemma StepIsExact(v: Json)
    ensures var r := Rewritten(v, IsOldAction, RewriteAction);
      (r != v <==> HasOld(v, IsOldAction)) && !HasOld(r, IsOldAction) && Rewritten(r, IsOldAction, RewriteAction) == r
  {
    IsRewriter();
    RewritingIsExact(v, IsOldAction, RewriteAction);
  }

  lemma {:induction false} TargetedGet(ms: seq<Member>, target: Option<Json>, out: seq<Member>, key: string)
    requires HasDistinctKeys(ms) && key !in OLD_KEYS && key != "target"
    ensures Get(Targeted(ms, target, out), key) == if Get(ms, key).None? then Get(out, key) else Get(ms, key)
  {
    if ms != [] {
      HasGet(ms[1..], ms[0].key);
      if target.Some? { GetAssign(out, "target", target.value, key); }
      GetAssign(out, ms[0].key, ms[0].value, key);
      if ms[0].key in OLD_KEYS || ms[0].key == "target" {
        TargetedGet(ms[1..], target,
          if target.Some? && Get(out, "target").None? then Assign(out, "target", target.value) else out, key);
      } else {
        TargetedGet(ms[1..], target, Assign(out, ms[0].key, ms[0].value), key);
      }
    }
  }

  lemma {:induction false} TargetedTarget(ms: seq<Member>, target: Option<Json>, out: seq<Member>)
    requires Get(out, "target").Some? ==> Get(out, "target") == target
    ensures var met := exists m :: m in ms && (m.key in OLD_KEYS || m.key == "target");
      Get(Targeted(ms, target, out), "target") == if met then target else Get(out, "target")
  {
    if ms != [] {
      var m := ms[0];
      assert forall x :: x in ms <==> x == m || x in ms[1..];
      if target.Some? { GetAssign(out, "target", target.value, "target"); }
      GetAssign(out, m.key, m.value, "target");
      if m.key in OLD_KEYS || m.key == "target" {
        TargetedTarget(ms[1..], target,
          if target.Some? && Get(out, "target").None? then Assign(out, "target", target.value) else out);
      } else {
        TargetedTarget(ms[1..], target, Assign(out, m.key, m.value));
      }
    }
  }

  /** The rewritten action writes what the old one wrote: a target that was there, otherwise the named
      repeat element or variable, otherwise none. Every other field is carried over. */
  lemma ActionIsCarriedOver(ms: seq<Member>, key: string)
    requires HasDistinctKeys(ms) && IsOldAction(ms)
    ensures var r := RewriteAction(ms);
      && Get(r, "target") == NewTarget(ms)
      && (key !in OLD_KEYS && key != "target" ==> Get(r, key) == Get(ms, key))
  {
    HasGet(ms, "datasource");
    HasGet(ms, "path");
    HasGet(ms, "repeatItem");
    TargetedTarget(ms, NewTarget(ms), []);
    if key !in OLD_KEYS && key != "target" { TargetedGet(ms, NewTarget(ms), [], key); }
  }
}
