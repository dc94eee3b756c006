/** Format 10 to 11: a user badge becomes a row of built-in widgets. */
module UserBadge {
  import opened Options
  import opened Json
  import opened JsonRewriting
  import opened JsonSteps

  predicate IsBadge(ms: seq<Member>) {
    IsText(Get(ms, "type"), "UserBadge")
  }

  function Props(ms: seq<Member>): seq<Member> {
    var p := Get(ms, "properties");
    if p.Some? && p.value.Obj? then p.value.members else []
  }

  function Actions(props: seq<Member>, key: string, event: string): seq<Json> {
    var v := Get(props, key);
    if v.None? || !v.value.Obj? then [] else
    var actions := Get(v.value.members, event);
    if actions.Some? && actions.value.Arr? then actions.value.items else []
  }

  predicate IsTruthy(v: Json) {
    match v
    case Null => false
    case Bool(b) => b
    case Number(n) => n != 0.0
    case Str(s) => s != ""
    case Arr(items) => items != []
    case Obj(ms) => ms != []
  }

  function GetOr(ms: seq<Member>, key: string, other: Json): Json {
    Get(ms, key).GetOr(other)
  }

  function TruthyOr(ms: seq<Member>, key: string, other: Json): Json {
    var v := Get(ms, key);
    if v.Some? && IsTruthy(v.value) then v.value else other
  }

  function UserField(field: string): Json {
    Obj([Member("$user", Obj([Member("field", Str(field))]))])
  }

  function IsGuest(): Json {
    Obj([Member("$compare", Obj([
      Member("left", UserField("username")), Member("operator", Str("===")), Member("right", Str("guest"))]))])
  }

  function NotGuest(): Json {
    Obj([Member("$not", Obj([Member("value", IsGuest())]))])
  }

  function Hug(): seq<Member> {
    [Member("widthMode", Str("hug")), Member("heightMode", Str("hug"))]
  }

  function Widget(id: string, kind: string, name: string, rest: seq<Member>): Json {
    Obj([Member("id", Str(id)), Member("type", Str(kind)), Member("name", Str(name))] + rest)
  }

  function Leaf(id: string, kind: string, name: string, props: seq<Member>): Json {
    Widget(id, kind, name, [Member("properties", Obj(props))])
  }

  function Button(id: string, name: string, props: seq<Member>): Json {
    Widget(id, "Button", name, [Member("properties", Obj(props)), Member("layout", Obj(Hug()))])
  }

  function Box(id: string, kind: string, name: string, props: seq<Member>, layout: seq<Member>, children: seq<Json>): Json {
    Widget(id, kind, name, [Member("properties", Obj(props)), Member("layout", Obj(layout)), Member("children", Arr(children))])
  }

  function LabelProps(text: Json, typography: string): seq<Member> {
    [Member("text", text), Member("typography", Str(typography)), Member("wrap", Str("truncate"))]
  }

  function Username(id: string, props: seq<Member>): Json {
    Leaf(id + "-username", "Label", "Username", LabelProps(GetOr(props, "usernameText", UserField("username")), "subheading"))
  }

  function Groups(id: string, props: seq<Member>): Json {
    Leaf(id + "-groups", "Label", "Groups", LabelProps(GetOr(props, "groupsText", UserField("groups")), "caption"))
  }

  function Texts(id: string, props: seq<Member>): seq<Json> {
    [Username(id, props)] + if GetOr(props, "showGroups", Bool(true)) == Bool(false) then [] else [Groups(id, props)]
  }

  function AvatarProps(): seq<Member> {
    [Member("iconName", Str("user")), Member("size", Number(20.0))]
  }

  function Avatar(id: string): Json {
    Leaf(id + "-avatar", "Icon", "Avatar", AvatarProps())
  }

  function ColumnLayout(): seq<Member> {
    [Member("direction", Str("column")), Member("gap", Str("0px")), Member("wrap", Bool(false))] + Hug()
  }

  function TextColumn(id: string, props: seq<Member>): Json {
    Box(id + "-text", "Container", "Text", [], ColumnLayout(), Texts(id, props))
  }

  function OnPress(actions: seq<Json>): Member {
    Member("actions", Obj([Member("onPress", Arr(actions))]))
  }

  function IdentityProps(props: seq<Member>): seq<Member> {
    (if Actions(props, "onSignIn", "onSignIn") != [] then [Member("visible", NotGuest())] else [])
      + (if Actions(props, "actions", "onPress") != [] then [OnPress(Actions(props, "actions", "onPress"))] else [])
  }

  function RowLayout(): seq<Member> {
    [Member("direction", Str("row")), Member("align", Str("center")), Member("gap", Str("0.5rem")), Member("wrap", Bool(false))]
      + Hug()
  }

  function Identity(id: string, props: seq<Member>): Json {
    Box(id + "-identity", if Actions(props, "actions", "onPress") != [] then "ButtonContainer" else "Container", "Identity",
        IdentityProps(props), RowLayout(), [Avatar(id), TextColumn(id, props)])
  }

  function SignInProps(props: seq<Member>): seq<Member> {
    [Member("visible", IsGuest()), Member("label", GetOr(props, "signInLabel", Str("Log in"))),
     Member("iconName", TruthyOr(props, "signInIcon", Str("lock"))), OnPress(Actions(props, "onSignIn", "onSignIn"))]
  }

  function SignIn(id: string, props: seq<Member>): seq<Json> {
    if Actions(props, "onSignIn", "onSignIn") == [] then []
    else [Button(id + "-sign-in", "Sign in", SignInProps(props))]
  }

  function SignOutProps(props: seq<Member>): seq<Member> {
    [Member("visible", NotGuest()), Member("label", Str("")),
     Member("iconName", TruthyOr(props, "signOutIcon", Str("sign-out"))), Member("variant", Str("outline")),
     OnPress(Actions(props, "onSignOut", "onSignOut"))]
  }

  function SignOut(id: string, props: seq<Member>): seq<Json> {
    if Actions(props, "onSignOut", "onSignOut") == [] then []
    else [Button(id + "-sign-out", "Sign out", SignOutProps(props))]
  }

  function Row(ms: seq<Member>): seq<Member> {
    var authored := Get(ms, "layout");
    var l := if authored.Some? && authored.value.Obj? then authored.value.members else [];
    var row := Assign(Assign(Assign(Assign(l, "direction", Str("row")), "align", Str("center")), "gap", Str("0.5rem")),
                      "wrap", Bool(false));
    var radius := Get(Props(ms), "radius");
    if radius.Some? && radius.value.Str? && radius.value.text != "" then Assign(row, "radius", radius.value) else row
  }

  /** The per-node gates every widget carries. */
  function Gates(props: seq<Member>): seq<Member> {
    (if Get(props, "visible").Some? then [Member("visible", Get(props, "visible").value)] else [])
      + if Get(props, "interactable").Some? then [Member("interactable", Get(props, "interactable").value)] else []
  }

  /** `show` is the text the host makes of an id that is not a string. */
  function IdOf(ms: seq<Member>, show: Json -> string): string {
    var id := GetOr(ms, "id", Str("user"));
    if id.Str? then id.text else show(id)
  }

  function Replaced(ms: seq<Member>, show: Json -> string): seq<Member> {
    var id, props := IdOf(ms, show), Props(ms);
    [Member("id", Str(id)), Member("type", Str("Container")), Member("name", GetOr(ms, "name", Str("User"))),
     Member("properties", Obj(Gates(props))), Member("layout", Obj(Row(ms))), Member("children", Arr(Parts(id, props)))]
  }

  function Parts(id: string, props: seq<Member>): seq<Json> {
    SignIn(id, props) + [Identity(id, props)] + SignOut(id, props)
  }

  function Replace(show: Json -> string): Rule {
    (ms: seq<Member>) => Replaced(ms, show)
  }

  // ----- nothing that is written is, or holds, a badge -----

  predicate IsClean(v: Json) {
    !HasOld(v, IsBadge)
  }

  lemma {:induction false} MembersClean(ms: seq<Member>)
    requires forall i :: 0 <= i < |ms| ==> IsClean(ms[i].value)
    ensures !AnyMember(ms, IsBadge)
  {
    if ms != [] { MembersClean(ms[1..]); }
  }

  lemma {:induction false} ItemsClean(items: seq<Json>)
    requires forall i :: 0 <= i < |items| ==> IsClean(items[i])
    ensures !AnyItem(items, IsBadge)
  {
    if items != [] { ItemsClean(items[1..]); }
  }

  /** An object without a type, all of whose values are clean. */
  lemma UntypedClean(ms: seq<Member>)
    requires forall i :: 0 <= i < |ms| ==> IsClean(ms[i].value) && ms[i].key != "type"
    ensures IsClean(Obj(ms)) && !AnyMember(ms, IsBadge)
  {
    MembersClean(ms);
    HasGet(ms, "type");
    assert Get(ms, "type").None? && !IsBadge(ms);
  }

  lemma WidgetClean(id: string, kind: string, name: string, rest: seq<Member>)
    requires kind != "UserBadge" && !AnyMember(rest, IsBadge)
    ensures IsClean(Widget(id, kind, name, rest))
  {
    var ms := [Member("id", Str(id)), Member("type", Str(kind)), Member("name", Str(name))] + rest;
    var named, typed := ms[2..], ms[1..];
    assert named[1..] == rest && typed[1..] == named;
    assert IsClean(Str(id)) && IsClean(Str(kind)) && IsClean(Str(name));
    assert !AnyMember(named, IsBadge);
    assert !AnyMember(typed, IsBadge);
    assert !AnyMember(ms, IsBadge);
    assert Get(ms, "type") == Get(ms[1..], "type") == Some(Str(kind));
  }

  lemma LeafClean(id: string, kind: string, name: string, props: seq<Member>)
    requires kind != "UserBadge" && IsClean(Obj(props))
    ensures IsClean(Leaf(id, kind, name, props))
  {
    var rest := [Member("properties", Obj(props))];
    MembersClean(rest);
    WidgetClean(id, kind, name, rest);
  }

  lemma ButtonClean(id: string, name: string, props: seq<Member>)
    requires IsClean(Obj(props))
    ensures IsClean(Button(id, name, props))
  {
    UntypedClean(Hug());
    var rest := [Member("properties", Obj(props)), Member("layout", Obj(Hug()))];
    MembersClean(rest);
    WidgetClean(id, "Button", name, rest);
  }

  lemma BoxClean(id: string, kind: string, name: string, props: seq<Member>, layout: seq<Member>, children: seq<Json>)
    requires kind != "UserBadge" && IsClean(Obj(props)) && IsClean(Obj(layout)) && !AnyItem(children, IsBadge)
    ensures IsClean(Box(id, kind, name, props, layout, children))
  {
    var rest := [Member("properties", Obj(props)), Member("layout", Obj(layout)), Member("children", Arr(children))];
    MembersClean(rest);
    WidgetClean(id, kind, name, rest);
  }

  lemma GuestClean()
    ensures IsClean(IsGuest()) && IsClean(NotGuest()) && IsClean(UserField("username")) && IsClean(UserField("groups"))
  {
    UntypedClean([Member("field", Str("username"))]);
    UntypedClean(UserField("username").members);
    UntypedClean([Member("field", Str("groups"))]);
    UntypedClean(UserField("groups").members);
    UntypedClean(IsGuest().members[0].value.members);
    UntypedClean(IsGuest().members);
    UntypedClean(NotGuest().members[0].value.members);
    UntypedClean(NotGuest().members);
  }

  lemma GetOrClean(ms: seq<Member>, key: string, other: Json)
    requires !AnyMember(ms, IsBadge) && IsClean(other)
    ensures IsClean(GetOr(ms, key, other)) && IsClean(TruthyOr(ms, key, other))
  {
    if Get(ms, key).Some? { GetClean(ms, key, IsBadge); }
  }

  lemma ActionsClean(props: seq<Member>, key: string, event: string)
    requires !AnyMember(props, IsBadge)
    ensures IsClean(OnPress(Actions(props, key, event)).value)
  {
    var v := Get(props, key);
    if v.Some? && v.value.Obj? {
      GetClean(props, key, IsBadge);
      if Get(v.value.members, event).Some? { GetClean(v.value.members, event, IsBadge); }
    }
    assert IsClean(Arr(Actions(props, key, event)));
    UntypedClean([Member("onPress", Arr(Actions(props, key, event)))]);
  }

  lemma LabelPropsClean(text: Json, typography: string)
    requires IsClean(text)
    ensures IsClean(Obj(LabelProps(text, typography)))
  {
    UntypedClean(LabelProps(text, typography));
  }

  lemma UsernameClean(id: string, props: seq<Member>)
    requires !AnyMember(props, IsBadge)
    ensures IsClean(Username(id, props))
  {
    GuestClean();
    var text := GetOr(props, "usernameText", UserField("username"));
    GetOrClean(props, "usernameText", UserField("username"));
    LabelPropsClean(text, "subheading");
    LeafClean(id + "-username", "Label", "Username", LabelProps(text, "subheading"));
  }

  lemma GroupsClean(id: string, props: seq<Member>)
    requires !AnyMember(props, IsBadge)
    ensures IsClean(Groups(id, props))
  {
    GuestClean();
    var text := GetOr(props, "groupsText", UserField("groups"));
    GetOrClean(props, "groupsText", UserField("groups"));
    LabelPropsClean(text, "caption");
    LeafClean(id + "-groups", "Label", "Groups", LabelProps(text, "caption"));
  }

  lemma TextsClean(id: string, props: seq<Member>)
    requires !AnyMember(props, IsBadge)
    ensures !AnyItem(Texts(id, props), IsBadge)
  {
    UsernameClean(id, props);
    GroupsClean(id, props);
    ItemsClean(Texts(id, props));
  }

  lemma LayoutsClean()
    ensures IsClean(Obj(ColumnLayout())) && IsClean(Obj(RowLayout())) && IsClean(Obj(AvatarProps())) && IsClean(Obj([]))
  {
    UntypedClean(ColumnLayout());
    UntypedClean(RowLayout());
    UntypedClean(AvatarProps());
    UntypedClean([]);
  }

  lemma TwoClean(visible: Json, actions: Json, first: bool, second: bool)
    requires IsClean(visible) && IsClean(actions)
    ensures IsClean(Obj((if first then [Member("visible", visible)] else []) + (if second then [Member("actions", actions)] else [])))
  {
    UntypedClean((if first then [Member("visible", visible)] else []) + (if second then [Member("actions", actions)] else []));
  }

  lemma IdentityPropsClean(props: seq<Member>)
    requires !AnyMember(props, IsBadge)
    ensures IsClean(Obj(IdentityProps(props)))
  {
    GuestClean();
    ActionsClean(props, "actions", "onPress");
    TwoClean(NotGuest(), OnPress(Actions(props, "actions", "onPress")).value,
      Actions(props, "onSignIn", "onSignIn") != [], Actions(props, "actions", "onPress") != []);
  }

  lemma ChildrenClean(id: string, props: seq<Member>)
    requires !AnyMember(props, IsBadge)
    ensures !AnyItem([Avatar(id), TextColumn(id, props)], IsBadge)
  {
    LayoutsClean();
    LeafClean(id + "-avatar", "Icon", "Avatar", AvatarProps());
    TextsClean(id, props);
    BoxClean(id + "-text", "Container", "Text", [], ColumnLayout(), Texts(id, props));
    ItemsClean([Avatar(id), TextColumn(id, props)]);
  }

  lemma IdentityClean(id: string, props: seq<Member>)
    requires !AnyMember(props, IsBadge)
    ensures IsClean(Identity(id, props))
  {
    LayoutsClean();
    IdentityPropsClean(props);
    ChildrenClean(id, props);
    BoxClean(id + "-identity", if Actions(props, "actions", "onPress") != [] then "ButtonContainer" else "Container",
      "Identity", IdentityProps(props), RowLayout(), [Avatar(id), TextColumn(id, props)]);
  }

  lemma FourClean(visible: Json, caption: Json, icon: Json, actions: Json)
    requires IsClean(visible) && IsClean(caption) && IsClean(icon) && IsClean(actions)
    ensures IsClean(Obj([Member("visible", visible), Member("label", caption), Member("iconName", icon), Member("actions", actions)]))
  {
    UntypedClean([Member("visible", visible), Member("label", caption), Member("iconName", icon), Member("actions", actions)]);
  }

  lemma FiveClean(visible: Json, icon: Json, actions: Json)
    requires IsClean(visible) && IsClean(icon) && IsClean(actions)
    ensures IsClean(Obj([Member("visible", visible), Member("label", Str("")), Member("iconName", icon),
      Member("variant", Str("outline")), Member("actions", actions)]))
  {
    UntypedClean([Member("visible", visible), Member("label", Str("")), Member("iconName", icon),
      Member("variant", Str("outline")), Member("actions", actions)]);
  }

  lemma SignInPropsClean(props: seq<Member>)
    requires !AnyMember(props, IsBadge)
    ensures IsClean(Obj(SignInProps(props)))
  {
    GuestClean();
    ActionsClean(props, "onSignIn", "onSignIn");
    GetOrClean(props, "signInLabel", Str("Log in"));
    GetOrClean(props, "signInIcon", Str("lock"));
    FourClean(IsGuest(), GetOr(props, "signInLabel", Str("Log in")), TruthyOr(props, "signInIcon", Str("lock")),
      OnPress(Actions(props, "onSignIn", "onSignIn")).value);
  }

  lemma SignInClean(id: string, props: seq<Member>)
    requires !AnyMember(props, IsBadge)
    ensures forall i :: 0 <= i < |SignIn(id, props)| ==> IsClean(SignIn(id, props)[i])
  {
    SignInPropsClean(props);
    ButtonClean(id + "-sign-in", "Sign in", SignInProps(props));
  }

  lemma SignOutPropsClean(props: seq<Member>)
    requires !AnyMember(props, IsBadge)
    ensures IsClean(Obj(SignOutProps(props)))
  {
    GuestClean();
    ActionsClean(props, "onSignOut", "onSignOut");
    GetOrClean(props, "signOutIcon", Str("sign-out"));
    FiveClean(NotGuest(), TruthyOr(props, "signOutIcon", Str("sign-out")),
      OnPress(Actions(props, "onSignOut", "onSignOut")).value);
  }

  lemma SignOutClean(id: string, props: seq<Member>)
    requires !AnyMember(props, IsBadge)
    ensures forall i :: 0 <= i < |SignOut(id, props)| ==> IsClean(SignOut(id, props)[i])
  {
    SignOutPropsClean(props);
    ButtonClean(id + "-sign-out", "Sign out", SignOutProps(props));
  }

  lemma PartsClean(id: string, props: seq<Member>)
    requires !AnyMember(props, IsBadge)
    ensures !AnyItem(Parts(id, props), IsBadge)
  {
    SignInClean(id, props);
    IdentityClean(id, props);
    SignOutClean(id, props);
    ItemsClean(Parts(id, props));
  }

  lemma PropsClean(ms: seq<Member>)
    requires !AnyMember(ms, IsBadge)
    ensures !AnyMember(Props(ms), IsBadge)
  {
    if Get(ms, "properties").Some? { GetClean(ms, "properties", IsBadge); }
  }

  lemma RowClean(ms: seq<Member>)
    requires !AnyMember(ms, IsBadge)
    ensures IsClean(Obj(Row(ms)))
  {
    var authored := Get(ms, "layout");
    var l := if authored.Some? && authored.value.Obj? then authored.value.members else [];
    if authored.Some? { GetClean(ms, "layout", IsBadge); }
    assert !IsBadge(l);
    var a := Assigned(l, "direction", Str("row"));
    var b := Assigned(a, "align", Str("center"));
    var c := Assigned(b, "gap", Str("0.5rem"));
    var d := Assigned(c, "wrap", Bool(false));
    var radius := Get(Props(ms), "radius");
    if radius.Some? && radius.value.Str? { var e := Assigned(d, "radius", radius.value); }
  }

  lemma Assigned(ms: seq<Member>, key: string, value: Json) returns (r: seq<Member>)
    requires !AnyMember(ms, IsBadge) && !IsBadge(ms) && key != "type" && IsClean(value)
    ensures r == Assign(ms, key, value) && !AnyMember(r, IsBadge) && !IsBadge(r)
  {
    r := Assign(ms, key, value);
    AssignClean(ms, key, value, IsBadge);
    GetAssign(ms, key, value, "type");
  }

  lemma GatesClean(props: seq<Member>)
    requires !AnyMember(props, IsBadge)
    ensures IsClean(Obj(Gates(props)))
  {
    if Get(props, "visible").Some? { GetClean(props, "visible", IsBadge); }
    if Get(props, "interactable").Some? { GetClean(props, "interactable", IsBadge); }
    UntypedClean(Gates(props));
  }

  lemma ReplacedIsNotBadge(ms: seq<Member>, show: Json -> string)
    ensures !IsBadge(Replaced(ms, show))
  {
    var r := Replaced(ms, show);
    assert Get(r, "type") == Get(r[1..], "type") == Some(Str("Container"));
  }

  lemma ReplacedClean(ms: seq<Member>, show: Json -> string)
    requires !AnyMember(ms, IsBadge)
    ensures !AnyMember(Replaced(ms, show), IsBadge)
  {
    var id, props := IdOf(ms, show), Props(ms);
    PropsClean(ms);
    GetOrClean(ms, "name", Str("User"));
    GatesClean(props);
    RowClean(ms);
    PartsClean(id, props);
    SixClean(IdOf(ms, show), GetOr(ms, "name", Str("User")), Obj(Gates(props)), Obj(Row(ms)), Arr(Parts(id, props)));
  }

  lemma SixClean(id: string, name: Json, gates: Json, layout: Json, children: Json)
    requires IsClean(name) && IsClean(gates) && IsClean(layout) && IsClean(children)
    ensures !AnyMember([Member("id", Str(id)), Member("type", Str("Container")), Member("name", name),
      Member("properties", gates), Member("layout", layout), Member("children", children)], IsBadge)
  {
    MembersClean([Member("id", Str(id)), Member("type", Str("Container")), Member("name", name),
      Member("properties", gates), Member("layout", layout), Member("children", children)]);
  }

  lemma IsRewriter(show: Json -> string)
    ensures IsStable(IsBadge, Replace(show)) && IsNormalising(IsBadge, Replace(show))
  {
    forall ms
      ensures IsBadge(RewrittenMembers(ms, IsBadge, Replace(show))) == IsBadge(ms)
    {
      TextStays(ms, "type", "UserBadge", IsBadge, Replace(show));
    }
    forall ms
      ensures !IsBadge(Replace(show)(ms))
    {
      ReplacedIsNotBadge(ms, show);
    }
    forall ms | !AnyMember(ms, IsBadge)
      ensures !AnyMember(Replace(show)(ms), IsBadge)
    {
      ReplacedClean(ms, show);
    }
  }

  /** The step changes a document if and only if a badge occurs in it at some depth; it leaves none
      behind, and running it again changes nothing. */
  lemma StepIsExact(v: Json, show: Json -> string)
    ensures var r := Rewritten(v, IsBadge, Replace(show));
      (r != v <==> HasOld(v, IsBadge)) && !HasOld(r, IsBadge) && Rewritten(r, IsBadge, Replace(show)) == r
  {
    IsRewriter(show);
    RewritingIsExact(v, IsBadge, Replace(show));
  }
}

/** Format 10 to 11, second half: a container that can be pressed becomes a button container. */
module ButtonContainer {
  import opened Options
  import opened Json
  import opened JsonRewriting
  import opened JsonSteps
  import UserBadge

  const PRESS_KEYS: set<string> := {"actions", "onRelease"}

  function BoundAction(event: string, property: string): Json {
    Obj([Member(event, Arr([Obj([
      Member("type", Str("runComponentActions")), Member("property", Str(property))])]))])
  }

  function BoundProp(v: Option<Json>): Option<Json> {
    if v.Some? && v.value.Obj? then Get(v.value.members, "$componentProp") else None
  }

  /** A field bound to a component property becomes a list of one action. */
  function UnboundField(props: seq<Member>, out: seq<Member>, key: string, event: string): seq<Member> {
    var bound := BoundProp(Get(props, key));
    if bound.Some? && bound.value.Str? then Assign(out, key, BoundAction(event, bound.value.text)) else out
  }

  function Unbind(props: seq<Member>): seq<Member> {
    UnboundField(props, UnboundField(props, props, "actions", "onPress"), "onRelease", "onRelease")
  }

  predicate HasAction(props: seq<Member>, key: string, event: string) {
    UserBadge.Actions(props, key, event) != []
  }

  predicate HasActions(props: seq<Member>) {
    HasAction(props, "actions", "onPress") || HasAction(props, "onRelease", "onRelease")
  }

  predicate HasPressKey(props: seq<Member>) {
    Get(props, "actions").Some? || Get(props, "onRelease").Some?
  }

  /** A container that the step retypes, or that only loses its empty press fields. */
  predicate IsPressable(ms: seq<Member>) {
    var props := Get(ms, "properties");
    && IsText(Get(ms, "type"), "Container") && props.Some? && props.value.Obj?
    && (HasActions(Unbind(props.value.members)) || HasPressKey(Unbind(props.value.members)))
  }

  function Retype(ms: seq<Member>): seq<Member> {
    var p := Get(ms, "properties");
    var props := Unbind(if p.Some? && p.value.Obj? then p.value.members else []);
    if HasActions(props) then Assign(Assign(ms, "type", Str("ButtonContainer")), "properties", Obj(props))
    else Assign(ms, "properties", Obj(Without(props, PRESS_KEYS)))
  }

  // ----- what unbinding and retyping keep -----

  lemma GetUnbind(props: seq<Member>, key: string)
    ensures key !in PRESS_KEYS ==> Get(Unbind(props), key) == Get(props, key)
    ensures Get(Unbind(props), key).Some? <==> Get(props, key).Some?
  {
    var a := UnboundField(props, props, "actions", "onPress");
    var x, y := BoundProp(Get(props, "actions")), BoundProp(Get(props, "onRelease"));
    if x.Some? && x.value.Str? { GetAssign(props, "actions", BoundAction("onPress", x.value.text), key); }
    if y.Some? && y.value.Str? { GetAssign(a, "onRelease", BoundAction("onRelease", y.value.text), key); }
  }

  /** The old shape is a container with a press field, whatever is in the field. */
  lemma PressableHasKey(ms: seq<Member>)
    ensures IsPressable(ms) <==>
              && IsText(Get(ms, "type"), "Container")
              && Get(ms, "properties").Some? && Get(ms, "properties").value.Obj?
              && HasPressKey(Get(ms, "properties").value.members)
  {
    var props := Get(ms, "properties");
    if props.Some? && props.value.Obj? {
      GetUnbind(props.value.members, "actions");
      GetUnbind(props.value.members, "onRelease");
    }
  }

  lemma RetypeGet(ms: seq<Member>, key: string)
    requires key != "type" && key != "properties"
    ensures Get(Retype(ms), key) == Get(ms, key)
  {
    var p := Get(ms, "properties");
    var props := Unbind(if p.Some? && p.value.Obj? then p.value.members else []);
    GetAssign(ms, "type", Str("ButtonContainer"), key);
    GetAssign(Assign(ms, "type", Str("ButtonContainer")), "properties", Obj(props), key);
    GetAssign(ms, "properties", Obj(Without(props, PRESS_KEYS)), key);
  }

  lemma PressKeyStays(v: Json)
    requires v.Obj?
    ensures var r := Rewritten(v, IsPressable, Retype);
      r.Obj? && (HasPressKey(r.members) <==> HasPressKey(v.members))
  {
    var out := RewrittenMembers(v.members, IsPressable, Retype);
    GetRewritten(v.members, "actions", IsPressable, Retype);
    GetRewritten(v.members, "onRelease", IsPressable, Retype);
    RetypeGet(out, "actions");
    RetypeGet(out, "onRelease");
  }

  lemma Stable(ms: seq<Member>)
    ensures IsPressable(RewrittenMembers(ms, IsPressable, Retype)) == IsPressable(ms)
  {
    PressableHasKey(ms);
    PressableHasKey(RewrittenMembers(ms, IsPressable, Retype));
    TextStays(ms, "type", "Container", IsPressable, Retype);
    GetRewritten(ms, "properties", IsPressable, Retype);
    var p := Get(ms, "properties");
    if p.Some? && p.value.Obj? { PressKeyStays(p.value); }
  }

  lemma RetypeIsNew(ms: seq<Member>)
    requires IsPressable(ms)
    ensures !IsPressable(Retype(ms))
  {
    var props := Unbind(Get(ms, "properties").value.members);
    var typed := Assign(ms, "type", Str("ButtonContainer"));
    var kept := Without(props, PRESS_KEYS);
    GetAssign(ms, "type", Str("ButtonContainer"), "type");
    GetAssign(typed, "properties", Obj(props), "type");
    GetAssign(ms, "properties", Obj(kept), "properties");
    GetWithout(props, PRESS_KEYS, "actions");
    GetWithout(props, PRESS_KEYS, "onRelease");
    PressableHasKey(Retype(ms));
  }

  // ----- nothing of a shape read off the type or the properties is made on the way -----

  /** A shape that depends on `type` and `properties` alone, and that no action has. */
  ghost predicate IsNodeShape(shape: Shape) {
    && (forall ms, ms' :: Get(ms, "type") == Get(ms', "type") && Get(ms, "properties") == Get(ms', "properties") ==>
          shape(ms) == shape(ms'))
    && (forall ms :: Get(ms, "type").None? || IsText(Get(ms, "type"), "runComponentActions") ==> !shape(ms))
  }

  lemma BoundActionClean(event: string, property: string, shape: Shape)
    requires IsNodeShape(shape) && event != "type"
    ensures !HasOld(BoundAction(event, property), shape)
  {
    var action := [Member("type", Str("runComponentActions")), Member("property", Str(property))];
    assert action[1..][1..] == [] && !AnyMember(action[1..][1..], shape) && !AnyMember(action[1..], shape);
    assert !AnyMember(action, shape) && Get(action, "type") == Some(Str("runComponentActions")) && !shape(action);
    assert !AnyItem([Obj(action)], shape);
    var ms := [Member(event, Arr([Obj(action)]))];
    assert ms[1..] == [] && Get(ms, "type") == Get(ms[1..], "type") == None;
    assert !AnyMember(ms[1..], shape) && !AnyMember(ms, shape) && !shape(ms);
  }

  lemma UnboundFieldClean(props: seq<Member>, out: seq<Member>, key: string, event: string, shape: Shape)
    requires IsNodeShape(shape) && !AnyMember(out, shape) && event != "type"
    ensures !AnyMember(UnboundField(props, out, key, event), shape)
  {
    var bound := BoundProp(Get(props, key));
    if bound.Some? && bound.value.Str? {
      BoundActionClean(event, bound.value.text, shape);
      AssignClean(out, key, BoundAction(event, bound.value.text), shape);
    }
  }

  /** The new properties hold, and are, no object of the shape if the old ones held and were none. */
  lemma NewPropsClean(props: seq<Member>, shape: Shape)
    requires IsNodeShape(shape) && !AnyMember(props, shape) && !shape(props)
    ensures !HasOld(Obj(Unbind(props)), shape) && !HasOld(Obj(Without(Unbind(props), PRESS_KEYS)), shape)
  {
    UnboundFieldClean(props, props, "actions", "onPress", shape);
    UnboundFieldClean(props, UnboundField(props, props, "actions", "onPress"), "onRelease", "onRelease", shape);
    var out := Unbind(props);
    GetUnbind(props, "type");
    GetUnbind(props, "properties");
    WithoutClean(out, PRESS_KEYS, shape);
    GetWithout(out, PRESS_KEYS, "type");
    GetWithout(out, PRESS_KEYS, "properties");
  }

  lemma RetypeClean(ms: seq<Member>, shape: Shape)
    requires IsNodeShape(shape) && !AnyMember(ms, shape) && IsPressable(ms)
    ensures !AnyMember(Retype(ms), shape)
  {
    var props := Get(ms, "properties").value.members;
    GetClean(ms, "properties", shape);
    NewPropsClean(props, shape);
    AssignClean(ms, "type", Str("ButtonContainer"), shape);
    AssignClean(Assign(ms, "type", Str("ButtonContainer")), "properties", Obj(Unbind(props)), shape);
    AssignClean(ms, "properties", Obj(Without(Unbind(props), PRESS_KEYS)), shape);
  }

  lemma IsRewriter()
    ensures IsStable(IsPressable, Retype) && IsNormalising(IsPressable, Retype)
  {
    forall ms
      ensures IsPressable(RewrittenMembers(ms, IsPressable, Retype)) == IsPressable(ms)
    {
      Stable(ms);
    }
    forall ms | IsPressable(ms)
      ensures !IsPressable(Retype(ms))
    {
      RetypeIsNew(ms);
    }
    assert IsNodeShape(IsPressable);
    forall ms | IsPressable(ms) && !AnyMember(ms, IsPressable)
      ensures !AnyMember(Retype(ms), IsPressable)
    {
      RetypeClean(ms, IsPressable);
    }
  }

  /** The step changes a document if and only if a container with a press field occurs in it at some depth;
      it leaves none behind, and running it again changes nothing. */
  lemma StepIsExact(v: Json)
    ensures var r := Rewritten(v, IsPressable, Retype);
      (r != v <==> HasOld(v, IsPressable)) && !HasOld(r, IsPressable) && Rewritten(r, IsPressable, Retype) == r
  {
    IsRewriter();
    RewritingIsExact(v, IsPressable, Retype);
  }

  lemma RespectsBadges()
    ensures Respects(Retype, IsPressable, UserBadge.IsBadge)
  {
    assert IsNodeShape(UserBadge.IsBadge);
    forall ms | IsPressable(ms)
      ensures !UserBadge.IsBadge(Retype(ms))
    {
      var props := Unbind(Get(ms, "properties").value.members);
      GetAssign(ms, "type", Str("ButtonContainer"), "type");
      GetAssign(Assign(ms, "type", Str("ButtonContainer")), "properties", Obj(props), "type");
      GetAssign(ms, "properties", Obj(Without(props, PRESS_KEYS)), "type");
    }
    forall ms | IsPressable(ms) && !AnyMember(ms, UserBadge.IsBadge)
      ensures !AnyMember(Retype(ms), UserBadge.IsBadge)
    {
      RetypeClean(ms, UserBadge.IsBadge);
    }
    forall ms | !UserBadge.IsBadge(ms)
      ensures !UserBadge.IsBadge(RewrittenMembers(ms, IsPressable, Retype))
    {
      TextStays(ms, "type", "UserBadge", IsPressable, Retype);
    }
  }

  /** The two halves of the format change in their order: afterwards neither a badge nor a container with a
      press field is left at any depth, although the first half writes containers itself. */
  lemma BothHalvesNormalise(v: Json, show: Json -> string)
    ensures var r := Rewritten(Rewritten(v, UserBadge.IsBadge, UserBadge.Replace(show)), IsPressable, Retype);
      !HasOld(r, UserBadge.IsBadge) && !HasOld(r, IsPressable)
  {
    UserBadge.StepIsExact(v, show);
    var badged := Rewritten(v, UserBadge.IsBadge, UserBadge.Replace(show));
    RespectsBadges();
    FirstStaysGone(badged, UserBadge.IsBadge, IsPressable, Retype);
    StepIsExact(badged);
  }
}
