/** The route gate: which browser-facing paths of a project instance are served without a session. The
    classification is made once, on the path as received; these proofs are about every later decoding. */
module GateRoutes {
  import opened Options
  import opened Strings
  import opened GateDecoding

  // ----- the name a downstream router may end up matching on -----

  predicate IsTrimmed(c: char) {
    c <= ' ' || c == '\U{7F}'
  }

  predicate IsDot(c: char) {
    c == '.'
  }

  /** What is left of a segment in front of a NUL or a path parameter. */
  function Head(form: string): string {
    Before(Before(form, '\0'), ';')
  }

  function Reduced(head: string): string {
    Trim(TrimRight(Trim(head, IsTrimmed), IsDot), IsTrimmed)
  }

  function RouteName(form: string): string {
    Reduced(Head(form))
  }

  /** The lower-cased name of a segment. */
  function NameOf(segment: string): string {
    RouteName(Lower(segment))
  }

  function FormsOf(decodings: seq<string>): set<string> {
    if decodings == [] then {} else
    var last := decodings[|decodings| - 1];
    FormsOf(decodings[..|decodings| - 1]) + {Lower(last), NameOf(last)}
  }

  lemma {:induction false} FormsHave(decodings: seq<string>, f: string)
    requires f in decodings
    ensures Lower(f) in FormsOf(decodings) && NameOf(f) in FormsOf(decodings)
  {
    if f != decodings[|decodings| - 1] { FormsHave(decodings[..|decodings| - 1], f); }
  }

  /** Every lower-cased form the classification has to judge. */
  function RouteForms(segment: string): set<string> {
    FormsOf(DecodedForms(segment))
  }

  method ComputeRouteForms(segment: string) returns (forms: set<string>)
    ensures forms == RouteForms(segment)
  {
    forms := {};
    var decodings := ComputeDecodedForms(segment);
    for i := 0 to |decodings|
      invariant forms == FormsOf(decodings[..i])
    {
      assert decodings[..i + 1][..i] == decodings[..i];
      var lowered := Lower(decodings[i]);
      forms := forms + {lowered};
      forms := forms + {RouteName(lowered)};
    }
    assert decodings[..|decodings|] == decodings;
  }

  /** The segment has a name once it is fully decoded. */
  predicate IsNamed(segment: string) {
    NameOf(Fixpoint(segment)) != ""
  }

  function FirstTrue(flags: seq<bool>): (i: nat)
    ensures i <= |flags| && (i < |flags| ==> flags[i]) && forall j :: 0 <= j < i ==> !flags[j]
  {
    if flags == [] || flags[0] then 0 else 1 + FirstTrue(flags[1..])
  }

  function Named(segments: seq<string>): seq<bool> {
    seq(|segments|, i requires 0 <= i < |segments| => IsNamed(segments[i]))
  }

  /** Which segment the child would classify the request on: the first that has a name, or the very
      first if none has. */
  function FirstRouteIndex(segments: seq<string>): (i: nat)
    requires segments != []
    ensures i < |segments|
  {
    var i := FirstTrue(Named(segments));
    if i == |segments| then 0 else i
  }

  method FirstRouteSegment(segments: seq<string>) returns (segment: string)
    requires segments != []
    ensures segment == segments[FirstRouteIndex(segments)]
  {
    ghost var named := Named(segments);
    for i := 0 to |segments|
      invariant forall j :: 0 <= j < i ==> !named[j]
    {
      assert named[i] == IsNamed(segments[i]);
      if IsNamed(segments[i]) {
        assert FirstTrue(named) == i;
        return segments[i];
      }
    }
    assert FirstTrue(named) == |named|;
    return segments[0];
  }

  // ----- the public table -----

  const ONE := "*"

  const GET_ROUTES: seq<seq<string>> := [
    ["api", "config", "config"],
    ["api", "config", "pages", ONE],
    ["api", "config", "dialogs", ONE],
    ["api", "config", "dictionaries"],
    ["api", "config", "translations"],
    ["api", "themes"],
    ["api", "themes", ONE],
    ["api", "default-theme"],
    ["api", "components"],
    ["api", "components", "folders"],
    ["api", "widgets"],
    ["api", "device", "info"],
    ["api", "users", "roster"],
    ["api", "alarms", "history"],
    ["api", "historian", "query"]]

  const POST_ROUTES: seq<seq<string>> := [
    ["api", "recipes", "datasets", ONE, "download"],
    ["api", "recipes", "datasets", ONE, "upload"],
    ["api", "http-request"]]

  const PRIVATE_DOCS: set<string> := {"openapi.json", "docs", "redoc"}

  function Routes(lookup: string): seq<seq<string>> {
    if lookup == "GET" then GET_ROUTES else if lookup == "POST" then POST_ROUTES else []
  }

  predicate Matches(pattern: seq<string>, segments: seq<string>) {
    && |pattern| == |segments|
    && forall i :: 0 <= i < |pattern| ==> pattern[i] == ONE || pattern[i] == segments[i]
  }

  predicate MatchesTable(lookup: string, segments: seq<string>) {
    exists i :: 0 <= i < |Routes(lookup)| && Matches(Routes(lookup)[i], segments)
  }

  function Lookup(verb: string): string {
    if verb == "HEAD" then "GET" else verb
  }

  function Classified(segments: seq<string>): string
    requires segments != []
  {
    segments[FirstRouteIndex(segments)]
  }

  /** A plain GET outside `api/`: a document or an asset. */
  predicate IsOpen(segments: seq<string>, verb: string)
    requires segments != []
  {
    Lookup(verb) == "GET" && "api" !in RouteForms(Classified(segments))
  }

  predicate RuntimePublic(subPath: string, verb: string) {
    var segments := Split(subPath, '/');
    if IsOpen(segments, verb) then RouteForms(Classified(segments)) !! PRIVATE_DOCS
    else MatchesTable(Lookup(verb), segments)
  }

  // ----- the gate -----

  datatype Parts = Parts(prefix: string, project: string, subPath: string)

  function JoinFrom(parts: seq<string>, n: nat): string {
    if |parts| <= n then "" else Join(parts[n..], '/')
  }

  function ProxyParts(path: string): Option<Parts> {
    var parts := Split(path, '/');
    if |parts| < 3 || parts[0] != "" || (parts[1] != "runtime" && parts[1] != "editor") || parts[2] == "" then None
    else Some(Parts(parts[1], parts[2], JoinFrom(parts, 3)))
  }

  function RawSubPath(raw: Option<string>): string {
    if raw.None? then "" else JoinFrom(Split(raw.value, '/'), 3)
  }

  predicate IsPlainSubPath(subPath: string) {
    subPath == "" || forall s :: s in Split(subPath, '/') ==> IsPlainSegment(s)
  }

  /** Paths that authenticate themselves or need no session. */
  predicate IsExempt(path: string) {
    || "/api/manager/auth" <= path || "/api/manager/peer/" <= path || "/api/manager/mcp/pair" <= path
    || path == "/api/health" || path == "/mcp" || "/mcp/" <= path || "/api/v1/" <= path
  }

  predicate IsSlash(c: char) {
    c == '/'
  }

  predicate IsGated(path: string, verb: string, raw: Option<string>) {
    if IsExempt(path) then false
    else if "/api/" <= path || TrimLeft(path, IsSlash) in PRIVATE_DOCS then true
    else
      var parts := ProxyParts(path);
      if parts.None? then "/runtime/" <= path || "/editor/" <= path
      else
        || parts.value.prefix != "runtime"
        || !IsPlainSegment(parts.value.project)
        || !IsPlainSubPath(parts.value.subPath) || !IsPlainSubPath(RawSubPath(raw))
        || !RuntimePublic(parts.value.subPath, verb)
  }
}
