/** The origins a project may reach: what a URL template pins, and what it renders to. Texts hold no control
    characters and no white space at their ends, which URL parsers drop before anything else. */
module HttpOrigins {
  import opened Options
  import opened Strings
  import opened Json
  import JsonPointers

  // ----- the origin of a URL -----

  datatype Origin = Origin(scheme: string, host: string, port: nat)

  predicate EndsAuthority(c: char) {
    c == '/' || c == '?' || c == '#'
  }

  function UpToEnd(s: string): string {
    if s == "" || EndsAuthority(s[0]) then "" else [s[0]] + UpToEnd(s[1..])
  }

  function AfterFirst(s: string, c: char): (r: string)
    ensures |r| <= |s| && (c in s ==> |r| < |s|)
  {
    if s == "" then "" else if s[0] == c then s[1..] else AfterFirst(s[1..], c)
  }

  function AfterLast(s: string, c: char): string
    decreases |s|
  {
    if c !in s then s else AfterLast(AfterFirst(s, c), c)
  }

  function DefaultPort(scheme: string): Option<nat> {
    if scheme == "http" then Some(80) else if scheme == "https" then Some(443) else None
  }

  /** Both brackets or neither: otherwise the parser refuses the URL. */
  predicate AreBracketsPaired(authority: string) {
    '[' in authority <==> ']' in authority
  }

  /** The zone of an address, behind `%`, keeps its case. */
  function LowerHost(host: string): string {
    Lower(Before(host, '%')) + host[|Before(host, '%')|..]
  }

  /** The origin an authority names without its credentials. */
  function HostOrigin(scheme: string, hostPort: string): Option<Origin> {
    var bracketed := '[' in hostPort;
    var inner := AfterFirst(hostPort, '[');
    var host := if bracketed then Before(inner, ']') else Before(hostPort, ':');
    var port := if bracketed then AfterFirst(AfterFirst(inner, ']'), ':') else AfterFirst(hostPort, ':');
    if host == "" || DefaultPort(scheme).None? then None
    else if port == "" then Some(Origin(scheme, LowerHost(host), DefaultPort(scheme).value))
    else if AreDigits(port) && Value(port) <= 65535 then Some(Origin(scheme, LowerHost(host), Value(port)))
    else None
  }

  function OriginOf(scheme: string, authority: string): Option<Origin> {
    if AreBracketsPaired(authority) then HostOrigin(scheme, AfterLast(authority, '@')) else None
  }

  /** `normalize_origin`. */
  function NormalizeOrigin(url: string): Option<Origin> {
    var scheme := Before(url, ':');
    var rest := url[|scheme|..];
    if DefaultPort(Lower(scheme)).None? || !("://" <= rest) then None
    else OriginOf(Lower(scheme), UpToEnd(rest[3..]))
  }

  // ----- classification -----

  datatype Class = Dynamic | Relative | Pinned(origin: Origin)

  predicate IsSchemeChar(c: char) {
    'A' <= c <= 'Z' || 'a' <= c <= 'z' || '0' <= c <= '9' || c == '+' || c == '.' || c == '-' || c == '{' || c == '}'
  }

  predicate IsSchemeShape(s: string) {
    && s != "" && ('A' <= s[0] <= 'Z' || 'a' <= s[0] <= 'z' || s[0] == '{')
    && forall i :: 0 <= i < |s| ==> IsSchemeChar(s[i])
  }

  /** The text in front of the first `://`, if there is one. */
  function BeforeScheme(s: string): Option<string> {
    if "://" <= s then Some("")
    else if s == "" then None
    else
      var rest := BeforeScheme(s[1..]);
      if rest.None? then None else Some([s[0]] + rest.value)
  }

  /** The scheme and the authority of a template, split by hand. */
  function SplitAuthority(template: string): Option<(string, string)> {
    var scheme := BeforeScheme(template);
    if scheme.None? || !IsSchemeShape(scheme.value) then None
    else
      BeforeSchemeIs(template);
      Some((scheme.value, UpToEnd(template[|scheme.value| + 3..])))
  }

  lemma {:induction false} BeforeSchemeIs(s: string)
    requires BeforeScheme(s).Some?
    ensures var p := BeforeScheme(s).value; |p| + 3 <= |s| && s == p + "://" + s[|p| + 3..]
  {
    if !("://" <= s) {
      BeforeSchemeIs(s[1..]);
      var p := BeforeScheme(s[1..]).value;
      assert s == [s[0]] + s[1..];
    }
  }

  function Classify(template: string): Class {
    var split := SplitAuthority(template);
    if split.None? then Relative
    else
      var (scheme, authority) := split.value;
      if '{' in scheme then Dynamic
      else if DefaultPort(Lower(scheme)).None? then Relative
      else if '{' in AfterLast(authority, '@') then Dynamic
      else
        var origin := NormalizeOrigin(template);
        if origin.Some? then Pinned(origin.value) else Relative
  }

  // ----- placeholders -----

  predicate IsWordChar(c: char) {
    'A' <= c <= 'Z' || 'a' <= c <= 'z' || '0' <= c <= '9' || c == '_'
  }

  predicate IsFunctionName(s: string) {
    s != "" && ('A' <= s[0] <= 'Z' || 'a' <= s[0] <= 'z') && forall i :: 0 <= i < |s| ==> IsWordChar(s[i])
  }

  /** The function call that this text is, as its name and its argument. */
  function Call(s: string): (r: Option<(string, string)>)
    ensures r.Some? ==> s == r.value.0 + "(" + r.value.1 + ")" && IsFunctionName(r.value.0)
  {
    var name := Before(s, '(');
    if IsFunctionName(name) && |name| + 2 < |s| && s[|s| - 1] == ')' then
      assert s == name + "(" + s[|name| + 1..|s| - 1] + ")";
      Some((name, s[|name| + 1..|s| - 1]))
    else None
  }

  /** The wildcard number between two braces, possibly wrapped in function calls; anything else is no
      placeholder. */
  function PlaceholderKey(body: string): Option<string>
    decreases |body|
  {
    var rest := Trim(body, IsSpace);
    if Call(rest).Some? then PlaceholderKey(Call(rest).value.1)
    else if IsDigits(rest) then Some(rest)
    else None
  }

  /** The functions around a wildcard number, outermost first, and the number. */
  method ParsePlaceholder(body: string) returns (fns: seq<string>, key: Option<string>)
    ensures key == PlaceholderKey(body)
    ensures key.Some? ==> IsDigits(key.value) && forall i :: 0 <= i < |fns| ==> IsFunctionName(fns[i])
  {
    fns := [];
    var inner := body;
    var rest := Trim(inner, IsSpace);
    while Call(rest).Some?
      invariant rest == Trim(inner, IsSpace) && PlaceholderKey(inner) == PlaceholderKey(body)
      invariant forall i :: 0 <= i < |fns| ==> IsFunctionName(fns[i])
      decreases |inner|
    {
      fns := fns + [Call(rest).value.0];
      inner := Call(rest).value.1;
      rest := Trim(inner, IsSpace);
    }
    key := if IsDigits(rest) then Some(rest) else None;
  }

  lemma TrimKeeps(s: string, c: char)
    requires c in s && !IsSpace(c)
    ensures c in Trim(s, IsSpace)
  {
    TrimLeftKeeps(s, IsSpace);
    TrimRightKeeps(TrimLeft(s, IsSpace), IsSpace);
  }

  /** No placeholder holds an `@`. */
  lemma {:induction false} PlaceholdersLackAt(body: string)
    requires PlaceholderKey(body).Some?
    ensures '@' !in body
    decreases |body|
  {
    var rest := Trim(body, IsSpace);
    if '@' in body { TrimKeeps(body, '@'); }
    if Call(rest).Some? {
      PlaceholdersLackAt(Call(rest).value.1);
    }
  }

  // ----- templates and their rendering -----

  /** A template as the renderer sees it: literal text, and placeholders by what stands between the braces. */
  datatype Piece = Lit(text: string) | Hole(name: string)
  type Template = seq<Piece>

  /** The longest start of a text that holds no brace. */
  function UpToBrace(s: string): (r: string)
    ensures r <= s
  {
    if s == "" || s[0] == '{' || s[0] == '}' then "" else [s[0]] + UpToBrace(s[1..])
  }

  function PieceText(p: Piece): string {
    match p
    case Lit(text) => text
    case Hole(name) => "{" + name + "}"
  }

  /** The piece a text starts with. Braces that enclose no placeholder are literal text. */
  function FirstPiece(s: string): (p: Piece)
    requires s != ""
    ensures PieceText(p) != "" && PieceText(p) <= s && (p.Hole? ==> PlaceholderKey(p.name).Some?)
  {
    var body := if s[0] == '{' then UpToBrace(s[1..]) else "";
    if body != "" && |body| + 1 < |s| && s[|body| + 1] == '}' then
      BracedStarts(s, body);
      if PlaceholderKey(body).Some? then Hole(body) else Lit("{" + body + "}")
    else Lit(s[..1])
  }

  lemma BracedStarts(s: string, body: string)
    requires s != "" && s[0] == '{' && body <= s[1..] && |body| + 1 < |s| && s[|body| + 1] == '}'
    ensures "{" + body + "}" <= s
  {
    var n := |body| + 2;
    assert forall i :: 0 <= i < |body| ==> s[i + 1] == s[1..][i] == body[i];
    assert s[..n] == "{" + body + "}";
  }

  /** The pieces of a text. */
  function Parse(s: string): Template
    decreases |s|
  {
    if s == "" then [] else [FirstPiece(s)] + Parse(s[|PieceText(FirstPiece(s))|..])
  }

  function Source(t: Template): string {
    if t == [] then "" else PieceText(t[0]) + Source(t[1..])
  }

  /** A name without a value is left as it stands. */
  function Filled(p: Piece, values: map<string, string>): string {
    if p.Hole? && p.name in values then values[p.name] else PieceText(p)
  }

  function Render(t: Template, values: map<string, string>): string {
    if t == [] then "" else Filled(t[0], values) + Render(t[1..], values)
  }

  /** Every placeholder of the template is one. */
  predicate AreKeyed(t: Template) {
    forall i :: 0 <= i < |t| && t[i].Hole? ==> PlaceholderKey(t[i].name).Some?
  }

  /** Parsing loses nothing, and takes nothing for a placeholder that the renderer would not fill. */
  lemma {:induction false} ParseIsExact(s: string)
    ensures Source(Parse(s)) == s && AreKeyed(Parse(s))
    decreases |s|
  {
    if s != "" {
      var p := FirstPiece(s);
      var rest := s[|PieceText(p)|..];
      ParseIsExact(rest);
      OneMore(p, Parse(rest));
      assert s == PieceText(p) + rest;
    }
  }

  lemma OneMore(p: Piece, t: Template)
    requires AreKeyed(t) && (p.Hole? ==> PlaceholderKey(p.name).Some?)
    ensures Source([p] + t) == PieceText(p) + Source(t) && AreKeyed([p] + t)
  {
    assert ([p] + t)[1..] == t;
  }

  /** The template cut at a position of its text; no cut goes through a placeholder. */
  function CutAt(t: Template, n: nat): Option<(Template, Template)> {
    if n == 0 then Some(([], t))
    else if t == [] then None
    else if t[0].Lit? && n <= |t[0].text| then Some(([Lit(t[0].text[..n])], [Lit(t[0].text[n..])] + t[1..]))
    else if n < |PieceText(t[0])| then None
    else
      var rest := CutAt(t[1..], n - |PieceText(t[0])|);
      if rest.None? then None else Some(([t[0]] + rest.value.0, rest.value.1))
  }

  lemma ConsParts(p: Piece, t: Template, values: map<string, string>)
    ensures Source([p] + t) == PieceText(p) + Source(t) && Render([p] + t, values) == Filled(p, values) + Render(t, values)
  {
    assert ([p] + t)[1..] == t;
  }

  lemma OnePart(text: string, values: map<string, string>)
    ensures Source([Lit(text)]) == Render([Lit(text)], values) == text
  {
    var t: Template := [Lit(text)];
    assert t[1..] == [];
    assert text + "" == text;
  }

  lemma {:induction false} CutParts(t: Template, n: nat, values: map<string, string>)
    requires CutAt(t, n).Some?
    ensures var (a, b) := CutAt(t, n).value;
      |Source(a)| == n && Source(t) == Source(a) + Source(b) && Render(t, values) == Render(a, values) + Render(b, values)
  {
    if n == 0 {
    } else if t[0].Lit? && n <= |t[0].text| {
      CutLiteral(t[0].text, n, t[1..], values);
    } else {
      CutParts(t[1..], n - |PieceText(t[0])|, values);
      var (a, b) := CutAt(t[1..], n - |PieceText(t[0])|).value;
      CutFurther(t, a, b, values);
      assert CutAt(t, n).value == ([t[0]] + a, b);
    }
  }

  lemma CutFurther(t: Template, a: Template, b: Template, values: map<string, string>)
    requires t != [] && Source(t[1..]) == Source(a) + Source(b) && Render(t[1..], values) == Render(a, values) + Render(b, values)
    ensures |Source([t[0]] + a)| == |PieceText(t[0])| + |Source(a)|
    ensures Source(t) == Source([t[0]] + a) + Source(b) && Render(t, values) == Render([t[0]] + a, values) + Render(b, values)
  {
    ConsParts(t[0], a, values);
    Associate(PieceText(t[0]), Source(a), Source(b));
    Associate(Filled(t[0], values), Render(a, values), Render(b, values));
  }

  lemma Associate(a: string, b: string, c: string)
    ensures a + (b + c) == a + b + c
  {
  }

  lemma CutLiteral(s: string, n: nat, rest: Template, values: map<string, string>)
    requires n <= |s|
    ensures |Source([Lit(s[..n])])| == n
    ensures s + Source(rest) == Source([Lit(s[..n])]) + Source([Lit(s[n..])] + rest)
    ensures s + Render(rest, values) == Render([Lit(s[..n])], values) + Render([Lit(s[n..])] + rest, values)
  {
    OnePart(s[..n], values);
    ConsParts(Lit(s[n..]), rest, values);
    assert s == s[..n] + s[n..];
    Associate(s[..n], s[n..], Source(rest));
    Associate(s[..n], s[n..], Render(rest, values));
  }

  /** Text without an opening brace holds no placeholder: it can be cut there, and renders as itself. */
  lemma {:induction false} CutPlain(t: Template, p: string, q: string, values: map<string, string>)
    requires Source(t) == p + q && '{' !in p
    ensures CutAt(t, |p|).Some?
    ensures var (a, b) := CutAt(t, |p|).value; Source(a) == Render(a, values) == p && Source(b) == q
  {
    if p == "" {
      assert p + q == q;
    } else {
      LiteralComesFirst(t, p, q);
      var s := t[0].text;
      if |p| <= |s| {
        CutInside(s, Source(t[1..]), p, q);
        OnePart(p, values);
        ConsParts(Lit(s[|p|..]), t[1..], values);
      } else {
        CutBeyond(s, Source(t[1..]), p, q);
        CutPlain(t[1..], p[|s|..], q, values);
        ConsParts(t[0], CutAt(t[1..], |p| - |s|).value.0, values);
      }
    }
  }

  lemma CutInside(s: string, rest: string, p: string, q: string)
    requires s + rest == p + q && |p| <= |s|
    ensures s[..|p|] == p && s[|p|..] + rest == q
  {
    assert s[..|p|] == (s + rest)[..|p|] == (p + q)[..|p|] == p;
    assert s[|p|..] + rest == (s + rest)[|p|..] == (p + q)[|p|..] == q;
  }

  lemma CutBeyond(s: string, rest: string, p: string, q: string)
    requires s + rest == p + q && |s| < |p|
    ensures p == s + p[|s|..] && rest == p[|s|..] + q && forall c :: c in p[|s|..] ==> c in p
  {
    assert s == (s + rest)[..|s|] == (p + q)[..|s|] == p[..|s|];
    assert rest == (s + rest)[|s|..] == (p + q)[|s|..] == p[|s|..] + q;
  }

  lemma LiteralComesFirst(t: Template, p: string, q: string)
    requires Source(t) == p + q && p != "" && '{' !in p
    ensures t != [] && t[0].Lit?
  {
    assert (p + q)[0] == p[0] && p[0] in p;
    if t != [] && t[0].Hole? { HoleComesFirst(t); }
  }

  lemma HoleComesFirst(t: Template)
    requires t != [] && t[0].Hole?
    ensures Source(t) != "" && Source(t)[0] == '{'
  {
  }

  lemma {:induction false} NothingRendersEmpty(t: Template, values: map<string, string>)
    requires Source(t) == ""
    ensures Render(t, values) == ""
  {
    if t != [] { NothingRendersEmpty(t[1..], values); }
  }

  /** A literal first character stays the first. */
  lemma FirstStays(t: Template, values: map<string, string>)
    requires Source(t) != "" && Source(t)[0] != '{'
    ensures Render(t, values) != "" && Render(t, values)[0] == Source(t)[0]
  {
    CutPlain(t, Source(t)[..1], Source(t)[1..], values);
    assert Source(t) == Source(t)[..1] + Source(t)[1..];
    CutParts(t, 1, values);
  }

  /** A literal last character stays the last. */
  lemma {:induction false} LastStays(t: Template, values: map<string, string>)
    requires Source(t) != "" && Source(t)[|Source(t)| - 1] != '}'
    ensures var r, s := Render(t, values), Source(t); r != "" && r[|r| - 1] == s[|s| - 1]
  {
    if Source(t[1..]) == "" {
      NothingRendersEmpty(t[1..], values);
    } else {
      LastStays(t[1..], values);
    }
    LastOfParts(t[0], values, Source(t[1..]), Render(t[1..], values));
  }

  lemma LastOfParts(p: Piece, values: map<string, string>, tail: string, tail': string)
    requires var s := PieceText(p) + tail; s != "" && s[|s| - 1] != '}'
    requires if tail == "" then tail' == "" else tail' != "" && tail'[|tail'| - 1] == tail[|tail| - 1]
    ensures var r, s := Filled(p, values) + tail', PieceText(p) + tail; r != "" && r[|r| - 1] == s[|s| - 1]
  {
    LastOfConcat(PieceText(p), tail);
    LastOfConcat(Filled(p, values), tail');
    if tail == "" { LastOfPiece(p, values); }
  }

  lemma LastOfConcat(a: string, b: string)
    ensures b == "" ==> a + b == a
    ensures b != "" ==> a + b != "" && (a + b)[|a + b| - 1] == b[|b| - 1]
  {
  }

  lemma LastOfPiece(p: Piece, values: map<string, string>)
    requires PieceText(p) != "" && PieceText(p)[|PieceText(p)| - 1] != '}'
    ensures Filled(p, values) == PieceText(p)
  {
  }

  /** The values that go into these pieces end no authority. */
  predicate AreContained(t: Template, values: map<string, string>) {
    forall i :: 0 <= i < |t| && t[i].Hole? && t[i].name in values ==>
      forall j :: 0 <= j < |values[t[i].name]| ==> !EndsAuthority(values[t[i].name][j])
  }

  predicate IsContained(s: string) {
    forall j :: 0 <= j < |s| ==> !EndsAuthority(s[j])
  }

  lemma {:induction false} ContainedRenders(t: Template, values: map<string, string>)
    requires IsContained(Source(t)) && AreContained(t, values)
    ensures IsContained(Render(t, values))
  {
    if t != [] {
      var head, tail := PieceText(t[0]), Source(t[1..]);
      assert forall j :: 0 <= j < |head| ==> Source(t)[j] == head[j];
      assert forall j :: 0 <= j < |tail| ==> Source(t)[|head| + j] == tail[j];
      ContainedRenders(t[1..], values);
    }
  }

  // ----- strings with an authority -----

  lemma {:induction false} UpToEndIs(a: string, rest: string)
    requires IsContained(a) && (rest == "" || EndsAuthority(rest[0]))
    ensures UpToEnd(a + rest) == a
  {
    if a == "" {
      assert a + rest == rest;
    } else {
      assert (a + rest)[1..] == a[1..] + rest;
      UpToEndIs(a[1..], rest);
    }
  }

  lemma {:induction false} UpToEndForm(s: string)
    ensures var a := UpToEnd(s);
      a <= s && IsContained(a) && (|a| < |s| ==> EndsAuthority(s[|a|]))
  {
    if s != "" && !EndsAuthority(s[0]) { UpToEndForm(s[1..]); }
  }

  lemma {:induction false} AfterFirstOf(a: string, c: char, b: string)
    requires c !in a
    ensures AfterFirst(a + [c] + b, c) == b
  {
    var s := a + [c] + b;
    if a == "" {
      assert s[1..] == b;
    } else {
      assert s[1..] == a[1..] + [c] + b;
      AfterFirstOf(a[1..], c, b);
    }
  }

  lemma {:induction false} AfterFirstForm(s: string, c: char)
    requires c in s
    ensures var b := AfterFirst(s, c);
      |b| < |s| && s[|s| - |b|..] == b && s[|s| - |b| - 1] == c
  {
    if s[0] != c {
      AfterFirstForm(s[1..], c);
    }
  }

  /** What follows the last `c` of a text. */
  lemma {:induction false} AfterLastIs(a: string, c: char, b: string)
    requires c !in b && (a == "" || a[|a| - 1] == c)
    ensures AfterLast(a + b, c) == b
    decreases |a|
  {
    var s := a + b;
    if a == "" {
      assert s == b;
    } else {
      assert s[|a| - 1] == c;
      AfterFirstForm(s, c);
      var t := AfterFirst(s, c);
      FirstIsEarly(s, c, |a| - 1);
      var a1 := a[|s| - |t|..];
      assert t == a1 + b;
      assert a1 == "" || a1[|a1| - 1] == c;
      AfterLastIs(a1, c, b);
    }
  }

  lemma {:induction false} FirstIsEarly(s: string, c: char, i: nat)
    requires i < |s| && s[i] == c
    ensures |AfterFirst(s, c)| >= |s| - i - 1
  {
    if s[0] != c { FirstIsEarly(s[1..], c, i - 1); }
  }

  lemma {:induction false} AfterLastForm(s: string, c: char)
    ensures var b := AfterLast(s, c);
      |b| <= |s| && s[|s| - |b|..] == b && c !in b && (|b| < |s| ==> s[|s| - |b| - 1] == c)
    decreases |s|
  {
    if c in s {
      AfterFirstForm(s, c);
      AfterLastForm(AfterFirst(s, c), c);
    }
  }

  lemma {:induction false} BeforeIs(a: string, c: char, b: string)
    requires c !in a
    ensures Before(a + [c] + b, c) == a
  {
    var s := a + [c] + b;
    if a != "" {
      assert s[1..] == a[1..] + [c] + b;
      BeforeIs(a[1..], c, b);
    }
  }

  /** The parser and the hand-made split see the same scheme and the same authority. */
  lemma NormalizeSplits(url: string, scheme: string, authority: string, rest: string)
    requires url == scheme + "://" + authority + rest && ':' !in scheme
    requires IsContained(authority) && (rest == "" || EndsAuthority(rest[0]))
    requires DefaultPort(Lower(scheme)).Some?
    ensures NormalizeOrigin(url) == OriginOf(Lower(scheme), authority)
  {
    var tail := authority + rest;
    assert url == scheme + [':'] + ("//" + tail);
    BeforeIs(scheme, ':', "//" + tail);
    assert url == scheme + ("://" + tail);
    assert url[|scheme|..] == "://" + tail;
    assert ("://" + tail)[3..] == tail;
    UpToEndIs(authority, rest);
  }

  // ----- pinned templates -----

  /** Where the host of an absolute template starts in its text. */
  function HostStart(template: string): nat
    requires SplitAuthority(template).Some?
  {
    var (scheme, authority) := SplitAuthority(template).value;
    AfterLastForm(authority, '@');
    |scheme| + 3 + |authority| - |AfterLast(authority, '@')|
  }

  lemma Reassociate(a: string, b: string, c: string, d: string)
    ensures a + ((b + c) + d) == a + b + c + d && a + b + (c + d) == a + b + c + d && a + (b + c) + d == a + b + c + d
  {
  }

  /** The parts of a template that pins an origin. */
  lemma PinnedForm(text: string) returns (scheme: string, user: string, host: string, rest: string)
    requires Classify(text).Pinned?
    ensures text == scheme + "://" + user + host + rest && HostStart(text) == |scheme| + 3 + |user|
    ensures SplitAuthority(text).Some? && SplitAuthority(text).value.0 == scheme
    ensures ':' !in scheme && '{' !in scheme && DefaultPort(Lower(scheme)).Some?
    ensures IsContained(user) && IsContained(host) && (user == "" || user[|user| - 1] == '@')
    ensures '@' !in host && '{' !in host && (rest == "" || EndsAuthority(rest[0]))
    ensures AreBracketsPaired(user + host) && HostOrigin(Lower(scheme), host) == Some(Classify(text).origin)
  {
    var authority: string;
    scheme, authority := SplitAuthority(text).value.0, SplitAuthority(text).value.1;
    BeforeSchemeIs(text);
    var tail := text[|scheme| + 3..];
    UpToEndForm(tail);
    user, host, rest := AuthorityForm(tail, authority);
    assert ':' !in scheme;
    JoinParts(text, scheme + "://", tail, authority, user, host, rest);
    NormalizeSplits(text, scheme, authority, rest);
    AfterLastIs(user, '@', host);
  }

  lemma AuthorityForm(tail: string, authority: string) returns (user: string, host: string, rest: string)
    requires authority <= tail && IsContained(authority) && (|authority| < |tail| ==> EndsAuthority(tail[|authority|]))
    ensures authority == user + host && tail == authority + rest && host == AfterLast(authority, '@')
    ensures IsContained(user) && IsContained(host) && IsContained(authority) && (user == "" || user[|user| - 1] == '@')
    ensures '@' !in host && (rest == "" || EndsAuthority(rest[0]))
  {
    rest := tail[|authority|..];
    AfterLastForm(authority, '@');
    host := AfterLast(authority, '@');
    var n := |authority| - |host|;
    user := authority[..n];
    assert authority == authority[..n] + authority[n..];
    assert forall i :: 0 <= i < |host| ==> host[i] == authority[n + i];
  }

  lemma JoinParts(text: string, front: string, tail: string, authority: string, user: string, host: string, rest: string)
    requires text == front + tail && tail == authority + rest && authority == user + host
    ensures text == front + user + host + rest && text == front + authority + rest
  {
    Reassociate(front, user, host, rest);
    Associate(front, authority, rest);
  }

  lemma HalvesAreEqual(a: string, b: string, c: string, d: string)
    requires a + b == c + d && |a| == |c|
    ensures a == c && b == d
  {
    assert a == (a + b)[..|a|] && c == (c + d)[..|c|];
    assert b == (a + b)[|a|..] && d == (c + d)[|c|..];
  }

  /** The origin of a URL put together from its parts. */
  lemma UrlOfParts(scheme: string, user: string, host: string, rest: string)
    requires ':' !in scheme && DefaultPort(Lower(scheme)).Some? && '@' !in host
    requires IsContained(user) && IsContained(host) && (user == "" || user[|user| - 1] == '@')
    requires rest == "" || EndsAuthority(rest[0])
    ensures var url := scheme + "://" + user + (host + rest);
      && |url| >= |scheme| + 3 && UpToEnd(url[|scheme| + 3..]) == user + host
      && NormalizeOrigin(url) == if AreBracketsPaired(user + host) then HostOrigin(Lower(scheme), host) else None
  {
    var url := scheme + "://" + user + (host + rest);
    Reassociate(scheme + "://", user, host, rest);
    NormalizeSplits(url, scheme, user + host, rest);
    AfterLastIs(user, '@', host);
    assert url[|scheme| + 3..] == (user + host) + rest;
    UpToEndIs(user + host, rest);
  }

  /** The part in front of the host: the credentials render to credentials. */
  lemma FrontRenders(t: Template, plain: string, user: string, values: map<string, string>) returns (user': string)
    requires Source(t) == plain + user && '{' !in plain && AreContained(t, values)
    requires IsContained(user) && (user == "" || user[|user| - 1] == '@')
    ensures Render(t, values) == plain + user' && IsContained(user') && (user' == "" || user'[|user'| - 1] == '@')
  {
    CutPlain(t, plain, user, values);
    CutParts(t, |plain|, values);
    var (a, b) := CutAt(t, |plain|).value;
    user' := Render(b, values);
    CutKeepsContained(t, |plain|, values);
    ContainedRenders(b, values);
    if user == "" { NothingRendersEmpty(b, values); } else { LastStays(b, values); }
  }

  lemma {:induction false} CutKeepsContained(t: Template, n: nat, values: map<string, string>)
    requires CutAt(t, n).Some? && AreContained(t, values)
    ensures AreContained(CutAt(t, n).value.1, values)
  {
    if n == 0 {
    } else if t[0].Lit? && n <= |t[0].text| {
      var b := CutAt(t, n).value.1;
      assert forall i :: 0 < i < |b| ==> b[i] == t[i];
    } else {
      assert forall i :: 0 <= i < |t[1..]| ==> t[1..][i] == t[i + 1];
      CutKeepsContained(t[1..], n - |PieceText(t[0])|, values);
    }
  }

  /** The host and what follows: the host renders as itself, and still ends where it ended. */
  lemma BackRenders(t: Template, host: string, rest: string, values: map<string, string>) returns (rest': string)
    requires Source(t) == host + rest && '{' !in host && (rest == "" || EndsAuthority(rest[0]))
    ensures Render(t, values) == host + rest' && (rest' == "" || EndsAuthority(rest'[0]))
  {
    CutPlain(t, host, rest, values);
    CutParts(t, |host|, values);
    var (a, b) := CutAt(t, |host|).value;
    rest' := Render(b, values);
    if rest == "" { NothingRendersEmpty(b, values); } else { FirstStays(b, values); }
  }

  /** The host of a pinned template is never split off inside a placeholder. */
  lemma HostIsWhole(t: Template)
    requires Classify(Source(t)).Pinned? && AreKeyed(t)
    ensures CutAt(t, HostStart(Source(t))).Some?
  {
    var scheme, user, host, rest := PinnedForm(Source(t));
    var front := scheme + "://";
    Reassociate(front, user, host, rest);
    if user == "" {
      assert front + user == front;
      CutPlain(t, front, host + rest, map[]);
    } else {
      LastOfUser(front, user, host + rest);
      CutAfterAt(t, HostStart(Source(t)));
    }
  }

  lemma LastOfUser(front: string, user: string, tail: string)
    requires user != ""
    ensures (front + user + tail)[|front| + |user| - 1] == user[|user| - 1]
  {
  }

  /** An `@` behind the first piece is one of the rest. */
  lemma AtIsBeyond(head: string, tail: string, n: nat)
    requires 0 < n <= |head + tail| && (head + tail)[n - 1] == '@'
    ensures '@' !in head ==> n > |head|
    ensures n > |head| ==> n - |head| <= |tail| && tail[n - |head| - 1] == '@'
  {
  }

  lemma HoleLacksAt(p: Piece)
    requires p.Hole? && PlaceholderKey(p.name).Some?
    ensures '@' !in PieceText(p)
  {
    PlaceholdersLackAt(p.name);
  }

  lemma KeyedTail(t: Template)
    requires t != [] && AreKeyed(t)
    ensures AreKeyed(t[1..])
  {
    assert forall i :: 0 <= i < |t[1..]| ==> t[1..][i] == t[i + 1];
  }

  lemma {:induction false} CutAfterAt(t: Template, n: nat)
    requires 0 < n <= |Source(t)| && Source(t)[n - 1] == '@' && AreKeyed(t)
    ensures CutAt(t, n).Some?
  {
    var head := PieceText(t[0]);
    if t[0].Hole? { HoleLacksAt(t[0]); }
    AtIsBeyond(head, Source(t[1..]), n);
    if n > |head| {
      KeyedTail(t);
      CutAfterAt(t[1..], n - |head|);
    }
  }

  /** The placeholders in front of the host of a pinned text: those in its credentials. */
  function Credentials(text: string): Template
    requires Classify(text).Pinned?
  {
    ParseIsExact(text);
    HostIsWhole(Parse(text));
    CutAt(Parse(text), HostStart(text)).value.0
  }

  /** Every text that pins an origin renders to that origin, whatever its placeholders are filled with - if the
      values in its credentials end no authority. The one thing that can still go wrong is a bracket in a
      credential: then the URL is refused. */
  lemma PinnedOriginIsRendered(text: string, values: map<string, string>)
    requires Classify(text).Pinned? && AreContained(Credentials(text), values)
    ensures var scheme, url := SplitAuthority(text).value.0, Render(Parse(text), values);
      && |url| >= |scheme| + 3
      && NormalizeOrigin(url) == if AreBracketsPaired(UpToEnd(url[|scheme| + 3..])) then Some(Classify(text).origin) else None
  {
    var t := Parse(text);
    ParseIsExact(text);
    HostIsWhole(t);
    var scheme, user, host, rest := PinnedForm(text);
    var (a, b) := CutAt(t, HostStart(text)).value;
    CutParts(t, HostStart(text), values);
    Reassociate(scheme + "://", user, host, rest);
    HalvesAreEqual(Source(a), Source(b), scheme + "://" + user, host + rest);
    var user' := FrontRenders(a, scheme + "://", user, values);
    var rest' := BackRenders(b, host, rest, values);
    UrlOfParts(scheme, user', host, rest');
  }

  // ----- a bracket in a credential -----

  /** Text that is itself in any part of an authority. */
  predicate IsPlain(s: string) {
    forall i :: 0 <= i < |s| ==> s[i] !in ":[]%@/?#{" && !('A' <= s[i] <= 'Z')
  }

  predicate IsHttps(scheme: string) {
    Lower(scheme) == "https" && IsSchemeShape(scheme) && '{' !in scheme && ':' !in scheme
  }

  /** The URL with these credentials and this host, both plain. */
  lemma PlainUrl(scheme: string, user: string, host: string)
    requires IsHttps(scheme) && IsContained(user) && (user == "" || user[|user| - 1] == '@') && '[' !in user && ']' !in user
    requires IsPlain(host) && host != ""
    ensures NormalizeOrigin(scheme + "://" + user + (host + "/")) == Some(Origin("https", host, 443))
  {
    PlainHost(host);
    UrlOfParts(scheme, user, host, "/");
  }

  /** The class of a template with these parts. */
  lemma PinnedTo(scheme: string, user: string, host: string)
    requires IsHttps(scheme) && IsContained(user) && (user == "" || user[|user| - 1] == '@') && IsPlain(host)
    requires NormalizeOrigin(scheme + "://" + user + (host + "/")) == Some(Origin("https", host, 443))
    ensures Classify(scheme + "://" + user + (host + "/")) == Pinned(Origin("https", host, 443))
  {
    var text := scheme + "://" + user + (host + "/");
    Reassociate(scheme + "://", user, host, "/");
    PlainIsContained(user, host);
    SplitOf(text, scheme, user + host, "/");
    AfterLastIs(user, '@', host);
    PinnedBy(text, scheme, user + host, host);
  }

  lemma PlainIsContained(user: string, host: string)
    requires IsContained(user) && IsPlain(host)
    ensures IsContained(user + host) && '@' !in host && '{' !in host
  {
  }

  lemma PinnedBy(text: string, scheme: string, authority: string, host: string)
    requires SplitAuthority(text) == Some((scheme, authority)) && '{' !in scheme && DefaultPort(Lower(scheme)).Some?
    requires AfterLast(authority, '@') == host && '{' !in host && NormalizeOrigin(text).Some?
    ensures Classify(text) == Pinned(NormalizeOrigin(text).value)
  {
  }

  /** The hand-made split of a text made of these parts. */
  lemma SplitOf(text: string, scheme: string, authority: string, rest: string)
    requires IsSchemeShape(scheme) && ':' !in scheme && text == scheme + "://" + authority + rest
    requires IsContained(authority) && (rest == "" || EndsAuthority(rest[0]))
    ensures SplitAuthority(text) == Some((scheme, authority))
  {
    Associate(scheme + "://", authority, rest);
    SchemeIsFound(scheme, authority + rest);
    BeforeSchemeIs(text);
    HalvesAreEqual(scheme + "://", text[|scheme| + 3..], scheme + "://", authority + rest);
    UpToEndIs(authority, rest);
  }

  lemma LowerIsLower(s: string)
    requires forall i :: 0 <= i < |s| ==> !('A' <= s[i] <= 'Z')
    ensures Lower(s) == s
  {
  }

  /** A plain host without a port. */
  lemma PlainHost(host: string)
    requires host != "" && IsPlain(host)
    ensures HostOrigin("https", host) == Some(Origin("https", host, 443))
  {
    BeforeAll(host, ':');
    BeforeAll(host, '%');
    NoneAfter(host, ':');
    LowerIsLower(host);
    assert host[|host|..] == "" && host + "" == host;
  }

  lemma {:induction false} BeforeAll(s: string, c: char)
    requires forall i :: 0 <= i < |s| ==> s[i] != c
    ensures Before(s, c) == s
  {
    if s != "" { BeforeAll(s[1..], c); }
  }

  lemma {:induction false} NoneAfter(s: string, c: char)
    requires forall i :: 0 <= i < |s| ==> s[i] != c
    ensures AfterFirst(s, c) == ""
  {
    if s != "" { NoneAfter(s[1..], c); }
  }

  lemma {:induction false} SchemeIsFound(scheme: string, rest: string)
    requires forall i :: 0 <= i < |scheme| ==> scheme[i] != ':'
    ensures BeforeScheme(scheme + "://" + rest) == Some(scheme)
  {
    var s := scheme + "://" + rest;
    if scheme == "" {
      assert s == "://" + rest;
    } else {
      assert s[0] == scheme[0] && s[1..] == scheme[1..] + "://" + rest;
      assert !("://" <= s) by { assert s[0] != "://"[0]; }
      SchemeIsFound(scheme[1..], rest);
      assert scheme == [scheme[0]] + scheme[1..];
    }
  }

  /** A text renders piece by piece. */
  lemma FirstRenders(s: string, p: Piece, rest: string, values: map<string, string>)
    requires s != "" && FirstPiece(s) == p && s[|PieceText(p)|..] == rest
    ensures Render(Parse(s), values) == Filled(p, values) + Render(Parse(rest), values)
  {
    ConsParts(p, Parse(rest), values);
  }

  lemma PlainFirst(s: string)
    requires s != "" && s[0] != '{'
    ensures FirstPiece(s) == Lit(s[..1])
  {
  }

  /** Text without an opening brace renders as itself. */
  lemma {:induction false} PlainRenders(a: string, rest: string, values: map<string, string>)
    requires '{' !in a
    ensures Render(Parse(a + rest), values) == a + Render(Parse(rest), values)
  {
    if a == "" {
      assert a + rest == rest;
    } else {
      var s := a + rest;
      PlainHead(a, rest);
      FirstRenders(s, Lit(a[..1]), a[1..] + rest, values);
      PlainRenders(a[1..], rest, values);
      Associate(a[..1], a[1..], Render(Parse(rest), values));
      assert a[..1] + a[1..] == a;
    }
  }

  lemma PlainHead(a: string, rest: string)
    requires a != "" && '{' !in a
    ensures FirstPiece(a + rest) == Lit(a[..1]) && (a + rest)[1..] == a[1..] + rest
  {
    var s := a + rest;
    assert s[0] == a[0] && s[..1] == a[..1];
    PlainFirst(s);
  }

  lemma WildcardFirst(rest: string)
    ensures FirstPiece("{1}" + rest) == Hole("1") && ("{1}" + rest)[3..] == rest
  {
    var s := "{1}" + rest;
    assert s[0] == '{' && s[1..][0] == '1' && s[1..][1] == '}';
    assert UpToBrace(s[1..][1..]) == "";
    assert UpToBrace(s[1..]) == "1";
    assert Trim("1", IsSpace) == "1";
  }

  /** Every `https` template whose credentials are the wildcard `1` is pinned to its host, and with a value
      that holds an opening bracket and no closing one its request is refused all the same. */
  lemma BracketIsRefused(scheme: string, host: string, v: string)
    requires IsHttps(scheme) && IsPlain(host) && host != "" && IsContained(v) && '[' in v && ']' !in v
    ensures var text := scheme + "://" + "{1}@" + (host + "/");
      && Classify(text) == Pinned(Origin("https", host, 443))
      && NormalizeOrigin(Render(Parse(text), map["1" := v])).None?
  {
    PlainUrl(scheme, "{1}@", host);
    PinnedTo(scheme, "{1}@", host);
    WildcardRenders(scheme + "://", host, map["1" := v]);
    BracketedUrl(scheme, host, v);
  }

  lemma PlainOnly(s: string, values: map<string, string>)
    requires '{' !in s
    ensures Render(Parse(s), values) == s
  {
    PlainRenders(s, "", values);
    assert s + "" == s;
  }

  lemma FrontAndBack(front: string, u: string, back: string, host: string)
    requires back == "@" + (host + "/")
    ensures front + (u + back) == front + (u + "@") + (host + "/")
  {
  }

  lemma BackIsPlain(host: string)
    requires '{' !in host
    ensures '{' !in "@" + (host + "/")
  {
  }

  lemma WildcardRenders(front: string, host: string, values: map<string, string>)
    requires "1" in values && '{' !in front && '{' !in host
    ensures Render(Parse(front + "{1}@" + (host + "/")), values) == front + (values["1"] + "@") + (host + "/")
  {
    var back := "@" + (host + "/");
    BackIsPlain(host);
    FrontAndBack(front, "{1}", back, host);
    assert "{1}" + "@" == "{1}@";
    FrontAndBack(front, values["1"], back, host);
    BehindFront(front, back, values);
  }

  lemma BehindFront(front: string, back: string, values: map<string, string>)
    requires "1" in values && '{' !in front && '{' !in back
    ensures Render(Parse(front + ("{1}" + back)), values) == front + (values["1"] + back)
  {
    PlainRenders(front, "{1}" + back, values);
    WildcardFirst(back);
    FirstRenders("{1}" + back, Hole("1"), back, values);
    PlainOnly(back, values);
  }

  lemma BracketedUrl(scheme: string, host: string, v: string)
    requires IsHttps(scheme) && IsPlain(host) && IsContained(v) && '[' in v && ']' !in v
    ensures NormalizeOrigin(scheme + "://" + (v + "@") + (host + "/")).None?
  {
    UrlOfParts(scheme, v + "@", host, "/");
    assert '[' in v + "@" + host && ']' !in v + "@" + host;
  }

  // ----- the policy of a document -----

  function UrlOf(ms: seq<Member>): Option<string> {
    var payload := Get(ms, "$http");
    if payload.None? || !payload.value.Obj? then None
    else
      var url := Get(payload.value.members, "url");
      if url.Some? && url.value.Str? then Some(url.value.text) else None
  }

  /** Every `$http` url of a document, wherever it sits. */
  function HttpUrls(v: Json): set<string> {
    match v
    case Obj(ms) => (if UrlOf(ms).Some? then {UrlOf(ms).value} else {}) + MemberUrls(ms)
    case Arr(items) => ItemUrls(items)
    case _ => {}
  }

  function MemberUrls(ms: seq<Member>): set<string> {
    if ms == [] then {} else HttpUrls(ms[0].value) + MemberUrls(ms[1..])
  }

  function ItemUrls(items: seq<Json>): set<string> {
    if items == [] then {} else HttpUrls(items[0]) + ItemUrls(items[1..])
  }

  method CollectHttpUrls(v: Json, found: set<string>) returns (out: set<string>)
    ensures out == found + HttpUrls(v)
    decreases v
  {
    out := found;
    match v
    case Obj(ms) =>
      if UrlOf(ms).Some? {
        out := out + {UrlOf(ms).value};
      }
      out := CollectInMembers(ms, out);
    case Arr(items) =>
      for i := 0 to |items|
        invariant out + ItemUrls(items[i..]) == found + ItemUrls(items)
      {
        assert items[i..][1..] == items[i + 1..];
        out := CollectHttpUrls(items[i], out);
      }
    case _ =>
  }

  method CollectInMembers(ms: seq<Member>, found: set<string>) returns (out: set<string>)
    ensures out == found + MemberUrls(ms)
    decreases ms
  {
    out := found;
    for i := 0 to |ms|
      invariant out + MemberUrls(ms[i..]) == found + MemberUrls(ms)
    {
      assert ms[i..][1..] == ms[i + 1..];
      out := CollectHttpUrls(ms[i].value, out);
    }
  }

  /** The origins a document's templates pin. */
  function PinnedOrigins(v: Json): set<Origin> {
    set url | url in HttpUrls(v) && Classify(url).Pinned? :: Classify(url).origin
  }

  predicate Permits(origins: set<Origin>, listed: set<Origin>, url: string) {
    var origin := NormalizeOrigin(url);
    origin.Some? && (origin.value in origins || origin.value in listed)
  }

  lemma {:induction false} InMembers(ms: seq<Member>, key: string)
    requires Get(ms, key).Some?
    ensures HttpUrls(Get(ms, key).value) <= MemberUrls(ms)
  {
    if ms[0].key != key { InMembers(ms[1..], key); }
  }

  lemma {:induction false} InItems(items: seq<Json>, i: nat)
    requires i < |items|
    ensures HttpUrls(items[i]) <= ItemUrls(items)
  {
    if i > 0 { InItems(items[1..], i - 1); }
  }

  lemma {:induction false} UrlsBelow(v: Json, p: JsonPointers.Path)
    requires JsonPointers.Follow(v, p).Some?
    ensures HttpUrls(JsonPointers.Follow(v, p).value) <= HttpUrls(v)
    decreases p
  {
    if p != [] {
      match p[0]
      case Key(k) =>
        InMembers(v.members, k);
        UrlsBelow(Get(v.members, k).value, p[1..]);
      case Index(i) =>
        InItems(v.items, i);
        UrlsBelow(v.items[i], p[1..]);
    }
  }

  /** The derived policy permits every request a pinned source of the document makes, at whatever depth the
      source sits and whatever its placeholders are filled with, if the values in its credentials neither end
      the authority nor leave a bracket in it unpaired. */
  lemma EveryPinnedSourceIsPermitted(doc: Json, p: JsonPointers.Path, text: string, values: map<string, string>,
                                     listed: set<Origin>)
    requires JsonPointers.Follow(doc, p).Some? && JsonPointers.Follow(doc, p).value.Obj?
    requires UrlOf(JsonPointers.Follow(doc, p).value.members) == Some(text)
    requires Classify(text).Pinned? && AreContained(Credentials(text), values)
    requires var n := |SplitAuthority(text).value.0| + 3;
      n <= |Render(Parse(text), values)| ==> AreBracketsPaired(UpToEnd(Render(Parse(text), values)[n..]))
    ensures Permits(PinnedOrigins(doc), listed, Render(Parse(text), values))
  {
    UrlsBelow(doc, p);
    assert text in HttpUrls(doc);
    PinnedOriginIsRendered(text, values);
  }
}
