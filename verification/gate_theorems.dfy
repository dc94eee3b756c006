/** The gate and a router that decodes again mean the same thing: what was decided about a path as
    received still holds after any number of further decodings. */
module GateTheorems {
  import opened Options
  import opened Strings
  import opened GateDecoding
  import opened GateRoutes

  // ----- decoding cannot make a name appear or disappear -----

  predicate EndsHead(c: char) {
    c == '\0' || c == ';'
  }

  lemma HeadStep(f: string)
    ensures Head(f) == if f == "" || EndsHead(f[0]) then "" else [f[0]] + Head(f[1..])
  {
  }

  lemma ReducedKeeps(head: string, c: char)
    requires c in head && !IsTrimmed(c) && !IsDot(c)
    ensures c in Reduced(head)
  {
    var a := TrimLeft(head, IsTrimmed);
    TrimLeftKeeps(head, IsTrimmed);
    TrimRightKeeps(a, IsTrimmed);
    var b := TrimRight(a, IsTrimmed);
    TrimRightKeeps(b, IsDot);
    var d := TrimRight(b, IsDot);
    TrimLeftKeeps(d, IsTrimmed);
    TrimRightKeeps(TrimLeft(d, IsTrimmed), IsTrimmed);
  }

  /** The first character of a name, unless it is a dot, is the first of the head that is not trimmed. */
  lemma ReducedStarts(head: string)
    ensures var first, name := TrimLeft(head, IsTrimmed), Reduced(head);
      && (first == "" ==> name == "")
      && (first != "" && first[0] != '.' ==> name != "" && name[0] == first[0])
      && (name != "" && name[0] != '.' ==> first != "" && first[0] == name[0])
  {
    var a := TrimLeft(head, IsTrimmed);
    TrimLeftKeeps(head, IsTrimmed);
    TrimRightKeeps(a, IsTrimmed);
    var b := TrimRight(a, IsTrimmed);
    TrimRightKeeps(b, IsDot);
    var d := TrimRight(b, IsDot);
    assert a != "" ==> a[0] in b;
    assert a != "" && a[0] != '.' ==> a[0] in d;
    TrimRightKeeps(TrimLeft(d, IsTrimmed), IsTrimmed);
    assert d != "" ==> TrimLeft(d, IsTrimmed) == d && d[0] in TrimRight(d, IsTrimmed);
  }

  lemma {:induction false} HeadOfLower(s: string)
    ensures Head(Lower(s)) == Lower(Head(s))
  {
    HeadStep(s);
    HeadStep(Lower(s));
    if s == "" {
      assert Lower(s) == "";
    } else if EndsHead(s[0]) {
      assert Lower(s)[0] == s[0];
    } else {
      HeadOfLower(s[1..]);
      assert Lower(s)[1..] == Lower(s[1..]) && !EndsHead(Lower(s)[0]);
      LowerCons(s[0], Head(s[1..]));
    }
  }

  lemma LowerCons(c: char, s: string)
    ensures Lower([c] + s) == [LowerChar(c)] + Lower(s)
  {
  }

  /** A head without an escape is the head of every further decoding. */
  lemma {:induction false} HeadIsFixed(s: string)
    requires '%' !in Head(s)
    ensures Head(Unquote(s)) == Head(s)
  {
    HeadStep(s);
    if s != "" && !EndsHead(s[0]) {
      assert s[0] in Head(s);
      HeadIsFixed(s[1..]);
      HeadStep(Unquote(s));
      assert Unquote(s)[1..] == Unquote(s[1..]);
    } else {
      HeadStep(Unquote(s));
    }
  }

  /** A segment without a name never gets one. */
  lemma NamelessStays(s: string)
    requires NameOf(s) == ""
    ensures NameOf(Unquote(s)) == ""
  {
    HeadOfLower(s);
    HeadOfLower(Unquote(s));
    if '%' in Head(s) {
      var i :| 0 <= i < |Head(s)| && Head(s)[i] == '%';
      assert Lower(Head(s))[i] == '%';
      ReducedKeeps(Head(Lower(s)), '%');
    }
    HeadIsFixed(s);
  }

  lemma {:induction false} FirstIsFixed(s: string)
    ensures var a, b := TrimLeft(Head(s), IsTrimmed), TrimLeft(Head(Unquote(s)), IsTrimmed);
      a != "" && a[0] != '%' ==> b != "" && b[0] == a[0]
  {
    HeadStep(s);
    if s != "" && !EndsHead(s[0]) && s[0] != '%' {
      FirstIsFixed(s[1..]);
      HeadStep(Unquote(s));
      assert Unquote(s)[1..] == Unquote(s[1..]);
      assert Head(s)[1..] == Head(s[1..]);
      assert Head(Unquote(s))[1..] == Head(Unquote(s[1..]));
    }
  }

  lemma {:induction false} FirstOfLower(s: string)
    ensures var a, b := TrimLeft(s, IsTrimmed), TrimLeft(Lower(s), IsTrimmed);
      |a| == |b| && (a != "" ==> b[0] == LowerChar(a[0]))
  {
    if s != "" {
      assert Lower(s)[1..] == Lower(s[1..]) && Lower(s)[0] == LowerChar(s[0]);
      FirstOfLower(s[1..]);
    }
  }

  predicate StartsWithLetter(name: string) {
    name != "" && 'a' <= name[0] <= 'z'
  }

  /** A segment whose name starts with a letter keeps such a name. */
  lemma LetterStays(s: string)
    requires StartsWithLetter(NameOf(s))
    ensures StartsWithLetter(NameOf(Unquote(s)))
  {
    var t := Unquote(s);
    HeadOfLower(s);
    HeadOfLower(t);
    ReducedStarts(Head(Lower(s)));
    FirstOfLower(Head(s));
    FirstIsFixed(s);
    FirstOfLower(Head(t));
    ReducedStarts(Head(Lower(t)));
  }

  lemma {:induction false} LetterReachesFixpoint(s: string)
    requires StartsWithLetter(NameOf(s))
    ensures IsNamed(s)
    decreases |s|
  {
    UnquoteShortens(s);
    if Unquote(s) != s {
      LetterStays(s);
      LetterReachesFixpoint(Unquote(s));
      FixpointIsStable(s);
    }
  }

  lemma {:induction false} NamelessReachesFixpoint(s: string)
    requires NameOf(s) == ""
    ensures !IsNamed(s)
    decreases |s|
  {
    UnquoteShortens(s);
    if Unquote(s) != s {
      NamelessStays(s);
      NamelessReachesFixpoint(Unquote(s));
      FixpointIsStable(s);
    }
  }

  // ----- what is served without a session stays outside the API -----

  const PRIVATE: set<string> := {"api", "openapi.json", "docs", "redoc"}

  function HasName(segments: seq<string>): seq<bool> {
    seq(|segments|, i requires 0 <= i < |segments| => NameOf(segments[i]) != "")
  }

  /** The segment a child routes on if it stops decoding here: the first that has a name as it stands. */
  function RoutedOn(segments: seq<string>): string
    requires segments != []
  {
    var i := FirstTrue(HasName(segments));
    segments[if i == |segments| then 0 else i]
  }

  lemma PrivateNameIsName(s: string)
    requires Lower(s) in PRIVATE || NameOf(s) in PRIVATE
    ensures StartsWithLetter(NameOf(s))
  {
    if Lower(s) in PRIVATE {
      assert StartsWithLetter(Lower(s));
      HeadStep(Lower(s));
      ReducedStarts(Head(Lower(s)));
    }
  }

  /** Below the gate's index every segment is nameless in the end, so no decoding of it is private. */
  lemma NamelessIsNotPrivate(s: string, k: nat)
    requires !IsNamed(s)
    ensures Lower(Decode(s, k)) !in PRIVATE && NameOf(Decode(s, k)) !in PRIVATE
  {
    var d := Decode(s, k);
    FixpointOfDecoding(s, k);
    if Lower(d) in PRIVATE || NameOf(d) in PRIVATE {
      PrivateNameIsName(d);
      LetterReachesFixpoint(d);
    }
  }

  lemma JudgedIsNotPrivate(s: string, k: nat)
    requires RouteForms(s) !! PRIVATE
    ensures Lower(Decode(s, k)) !in PRIVATE && NameOf(Decode(s, k)) !in PRIVATE
  {
    EveryDecodingIsAForm(s, k);
    FormsHave(DecodedForms(s), Decode(s, k));
  }

  lemma NamedDecodings(s: string, k: nat)
    requires IsNamed(s)
    ensures NameOf(Decode(s, k)) != ""
  {
    FixpointOfDecoding(s, k);
    if NameOf(Decode(s, k)) == "" { NamelessReachesFixpoint(Decode(s, k)); }
  }

  /** The segment a later router picks is the one the gate picked, or one in front of it without a name. */
  lemma RoutedOnOf(segments: seq<string>, k: nat) returns (i: nat)
    requires segments != []
    ensures i < |segments| && RoutedOn(DecodeEach(segments, k)) == Decode(segments[i], k)
    ensures i == FirstRouteIndex(segments) || !Named(segments)[i]
  {
    var named, j := Named(segments), FirstTrue(Named(segments));
    var has, m := HasName(DecodeEach(segments, k)), FirstTrue(HasName(DecodeEach(segments, k)));
    if j < |segments| { GatePickHasName(segments, k, j); }
    assert j < |segments| ==> m <= j;
    i := if m == |segments| then 0 else m;
    DecodeEachAt(segments, k, i);
  }

  lemma GatePickHasName(segments: seq<string>, k: nat, j: nat)
    requires j < |segments| && Named(segments)[j]
    ensures HasName(DecodeEach(segments, k))[j]
  {
    NamedDecodings(segments[j], k);
    DecodeEachAt(segments, k, j);
  }

  /** A document or asset served without a session is one at the child too: however often the child
      decodes the path before it routes on it, and whether or not it drops nameless segments, it neither
      enters the API nor the interactive docs. */
  lemma OpenStaysOpen(segments: seq<string>, verb: string, k: nat)
    requires segments != [] && IsOpen(segments, verb) && RouteForms(Classified(segments)) !! PRIVATE_DOCS
    ensures var routed := RoutedOn(DecodeEach(segments, k));
      Lower(routed) !in PRIVATE && NameOf(routed) !in PRIVATE
  {
    var i := RoutedOnOf(segments, k);
    if i == FirstRouteIndex(segments) { JudgedIsNotPrivate(segments[i], k); } else { NamelessIsNotPrivate(segments[i], k); }
  }

  // ----- a match of the public table stays a match -----

  predicate IsVerbatim(pattern: seq<string>) {
    forall i :: 0 <= i < |pattern| ==> '%' !in pattern[i]
  }

  lemma TableIsVerbatim(lookup: string)
    ensures forall i :: 0 <= i < |Routes(lookup)| ==> IsVerbatim(Routes(lookup)[i])
  {
  }

  lemma MatchStays(pattern: seq<string>, segments: seq<string>, k: nat)
    requires IsVerbatim(pattern) && Matches(pattern, segments)
    ensures Matches(pattern, DecodeEach(segments, k))
  {
    forall i | 0 <= i < |pattern|
      ensures pattern[i] == ONE || pattern[i] == DecodeEach(segments, k)[i]
    {
      DecodeEachAt(segments, k, i);
      if pattern[i] != ONE {
        WithoutEscapes(segments[i]);
        StaysPut(segments[i], k);
      }
    }
  }

  // ----- the whole gate -----

  /** What a router that decodes the received path `k` more times does with it. */
  ghost predicate MeansTheSame(subPath: string, verb: string, k: nat) {
    var segments, seen := Split(subPath, '/'), Split(Decode(subPath, k), '/');
    && seen == DecodeEach(segments, k)
    && if IsOpen(segments, verb) then Lower(RoutedOn(seen)) !in PRIVATE && NameOf(RoutedOn(seen)) !in PRIVATE
       else exists i :: 0 <= i < |Routes(Lookup(verb))|
                        && Matches(Routes(Lookup(verb))[i], segments) && Matches(Routes(Lookup(verb))[i], seen)
  }

  lemma SubPathMeansTheSame(subPath: string, verb: string, k: nat)
    requires IsPlainSubPath(subPath) && RuntimePublic(subPath, verb)
    ensures MeansTheSame(subPath, verb, k)
  {
    var segments := Split(subPath, '/');
    JoinOfSplit(subPath, '/');
    DecodingKeepsSegments(segments, k);
    if IsOpen(segments, verb) {
      OpenStaysOpen(segments, verb, k);
    } else {
      var routes := Routes(Lookup(verb));
      var i :| 0 <= i < |routes| && Matches(routes[i], segments);
      TableIsVerbatim(Lookup(verb));
      MatchStays(routes[i], segments, k);
    }
  }

  lemma ProxiedPath(path: string)
    requires ProxyParts(path).Some?
    ensures !IsExempt(path) && !("/api/" <= path)
    ensures var p := ProxyParts(path).value;
      Split(path, '/') == ["", p.prefix, p.project] + (if |Split(path, '/')| == 3 then [] else Split(p.subPath, '/'))
  {
    var parts := Split(path, '/');
    JoinOfSplit(path, '/');
    PartsLackSeparator(path, '/');
    assert path == "" + "/" + Join(parts[1..], '/');
    assert Join(parts[1..], '/') == parts[1] + "/" + Join(parts[2..], '/');
    assert path[1] == parts[1][0];
    if |parts| > 3 {
      forall p | p in parts[3..]
        ensures '/' !in p
      {
        assert p in parts;
      }
      SplitOfJoin(parts[3..], '/');
      assert parts == parts[..3] + parts[3..];
    }
    assert parts[..3] == [parts[0], parts[1], parts[2]];
  }

  /** The gate agrees with every router behind it. A project path that needs no session lies under
      `/runtime/`; decoding it any number of times and then splitting it gives the decoded segments,
      removing dot segments changes nothing, and what follows the project is either the same public
      route or still a document outside the API. */
  lemma GateAndRouterAgree(path: string, verb: string, raw: Option<string>, k: nat)
    requires ProxyParts(path).Some? && !IsGated(path, verb, raw)
    ensures ProxyParts(path).value.prefix == "runtime"
    ensures Split(Decode(path, k), '/') == DecodeEach(Split(path, '/'), k)
    ensures RemoveDots(Decode(path, k), "") == Decode(path, k)
    ensures MeansTheSame(ProxyParts(path).value.subPath, verb, k)
  {
    ProxiedPath(path);
    SubPathMeansTheSame(ProxyParts(path).value.subPath, verb, k);
    HarmlessParts(path, verb, raw);
    PathKeepsSegments(Split(path, '/'), k);
    JoinOfSplit(path, '/');
  }

  lemma HarmlessParts(path: string, verb: string, raw: Option<string>)
    requires ProxyParts(path).Some? && !IsGated(path, verb, raw)
    ensures forall s :: s in Split(path, '/') ==> IsHarmless(s)
  {
    var p := ProxyParts(path).value;
    ProxiedPath(path);
    NotEscaped();
    forall s | s in Split(path, '/')
      ensures IsHarmless(s)
    {
      if s in Split(p.subPath, '/') && p.subPath != "" { assert IsPlainSegment(s); }
    }
  }

  /** The same for a whole path, which starts with a slash: an empty text comes first. */
  lemma PathKeepsSegments(parts: seq<string>, k: nat)
    requires |parts| > 1 && parts[0] == "" && forall p :: p in parts ==> IsHarmless(p)
    ensures var path := Join(parts, '/');
      Split(Decode(path, k), '/') == DecodeEach(parts, k) && RemoveDots(Decode(path, k), "") == Decode(path, k)
  {
    var rest := Join(parts[1..], '/');
    DecodingKeepsSegments(parts, k);
    DecodingKeepsSegments(parts[1..], k);
    assert Join(parts, '/') == "" + "/" + rest;
    DecodeAcross("", rest, k);
    StaysPut("", k);
    assert Decode(Join(parts, '/'), k) == "/" + Decode(rest, k);
  }

  lemma NotEscaped()
    ensures IsPlainSegment("runtime")
  {
    WithoutEscapes("runtime");
    assert DecodedForms("runtime") == ["runtime"];
  }
}
