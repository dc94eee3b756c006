/** Repeated percent-decoding of a path, byte by byte, and what it cannot change. */
module GateDecoding {
  import opened Strings

  function HexValue(c: char): int {
    if '0' <= c <= '9' then c as int - '0' as int
    else if 'a' <= c <= 'f' then c as int - 'a' as int + 10
    else if 'A' <= c <= 'F' then c as int - 'A' as int + 10
    else -1
  }

  predicate IsHex(c: char) {
    HexValue(c) >= 0
  }

  predicate StartsEscape(s: string) {
    |s| >= 3 && s[0] == '%' && IsHex(s[1]) && IsHex(s[2])
  }

  /** One round of percent-decoding; a `%` that starts no escape stays. */
  function Unquote(s: string): string {
    if s == "" then ""
    else if StartsEscape(s) then [(16 * HexValue(s[1]) + HexValue(s[2])) as char] + Unquote(s[3..])
    else [s[0]] + Unquote(s[1..])
  }

  /** A round that changes anything shortens the string. */
  lemma {:induction false} UnquoteShortens(s: string)
    ensures |Unquote(s)| < |s| || Unquote(s) == s
  {
    if s != "" {
      if StartsEscape(s) { UnquoteShortens(s[3..]); } else { UnquoteShortens(s[1..]); }
    }
  }

  function Decode(s: string, k: nat): string
    decreases k
  {
    if k == 0 then s else Decode(Unquote(s), k - 1)
  }

  /** The string and every form it takes under repeated decoding. */
  function DecodedForms(s: string): (forms: seq<string>)
    ensures forms != [] && forms[0] == s
    decreases |s|
  {
    UnquoteShortens(s);
    if Unquote(s) == s then [s] else [s] + DecodedForms(Unquote(s))
  }

  /** `_decoded_forms` as it runs: append decodings until one changes nothing. It terminates because a
      decoding that changes the string shortens it. */
  method ComputeDecodedForms(segment: string) returns (forms: seq<string>)
    ensures forms == DecodedForms(segment)
  {
    forms := [segment];
    var decoded := Unquote(segment);
    while decoded != forms[|forms| - 1]
      invariant forms != [] && decoded == Unquote(forms[|forms| - 1])
      invariant DecodedForms(segment) == forms[..|forms| - 1] + DecodedForms(forms[|forms| - 1])
      decreases |forms[|forms| - 1]|
    {
      UnquoteShortens(forms[|forms| - 1]);
      FormsStep(forms[..|forms| - 1], forms[|forms| - 1]);
      LastOfForms(forms, decoded);
      forms := forms + [decoded];
      decoded := Unquote(decoded);
    }
    FormsStep(forms[..|forms| - 1], forms[|forms| - 1]);
  }

  lemma FormsStep(front: seq<string>, last: string)
    ensures front + DecodedForms(last) == if Unquote(last) == last then front + [last] else front + [last] + DecodedForms(Unquote(last))
  {
    UnquoteShortens(last);
  }

  lemma LastOfForms(forms: seq<string>, decoded: string)
    requires forms != []
    ensures var more := forms + [decoded];
      more[..|more| - 1] == forms == forms[..|forms| - 1] + [forms[|forms| - 1]] && more[|more| - 1] == decoded
  {
  }

  function Fixpoint(s: string): string {
    DecodedForms(s)[|DecodedForms(s)| - 1]
  }

  lemma {:induction false} StaysPut(s: string, k: nat)
    requires Unquote(s) == s
    ensures Decode(s, k) == s
  {
    if k > 0 { StaysPut(s, k - 1); }
  }

  /** However often the string is decoded, the result is one of its forms. */
  lemma {:induction false} EveryDecodingIsAForm(s: string, k: nat)
    ensures Decode(s, k) in DecodedForms(s)
    decreases |s|, k
  {
    if Unquote(s) == s {
      StaysPut(s, k);
    } else if k > 0 {
      UnquoteShortens(s);
      EveryDecodingIsAForm(Unquote(s), k - 1);
    }
  }

  /** Each form is a decoding of the string, and the last one no longer changes. */
  lemma {:induction false} FormsAreDecodings(s: string, i: nat)
    requires i < |DecodedForms(s)|
    ensures DecodedForms(s)[i] == Decode(s, i) && Unquote(Fixpoint(s)) == Fixpoint(s)
    decreases |s|
  {
    UnquoteShortens(s);
    if Unquote(s) != s {
      var rest := DecodedForms(Unquote(s));
      assert DecodedForms(s) == [s] + rest;
      FormsAreDecodings(Unquote(s), if i == 0 then 0 else i - 1);
      assert Fixpoint(s) == rest[|rest| - 1];
    }
  }

  lemma FixpointIsStable(s: string)
    ensures Fixpoint(Unquote(s)) == Fixpoint(s)
  {
    UnquoteShortens(s);
    if Unquote(s) != s {
      var rest := DecodedForms(Unquote(s));
      assert DecodedForms(s) == [s] + rest;
    }
  }

  lemma {:induction false} FixpointOfDecoding(s: string, k: nat)
    ensures Fixpoint(Decode(s, k)) == Fixpoint(s)
    decreases k
  {
    if k > 0 {
      FixpointOfDecoding(Unquote(s), k - 1);
      FixpointIsStable(s);
    }
  }

  lemma {:induction false} WithoutEscapes(s: string)
    requires '%' !in s
    ensures Unquote(s) == s
  {
    if s != "" { WithoutEscapes(s[1..]); }
  }

  // ----- decoding and separators -----

  /** An escape never reaches across a separator. */
  lemma {:induction false} UnquoteAcross(a: string, b: string)
    ensures Unquote(a + "/" + b) == Unquote(a) + "/" + Unquote(b)
  {
    var s := a + "/" + b;
    if a == "" {
      assert s[1..] == b;
    } else if StartsEscape(a) {
      assert s[3..] == a[3..] + "/" + b;
      UnquoteAcross(a[3..], b);
    } else {
      assert s[1..] == a[1..] + "/" + b;
      UnquoteAcross(a[1..], b);
    }
  }

  lemma {:induction false} DecodeAcross(a: string, b: string, k: nat)
    ensures Decode(a + "/" + b, k) == Decode(a, k) + "/" + Decode(b, k)
    decreases k
  {
    if k > 0 {
      UnquoteAcross(a, b);
      DecodeAcross(Unquote(a), Unquote(b), k - 1);
    }
  }

  function DecodeEach(parts: seq<string>, k: nat): (r: seq<string>)
    ensures |r| == |parts|
  {
    if parts == [] then [] else [Decode(parts[0], k)] + DecodeEach(parts[1..], k)
  }

  lemma {:induction false} DecodeEachAt(parts: seq<string>, k: nat, i: nat)
    requires i < |parts|
    ensures DecodeEach(parts, k)[i] == Decode(parts[i], k)
  {
    if i > 0 { DecodeEachAt(parts[1..], k, i - 1); }
  }

  lemma {:induction false} DecodeOfJoin(parts: seq<string>, k: nat)
    requires parts != []
    ensures Decode(Join(parts, '/'), k) == Join(DecodeEach(parts, k), '/')
  {
    var decoded := DecodeEach(parts, k);
    if |parts| == 1 {
      assert decoded[0] == Decode(parts[0], k);
    } else {
      assert Join(parts, '/') == parts[0] + "/" + Join(parts[1..], '/');
      DecodeAcross(parts[0], Join(parts[1..], '/'), k);
      DecodeOfJoin(parts[1..], k);
      assert decoded[1..] == DecodeEach(parts[1..], k);
      assert Join(decoded, '/') == decoded[0] + "/" + Join(decoded[1..], '/');
    }
  }

  // ----- removing dot segments -----

  predicate IsDots(s: string) {
    s == "." || s == ".."
  }

  function WithoutLastSegment(s: string): string
    decreases |s|
  {
    if s == "" then "" else if s[|s| - 1] == '/' then s[..|s| - 1] else WithoutLastSegment(s[..|s| - 1])
  }

  /** How much of the input is its first segment: an initial slash and what follows up to the next. */
  function FirstLength(s: string): (n: nat)
    requires s != ""
    ensures 1 <= n <= |s|
  {
    1 + |Before(s[1..], '/')|
  }

  /** The input starts with, or is, a dot segment. */
  predicate HasDotRule(input: string) {
    || "../" <= input || "./" <= input || "/./" <= input || input == "/."
    || "/../" <= input || input == "/.." || IsDots(input)
  }

  /** The algorithm of RFC 3986, section 5.2.4, on an input and an output buffer. */
  function RemoveDots(input: string, output: string): string
    decreases |input|
  {
    if input == "" then output
    else if !HasDotRule(input) then
      var n := FirstLength(input);
      RemoveDots(input[n..], output + input[..n])
    else if "../" <= input then RemoveDots(input[3..], output)
    else if "./" <= input then RemoveDots(input[2..], output)
    else if "/./" <= input then RemoveDots(input[2..], output)
    else if input == "/." then RemoveDots("/", output)
    else if "/../" <= input then RemoveDots(input[3..], WithoutLastSegment(output))
    else if input == "/.." then RemoveDots("/", WithoutLastSegment(output))
    else output
  }

  /** A path of ordinary segments: none of them is a dot segment. */
  predicate IsOrdinary(parts: seq<string>) {
    forall p :: p in parts ==> '/' !in p && !IsDots(p)
  }

  /** The rest of a path behind its first segment. */
  predicate IsRest(s: string) {
    s == "" || s[0] == '/'
  }

  lemma {:induction false} BeforeAcross(a: string, rest: string)
    requires '/' !in a && IsRest(rest)
    ensures Before(a + rest, '/') == a
  {
    var s := a + rest;
    if a == "" {
      assert s == rest;
    } else {
      assert s[0] == a[0] && s[1..] == a[1..] + rest;
      BeforeAcross(a[1..], rest);
    }
  }

  /** A text has one first segment. */
  lemma OneFirstSegment(a: string, rest: string, b: string, other: string)
    requires a + rest == b + other && '/' !in a && '/' !in b && IsRest(rest) && IsRest(other)
    ensures a == b
  {
    BeforeAcross(a, rest);
    BeforeAcross(b, other);
  }

  /** Removing dot segments moves an ordinary absolute path to the output as it is. */
  lemma {:induction false} OrdinaryIsKept(parts: seq<string>, output: string)
    requires parts != [] && IsOrdinary(parts)
    ensures RemoveDots("/" + Join(parts, '/'), output) == output + ("/" + Join(parts, '/'))
    decreases |parts|
  {
    var first := parts[0];
    if |parts| == 1 {
      OrdinaryStep(first, "", output);
      assert "/" + first + "" == "/" + Join(parts, '/');
    } else {
      var rest := "/" + Join(parts[1..], '/');
      OrdinaryStep(first, rest, output);
      OrdinaryIsKept(parts[1..], output + "/" + first);
      JoinedStep(first, rest, parts, output);
    }
  }

  lemma JoinedStep(first: string, rest: string, parts: seq<string>, output: string)
    requires |parts| > 1 && first == parts[0] && rest == "/" + Join(parts[1..], '/')
    ensures "/" + Join(parts, '/') == "/" + first + rest
    ensures output + "/" + first + rest == output + ("/" + Join(parts, '/'))
  {
  }

  /** An ordinary first segment moves from the input to the output. */
  lemma OrdinaryStep(first: string, rest: string, output: string)
    requires '/' !in first && !IsDots(first) && IsRest(rest)
    ensures RemoveDots("/" + first + rest, output) == RemoveDots(rest, output + "/" + first)
  {
    var input := "/" + first + rest;
    NoDotHead(input, first, rest);
    FirstSegmentIs(input, first, rest);
    assert output + ("/" + first) == output + "/" + first;
  }

  lemma FirstSegmentIs(input: string, first: string, rest: string)
    requires input == "/" + first + rest && '/' !in first && IsRest(rest)
    ensures var n := FirstLength(input); input[..n] == "/" + first && input[n..] == rest
  {
    assert input[1..] == first + rest;
    BeforeAcross(first, rest);
  }

  /** No rule about dot segments applies to an absolute path whose first segment is ordinary. */
  lemma NoDotHead(input: string, first: string, rest: string)
    requires input == "/" + first + rest && '/' !in first && !IsDots(first) && IsRest(rest)
    ensures input != "" && !HasDotRule(input)
  {
    assert input[0] == '/';
    NotHead(input, first, rest, ".");
    NotHead(input, first, rest, "..");
  }

  lemma NotHead(input: string, first: string, rest: string, dots: string)
    requires input == "/" + first + rest && '/' !in first && IsRest(rest) && first != dots && '/' !in dots
    ensures !("/" + dots + "/" <= input) && input != "/" + dots
  {
    if "/" + dots + "/" <= input || input == "/" + dots {
      var other := input[1 + |dots|..];
      assert first + rest == input[1..] == dots + other;
      OneFirstSegment(first, rest, dots, other);
    }
  }

  // ----- segments that stay one segment -----

  predicate IsUnsafe(form: string) {
    form == "" || IsDots(form) || '/' in form || '\\' in form
  }

  /** A segment that stays one ordinary segment however often it is decoded. */
  predicate IsPlainSegment(segment: string) {
    forall f :: f in DecodedForms(segment) ==> !IsUnsafe(f)
  }

  /** Empty, or plain: no decoding turns it into a separator or a dot segment. */
  predicate IsHarmless(segment: string) {
    segment == "" || IsPlainSegment(segment)
  }

  lemma HarmlessDecodings(segment: string, k: nat)
    requires IsHarmless(segment)
    ensures '/' !in Decode(segment, k) && !IsDots(Decode(segment, k))
  {
    EveryDecodingIsAForm(segment, k);
    if segment == "" { StaysPut("", k); }
  }

  /** Decoding a path of harmless segments any number of times, then splitting it, is the same as
      splitting it and decoding each segment; and no dot segment appears, so removing dot segments
      changes nothing. */
  lemma DecodingKeepsSegments(parts: seq<string>, k: nat)
    requires parts != [] && forall p :: p in parts ==> IsHarmless(p)
    ensures Split(Decode(Join(parts, '/'), k), '/') == DecodeEach(parts, k)
    ensures RemoveDots("/" + Decode(Join(parts, '/'), k), "") == "/" + Decode(Join(parts, '/'), k)
  {
    var decoded := DecodeEach(parts, k);
    DecodeOfJoin(parts, k);
    forall p | p in decoded
      ensures '/' !in p && !IsDots(p)
    {
      var i :| 0 <= i < |decoded| && decoded[i] == p;
      DecodeEachAt(parts, k, i);
      HarmlessDecodings(parts[i], k);
    }
    SplitOfJoin(decoded, '/');
    OrdinaryIsKept(decoded, "");
  }
}
