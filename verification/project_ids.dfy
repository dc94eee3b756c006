/** Project ids: their grammar, slugs, and the rewriting of a manifest whose ids predate the grammar.
    Names are ASCII. */
module ProjectIds {
  import opened Strings

  // ----- the grammar -----

  predicate IsAlphanumeric(c: char) {
    'A' <= c <= 'Z' || 'a' <= c <= 'z' || '0' <= c <= '9'
  }

  predicate IsIdChar(c: char) {
    IsAlphanumeric(c) || c == '.' || c == '_' || c == '-'
  }

  /** Names of devices on Windows. */
  predicate IsDeviceName(s: string) {
    || s in {"con", "prn", "aux", "nul"}
    || (|s| == 4 && (s[..3] == "com" || s[..3] == "lpt") && '1' <= s[3] <= '9')
  }

  predicate IsValidId(s: string) {
    && 1 <= |s| <= 128 && IsAlphanumeric(s[0]) && (forall i :: 0 <= i < |s| ==> IsIdChar(s[i]))
    && !IsDeviceName(Lower(Before(s, '.'))) && s[|s| - 1] != '.' && s[|s| - 1] != ' '
  }

  // ----- slugs -----

  predicate IsForeign(c: char) {
    !IsIdChar(c)
  }

  predicate IsNotAlphanumeric(c: char) {
    !IsAlphanumeric(c)
  }

  predicate IsTail(c: char) {
    c == '-' || c == '.' || c == ' '
  }

  /** Every run of characters no id may hold becomes one dash. */
  function Dashed(s: string): string
    decreases |s|
  {
    if s == "" then ""
    else if IsIdChar(s[0]) then [s[0]] + Dashed(s[1..])
    else "-" + Dashed(TrimLeft(s[1..], IsForeign))
  }

  function Take(s: string, n: nat): string {
    if |s| <= n then s else s[..n]
  }

  function Cleaned(name: string): string {
    TrimRight(Take(TrimLeft(Dashed(name), IsNotAlphanumeric), 128), IsTail)
  }

  function Slugify(name: string): string {
    var cleaned := Cleaned(name);
    if cleaned == "" then "project"
    else if IsDeviceName(Lower(Before(cleaned, '.'))) then TrimRight(Take("project-" + cleaned, 128), IsTail)
    else cleaned
  }

  lemma {:induction false} DashedIsIdChars(s: string)
    ensures forall i :: 0 <= i < |Dashed(s)| ==> IsIdChar(Dashed(s)[i])
    decreases |s|
  {
    if s != "" { DashedIsIdChars(if IsIdChar(s[0]) then s[1..] else TrimLeft(s[1..], IsForeign)); }
  }

  lemma {:induction false} TrimLeftIsSuffix(s: string, junk: char -> bool)
    ensures exists n :: 0 <= n <= |s| && TrimLeft(s, junk) == s[n..]
  {
    if s != "" && junk(s[0]) {
      TrimLeftIsSuffix(s[1..], junk);
      var n :| 0 <= n <= |s[1..]| && TrimLeft(s[1..], junk) == s[1..][n..];
      assert s[1..][n..] == s[n + 1..];
    } else {
      assert s[0..] == s;
    }
  }

  lemma {:induction false} TrimRightIsPrefix(s: string, junk: char -> bool)
    ensures TrimRight(s, junk) <= s
    ensures TrimRight(s, junk) != "" ==> !junk(TrimRight(s, junk)[|TrimRight(s, junk)| - 1])
    ensures s != "" && !junk(s[0]) ==> TrimRight(s, junk) != ""
    decreases |s|
  {
    if s != "" && junk(s[|s| - 1]) { TrimRightIsPrefix(s[..|s| - 1], junk); }
  }

  lemma CleanedForm(name: string)
    ensures var c := Cleaned(name);
      && |c| <= 128 && (forall i :: 0 <= i < |c| ==> IsIdChar(c[i]))
      && (c != "" ==> IsAlphanumeric(c[0]) && !IsTail(c[|c| - 1]))
  {
    var d := Dashed(name);
    var t := TrimLeft(d, IsNotAlphanumeric);
    DashedIsIdChars(name);
    TrimLeftIsSuffix(d, IsNotAlphanumeric);
    TrimRightIsPrefix(Take(t, 128), IsTail);
  }

  lemma {:induction false} BeforeIsLong(s: string, c: char, n: nat)
    requires n <= |s| && forall i :: 0 <= i < n ==> s[i] != c
    ensures |Before(s, c)| >= n
  {
    if n > 0 { BeforeIsLong(s[1..], c, n - 1); }
  }

  /** A text that starts with `project` names no device: those names are shorter. */
  lemma PrefixedIsNoDevice(s: string)
    requires "project" <= s
    ensures !IsDeviceName(Lower(Before(s, '.')))
  {
    BeforeIsLong(s, '.', 7);
    assert |Lower(Before(s, '.'))| >= 7;
  }

  lemma PrefixedSlugIsValid(c: string)
    requires c != "" && IsAlphanumeric(c[0]) && forall i :: 0 <= i < |c| ==> IsIdChar(c[i])
    ensures IsValidId(TrimRight(Take("project-" + c, 128), IsTail))
  {
    var p := "project-" + c;
    var t := Take(p, 128);
    TrimRightIsPrefix(t, IsTail);
    KeepsNinth(t);
    var r := TrimRight(t, IsTail);
    forall i | 0 <= i < |r|
      ensures IsIdChar(r[i])
    {
      assert r[i] == p[i];
      if i >= 8 { assert p[i] == c[i - 8]; }
    }
    PrefixedIsNoDevice(r);
  }

  /** A slug always satisfies the grammar. */
  lemma SlugIsValid(name: string)
    ensures IsValidId(Slugify(name))
  {
    var c := Cleaned(name);
    CleanedForm(name);
    if c == "" {
      PrefixedIsNoDevice("project");
    } else if IsDeviceName(Lower(Before(c, '.'))) {
      PrefixedSlugIsValid(c);
    }
  }

  lemma {:induction false} KeepsNinth(t: string)
    requires |t| >= 9 && "project-" <= t && IsAlphanumeric(t[8])
    ensures "project-" <= TrimRight(t, IsTail)
    decreases |t|
  {
    if |t| > 9 && IsTail(t[|t| - 1]) {
      KeepsNinth(t[..|t| - 1]);
    }
  }

  // ----- unique slugs -----

  function Suffixed(base: string, n: nat): string {
    base + "-" + Decimal(n)
  }

  lemma SuffixesDiffer(base: string, m: nat, n: nat)
    requires m != n
    ensures Suffixed(base, m) != Suffixed(base, n)
  {
    DecimalsDiffer(m, n);
    assert Suffixed(base, m)[|base| + 1..] == Decimal(m) && Suffixed(base, n)[|base| + 1..] == Decimal(n);
  }

  /** The slug itself if it is free, otherwise the slug with the least free suffix from 2 on. */
  ghost predicate IsUniqueSlug(name: string, taken: set<string>, r: string) {
    var base := Slugify(name);
    && r !in taken
    && (base !in taken ==> r == base)
    && (base in taken ==> exists n :: 2 <= n && r == Suffixed(base, n) && forall m :: 2 <= m < n ==> Suffixed(base, m) in taken)
  }

  /** The loop ends: every suffix tried is another element of a finite set. */
  method UniqueSlug(name: string, taken: set<string>) returns (r: string)
    ensures IsUniqueSlug(name, taken, r)
  {
    var base := Slugify(name);
    if base !in taken {
      return base;
    }
    var n := 2;
    ghost var untried := taken;
    while Suffixed(base, n) in taken
      invariant 2 <= n && untried <= taken
      invariant forall m :: 2 <= m < n ==> Suffixed(base, m) in taken
      invariant forall m :: n <= m && Suffixed(base, m) in taken ==> Suffixed(base, m) in untried
      decreases |untried|
    {
      forall m | n < m
        ensures Suffixed(base, m) != Suffixed(base, n)
      {
        SuffixesDiffer(base, m, n);
      }
      untried := untried - {Suffixed(base, n)};
      n := n + 1;
    }
    r := Suffixed(base, n);
  }

  /** The suffix is not cut again: the result is a valid id if and only if it is short enough. */
  lemma UniqueSlugIsValid(name: string, taken: set<string>, r: string)
    requires IsUniqueSlug(name, taken, r)
    ensures IsValidId(r) <==> |r| <= 128
  {
    var base := Slugify(name);
    SlugIsValid(name);
    if base in taken {
      var n :| 2 <= n && r == Suffixed(base, n);
      SuffixedIsNoDevice(base, n);
    }
  }

  lemma SuffixedIsNoDevice(base: string, n: nat)
    requires IsValidId(base)
    ensures var r := Suffixed(base, n);
      && IsAlphanumeric(r[0]) && (forall i :: 0 <= i < |r| ==> IsIdChar(r[i])) && !IsTail(r[|r| - 1])
      && !IsDeviceName(Lower(Before(r, '.')))
  {
    var r := Suffixed(base, n);
    SuffixedForm(base, n);
    if '.' in base {
      DotComesFirst(base, r);
    } else {
      BeforeIsLong(r, '.', |base| + 1);
      var b := Lower(Before(r, '.'));
      assert b[|base|] == LowerChar(r[|base|]) == '-';
    }
  }

  lemma SuffixedForm(base: string, n: nat)
    requires IsValidId(base)
    ensures var r := Suffixed(base, n);
      && base <= r && |r| > |base| && r[|base|] == '-'
      && (forall i :: 0 <= i < |r| ==> IsIdChar(r[i])) && !IsTail(r[|r| - 1])
  {
    DecimalRoundTrip(n);
    DigitsFollow(base, Decimal(n));
  }

  lemma DigitsFollow(base: string, digits: string)
    requires IsDigits(digits) && forall i :: 0 <= i < |base| ==> IsIdChar(base[i])
    ensures var r := base + "-" + digits;
      && base <= r && |r| > |base| && r[|base|] == '-'
      && (forall i :: 0 <= i < |r| ==> IsIdChar(r[i])) && !IsTail(r[|r| - 1])
  {
    var r := base + "-" + digits;
    assert r[|r| - 1] == digits[|digits| - 1];
  }

  lemma {:induction false} DotComesFirst(base: string, r: string)
    requires base <= r && '.' in base
    ensures Before(base, '.') == Before(r, '.')
  {
    assert base[0] == r[0];
    if base[0] != '.' { DotComesFirst(base[1..], r[1..]); }
  }
}
