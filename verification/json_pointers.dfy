/** JSON pointers (RFC 6901): printing one for every occurrence of a key, and walking one back. */
module JsonPointers {
  import opened Options
  import opened Strings
  import opened Json

  // ----- one segment -----

  /** Every `c` replaced by a text. */
  function ReplaceChar(s: string, c: char, text: string): string {
    if s == "" then "" else (if s[0] == c then text else [s[0]]) + ReplaceChar(s[1..], c, text)
  }

  /** Every occurrence of a two-character text replaced, from the left. */
  function ReplacePair(s: string, pair: string, text: string): string {
    if s == "" then ""
    else if |s| >= 2 && s[..2] == pair then text + ReplacePair(s[2..], pair, text)
    else [s[0]] + ReplacePair(s[1..], pair, text)
  }

  function Escape(key: string): string {
    ReplaceChar(ReplaceChar(key, '~', "~0"), '/', "~1")
  }

  function Unescape(segment: string): string {
    ReplacePair(ReplacePair(segment, "~1", "/"), "~0", "~")
  }

  function Escaped(c: char): string {
    if c == '~' then "~0" else if c == '/' then "~1" else [c]
  }

  lemma {:induction false} EscapeStep(key: string)
    requires key != ""
    ensures Escape(key) == Escaped(key[0]) + Escape(key[1..])
  {
    var tail := ReplaceChar(key[1..], '~', "~0");
    if key[0] == '~' {
      assert ("~0" + tail)[1..] == "0" + tail && ("0" + tail)[1..] == tail;
      assert ReplaceChar("0" + tail, '/', "~1") == "0" + ReplaceChar(tail, '/', "~1");
      assert ReplaceChar("~0" + tail, '/', "~1") == "~" + ReplaceChar("0" + tail, '/', "~1");
    } else {
      assert ([key[0]] + tail)[1..] == tail;
    }
  }

  lemma PairStep(head: string, tail: string, pair: string, text: string)
    requires |pair| == 2 && pair[0] == '~' && pair[1] != '~'
    ensures head == pair ==> ReplacePair(head + tail, pair, text) == text + ReplacePair(tail, pair, text)
    ensures |head| == 1 && head[0] != '~' ==> ReplacePair(head + tail, pair, text) == head + ReplacePair(tail, pair, text)
    ensures |head| == 2 && head[0] == '~' && head[1] != '~' && head != pair ==>
              ReplacePair(head + tail, pair, text) == head + ReplacePair(tail, pair, text)
  {
    var s := head + tail;
    if head == pair {
      assert s[..2] == pair && s[2..] == tail;
    } else if |head| == 1 && head[0] != '~' {
      assert s[0] == head[0] && s[1..] == tail;
    } else if |head| == 2 && head[0] == '~' && head[1] != '~' {
      assert s[..2] == head && s[1..] == [head[1]] + tail && s[1..][1..] == tail;
    }
  }

  /** Half way back: the slashes are restored. */
  lemma {:induction false} SlashesReturn(key: string)
    ensures ReplacePair(Escape(key), "~1", "/") == ReplaceChar(key, '~', "~0")
  {
    if key != "" {
      EscapeStep(key);
      PairStep(Escaped(key[0]), Escape(key[1..]), "~1", "/");
      SlashesReturn(key[1..]);
    }
  }

  lemma {:induction false} TildesReturn(key: string)
    ensures ReplacePair(ReplaceChar(key, '~', "~0"), "~0", "~") == key
  {
    if key != "" {
      PairStep(if key[0] == '~' then "~0" else [key[0]], ReplaceChar(key[1..], '~', "~0"), "~0", "~");
      TildesReturn(key[1..]);
    }
  }

  /** Unescaping undoes escaping, and an escaped key holds no separator. */
  lemma {:induction false} EscapeRoundTrip(key: string)
    ensures Unescape(Escape(key)) == key && '/' !in Escape(key) && (Escape(key) == "" <==> key == "")
  {
    SlashesReturn(key);
    TildesReturn(key);
    NoSlash(key);
    if key != "" { EscapeStep(key); }
  }

  lemma {:induction false} NoSlash(key: string)
    ensures '/' !in Escape(key)
  {
    if key != "" {
      EscapeStep(key);
      NoSlash(key[1..]);
    }
  }

  // ----- list indices -----

  lemma DigitsAreVerbatim(s: string)
    requires AreDigits(s)
    ensures Unescape(s) == s && '/' !in s
  {
    PairIsAbsent(s, "~1", "/");
    PairIsAbsent(s, "~0", "~");
  }

  lemma {:induction false} PairIsAbsent(s: string, pair: string, text: string)
    requires pair != "" && pair[0] == '~' && '~' !in s
    ensures ReplacePair(s, pair, text) == s
  {
    if s != "" {
      assert |s| >= 2 ==> s[..2][0] == s[0];
      PairIsAbsent(s[1..], pair, text);
    }
  }

  // ----- paths into a value -----

  datatype Step = Key(key: string) | Index(index: nat)
  type Path = seq<Step>

  function Follow(v: Json, p: Path): Option<Json>
    decreases p
  {
    if p == [] then Some(v)
    else match p[0]
    case Key(k) => if v.Obj? && Get(v.members, k).Some? then Follow(Get(v.members, k).value, p[1..]) else None
    case Index(i) => if v.Arr? && i < |v.items| then Follow(v.items[i], p[1..]) else None
  }

  /** The path leads to a value that is stored under `source`. */
  predicate IsOccurrence(v: Json, p: Path, source: string) {
    p != [] && p[|p| - 1] == Key(source) && Follow(v, p).Some?
  }

  /** No object has a key twice. */
  predicate IsWellFormed(v: Json) {
    match v
    case Arr(items) => forall i :: 0 <= i < |items| ==> IsWellFormed(items[i])
    case Obj(ms) =>
      && (forall i, j :: 0 <= i < j < |ms| ==> ms[i].key != ms[j].key)
      && (forall i :: 0 <= i < |ms| ==> IsWellFormed(ms[i].value))
    case _ => true
  }

  // ----- printing -----

  function Segment(s: Step): string {
    match s
    case Key(k) => Escape(k)
    case Index(i) => Decimal(i)
  }

  function Pointer(p: Path): string {
    if p == [] then "" else "/" + Segment(p[0]) + Pointer(p[1..])
  }

  /** One pointer for every occurrence of `source` as a key, in document order. */
  function SourcePaths(v: Json, path: string, source: string): seq<string> {
    match v
    case Obj(ms) => MemberPaths(ms, path, source)
    case Arr(items) => ItemPaths(items, 0, path, source)
    case _ => []
  }

  function MemberPaths(ms: seq<Member>, path: string, source: string): seq<string> {
    if ms == [] then [] else
    var child := path + "/" + Escape(ms[0].key);
    (if ms[0].key == source then [child] else []) + SourcePaths(ms[0].value, child, source)
      + MemberPaths(ms[1..], path, source)
  }

  function ItemPaths(items: seq<Json>, index: nat, path: string, source: string): seq<string> {
    if items == [] then []
    else SourcePaths(items[0], path + "/" + Decimal(index), source) + ItemPaths(items[1..], index + 1, path, source)
  }

  // ----- the occurrences themselves -----

  function Push(s: Step, ps: seq<Path>): seq<Path> {
    if ps == [] then [] else [[s] + ps[0]] + Push(s, ps[1..])
  }

  function Occurrences(v: Json, source: string): seq<Path> {
    match v
    case Obj(ms) => MemberOccurrences(ms, source)
    case Arr(items) => ItemOccurrences(items, 0, source)
    case _ => []
  }

  function MemberOccurrences(ms: seq<Member>, source: string): seq<Path> {
    if ms == [] then [] else
    var here := if ms[0].key == source then [[Key(source)]] else [];
    here + Push(Key(ms[0].key), Occurrences(ms[0].value, source)) + MemberOccurrences(ms[1..], source)
  }

  function ItemOccurrences(items: seq<Json>, index: nat, source: string): seq<Path> {
    if items == [] then []
    else Push(Index(index), Occurrences(items[0], source)) + ItemOccurrences(items[1..], index + 1, source)
  }

  function Pointers(path: string, ps: seq<Path>): seq<string> {
    if ps == [] then [] else [path + Pointer(ps[0])] + Pointers(path, ps[1..])
  }

  lemma {:induction false} PointersAppend(path: string, ps: seq<Path>, qs: seq<Path>)
    ensures Pointers(path, ps + qs) == Pointers(path, ps) + Pointers(path, qs)
  {
    if ps == [] {
      assert ps + qs == qs;
    } else {
      PointersAppend(path, ps[1..], qs);
      assert (ps + qs)[1..] == ps[1..] + qs;
    }
  }

  lemma {:induction false} PointersPush(path: string, s: Step, ps: seq<Path>)
    ensures Pointers(path, Push(s, ps)) == Pointers(path + "/" + Segment(s), ps)
  {
    if ps != [] {
      PointersPush(path, s, ps[1..]);
      PointerOfStep(path, s, ps[0]);
      assert Push(s, ps)[1..] == Push(s, ps[1..]);
    }
  }

  lemma PointerOfStep(path: string, s: Step, p: Path)
    ensures path + Pointer([s] + p) == path + "/" + Segment(s) + Pointer(p)
  {
    assert ([s] + p)[1..] == p;
  }

  /** What is printed is the pointer of each occurrence, in order. */
  lemma {:induction false} PathsArePointers(v: Json, path: string, source: string)
    ensures SourcePaths(v, path, source) == Pointers(path, Occurrences(v, source))
    decreases v
  {
    match v
    case Obj(ms) => MemberPathsArePointers(ms, path, source);
    case Arr(items) => ItemPathsArePointers(items, 0, path, source);
    case _ =>
  }

  lemma {:induction false} MemberPathsArePointers(ms: seq<Member>, path: string, source: string)
    ensures MemberPaths(ms, path, source) == Pointers(path, MemberOccurrences(ms, source))
    decreases ms
  {
    if ms != [] {
      var child := path + "/" + Escape(ms[0].key);
      var here := if ms[0].key == source then [[Key(source)]] else [];
      var below := Push(Key(ms[0].key), Occurrences(ms[0].value, source));
      PathsArePointers(ms[0].value, child, source);
      MemberPathsArePointers(ms[1..], path, source);
      PointersPush(path, Key(ms[0].key), Occurrences(ms[0].value, source));
      PointersAppend(path, here + below, MemberOccurrences(ms[1..], source));
      PointersAppend(path, here, below);
      OnePointer(path, source);
    }
  }

  lemma OnePointer(path: string, source: string)
    ensures Pointers(path, [[Key(source)]]) == [path + "/" + Escape(source)]
  {
    var p: Path := [Key(source)];
    assert p[1..] == [] && Pointer(p) == "/" + Escape(source) + "";
    assert [p][1..] == [] && Pointers(path, [p][1..]) == [];
    assert path + Pointer(p) == path + "/" + Escape(source);
  }

  lemma {:induction false} ItemPathsArePointers(items: seq<Json>, index: nat, path: string, source: string)
    ensures ItemPaths(items, index, path, source) == Pointers(path, ItemOccurrences(items, index, source))
    decreases items
  {
    if items != [] {
      PathsArePointers(items[0], path + "/" + Decimal(index), source);
      ItemPathsArePointers(items[1..], index + 1, path, source);
      PointersPush(path, Index(index), Occurrences(items[0], source));
      PointersAppend(path, Push(Index(index), Occurrences(items[0], source)), ItemOccurrences(items[1..], index + 1, source));
    }
  }

  // ----- exactly the occurrences, each once -----

  lemma {:induction false} InPush(s: Step, ps: seq<Path>, p: Path)
    ensures p in Push(s, ps) <==> p != [] && p[0] == s && p[1..] in ps
  {
    if ps != [] {
      InPush(s, ps[1..], p);
      assert ([s] + ps[0])[1..] == ps[0];
      assert p != [] ==> p == [p[0]] + p[1..];
      assert p in Push(s, ps) <==> p == [s] + ps[0] || p in Push(s, ps[1..]);
      assert p != [] ==> (p[1..] in ps <==> p[1..] == ps[0] || p[1..] in ps[1..]);
    }
  }

  /** The recursive form of being an occurrence. */
  lemma OccurrenceStep(v: Json, p: Path, source: string)
    requires p != []
    ensures IsOccurrence(v, p, source) <==>
              && Follow(v, p[..1]).Some?
              && (p == [Key(source)] || IsOccurrence(Follow(v, p[..1]).value, p[1..], source))
  {
    assert p[..1][1..] == [];
    if |p| == 1 {
      assert p == [p[0]] && p[..1] == p;
    } else {
      assert p[1..][|p| - 2] == p[|p| - 1];
    }
  }

  lemma {:induction false} OccurrencesAreExact(v: Json, p: Path, source: string)
    requires IsWellFormed(v)
    ensures p in Occurrences(v, source) <==> IsOccurrence(v, p, source)
    decreases v
  {
    if p != [] { OccurrenceStep(v, p, source); }
    match v
    case Obj(ms) =>
      MemberOccurrencesAreExact(ms, p, source);
      if p != [] { assert p[..1] == [p[0]] && p[..1][1..] == []; }
    case Arr(items) =>
      ItemOccurrencesAreExact(items, 0, p, source);
      if p != [] { assert p[..1] == [p[0]] && p[..1][1..] == []; }
    case _ =>
  }

  lemma {:induction false} MemberOccurrencesAreExact(ms: seq<Member>, p: Path, source: string)
    requires forall i, j :: 0 <= i < j < |ms| ==> ms[i].key != ms[j].key
    requires forall i :: 0 <= i < |ms| ==> IsWellFormed(ms[i].value)
    ensures p in MemberOccurrences(ms, source) <==>
              && p != [] && p[0].Key? && Get(ms, p[0].key).Some?
              && (p == [Key(source)] || IsOccurrence(Get(ms, p[0].key).value, p[1..], source))
    decreases ms
  {
    if ms != [] {
      var m, rest := ms[0], ms[1..];
      var here := if m.key == source then [[Key(source)]] else [];
      var below := Push(Key(m.key), Occurrences(m.value, source));
      MemberOccurrencesAreExact(rest, p, source);
      InPush(Key(m.key), Occurrences(m.value, source), p);
      if p != [] { OccurrencesAreExact(m.value, p[1..], source); }
      HasGet(rest, m.key);
      assert p in MemberOccurrences(ms, source) <==> p in here || p in below || p in MemberOccurrences(rest, source);
    }
  }

  lemma {:induction false} ItemOccurrencesAreExact(items: seq<Json>, index: nat, p: Path, source: string)
    requires forall i :: 0 <= i < |items| ==> IsWellFormed(items[i])
    ensures p in ItemOccurrences(items, index, source) <==>
              && p != [] && p[0].Index? && index <= p[0].index < index + |items|
              && IsOccurrence(items[p[0].index - index], p[1..], source)
    decreases items
  {
    if items != [] {
      ItemOccurrencesAreExact(items[1..], index + 1, p, source);
      InPush(Index(index), Occurrences(items[0], source), p);
      if p != [] { OccurrencesAreExact(items[0], p[1..], source); }
    }
  }

  predicate AreDistinct<T(==)>(s: seq<T>) {
    forall i, j :: 0 <= i < j < |s| ==> s[i] != s[j]
  }

  lemma DistinctAppend<T>(a: seq<T>, b: seq<T>)
    requires AreDistinct(a) && AreDistinct(b) && forall x :: x in a ==> x !in b
    ensures AreDistinct(a + b)
  {
    forall i, j | 0 <= i < j < |a + b|
      ensures (a + b)[i] != (a + b)[j]
    {
      if i < |a| <= j { assert a[i] in a && b[j - |a|] in b; }
    }
  }

  lemma {:induction false} DistinctPush(s: Step, ps: seq<Path>)
    requires AreDistinct(ps)
    ensures AreDistinct(Push(s, ps))
  {
    if ps != [] {
      DistinctPush(s, ps[1..]);
      InPush(s, ps[1..], [s] + ps[0]);
      assert ([s] + ps[0])[1..] == ps[0];
      DistinctAppend([[s] + ps[0]], Push(s, ps[1..]));
    }
  }

  lemma {:induction false} OccurrencesAreDistinct(v: Json, source: string)
    requires IsWellFormed(v)
    ensures AreDistinct(Occurrences(v, source))
    decreases v
  {
    match v
    case Obj(ms) => MemberOccurrencesAreDistinct(ms, source);
    case Arr(items) => ItemOccurrencesAreDistinct(items, 0, source);
    case _ =>
  }

  lemma {:induction false} MemberOccurrencesAreDistinct(ms: seq<Member>, source: string)
    requires forall i, j :: 0 <= i < j < |ms| ==> ms[i].key != ms[j].key
    requires forall i :: 0 <= i < |ms| ==> IsWellFormed(ms[i].value)
    ensures AreDistinct(MemberOccurrences(ms, source))
    decreases ms
  {
    if ms != [] {
      var m, rest := ms[0], ms[1..];
      var here: seq<Path> := if m.key == source then [[Key(source)]] else [];
      var deeper := Occurrences(m.value, source);
      var below := Push(Key(m.key), deeper);
      OccurrencesAreDistinct(m.value, source);
      DistinctPush(Key(m.key), deeper);
      MemberOccurrencesAreDistinct(rest, source);
      HasGet(rest, m.key);
      forall p | p in here
        ensures p !in below
      {
        InPush(Key(m.key), deeper, p);
        OccurrencesAreExact(m.value, p[1..], source);
      }
      DistinctAppend(here, below);
      forall p | p in here + below
        ensures p !in MemberOccurrences(rest, source)
      {
        InPush(Key(m.key), deeper, p);
        MemberOccurrencesAreExact(rest, p, source);
      }
      DistinctAppend(here + below, MemberOccurrences(rest, source));
    }
  }

  lemma {:induction false} ItemOccurrencesAreDistinct(items: seq<Json>, index: nat, source: string)
    requires forall i :: 0 <= i < |items| ==> IsWellFormed(items[i])
    ensures AreDistinct(ItemOccurrences(items, index, source))
    decreases items
  {
    if items != [] {
      var below := Push(Index(index), Occurrences(items[0], source));
      OccurrencesAreDistinct(items[0], source);
      DistinctPush(Index(index), Occurrences(items[0], source));
      ItemOccurrencesAreDistinct(items[1..], index + 1, source);
      forall p | p in below
        ensures p !in ItemOccurrences(items[1..], index + 1, source)
      {
        InPush(Index(index), Occurrences(items[0], source), p);
        ItemOccurrencesAreExact(items[1..], index + 1, p, source);
      }
      DistinctAppend(below, ItemOccurrences(items[1..], index + 1, source));
    }
  }

  // ----- walking a pointer back -----

  /** The keys and indices of a path, as text. */
  function Texts(p: Path): seq<string> {
    if p == [] then [] else [if p[0].Key? then p[0].key else Decimal(p[0].index)] + Texts(p[1..])
  }

  function UnescapeAll(parts: seq<string>): seq<string> {
    if parts == [] then [] else [Unescape(parts[0])] + UnescapeAll(parts[1..])
  }

  lemma SegmentIsSafe(s: Step)
    ensures '/' !in Segment(s) && Unescape(Segment(s)) == (if s.Key? then s.key else Decimal(s.index))
    ensures Segment(s) == "" <==> s == Key("")
  {
    match s
    case Key(k) => EscapeRoundTrip(k);
    case Index(i) =>
      DecimalRoundTrip(i);
      DigitsAreVerbatim(Decimal(i));
  }

  lemma SplitPast(segment: string, rest: string)
    requires '/' !in segment && (rest == "" || rest[0] == '/')
    ensures Split("/" + segment + rest, '/') == ["", segment] + Split(rest, '/')[1..]
  {
    var s := "/" + segment + rest;
    assert s[1..] == segment + rest;
    if rest == "" {
      assert segment + rest == segment;
      SplitOfPart(segment, '/');
    } else {
      assert segment + rest == segment + ['/'] + rest[1..];
      SplitAfter(segment, rest[1..], '/');
      assert ([""] + Split(rest[1..], '/'))[1..] == Split(rest[1..], '/');
    }
  }

  /** The segments a finding's path is walked by: the empty ones are dropped. */
  function NonEmpty(parts: seq<string>): seq<string> {
    if parts == [] then [] else (if parts[0] == "" then [] else [parts[0]]) + NonEmpty(parts[1..])
  }

  function PathSegments(path: string): seq<string> {
    UnescapeAll(NonEmpty(Split(path, '/')))
  }

  predicate HasEmptyKey(p: Path) {
    exists i :: 0 <= i < |p| && p[i] == Key("")
  }

  lemma {:induction false} NonEmptyLength(parts: seq<string>)
    ensures |NonEmpty(parts)| <= |parts| && (NonEmpty(parts) == parts <==> "" !in parts)
    ensures "" in parts ==> |NonEmpty(parts)| < |parts|
  {
    if parts != [] { NonEmptyLength(parts[1..]); }
  }

  function Segments(p: Path): seq<string> {
    if p == [] then [] else [Segment(p[0])] + Segments(p[1..])
  }

  /** Splitting a pointer gives its segments, whatever the keys are. */
  lemma {:induction false} SplitPointer(p: Path)
    ensures Split(Pointer(p), '/') == [""] + Segments(p)
  {
    if p != [] {
      SplitPointer(p[1..]);
      SegmentIsSafe(p[0]);
      SplitPast(Segment(p[0]), Pointer(p[1..]));
      assert ([""] + Segments(p[1..]))[1..] == Segments(p[1..]);
    }
  }

  /** Unescaping the segments gives back the keys and indices. */
  lemma {:induction false} UnescapeSegments(p: Path)
    ensures UnescapeAll(Segments(p)) == Texts(p) && |Texts(p)| == |p| == |Segments(p)|
  {
    if p != [] {
      UnescapeSegments(p[1..]);
      SegmentIsSafe(p[0]);
      assert Segments(p)[1..] == Segments(p[1..]);
    }
  }

  lemma {:induction false} EmptySegments(p: Path)
    ensures "" in Segments(p) <==> HasEmptyKey(p)
  {
    if p != [] {
      EmptySegments(p[1..]);
      SegmentIsSafe(p[0]);
      assert forall i :: 0 < i < |p| ==> p[i] == p[1..][i - 1];
      if HasEmptyKey(p[1..]) {
        var i :| 0 <= i < |p[1..]| && p[1..][i] == Key("");
        assert p[i + 1] == Key("");
      }
    }
  }

  lemma {:induction false} UnescapeAllLength(parts: seq<string>)
    ensures |UnescapeAll(parts)| == |parts|
  {
    if parts != [] { UnescapeAllLength(parts[1..]); }
  }

  /** The walk takes the segments the path was printed from if and only if no key on it is empty: empty
      segments are dropped before the walk starts. */
  lemma SegmentsSurvive(p: Path)
    ensures PathSegments(Pointer(p)) == Texts(p) <==> !HasEmptyKey(p)
  {
    SplitPointer(p);
    UnescapeSegments(p);
    EmptySegments(p);
    var parts := Split(Pointer(p), '/');
    assert parts[1..] == Segments(p);
    assert NonEmpty(parts) == NonEmpty(Segments(p));
    NonEmptyLength(Segments(p));
    UnescapeAllLength(NonEmpty(Segments(p)));
  }

  /** Where the walk gets to: each text is an index in a list and a key in an object. */
  function WalkTo(v: Json, texts: seq<string>): Option<Json>
    decreases |texts|
  {
    if texts == [] then Some(v)
    else match v
      case Arr(items) =>
        if IsDigits(texts[0]) && Value(texts[0]) < |items| then WalkTo(items[Value(texts[0])], texts[1..]) else None
      case Obj(ms) => if Get(ms, texts[0]).Some? then WalkTo(Get(ms, texts[0]).value, texts[1..]) else None
      case _ => None
  }

  lemma {:induction false} WalkFollows(v: Json, p: Path)
    requires Follow(v, p).Some?
    ensures WalkTo(v, Texts(p)) == Follow(v, p)
    decreases p
  {
    if p != [] {
      match p[0]
      case Key(k) => WalkFollows(Get(v.members, k).value, p[1..]);
      case Index(i) =>
        DecimalRoundTrip(i);
        WalkFollows(v.items[i], p[1..]);
    }
  }

  /** Texts tell paths into the same value apart. */
  lemma {:induction false} TextsAreUnique(v: Json, p: Path, q: Path)
    requires Follow(v, p).Some? && Follow(v, q).Some? && Texts(p) == Texts(q)
    ensures p == q
    decreases p
  {
    if p != [] && q != [] {
      TextsSplit(p);
      TextsSplit(q);
      FirstStepIsUnique(v, p[0], q[0], p[1..], q[1..]);
      var below := if v.Obj? then Get(v.members, p[0].key).value else v.items[p[0].index];
      TextsAreUnique(below, p[1..], q[1..]);
    }
  }

  lemma TextsSplit(p: Path)
    requires p != []
    ensures Texts(p)[1..] == Texts(p[1..]) && p == [p[0]] + p[1..]
    ensures Texts(p)[0] == if p[0].Key? then p[0].key else Decimal(p[0].index)
  {
  }

  lemma FirstStepIsUnique(v: Json, a: Step, b: Step, p: Path, q: Path)
    requires Follow(v, [a] + p).Some? && Follow(v, [b] + q).Some?
    requires (if a.Key? then a.key else Decimal(a.index)) == (if b.Key? then b.key else Decimal(b.index))
    ensures a == b
  {
    if a.Index? { DecimalRoundTrip(a.index); }
    if b.Index? { DecimalRoundTrip(b.index); }
  }

  // ----- the two together -----

  lemma {:induction false} PointersAt(path: string, ps: seq<Path>, i: nat)
    requires i < |ps|
    ensures |Pointers(path, ps)| == |ps| && Pointers(path, ps)[i] == path + Pointer(ps[i])
  {
    if i > 0 { PointersAt(path, ps[1..], i - 1); } else if |ps| > 1 { PointersAt(path, ps[1..], 0); }
  }

  /** `_source_paths` prints one pointer for each occurrence of the key and no other, the pointers are
      pairwise distinct, and walking a pointer back reaches the value it was printed for whenever no key
      on the way is empty. */
  lemma PointersFindTheirOccurrences(v: Json, source: string)
    requires IsWellFormed(v)
    ensures var paths, found := SourcePaths(v, "", source), Occurrences(v, source);
      && |paths| == |found| && AreDistinct(paths)
      && (forall p :: p in found <==> IsOccurrence(v, p, source))
      && (forall i :: 0 <= i < |paths| ==> paths[i] == Pointer(found[i]))
      && (forall i :: 0 <= i < |paths| && !HasEmptyKey(found[i]) ==>
            WalkTo(v, PathSegments(paths[i])) == Follow(v, found[i]))
  {
    var paths, found := SourcePaths(v, "", source), Occurrences(v, source);
    PathsArePointers(v, "", source);
    OccurrencesAreDistinct(v, source);
    forall p
      ensures p in found <==> IsOccurrence(v, p, source)
    {
      OccurrencesAreExact(v, p, source);
    }
    if found != [] { PointersAt("", found, 0); }
    forall i | 0 <= i < |found|
      ensures |paths| == |found| && paths[i] == Pointer(found[i])
    {
      PointersAt("", found, i);
      assert "" + Pointer(found[i]) == Pointer(found[i]);
    }
    forall i, j | 0 <= i < j < |paths|
      ensures paths[i] != paths[j]
    {
      assert found[i] in found && found[j] in found;
      SplitPointer(found[i]);
      SplitPointer(found[j]);
      UnescapeSegments(found[i]);
      UnescapeSegments(found[j]);
      if paths[i] == paths[j] {
        assert Segments(found[i]) == Split(paths[i], '/')[1..] == Split(paths[j], '/')[1..] == Segments(found[j]);
        TextsAreUnique(v, found[i], found[j]);
      }
    }
    forall i | 0 <= i < |paths| && !HasEmptyKey(found[i])
      ensures WalkTo(v, PathSegments(paths[i])) == Follow(v, found[i])
    {
      assert found[i] in found;
      SegmentsSurvive(found[i]);
      WalkFollows(v, found[i]);
    }
  }

  /** With an empty key on its way a pointer may not lead back: the walk looks for the next key one level
      too high. */
  lemma EmptyKeyIsLost(source: string)
    requires source != ""
    ensures var v, p := Obj([Member("", Obj([Member(source, Null)]))]), [Key(""), Key(source)];
      IsOccurrence(v, p, source) && WalkTo(v, PathSegments(Pointer(p))) == None
  {
    var v, p := Obj([Member("", Obj([Member(source, Null)]))]), [Key(""), Key(source)];
    assert p[1..] == [Key(source)] && p[1..][1..] == [];
    assert v.members[1..] == [] && Get(v.members, source).None?;
    OneSegmentIsLeft(p);
    assert Follow(v, p) == Follow(v.members[0].value, p[1..]) == Some(Null);
    assert WalkTo(v, [source]) == None;
  }

  lemma OneSegmentIsLeft(p: Path)
    requires |p| == 2 && p[0] == Key("") && p[1].Key? && p[1].key != ""
    ensures PathSegments(Pointer(p)) == [p[1].key]
  {
    SplitPointer(p);
    UnescapeSegments(p);
    EscapeRoundTrip(p[1].key);
    var s := Segments(p);
    assert p[1..] == [p[1]] && s[1..] == Segments(p[1..]) && s[1..][1..] == [];
    LastOfThree(s[0], s[1]);
    assert [""] + s == ["", s[0], s[1]];
  }

  lemma LastOfThree(b: string, c: string)
    requires b == "" && c != ""
    ensures UnescapeAll(NonEmpty(["", b, c])) == [Unescape(c)]
  {
    assert ["", b, c][1..] == [b, c] && [b, c][1..] == [c] && [c][1..] == [];
    assert NonEmpty([c]) == [c] && NonEmpty([b, c]) == [c];
  }

  /** The loop of `_resolve_finding`, which moves `current` down the draft, as far as it decides what is
      reached and which widget owns it: the last list entry passed that has an id and a type. */
  method ResolveFinding(draft: Json, path: string) returns (reached: Option<Json>, widgetId: Option<string>)
    ensures reached == WalkTo(draft, PathSegments(path))
    ensures reached.Some? ==> widgetId == Owner(draft, PathSegments(path), None)
  {
    var segments := PathSegments(path);
    var current := draft;
    widgetId := None;
    for i := 0 to |segments|
      invariant WalkTo(draft, segments) == WalkTo(current, segments[i..])
      invariant Owner(draft, segments, None) == Owner(current, segments[i..], widgetId)
    {
      var text := segments[i];
      if current.Arr? {
        if !IsDigits(text) || Value(text) >= |current.items| {
          return None, widgetId;
        }
        current := current.items[Value(text)];
        widgetId := OwnerAt(current, widgetId);
      } else if current.Obj? {
        if Get(current.members, text).None? {
          return None, widgetId;
        }
        current := Get(current.members, text).value;
      } else {
        return None, widgetId;
      }
    }
    return Some(current), widgetId;
  }

  function OwnerAt(v: Json, owner: Option<string>): Option<string> {
    if v.Obj? && Get(v.members, "id").Some? && Get(v.members, "id").value.Str? && Get(v.members, "type").Some?
    then Some(Get(v.members, "id").value.text) else owner
  }

  function Owner(v: Json, texts: seq<string>, owner: Option<string>): Option<string>
    decreases |texts|
  {
    if texts == [] then owner
    else match v
      case Arr(items) =>
        if IsDigits(texts[0]) && Value(texts[0]) < |items| then
          Owner(items[Value(texts[0])], texts[1..], OwnerAt(items[Value(texts[0])], owner))
        else owner
      case Obj(ms) => if Get(ms, texts[0]).Some? then Owner(Get(ms, texts[0]).value, texts[1..], owner) else owner
      case _ => owner
  }
}
