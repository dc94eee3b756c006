/** Saving the page index: its validation, and what the save does to the page documents of its two
    roots, which keep them in directories of their own. */
module PageDocuments {
  import opened Options

  // ----- the index -----

  /** One entry of the index as it arrives: what the validation looks at. */
  datatype Entry =
    | Malformed
    | Entry(id: Option<string>, kind: Option<string>, children: Children, holdsContent: bool, chromeIsList: bool)

  datatype Children = Absent | NotAList | Items(entries: seq<Entry>)

  predicate IsGroup(e: Entry) {
    e.Entry? && e.kind == Some("page-group")
  }

  /** Everything an entry must satisfy besides having an id of its own. */
  predicate IsShapely(e: Entry) {
    && e.Entry? && e.id.Some? && e.id.value != ""
    && if IsGroup(e) then e.children.Items? && e.chromeIsList && AllShapely(e.children.entries)
       else (e.kind.None? || e.kind == Some("page")) && e.children.Absent? && !e.holdsContent
  }

  predicate AllShapely(es: seq<Entry>) {
    es == [] || (IsShapely(es[0]) && AllShapely(es[1..]))
  }

  /** The ids of an entry and of everything below it, in document order. */
  function IdsIn(e: Entry): seq<string> {
    (if e.Entry? && e.id.Some? then [e.id.value] else [])
      + if IsGroup(e) && e.children.Items? then Ids(e.children.entries) else []
  }

  function Ids(es: seq<Entry>): seq<string> {
    if es == [] then [] else IdsIn(es[0]) + Ids(es[1..])
  }

  predicate AreDistinct(ids: seq<string>) {
    forall i, j :: 0 <= i < j < |ids| ==> ids[i] != ids[j]
  }

  predicate AreNew(ids: seq<string>, taken: set<string>) {
    AreDistinct(ids) && forall x :: x in ids ==> x !in taken
  }

  function With(seen: set<string>, ids: seq<string>): set<string> {
    seen + set x | x in ids
  }

  lemma NewInParts(a: seq<string>, b: seq<string>, taken: set<string>)
    ensures AreNew(a + b, taken) <==> AreNew(a, taken) && AreNew(b, With(taken, a))
  {
    var s := a + b;
    if AreNew(s, taken) {
      assert forall i :: 0 <= i < |a| ==> s[i] == a[i];
      assert forall i :: 0 <= i < |b| ==> s[|a| + i] == b[i];
      forall x | x in b
        ensures x !in a
      {
        var j :| 0 <= j < |b| && b[j] == x;
        assert s[|a| + j] == x;
      }
      assert forall x :: x in b ==> x in s;
      assert forall x :: x in a ==> x in s;
    }
    if AreNew(a, taken) && AreNew(b, With(taken, a)) {
      forall i, j | 0 <= i < j < |s|
        ensures s[i] != s[j]
      {
        if i < |a| <= j { assert a[i] in a && b[j - |a|] in b; }
      }
    }
  }

  lemma NewInThree(done: seq<string>, here: seq<string>, rest: seq<string>, seen: set<string>)
    requires AreNew(done, seen)
    ensures AreNew(done + (here + rest), seen) <==>
              AreNew(here, With(seen, done)) && AreNew(rest, With(With(seen, done), here))
    ensures AreNew(here, With(seen, done)) ==> AreNew(done + here, seen)
    ensures With(seen, done + here) == With(With(seen, done), here)
  {
    NewInParts(done, here + rest, seen);
    NewInParts(here, rest, With(seen, done));
    NewInParts(done, here, seen);
  }

  lemma RestOf(es: seq<Entry>, i: nat, done: seq<string>)
    requires i < |es|
    ensures done + Ids(es[i..]) == done + (IdsIn(es[i]) + Ids(es[i + 1..])) == done + IdsIn(es[i]) + Ids(es[i + 1..])
    ensures AllShapely(es[i..]) <==> IsShapely(es[i]) && AllShapely(es[i + 1..])
  {
    assert es[i..][1..] == es[i + 1..];
  }

  /** `_validate_index_nodes`, with the set of ids seen so far handed through. It accepts exactly the
      indices whose entries are well formed and whose ids, at any depth, are all new and distinct. */
  method ValidateIndexNodes(es: seq<Entry>, seen: set<string>) returns (ok: bool, ids: set<string>)
    ensures ok <==> AllShapely(es) && AreNew(Ids(es), seen)
    ensures ok ==> ids == With(seen, Ids(es))
    decreases es
  {
    ids := seen;
    ghost var done: seq<string> := [];
    for i := 0 to |es|
      invariant AllShapely(es) <==> AllShapely(es[i..])
      invariant Ids(es) == done + Ids(es[i..]) && AreNew(done, seen)
      invariant ids == With(seen, done)
    {
      NewInThree(done, IdsIn(es[i]), Ids(es[i + 1..]), seen);
      RestOf(es, i, done);
      ok, ids := ValidateEntry(es[i], ids);
      if !ok {
        return;
      }
      done := done + IdsIn(es[i]);
    }
    ok := true;
  }

  method ValidateEntry(e: Entry, seen: set<string>) returns (ok: bool, ids: set<string>)
    ensures ok <==> IsShapely(e) && AreNew(IdsIn(e), seen)
    ensures ok ==> ids == With(seen, IdsIn(e))
    decreases e
  {
    ids := seen;
    if e.Malformed? || e.id.None? || e.id.value == "" {
      return false, ids;
    }
    ghost var below := if IsGroup(e) && e.children.Items? then Ids(e.children.entries) else [];
    NewInParts([e.id.value], below, seen);
    if e.id.value in ids {
      return false, ids;
    }
    ids := ids + {e.id.value};
    assert ids == With(seen, [e.id.value]);
    if IsGroup(e) {
      if !e.children.Items? || !e.chromeIsList {
        return false, ids;
      }
      ok, ids := ValidateIndexNodes(e.children.entries, ids);
      return;
    }
    if e.kind.Some? && e.kind != Some("page") {
      return false, ids;
    }
    ok := e.children.Absent? && !e.holdsContent;
  }

  /** Distinct ids put every id under exactly one of the two roots. */
  lemma RootsAreDisjoint(pages: seq<Entry>, dialogs: seq<Entry>)
    requires AreNew(Ids(dialogs), With({}, Ids(pages)))
    ensures With({}, Ids(pages)) !! With({}, Ids(dialogs))
  {
  }

  // ----- the documents -----

  type Doc = nat
  type Dir = map<string, Doc>

  predicate IsPageId(id: string) {
    && 1 <= |id| <= 128
    && forall i :: 0 <= i < |id| ==>
         'A' <= id[i] <= 'Z' || 'a' <= id[i] <= 'z' || '0' <= id[i] <= '9' || id[i] == '_' || id[i] == '-'
  }

  predicate IsReserved(id: string) {
    "__" <= id
  }

  /** What a root's directory should hold for an indexed id: its own copy, or else, for a proper page id,
      the other root's. */
  function Kept(own: Dir, other: Dir, id: string): Option<Doc> {
    if id in own then Some(own[id])
    else if id in other && IsPageId(id) then Some(other[id])
    else None
  }

  /** The ids whose document moves in. */
  predicate MovesIn(own: Dir, other: Dir, id: string) {
    id !in own && id in other && IsPageId(id)
  }

  /** A root's directory after a save. */
  ghost predicate IsSettled(own: Dir, other: Dir, ids: set<string>, otherIds: set<string>, after: Dir) {
    && (forall id :: id in ids ==> (id in after <==> Kept(own, other, id).Some?))
    && (forall id :: id in ids && id in after ==> Some(after[id]) == Kept(own, other, id))
    && (forall id :: id !in ids ==> (id in after <==> IsReserved(id) && id in own && !(id in otherIds && MovesIn(other, own, id))))
    && (forall id :: id !in ids && id in after ==> after[id] == own[id])
  }

  datatype Root = Pages | Dialogs

  class Project {
    var pages: Dir
    var dialogs: Dir

    function DirOf(root: Root): Dir
      reads this
    {
      if root.Pages? then pages else dialogs
    }

    function OtherDir(root: Root): Dir
      reads this
    {
      if root.Pages? then dialogs else pages
    }

    /** `move_file`, from the other root's directory into this one's. */
    method MoveIn(root: Root, id: string)
      requires id in OtherDir(root) && id !in DirOf(root)
      modifies this
      ensures DirOf(root) == old(DirOf(root))[id := old(OtherDir(root))[id]]
      ensures OtherDir(root) == old(OtherDir(root)) - {id}
    {
      match root
      case Pages => pages, dialogs := pages[id := dialogs[id]], dialogs - {id};
      case Dialogs => pages, dialogs := pages - {id}, dialogs[id := pages[id]];
    }

    /** The first root, in root order, whose directory holds the document. */
    function FindPageDocument(id: string): Option<Root>
      reads this
    {
      if id in pages then Some(Pages) else if id in dialogs then Some(Dialogs) else None
    }

    /** Every document of an id of this root that lies in the other directory moves over. */
    method Relocate(root: Root, ids: set<string>)
      modifies this
      ensures var own, other := old(DirOf(root)), old(OtherDir(root));
        && (forall id :: id in DirOf(root) <==> id in own || (id in ids && MovesIn(own, other, id)))
        && (forall id :: id in DirOf(root) ==> DirOf(root)[id] == if id in own then own[id] else other[id])
        && (forall id :: id in OtherDir(root) <==> id in other && !(id in ids && MovesIn(own, other, id)))
        && (forall id :: id in OtherDir(root) ==> OtherDir(root)[id] == other[id])
    {
      ghost var own, other := DirOf(root), OtherDir(root);
      var rest := ids;
      while rest != {}
        invariant rest <= ids
        invariant forall id :: id in DirOf(root) <==> id in own || (id in ids - rest && MovesIn(own, other, id))
        invariant forall id :: id in DirOf(root) ==> DirOf(root)[id] == if id in own then own[id] else other[id]
        invariant forall id :: id in OtherDir(root) <==> id in other && !(id in ids - rest && MovesIn(own, other, id))
        invariant forall id :: id in OtherDir(root) ==> OtherDir(root)[id] == other[id]
        decreases rest
      {
        var id :| id in rest;
        rest := rest - {id};
        if IsPageId(id) && id !in DirOf(root) {
          var found := FindPageDocument(id);
          if found.Some? && found.value != root {
            MoveIn(root, id);
          }
        }
      }
    }

    /** Documents whose id is no longer in the root go, unless they are reserved. */
    method Sweep(root: Root, ids: set<string>)
      modifies this
      ensures DirOf(root) == map id | id in old(DirOf(root)) && (id in ids || IsReserved(id)) :: old(DirOf(root))[id]
      ensures OtherDir(root) == old(OtherDir(root))
    {
      ghost var was := DirOf(root);
      var rest := DirOf(root).Keys;
      while rest != {}
        invariant rest <= was.Keys && OtherDir(root) == old(OtherDir(root))
        invariant forall id :: id in DirOf(root) <==> id in was && (id in rest || id in ids || IsReserved(id))
        invariant forall id :: id in DirOf(root) ==> DirOf(root)[id] == was[id]
        decreases rest
      {
        var id :| id in rest;
        rest := rest - {id};
        if !IsReserved(id) && id !in ids {
          match root
          case Pages => pages := pages - {id};
          case Dialogs => dialogs := dialogs - {id};
        }
      }
    }

    /** Relocation and sweep, for ids that lie under exactly one root. */
    method SettleDocuments(pageIds: set<string>, dialogIds: set<string>)
      requires pageIds !! dialogIds
      modifies this
      ensures IsSettled(old(pages), old(dialogs), pageIds, dialogIds, pages)
      ensures IsSettled(old(dialogs), old(pages), dialogIds, pageIds, dialogs)
    {
      Relocate(Pages, pageIds);
      Relocate(Dialogs, dialogIds);
      Sweep(Pages, pageIds);
      Sweep(Dialogs, dialogIds);
    }

    /** Saving an index: a rejected one touches no document. After an accepted one, each root's directory
        holds exactly the documents of its own ids that existed in either directory - its own copy where it
        had one - besides the reserved documents it had. */
    method PutIndex(pageIndex: seq<Entry>, dialogIndex: seq<Entry>) returns (ok: bool)
      modifies this
      ensures ok <==> AllShapely(pageIndex) && AllShapely(dialogIndex) && AreNew(Ids(pageIndex) + Ids(dialogIndex), {})
      ensures !ok ==> pages == old(pages) && dialogs == old(dialogs)
      ensures var pageIds, dialogIds := With({}, Ids(pageIndex)), With({}, Ids(dialogIndex));
        ok ==> && IsSettled(old(pages), old(dialogs), pageIds, dialogIds, pages)
               && IsSettled(old(dialogs), old(pages), dialogIds, pageIds, dialogs)
    {
      var seen: set<string>;
      NewInParts(Ids(pageIndex), Ids(dialogIndex), {});
      ok, seen := ValidateIndexNodes(pageIndex, {});
      if !ok {
        return;
      }
      ok, seen := ValidateIndexNodes(dialogIndex, seen);
      if !ok {
        return;
      }
      RootsAreDisjoint(pageIndex, dialogIndex);
      SettleDocuments(With({}, Ids(pageIndex)), With({}, Ids(dialogIndex)));
    }
  }

  /** No document of an indexed page is lost, and none appears: a document present before the save under an
      id of one of the roots is still stored under that id in that root's directory, possibly in the other
      copy; the one exception is an id no page can have, whose document does not move. */
  lemma IndexedDocumentsSurvive(own: Dir, other: Dir, ids: set<string>, otherIds: set<string>, after: Dir, id: string)
    requires IsSettled(own, other, ids, otherIds, after) && id in ids
    ensures id in own ==> id in after && after[id] == own[id]
    ensures id !in own && id in other ==> (id in after <==> IsPageId(id))
    ensures id in after ==> (id in own && after[id] == own[id]) || (id in other && after[id] == other[id])
  {
  }
}
