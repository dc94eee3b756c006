/** Keeping a transfer journal from growing for ever: the oldest settled entries are dropped. */
module JournalPruning {
  import opened InstallModel

  const ENTRIES_KEPT := 200

  datatype Record = Record(status: Status, updatedAt: string)

  // ----- the order of the time stamps -----

  predicate IsBelow(a: string, b: string) {
    b != "" && (a == "" || a[0] < b[0] || (a[0] == b[0] && IsBelow(a[1..], b[1..])))
  }

  /** Older first; entries of one age by their id. */
  datatype Aged = Aged(stamp: string, id: string)

  predicate IsOlder(a: Aged, b: Aged) {
    IsBelow(a.stamp, b.stamp) || (a.stamp == b.stamp && IsBelow(a.id, b.id))
  }

  lemma {:induction false} BelowIsTotal(a: string, b: string)
    ensures IsBelow(a, b) || IsBelow(b, a) || a == b
    ensures !(IsBelow(a, b) && IsBelow(b, a)) && !IsBelow(a, a)
  {
    if a != "" && b != "" {
      BelowIsTotal(a[1..], b[1..]);
      if a[0] == b[0] && a[1..] == b[1..] { assert a == [a[0]] + a[1..] == b; }
    }
    if a != "" && b == "" { BelowIsTotal(a[1..], b); }
    if a != "" { BelowIsIrreflexive(a); }
  }

  lemma {:induction false} BelowIsIrreflexive(a: string)
    ensures !IsBelow(a, a)
  {
    if a != "" { BelowIsIrreflexive(a[1..]); }
  }

  lemma {:induction false} BelowIsTransitive(a: string, b: string, c: string)
    requires IsBelow(a, b) && IsBelow(b, c)
    ensures IsBelow(a, c)
  {
    if a != "" && a[0] == b[0] == c[0] { BelowIsTransitive(a[1..], b[1..], c[1..]); }
  }

  lemma OlderIsTransitive(a: Aged, b: Aged, c: Aged)
    requires IsOlder(a, b) && IsOlder(b, c)
    ensures IsOlder(a, c)
  {
    if IsBelow(a.stamp, b.stamp) && IsBelow(b.stamp, c.stamp) { BelowIsTransitive(a.stamp, b.stamp, c.stamp); }
    if a.stamp == b.stamp == c.stamp {
      BelowIsTotal(a.stamp, a.stamp);
      BelowIsTransitive(a.id, b.id, c.id);
    }
  }

  predicate IsSorted(xs: seq<Aged>) {
    forall i, j :: 0 <= i < j < |xs| ==> IsOlder(xs[i], xs[j])
  }

  /** Where an entry belongs in a sorted list that does not have it. */
  method Place(xs: seq<Aged>, x: Aged) returns (i: nat)
    requires IsSorted(xs) && x !in xs
    ensures i <= |xs| && (forall j :: 0 <= j < i ==> IsOlder(xs[j], x)) && (forall j :: i <= j < |xs| ==> IsOlder(x, xs[j]))
  {
    i := 0;
    while i < |xs| && IsOlder(xs[i], x)
      invariant i <= |xs| && forall j :: 0 <= j < i ==> IsOlder(xs[j], x)
    {
      i := i + 1;
    }
    if i < |xs| {
      BelowIsTotal(xs[i].stamp, x.stamp);
      BelowIsTotal(xs[i].id, x.id);
      forall j | i < j < |xs|
        ensures IsOlder(x, xs[j])
      {
        OlderIsTransitive(x, xs[i], xs[j]);
      }
    }
  }

  // ----- pruning -----

  /** Never dropped: the entry just written, and those that still need attention. */
  predicate IsProtected(entries: map<string, Record>, keepId: string, id: string)
    requires id in entries
  {
    id == keepId || !Settled(entries[id].status)
  }

  function AgeOf(entries: map<string, Record>, id: string): Aged
    requires id in entries
  {
    Aged(entries[id].updatedAt, id)
  }

  class JournalFile {
    var entries: map<string, Record>

    /** The settled entries, oldest first. */
    method SettledByAge(keepId: string) returns (settled: seq<Aged>)
      ensures IsSorted(settled)
      ensures forall x :: x in settled <==> x.id in entries && !IsProtected(entries, keepId, x.id) && x == AgeOf(entries, x.id)
      ensures |settled| <= |entries|
    {
      settled := [];
      var rest := entries.Keys;
      while rest != {}
        invariant rest <= entries.Keys && IsSorted(settled) && |settled| + |rest| <= |entries|
        invariant forall x :: x in settled <==>
                    x.id in entries && x.id !in rest && !IsProtected(entries, keepId, x.id) && x == AgeOf(entries, x.id)
        decreases rest
      {
        var id :| id in rest;
        if !IsProtected(entries, keepId, id) {
          var x := AgeOf(entries, id);
          var i := Place(settled, x);
          ghost var before := settled;
          settled := settled[..i] + [x] + settled[i..];
          assert before == before[..i] + before[i..];
          assert forall y :: y in settled <==> y == x || y in before;
        }
        rest := rest - {id};
      }
    }

    /** `_prune_journal_entries`. Up to 200 entries nothing happens. Above that the oldest settled entries go
        until 200 are left or only protected ones are; an active entry, one that needs an administrator and
        the one just written are never dropped. */
    method Prune(keepId: string)
      modifies this
      ensures forall id :: id in entries ==> id in old(entries) && entries[id] == old(entries)[id]
      ensures forall id :: id in old(entries) && IsProtected(old(entries), keepId, id) ==> id in entries
      ensures |old(entries)| <= ENTRIES_KEPT ==> entries == old(entries)
      ensures |old(entries)| > ENTRIES_KEPT ==>
                |entries| == ENTRIES_KEPT
                || (|entries| > ENTRIES_KEPT && forall id :: id in entries ==> IsProtected(old(entries), keepId, id))
      ensures forall a, b :: a in old(entries) && a !in entries && b in entries && !IsProtected(old(entries), keepId, b) ==>
                IsOlder(AgeOf(old(entries), a), AgeOf(old(entries), b))
    {
      if |entries| <= ENTRIES_KEPT {
        return;
      }
      var settled := SettledByAge(keepId);
      var excess := |entries| - ENTRIES_KEPT;
      var n := if |settled| <= excess then |settled| else excess;
      PrefixIsOlder(settled, n);
      DropFirst(settled, n);
    }

    method DropFirst(settled: seq<Aged>, n: nat)
      requires IsSorted(settled) && n <= |settled|
      requires forall x :: x in settled ==> x.id in entries && x == AgeOf(entries, x.id)
      modifies this
      ensures forall id :: id in entries <==> id in old(entries) && AgeOf(old(entries), id) !in settled[..n]
      ensures forall id :: id in entries ==> entries[id] == old(entries)[id]
      ensures |entries| == |old(entries)| - n
    {
      ghost var all := entries;
      for i := 0 to n
        invariant forall id :: id in entries <==> id in all && AgeOf(all, id) !in settled[..i]
        invariant forall id :: id in entries ==> entries[id] == all[id]
        invariant |entries| == |all| - i
      {
        assert settled[i] in settled && settled[..i + 1] == settled[..i] + [settled[i]];
        NotBefore(settled, i);
        entries := entries - {settled[i].id};
      }
    }
  }

  lemma NotBefore(settled: seq<Aged>, i: nat)
    requires IsSorted(settled) && i < |settled|
    ensures settled[i] !in settled[..i]
  {
    BelowIsTotal(settled[i].stamp, settled[i].stamp);
    BelowIsTotal(settled[i].id, settled[i].id);
    assert forall j :: 0 <= j < i ==> settled[..i][j] == settled[j] && IsOlder(settled[j], settled[i]);
  }

  /** A prefix of a sorted list is older than the rest of it. */
  lemma PrefixIsOlder(settled: seq<Aged>, n: nat)
    requires IsSorted(settled) && n <= |settled|
    ensures forall a, b :: a in settled[..n] && b in settled && b !in settled[..n] ==> IsOlder(a, b)
  {
    forall a, b | a in settled[..n] && b in settled && b !in settled[..n]
      ensures IsOlder(a, b)
    {
      var i :| 0 <= i < n && settled[i] == a;
      var j :| 0 <= j < |settled| && settled[j] == b;
      assert forall k :: 0 <= k < n ==> settled[..n][k] == settled[k];
    }
  }
}
