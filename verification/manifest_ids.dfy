/** Rewriting the ids of a stored manifest that the grammar no longer accepts, and the references to them. */
module ManifestIds {
  import opened Options
  import opened Strings
  import opened ProjectIds

  /** An entry with a string id, or one whose id is no string: the step does not touch the latter. */
  datatype Ref = Opaque | Ref(id: string)

  predicate IsInvalid(r: Ref) {
    r.Ref? && !IsValidId(r.id)
  }

  // ----- what the projects become -----

  /** The ids no replacement may take: the valid ones, and the replacements made before entry `i`. */
  function Taken(ps: seq<Ref>, qs: seq<Ref>, i: nat): set<string>
    requires i <= |qs|
  {
    (set p | p in ps && p.Ref? && IsValidId(p.id) :: p.id)
      + set j | 0 <= j < i && j < |ps| && IsInvalid(ps[j]) && qs[j].Ref? :: qs[j].id
  }

  /** Invalid ids are replaced by unique slugs, in order; every other entry is left alone. */
  ghost predicate IsReissued(ps: seq<Ref>, qs: seq<Ref>) {
    && |qs| == |ps|
    && forall i :: 0 <= i < |ps| ==>
         if IsInvalid(ps[i]) then qs[i].Ref? && IsUniqueSlug(ps[i].id, Taken(ps, qs, i), qs[i].id)
         else qs[i] == ps[i]
  }

  // ----- what the references become -----

  function IdCount(ps: seq<Ref>, id: string): nat {
    if ps == [] then 0 else IdCount(ps[..|ps| - 1], id) + if ps[|ps| - 1] == Ref(id) then 1 else 0
  }

  lemma {:induction false} CountedOnce(ps: seq<Ref>, id: string)
    ensures IdCount(ps, id) == 0 <==> Ref(id) !in ps
    ensures IdCount(ps, id) == 1 ==> forall i, j :: 0 <= i < |ps| && 0 <= j < |ps| && ps[i] == ps[j] == Ref(id) ==> i == j
  {
    if ps != [] {
      CountedOnce(ps[..|ps| - 1], id);
      assert ps == ps[..|ps| - 1] + [ps[|ps| - 1]];
      forall i, j | IdCount(ps, id) == 1 && 0 <= i < |ps| && 0 <= j < |ps| && ps[i] == ps[j] == Ref(id)
        ensures i == j
      {
        if i < |ps| - 1 { assert ps[..|ps| - 1][i] == Ref(id); }
        if j < |ps| - 1 { assert ps[..|ps| - 1][j] == Ref(id); }
      }
    }
  }

  function IndexOf(ps: seq<Ref>, id: string): (i: nat)
    ensures i <= |ps| && (i < |ps| ==> ps[i] == Ref(id)) && (i == |ps| ==> Ref(id) !in ps)
  {
    if ps == [] || ps[0] == Ref(id) then 0 else 1 + IndexOf(ps[1..], id)
  }

  /** A valid id stays; an invalid one follows its entry, unless no entry or more than one has it. */
  function Redirected(ps: seq<Ref>, qs: seq<Ref>, id: string): Option<string>
    requires |qs| == |ps|
  {
    if IsValidId(id) then Some(id)
    else if IdCount(ps, id) != 1 then None
    else
      var i := IndexOf(ps, id);
      if i < |qs| && qs[i].Ref? then Some(qs[i].id) else None
  }

  function Redirect(rs: seq<Ref>, ps: seq<Ref>, qs: seq<Ref>): seq<Ref>
    requires |qs| == |ps|
  {
    if rs == [] then [] else
    var r := rs[|rs| - 1];
    Redirect(rs[..|rs| - 1], ps, qs)
      + if r.Opaque? then [r]
        else if Redirected(ps, qs, r.id).Some? then [Ref(Redirected(ps, qs, r.id).value)]
        else []
  }

  // ----- the step as it runs -----

  /** What the step remembers of each replacement: the entry, its old id and its new one. */
  datatype Rewrite = Rewrite(entry: nat, before: string, after: string)

  function RewriteCount(ws: seq<Rewrite>, id: string): nat {
    if ws == [] then 0 else RewriteCount(ws[..|ws| - 1], id) + if ws[|ws| - 1].before == id then 1 else 0
  }

  lemma {:induction false} RewriteCountedOnce(ws: seq<Rewrite>, id: string)
    ensures RewriteCount(ws, id) == 0 <==> forall w :: w in ws ==> w.before != id
    ensures RewriteCount(ws, id) == 1 ==> forall v, w :: v in ws && w in ws && v.before == w.before == id ==> v == w
  {
    if ws != [] {
      RewriteCountedOnce(ws[..|ws| - 1], id);
      assert forall w :: w in ws <==> w in ws[..|ws| - 1] || w == ws[|ws| - 1];
    }
  }

  /** The first `i` entries are done, the others are as they were. */
  ghost predicate IsReissuedUpTo(ps: seq<Ref>, qs: seq<Ref>, i: nat) {
    && |qs| == |ps| && i <= |ps| && qs[i..] == ps[i..]
    && forall j :: 0 <= j < i ==>
         if IsInvalid(ps[j]) then qs[j].Ref? && IsUniqueSlug(ps[j].id, Taken(ps, qs, j), qs[j].id)
         else qs[j] == ps[j]
  }

  /** The rewrites are those of the first `i` entries. */
  ghost predicate AreRecorded(ws: seq<Rewrite>, ps: seq<Ref>, qs: seq<Ref>, i: nat) {
    && |qs| == |ps| && i <= |ps|
    && (forall w :: w in ws ==>
          w.entry < i && IsInvalid(ps[w.entry]) && ps[w.entry] == Ref(w.before) && qs[w.entry] == Ref(w.after))
    && (forall id :: !IsValidId(id) ==> RewriteCount(ws, id) == IdCount(ps[..i], id))
  }

  lemma ReissueStep(ps: seq<Ref>, qs: seq<Ref>, i: nat, r: string)
    requires IsReissuedUpTo(ps, qs, i) && i < |ps| && IsInvalid(ps[i]) && IsUniqueSlug(ps[i].id, Taken(ps, qs, i), r)
    ensures IsReissuedUpTo(ps, qs[i := Ref(r)], i + 1)
    ensures Taken(ps, qs[i := Ref(r)], i + 1) == Taken(ps, qs, i) + {r}
  {
    var qs1 := qs[i := Ref(r)];
    forall j | 0 <= j <= i
      ensures Taken(ps, qs1, j) == Taken(ps, qs, j)
    {
      TakenAlike(ps, qs, qs1, j);
    }
    assert qs1[i + 1..] == qs[i..][1..];
  }

  lemma NothingYet(ps: seq<Ref>)
    ensures IsReissuedUpTo(ps, ps, 0) && AreRecorded([], ps, ps, 0)
    ensures Taken(ps, ps, 0) == set p | p in ps && p.Ref? && IsValidId(p.id) :: p.id
  {
    assert ps[..0] == [];
  }

  lemma AllReissued(ps: seq<Ref>, qs: seq<Ref>)
    requires IsReissuedUpTo(ps, qs, |ps|)
    ensures IsReissued(ps, qs)
  {
  }

  lemma TakenAlike(ps: seq<Ref>, qs: seq<Ref>, qs1: seq<Ref>, j: nat)
    requires |qs| == |qs1| && j <= |qs| && qs[..j] == qs1[..j]
    ensures Taken(ps, qs, j) == Taken(ps, qs1, j)
  {
    assert forall k :: 0 <= k < j ==> qs[k] == qs[..j][k] && qs1[k] == qs1[..j][k];
  }

  lemma SkipStep(ws: seq<Rewrite>, ps: seq<Ref>, qs: seq<Ref>, i: nat)
    requires IsReissuedUpTo(ps, qs, i) && AreRecorded(ws, ps, qs, i) && i < |ps| && !IsInvalid(ps[i])
    ensures IsReissuedUpTo(ps, qs, i + 1) && AreRecorded(ws, ps, qs, i + 1)
    ensures Taken(ps, qs, i + 1) == Taken(ps, qs, i)
  {
    assert qs[i] == qs[i..][0] == ps[i..][0];
    assert qs[i + 1..] == qs[i..][1..] && ps[i + 1..] == ps[i..][1..];
    assert ps[..i + 1][..i] == ps[..i];
  }

  lemma RecordStep(ws: seq<Rewrite>, ps: seq<Ref>, qs: seq<Ref>, i: nat, r: string)
    requires AreRecorded(ws, ps, qs, i) && i < |ps| && IsInvalid(ps[i])
    ensures AreRecorded(ws + [Rewrite(i, ps[i].id, r)], ps, qs[i := Ref(r)], i + 1)
  {
    var more := ws + [Rewrite(i, ps[i].id, r)];
    assert ps[..i + 1][..i] == ps[..i] && more[..|more| - 1] == ws;
  }

  class Manifest {
    var projects: seq<Ref>
    var running: seq<Ref>
    var default: Option<string>

    /** The replacements, one after the other, each taking its new id out of the pool. */
    method ReissueIds() returns (rewrites: seq<Rewrite>)
      modifies this`projects
      ensures IsReissued(old(projects), projects)
      ensures AreRecorded(rewrites, old(projects), projects, |projects|)
    {
      ghost var ps := projects;
      var taken := set p | p in projects && p.Ref? && IsValidId(p.id) :: p.id;
      rewrites := [];
      NothingYet(ps);
      for i := 0 to |projects|
        invariant IsReissuedUpTo(ps, projects, i)
        invariant taken == Taken(ps, projects, i)
        invariant AreRecorded(rewrites, ps, projects, i)
      {
        rewrites, taken := ReissueEntry(i, rewrites, taken, ps);
      }
      AllReissued(ps, projects);
    }

    method ReissueEntry(i: nat, rewrites: seq<Rewrite>, taken: set<string>, ghost ps: seq<Ref>)
        returns (rewrites': seq<Rewrite>, taken': set<string>)
      requires i < |projects| && IsReissuedUpTo(ps, projects, i) && taken == Taken(ps, projects, i)
      requires AreRecorded(rewrites, ps, projects, i)
      modifies this`projects
      ensures IsReissuedUpTo(ps, projects, i + 1) && taken' == Taken(ps, projects, i + 1)
      ensures AreRecorded(rewrites', ps, projects, i + 1)
    {
      rewrites', taken' := rewrites, taken;
      assert projects[i] == projects[i..][0] == ps[i];
      if IsInvalid(projects[i]) {
        var replacement := UniqueSlug(projects[i].id, taken);
        ReissueStep(ps, projects, i, replacement);
        RecordStep(rewrites, ps, projects, i, replacement);
        rewrites' := rewrites + [Rewrite(i, projects[i].id, replacement)];
        projects := projects[i := Ref(replacement)];
        taken' := taken + {replacement};
      } else {
        SkipStep(rewrites, ps, projects, i);
      }
    }

    /** The old ids that can be redirected: those that one entry alone had. */
    method Unambiguous(rewrites: seq<Rewrite>) returns (targets: map<string, string>)
      ensures forall id :: id in targets <==> RewriteCount(rewrites, id) == 1
      ensures forall w :: w in rewrites && w.before in targets ==> targets[w.before] == w.after
    {
      var occurrences: map<string, nat> := map[];
      for i := 0 to |rewrites|
        invariant forall id :: (if id in occurrences then occurrences[id] else 0) == RewriteCount(rewrites[..i], id)
      {
        assert rewrites[..i + 1][..i] == rewrites[..i];
        var id := rewrites[i].before;
        occurrences := occurrences[id := (if id in occurrences then occurrences[id] else 0) + 1];
      }
      assert rewrites[..|rewrites|] == rewrites;
      targets := map[];
      for i := 0 to |rewrites|
        invariant forall id :: id in targets <==> RewriteCount(rewrites, id) == 1 && exists w :: w in rewrites[..i] && w.before == id
        invariant forall id :: id in targets ==> Rewritten(rewrites, id, targets[id])
      {
        var w := rewrites[i];
        assert rewrites[..i + 1] == rewrites[..i] + [w];
        if w.before in occurrences && occurrences[w.before] == 1 {
          targets := targets[w.before := w.after];
        }
      }
      forall id
        ensures id in targets <==> RewriteCount(rewrites, id) == 1
        ensures id in targets ==> forall w :: w in rewrites && w.before == id ==> targets[id] == w.after
      {
        RewriteCountedOnce(rewrites, id);
      }
    }

    method RedirectRunning(targets: map<string, string>, ghost ps: seq<Ref>) returns (changed: bool)
      requires |projects| == |ps|
      requires forall id :: Target(targets, id) == Redirected(ps, projects, id)
      modifies this`running
      ensures running == Redirect(old(running), ps, projects)
      ensures !changed ==> running == old(running)
    {
      var surviving: seq<Ref> := [];
      changed := false;
      for i := 0 to |running|
        invariant running == old(running) && surviving == Redirect(running[..i], ps, projects)
        invariant !changed ==> surviving == running[..i]
      {
        assert running[..i + 1][..i] == running[..i];
        if running[i].Opaque? {
          surviving := surviving + [running[i]];
        } else {
          assert Target(targets, running[i].id) == Redirected(ps, projects, running[i].id);
          if running[i].id in targets {
            surviving := surviving + [Ref(targets[running[i].id])];
            changed := true;
          } else if !IsValidId(running[i].id) {
            changed := true;
          } else {
            surviving := surviving + [running[i]];
          }
        }
      }
      assert running[..|running|] == running;
      running := surviving;
    }

    /** `migrate_invalid_project_ids` on the decoded manifest: new ids for the entries, then the two kinds
        of reference. */
    method MigrateInvalidProjectIds() returns (changed: bool)
      modifies this
      ensures IsReissued(old(projects), projects)
      ensures running == Redirect(old(running), old(projects), projects)
      ensures default == if old(default).None? then None else Redirected(old(projects), projects, old(default).value)
      ensures !changed ==> projects == old(projects) && running == old(running) && default == old(default)
    {
      ghost var ps := projects;
      var rewrites := ReissueIds();
      changed := rewrites != [];
      assert ps[..|ps|] == ps;
      if !changed { NothingReissued(ps, projects); }
      var targets := Unambiguous(rewrites);
      forall id
        ensures Target(targets, id) == Redirected(ps, projects, id)
      {
        TargetIsRedirected(ps, projects, rewrites, targets, id);
      }
      var moved := RedirectRunning(targets, ps);
      changed := changed || moved;
      if default.Some? {
        assert Target(targets, default.value) == Redirected(ps, projects, default.value);
        if default.value in targets {
          default := Some(targets[default.value]);
          changed := true;
        } else if !IsValidId(default.value) {
          default := None;
          changed := true;
        }
      }
    }
  }

  ghost predicate Rewritten(ws: seq<Rewrite>, id: string, to: string) {
    exists w :: w in ws && w.before == id && w.after == to
  }

  /** What the redirection table says about one reference. */
  function Target(targets: map<string, string>, id: string): Option<string> {
    if id in targets then Some(targets[id]) else if IsValidId(id) then Some(id) else None
  }

  lemma TargetIsRedirected(ps: seq<Ref>, qs: seq<Ref>, rewrites: seq<Rewrite>, targets: map<string, string>, id: string)
    requires |qs| == |ps|
    requires forall w :: w in rewrites ==>
               w.entry < |ps| && IsInvalid(ps[w.entry]) && ps[w.entry] == Ref(w.before) && qs[w.entry] == Ref(w.after)
    requires forall id :: !IsValidId(id) ==> RewriteCount(rewrites, id) == IdCount(ps, id)
    requires forall id :: id in targets <==> RewriteCount(rewrites, id) == 1
    requires forall w :: w in rewrites && w.before in targets ==> targets[w.before] == w.after
    ensures Target(targets, id) == Redirected(ps, qs, id)
  {
    RewriteCountedOnce(rewrites, id);
    if IsValidId(id) {
      assert forall w :: w in rewrites ==> w.before != id;
    } else if RewriteCount(rewrites, id) == 1 {
      var w :| w in rewrites && w.before == id;
      CountedOnce(ps, id);
      assert ps[w.entry] == Ref(id) && ps[IndexOf(ps, id)] == Ref(id);
    }
  }

  lemma NothingReissued(ps: seq<Ref>, qs: seq<Ref>)
    requires IsReissued(ps, qs) && forall id :: !IsValidId(id) ==> IdCount(ps, id) == 0
    ensures qs == ps
  {
    forall i | 0 <= i < |ps|
      ensures qs[i] == ps[i]
    {
      if IsInvalid(ps[i]) { CountedOnce(ps, ps[i].id); }
    }
  }

  // ----- what the step guarantees -----

  /** No replacement equals a valid id of the manifest or another replacement. */
  lemma NewIdsAreFresh(ps: seq<Ref>, qs: seq<Ref>)
    requires IsReissued(ps, qs)
    ensures forall i, j :: 0 <= i < |ps| && 0 <= j < |ps| && IsInvalid(ps[i]) && qs[i] == qs[j] ==> i == j
  {
    forall i, j | 0 <= i < |ps| && 0 <= j < |ps| && IsInvalid(ps[i]) && i != j
      ensures qs[i] != qs[j]
    {
      if !IsInvalid(ps[j]) { ValidIdsAreSpared(ps, qs, i, j); }
      else if i < j { ReplacementsDiffer(ps, qs, i, j); }
      else { ReplacementsDiffer(ps, qs, j, i); }
    }
  }

  lemma ReplacementsDiffer(ps: seq<Ref>, qs: seq<Ref>, i: nat, j: nat)
    requires IsReissued(ps, qs) && i < j < |ps| && IsInvalid(ps[i]) && IsInvalid(ps[j])
    ensures qs[i] != qs[j]
  {
    assert qs[i].id in Taken(ps, qs, j);
  }

  lemma ValidIdsAreSpared(ps: seq<Ref>, qs: seq<Ref>, i: nat, j: nat)
    requires IsReissued(ps, qs) && i < |ps| && j < |ps| && IsInvalid(ps[i]) && !IsInvalid(ps[j])
    ensures qs[i] != qs[j]
  {
    if ps[j].Ref? { assert ps[j] in ps && ps[j].id in Taken(ps, qs, i); }
  }

  /** Afterwards every id satisfies the grammar, if and only if every replacement fits in 128 characters. */
  lemma AllIdsAreValid(ps: seq<Ref>, qs: seq<Ref>)
    requires IsReissued(ps, qs)
    ensures (forall i :: 0 <= i < |qs| ==> !IsInvalid(qs[i]))
      <==> (forall i :: 0 <= i < |qs| && IsInvalid(ps[i]) ==> |qs[i].id| <= 128)
  {
    forall i | 0 <= i < |qs| && IsInvalid(ps[i])
      ensures IsInvalid(qs[i]) <==> |qs[i].id| > 128
    {
      UniqueSlugIsValid(ps[i].id, Taken(ps, qs, i), qs[i].id);
    }
  }

  /** The entries a reference names. */
  function Named(ps: seq<Ref>, id: string): set<nat> {
    set i | 0 <= i < |ps| && ps[i] == Ref(id)
  }

  /** A reference that survives names the entry it named before, if and only if it named one at all or no
      replacement has taken its id. References to an id that two entries shared, or that no entry had, are
      dropped when that id is invalid. */
  lemma ReferencesKeepTheirEntry(ps: seq<Ref>, qs: seq<Ref>, id: string)
    requires IsReissued(ps, qs)
    ensures !IsValidId(id) && IdCount(ps, id) != 1 ==> Redirected(ps, qs, id).None?
    ensures IsValidId(id) || IdCount(ps, id) == 1 ==> Redirected(ps, qs, id).Some?
    ensures Redirected(ps, qs, id).Some? ==>
              var to := Redirected(ps, qs, id).value;
              Named(qs, to) == Named(ps, id) <==> Named(ps, id) != {} || Ref(to) !in qs
  {
    CountedOnce(ps, id);
    NewIdsAreFresh(ps, qs);
    if IsValidId(id) {
      if Ref(id) in ps { ValidKeepsEntry(ps, qs, id); } else { assert Named(ps, id) == {}; }
      if Ref(id) in qs {
        var i :| 0 <= i < |qs| && qs[i] == Ref(id);
        assert i in Named(qs, id);
      }
    } else if IdCount(ps, id) == 1 {
      var i := IndexOf(ps, id);
      assert Named(ps, id) == {i};
      assert Named(qs, qs[i].id) == {i};
    }
  }

  lemma ValidKeepsEntry(ps: seq<Ref>, qs: seq<Ref>, id: string)
    requires IsReissued(ps, qs) && IsValidId(id) && Ref(id) in ps
    ensures Named(qs, id) == Named(ps, id) != {}
  {
    var k :| 0 <= k < |ps| && ps[k] == Ref(id);
    assert k in Named(ps, id);
    forall i | 0 <= i < |ps|
      ensures qs[i] == Ref(id) <==> ps[i] == Ref(id)
    {
      if IsInvalid(ps[i]) { ValidIdsAreSpared(ps, qs, i, k); }
    }
  }

  /** Every reference that survives is opaque or valid, where the replacements fit. */
  lemma {:induction false} SurvivorsAreValid(rs: seq<Ref>, ps: seq<Ref>, qs: seq<Ref>)
    requires IsReissued(ps, qs) && forall i :: 0 <= i < |qs| ==> !IsInvalid(qs[i])
    ensures forall r :: r in Redirect(rs, ps, qs) ==> !IsInvalid(r)
  {
    if rs != [] { SurvivorsAreValid(rs[..|rs| - 1], ps, qs); }
  }

  lemma {:induction false} ValidReferencesStay(rs: seq<Ref>, ps: seq<Ref>, qs: seq<Ref>)
    requires |qs| == |ps| && forall r :: r in rs ==> !IsInvalid(r)
    ensures Redirect(rs, ps, qs) == rs
  {
    if rs != [] {
      assert rs[|rs| - 1] in rs;
      ValidReferencesStay(rs[..|rs| - 1], ps, qs);
      assert rs == rs[..|rs| - 1] + [rs[|rs| - 1]];
    }
  }

  /** Where the replacements fit, running the step on its own result renames nothing and drops nothing. */
  lemma SecondRunRenamesNothing(ps: seq<Ref>, qs: seq<Ref>, rs: seq<Ref>, qs2: seq<Ref>)
    requires IsReissued(ps, qs) && forall i :: 0 <= i < |qs| && IsInvalid(ps[i]) ==> |qs[i].id| <= 128
    requires IsReissued(qs, qs2)
    ensures qs2 == qs && Redirect(Redirect(rs, ps, qs), qs, qs2) == Redirect(rs, ps, qs)
  {
    AllIdsAreValid(ps, qs);
    assert qs2 == qs;
    SurvivorsAreValid(rs, ps, qs);
    ValidReferencesStay(Redirect(rs, ps, qs), qs, qs2);
  }

  /** A reference to a project that is gone can be captured: `a` names no entry, but the invalid id `_a` is
      replaced by just that slug, so the reference comes to name the migrated project. */
  lemma DanglingReferenceIsCaptured()
    ensures var ps, qs := [Ref("_a")], [Ref("a")];
      && IsReissued(ps, qs) && Redirected(ps, qs, "a") == Some("a")
      && Named(ps, "a") == {} && Named(qs, "a") == {0}
  {
    var ps, qs := [Ref("_a")], [Ref("a")];
    SlugOfUnderscoreA();
    assert Before("a", '.') == "a" && |Lower("a")| == 1;
    assert Taken(ps, qs, 0) == {};
    assert Named(qs, "a") == {0};
  }

  lemma SlugOfUnderscoreA()
    ensures Slugify("_a") == "a"
  {
    assert "_a"[1..] == "a" && "a"[1..] == "";
    assert Dashed("") == "" && Dashed("a") == "a" && Dashed("_a") == "_a";
    assert TrimLeft("_a", IsNotAlphanumeric) == TrimLeft("a", IsNotAlphanumeric) == "a";
    assert TrimRight("a", IsTail) == "a";
    assert Before("a", '.') == "a" && |Lower("a")| == 1;
  }
}
