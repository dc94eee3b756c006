/** JSON values. An object is the sequence of its members in document order. */
module Json {
  import opened Options

  datatype Json =
    | Null
    | Bool(truth: bool)
    | Number(number: real)
    | Str(text: string)
    | Arr(items: seq<Json>)
    | Obj(members: seq<Member>)

  datatype Member = Member(key: string, value: Json)

  predicate Has(ms: seq<Member>, key: string) {
    exists i :: 0 <= i < |ms| && ms[i].key == key
  }

  function Get(ms: seq<Member>, key: string): Option<Json> {
    if ms == [] then None else if ms[0].key == key then Some(ms[0].value) else Get(ms[1..], key)
  }

  /** Assigning a member: in place if the key is there, otherwise at the end. */
  function Assign(ms: seq<Member>, key: string, value: Json): seq<Member> {
    if ms == [] then [Member(key, value)]
    else if ms[0].key == key then [Member(key, value)] + ms[1..]
    else [ms[0]] + Assign(ms[1..], key, value)
  }

  /** Dropping the members with one of the given keys. */
  function Without(ms: seq<Member>, keys: set<string>): seq<Member> {
    if ms == [] then []
    else if ms[0].key in keys then Without(ms[1..], keys)
    else [ms[0]] + Without(ms[1..], keys)
  }

  lemma {:induction false} HasGet(ms: seq<Member>, key: string)
    ensures Has(ms, key) <==> Get(ms, key).Some?
    ensures Get(ms, key).Some? ==> Member(key, Get(ms, key).value) in ms
  {
    if ms != [] {
      HasGet(ms[1..], key);
      if Has(ms[1..], key) {
        var i :| 0 <= i < |ms[1..]| && ms[1..][i].key == key;
        assert ms[i + 1].key == key;
      }
      assert forall i :: 0 < i < |ms| ==> ms[i] == ms[1..][i - 1];
    }
  }

  lemma {:induction false} GetAssign(ms: seq<Member>, key: string, value: Json, other: string)
    ensures Get(Assign(ms, key, value), other) == if other == key then Some(value) else Get(ms, other)
  {
    if ms != [] && ms[0].key != key { GetAssign(ms[1..], key, value, other); }
  }

  lemma {:induction false} GetWithout(ms: seq<Member>, keys: set<string>, other: string)
    ensures Get(Without(ms, keys), other) == if other in keys then None else Get(ms, other)
  {
    if ms != [] { GetWithout(ms[1..], keys, other); }
  }

  lemma {:induction false} AssignMembers(ms: seq<Member>, key: string, value: Json)
    ensures forall m :: m in Assign(ms, key, value) ==> m in ms || m == Member(key, value)
  {
    if ms != [] && ms[0].key != key { AssignMembers(ms[1..], key, value); }
  }

  lemma {:induction false} WithoutMembers(ms: seq<Member>, keys: set<string>)
    ensures forall m :: m in Without(ms, keys) <==> m in ms && m.key !in keys
  {
    if ms != [] {
      WithoutMembers(ms[1..], keys);
      assert forall m :: m in ms <==> m == ms[0] || m in ms[1..];
    }
  }
}
