/** JSON values as JSON.parse leaves them: objects keep their members in order. */
module Json {
  import opened Prelude

  datatype Json =
    | JNull
    | JBool(b: bool)
    | JNum(n: real)
    | JStr(s: string)
    | JArr(elems: seq<Json>)
    | JObj(members: seq<Member>)

  datatype Member = Member(key: string, value: Json)

  // Property access on a parsed object: a repeated key keeps its last value.
  function Lookup(members: seq<Member>, key: string): Option<Json> {
    if members == [] then None
    else if members[|members| - 1].key == key then Some(members[|members| - 1].value)
    else Lookup(members[..|members| - 1], key)
  }

  ghost predicate DistinctKeys(members: seq<Member>) {
    forall i, j :: 0 <= i < j < |members| ==> members[i].key != members[j].key
  }

  // What a trip through a jsonb column may do to a value: members of an object
  // come back in another order, everything else comes back unchanged.
  ghost predicate Reordered(a: Json, b: Json)
    decreases a, 0
  {
    match a
    case JObj(m) =>
      && b.JObj? && |b.members| == |m|
      && DistinctKeys(m) && DistinctKeys(b.members)
      && forall i :: 0 <= i < |m| ==> HasMember(m[i].key, m[i].value, b.members)
    case JArr(e) =>
      && b.JArr? && |b.elems| == |e|
      && forall i :: 0 <= i < |e| ==> Reordered(e[i], b.elems[i])
    case _ => a == b
  }

  ghost predicate HasMember(key: string, value: Json, members: seq<Member>)
    decreases value, 1
  {
    exists j :: 0 <= j < |members| && members[j].key == key && Reordered(value, members[j].value)
  }

  lemma {:induction false} LookupDistinct(members: seq<Member>, i: nat)
    requires i < |members| && DistinctKeys(members)
    ensures Lookup(members, members[i].key) == Some(members[i].value)
  {
    if i < |members| - 1 {
      LookupDistinct(members[..|members| - 1], i);
    }
  }

  // Every property read survives the reordering.
  lemma LookupReordered(m: seq<Member>, b: Json, i: nat)
    requires i < |m| && Reordered(JObj(m), b)
    ensures Lookup(b.members, m[i].key).Some? && Reordered(m[i].value, Lookup(b.members, m[i].key).value)
  {
    assert HasMember(m[i].key, m[i].value, b.members);
    var j :| 0 <= j < |b.members| && b.members[j].key == m[i].key && Reordered(m[i].value, b.members[j].value);
    LookupDistinct(b.members, j);
  }

  lemma LookupScalar(m: seq<Member>, b: Json, i: nat)
    requires i < |m| && Reordered(JObj(m), b) && !m[i].value.JObj? && !m[i].value.JArr?
    ensures Lookup(b.members, m[i].key) == Some(m[i].value)
  {
    LookupReordered(m, b, i);
  }

  lemma ReorderedReflexive(m: seq<Member>)
    requires DistinctKeys(m)
    requires forall i :: 0 <= i < |m| ==> m[i].value.JNum? || m[i].value.JStr? || Reordered(m[i].value, m[i].value)
    ensures Reordered(JObj(m), JObj(m))
  {
    forall i | 0 <= i < |m|
      ensures HasMember(m[i].key, m[i].value, m)
    {
      assert m[i].key == m[i].key && Reordered(m[i].value, m[i].value);
    }
  }
}
