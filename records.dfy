/** REST records and the three id-keyed list operations the plain-JavaScript pages and the
    React hooks apply to them: `find`/`findIndex`, `map` replacing by id, and `filter`
    dropping by id. Ids are compared with `===`. */
module Records {
  import opened Common

  /** A record as the REST API sends it. */
  type Record = map<string, Json>

  /** `item.id === id`. */
  predicate HasId(item: Record, id: Json) {
    "id" in item && item["id"] == id
  }

  /** `list.findIndex(item => item.id === id)`: the first match, or -1. */
  function FindIndex(list: seq<Record>, id: Json): (i: int)
    ensures -1 <= i < |list|
    ensures i >= 0 ==> HasId(list[i], id) && forall j :: 0 <= j < i ==> !HasId(list[j], id)
    ensures i == -1 ==> forall j :: 0 <= j < |list| ==> !HasId(list[j], id)
  {
    if list == [] then -1
    else if HasId(list[0], id) then 0
    else
      var t := FindIndex(list[1..], id);
      if t == -1 then -1 else t + 1
  }

  /** `list.find(item => item.id === id)`: the first match, `None` for `undefined`. */
  function Find(list: seq<Record>, id: Json): (r: Option<Record>)
    ensures r.None? <==> forall j :: 0 <= j < |list| ==> !HasId(list[j], id)
    ensures r.Some? ==> r.value in list && HasId(r.value, id)
    ensures r.Some? ==> FindIndex(list, id) >= 0 && r.value == list[FindIndex(list, id)]
  {
    var i := FindIndex(list, id);
    if i >= 0 then Some(list[i]) else None
  }

  /** `list.map(item => item.id === id ? updated : item)`. */
  function ReplaceId(list: seq<Record>, id: Json, updated: Record): (r: seq<Record>)
    ensures |r| == |list|
    ensures forall i :: 0 <= i < |list| && HasId(list[i], id) ==> r[i] == updated
    ensures forall i :: 0 <= i < |list| && !HasId(list[i], id) ==> r[i] == list[i]
  {
    if list == [] then []
    else [if HasId(list[0], id) then updated else list[0]] + ReplaceId(list[1..], id, updated)
  }

  /** `list.filter(item => item.id !== id)`. */
  function RemoveId(list: seq<Record>, id: Json): (r: seq<Record>)
    ensures forall i :: 0 <= i < |r| ==> !HasId(r[i], id) && r[i] in list
  {
    if list == [] then []
    else (if HasId(list[0], id) then [] else [list[0]]) + RemoveId(list[1..], id)
  }

  /** A delete works record by record: the kept records of two blocks are those of the first
      followed by those of the second, so the kept records stay in their order. */
  lemma {:induction false} RemoveIdAppend(a: seq<Record>, b: seq<Record>, id: Json)
    ensures RemoveId(a + b, id) == RemoveId(a, id) + RemoveId(b, id)
  {
    if a == [] {
      assert a + b == b;
    } else {
      RemoveIdAppend(a[1..], b, id);
      HeadTailAppend(a, b);
      AppendAssoc((if HasId(a[0], id) then [] else [a[0]]), RemoveId(a[1..], id), RemoveId(b, id));
    }
  }

  /** A single record is dropped exactly when it carries the id. */
  lemma RemoveIdSingle(x: Record, id: Json)
    ensures RemoveId([x], id) == (if HasId(x, id) then [] else [x])
  {
    assert [x][1..] == [];
  }

  /** How many records carry `id` (a helper for the length lemma below). */
  function CountId(list: seq<Record>, id: Json): nat {
    if list == [] then 0 else (if HasId(list[0], id) then 1 else 0) + CountId(list[1..], id)
  }

  /** A delete removes exactly the records carrying the id, all of them. */
  lemma {:induction false} RemoveIdLength(list: seq<Record>, id: Json)
    ensures |RemoveId(list, id)| == |list| - CountId(list, id)
    ensures CountId(RemoveId(list, id), id) == 0
  {
    if list != [] {
      RemoveIdLength(list[1..], id);
      var h := if HasId(list[0], id) then [] else [list[0]];
      CountIdAppend(h, RemoveId(list[1..], id), id);
    }
  }

  /** Id counts add over concatenation. */
  lemma {:induction false} CountIdAppend(a: seq<Record>, b: seq<Record>, id: Json)
    ensures CountId(a + b, id) == CountId(a, id) + CountId(b, id)
  {
    if a == [] {
      assert a + b == b;
    } else {
      CountIdAppend(a[1..], b, id);
      assert (a + b)[1..] == a[1..] + b;
    }
  }

  /** A delete keeps every record with another id. */
  lemma {:induction false} RemoveIdKeepsOthers(list: seq<Record>, id: Json, x: Record)
    requires x in list && !HasId(x, id)
    ensures x in RemoveId(list, id)
  {
    if list[0] != x {
      RemoveIdKeepsOthers(list[1..], id, x);
    }
  }

  /** A delete of an id no record carries changes nothing. */
  lemma {:induction false} RemoveAbsentId(list: seq<Record>, id: Json)
    requires forall j :: 0 <= j < |list| ==> !HasId(list[j], id)
    ensures RemoveId(list, id) == list
  {
    if list != [] {
      RemoveAbsentId(list[1..], id);
    }
  }

  /** Deleting the same id twice removes nothing more. */
  lemma RemoveIdIdempotent(list: seq<Record>, id: Json)
    ensures RemoveId(RemoveId(list, id), id) == RemoveId(list, id)
  {
    RemoveAbsentId(RemoveId(list, id), id);
  }

  /** When the server returns the record under the same id, deleting after an update is the
      same as deleting straight away: the update touched no other record. */
  lemma {:induction false} RemoveAfterReplace(list: seq<Record>, id: Json, updated: Record)
    requires HasId(updated, id)
    ensures RemoveId(ReplaceId(list, id, updated), id) == RemoveId(list, id)
  {
    if list != [] {
      RemoveAfterReplace(list[1..], id, updated);
      assert ReplaceId(list, id, updated)[1..] == ReplaceId(list[1..], id, updated);
    }
  }
}
