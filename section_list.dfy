/** The draft-list rule the six React resume section components share: a draft whose
    id is the sentinel `'new'` is appended without an id, a draft with any other id
    replaces every item carrying that id, and a delete keeps the items whose id differs. */
module SectionList {
  import opened Common

  /** A field of a section item: text, or a checkbox. */
  datatype Value = Text(s: string) | Flag(b: bool)

  /** JavaScript truthiness of a field value. */
  predicate IsSet(v: Value) {
    match v
    case Text(s) => s != ""
    case Flag(b) => b
  }

  /** An item id: the draft sentinel `'new'` or a number the backend assigned. */
  datatype Id = NewSentinel | Num(n: int)

  /** A section item. `id == None` is an item whose id property is absent (`undefined`). */
  datatype Item = Item(id: Option<Id>, fields: map<string, Value>)

  /** The id of a draft opened by "Add". */
  const NewId: Option<Id> := Some(NewSentinel)

  /** A callback the component makes to its parent. */
  datatype Call = OnUpdate(items: seq<Item>) | OnSave(saved: seq<Item>)

  /** `items.map(item => item.id === draft.id ? draft : item)`. */
  function ReplaceById(items: seq<Item>, draft: Item): (r: seq<Item>)
    ensures |r| == |items|
    ensures forall i :: 0 <= i < |items| && items[i].id == draft.id ==> r[i] == draft
    ensures forall i :: 0 <= i < |items| && items[i].id != draft.id ==> r[i] == items[i]
  {
    if items == [] then []
    else [if items[0].id == draft.id then draft else items[0]] + ReplaceById(items[1..], draft)
  }

  /** `items.filter(item => item.id !== id)`. */
  function DeleteById(items: seq<Item>, id: Option<Id>): (r: seq<Item>)
    ensures forall i :: 0 <= i < |r| ==> r[i].id != id && r[i] in items
  {
    if items == [] then []
    else (if items[0].id == id then [] else [items[0]]) + DeleteById(items[1..], id)
  }

  /** The list `handleSave` hands to the parent. */
  function SaveDraft(items: seq<Item>, draft: Item): (r: seq<Item>)
    ensures draft.id == NewId ==>
              |r| == |items| + 1 && r[..|items|] == items && r[|items|] == Item(None, draft.fields)
    ensures draft.id != NewId ==> r == ReplaceById(items, draft)
  {
    if draft.id == NewId then items + [Item(None, draft.fields)] else ReplaceById(items, draft)
  }

  /** `{ ...prev, [field]: value }`; spreading a missing draft gives an object with only
      that field and no id. */
  function SetField(prev: Option<Item>, field: string, value: Value): (r: Item)
    ensures field in r.fields && r.fields[field] == value
    ensures forall k :: k != field ==> (k in r.fields <==> prev.Some? && k in prev.value.fields)
    ensures forall k :: k != field && k in r.fields ==> r.fields[k] == prev.value.fields[k]
    ensures r.id == (if prev.Some? then prev.value.id else None)
  {
    match prev
    case None => Item(None, map[field := value])
    case Some(d) => d.(fields := d.fields[field := value])
  }

  /** The ids of a list, in order. */
  function Ids(items: seq<Item>): (ids: seq<Option<Id>>)
    ensures |ids| == |items|
    ensures forall i :: 0 <= i < |items| ==> ids[i] == items[i].id
  {
    if items == [] then [] else [items[0].id] + Ids(items[1..])
  }

  /** A draft that is not new changes contents, never the ids or their order. */
  lemma SaveExistingKeepsIds(items: seq<Item>, draft: Item)
    requires draft.id != NewId
    ensures Ids(SaveDraft(items, draft)) == Ids(items)
  {
  }

  /** A new draft adds exactly one id-less item at the end. */
  lemma SaveNewAppendsIdless(items: seq<Item>, draft: Item)
    requires draft.id == NewId
    ensures Ids(SaveDraft(items, draft)) == Ids(items) + [None]
  {
  }

  /** Saving an existing draft then deleting its id is the same as deleting it straight away:
      the save touched no item with any other id. */
  lemma {:induction false} DeleteAfterSave(items: seq<Item>, draft: Item)
    requires draft.id != NewId
    ensures DeleteById(SaveDraft(items, draft), draft.id) == DeleteById(items, draft.id)
  {
    if items != [] {
      DeleteAfterSave(items[1..], draft);
      assert SaveDraft(items, draft)[1..] == SaveDraft(items[1..], draft);
    }
  }

  /** Deleting keeps the surviving items in their order: the filter of a concatenation is the
      concatenation of the filters. */
  lemma {:induction false} DeleteByIdAppend(a: seq<Item>, b: seq<Item>, id: Option<Id>)
    ensures DeleteById(a + b, id) == DeleteById(a, id) + DeleteById(b, id)
  {
    if a == [] {
      assert a + b == b;
    } else {
      var rest := a[1..];
      var h := if a[0].id == id then [] else [a[0]];
      DeleteByIdAppend(rest, b, id);
      assert (a + b)[1..] == rest + b;
      calc {
        DeleteById(a + b, id);
        h + DeleteById(rest + b, id);
        h + (DeleteById(rest, id) + DeleteById(b, id));
        (h + DeleteById(rest, id)) + DeleteById(b, id);
        DeleteById(a, id) + DeleteById(b, id);
      }
    }
  }

  /** Deleting the same id twice removes nothing more. */
  lemma DeleteByIdIdempotent(items: seq<Item>, id: Option<Id>)
    ensures DeleteById(DeleteById(items, id), id) == DeleteById(items, id)
  {
    DeleteAbsentId(DeleteById(items, id), id);
  }

  /** Every item whose id differs from the deleted one survives. */
  lemma {:induction false} DeleteKeepsOthers(items: seq<Item>, id: Option<Id>, x: Item)
    requires x in items && x.id != id
    ensures x in DeleteById(items, id)
  {
    if items[0] != x {
      DeleteKeepsOthers(items[1..], id, x);
    }
  }

  /** How many items carry `id`. */
  function CountId(items: seq<Item>, id: Option<Id>): nat {
    if items == [] then 0 else (if items[0].id == id then 1 else 0) + CountId(items[1..], id)
  }

  /** A delete removes exactly the items carrying the id, all of them. */
  lemma {:induction false} DeleteByIdLength(items: seq<Item>, id: Option<Id>)
    ensures |DeleteById(items, id)| == |items| - CountId(items, id)
    ensures CountId(DeleteById(items, id), id) == 0
  {
    if items != [] {
      DeleteByIdLength(items[1..], id);
      var h := if items[0].id == id then [] else [items[0]];
      CountIdAppend(h, DeleteById(items[1..], id), id);
    }
  }

  lemma {:induction false} CountIdAppend(a: seq<Item>, b: seq<Item>, id: Option<Id>)
    ensures CountId(a + b, id) == CountId(a, id) + CountId(b, id)
  {
    if a == [] {
      assert a + b == b;
    } else {
      CountIdAppend(a[1..], b, id);
      assert (a + b)[1..] == a[1..] + b;
    }
  }

  /** An id no item carries deletes nothing. */
  lemma {:induction false} DeleteAbsentId(items: seq<Item>, id: Option<Id>)
    requires forall i :: 0 <= i < |items| ==> items[i].id != id
    ensures DeleteById(items, id) == items
  {
    if items != [] {
      DeleteAbsentId(items[1..], id);
    }
  }

  /** A draft opened by "Add": the sentinel id and the given initial fields. */
  predicate OpenedDraft(d: Item, initial: map<string, Value>) {
    d.id == NewId && d.fields == initial
  }

  /** Every field of `m` is empty text. */
  predicate AllBlank(m: map<string, Value>) {
    forall k :: k in m ==> m[k] == Text("")
  }
}
