/** The experience section of the React resume editor (`frontend/src/components/resume/ResumeExperienceSection.js`): a list of
    work experience items received from the parent, one open draft, the parent's `onUpdate` and the
    awaited `onSave`. */
module ExperienceSection {
  import opened Common
  import opened SectionList

  /** The fields of the blank draft "Add" opens. */
  const InitialFields: map<string, Value> :=
    map["company" := Text(""), "position" := Text(""), "location" := Text(""), "start_date" := Text(""), "end_date" := Text(""), "is_current" := Flag(false), "description" := Text("")]

  /** The draft after one input change: the field is set, and ticking "currently working here"
      (a truthy `is_current`) also clears the end date. */
  function EditDraft(prev: Option<Item>, field: string, value: Value): (r: Item)
    ensures field in r.fields && r.fields[field] == value
    ensures field == "is_current" && IsSet(value) ==>
              "end_date" in r.fields && r.fields["end_date"] == Text("")
    ensures !(field == "is_current" && IsSet(value)) ==> r == SetField(prev, field, value)
    ensures forall k :: k != field && k != "end_date" ==>
              (k in r.fields <==> prev.Some? && k in prev.value.fields)
    ensures forall k :: k != field && k != "end_date" && k in r.fields ==>
              r.fields[k] == prev.value.fields[k]
    ensures r.id == (if prev.Some? then prev.value.id else None)
  {
    var updated := SetField(prev, field, value);
    if field == "is_current" && IsSet(value) then
      updated.(fields := updated.fields["end_date" := Text("")])
    else
      updated
  }

  class ExperienceEditor {
    /** The `experience` prop as last rendered. */
    var experience: seq<Item>
    /** `editingItem`: the open draft, if any. */
    var editingItem: Option<Item>
    var isAdding: bool
    /** A save is awaiting `onSave`; the save and cancel buttons are disabled meanwhile. */
    var isSaving: bool
    /** Every list handed to the parent, in order. */
    var calls: seq<Call>

    constructor (experience: seq<Item>)
      ensures this.experience == experience && editingItem == None && !isAdding && !isSaving && calls == []
    {
      this.experience := experience;
      editingItem := None;
      isAdding := false;
      isSaving := false;
      calls := [];
    }

    /** The parent renders the component again with a new list. */
    method Receive(experience: seq<Item>)
      modifies this
      ensures this.experience == experience
      ensures editingItem == old(editingItem) && isAdding == old(isAdding)
      ensures isSaving == old(isSaving) && calls == old(calls)
    {
      this.experience := experience;
    }

    /** `handleAdd`: open a blank draft carrying the sentinel id. */
    method HandleAdd()
      modifies this
      ensures isAdding && editingItem.Some? && OpenedDraft(editingItem.value, InitialFields)
      ensures "is_current" in editingItem.value.fields && !IsSet(editingItem.value.fields["is_current"])
      ensures experience == old(experience) && isSaving == old(isSaving) && calls == old(calls)
    {
      isAdding := true;
      editingItem := Some(Item(NewId, InitialFields));
    }

    /** `handleEdit`: open a copy of an existing item. */
    method HandleEdit(item: Item)
      modifies this
      ensures editingItem == Some(item)
      ensures isAdding == old(isAdding) && isSaving == old(isSaving)
      ensures experience == old(experience) && calls == old(calls)
    {
      editingItem := Some(item);
    }

    /** `handleSave` up to its `await`: with a draft open, mark the save in progress, hand the
        parent the saved list through `onUpdate`, then the same list to `onSave`. No draft, no
        effect. */
    method BeginSave()
      modifies this
      ensures experience == old(experience) && editingItem == old(editingItem) && isAdding == old(isAdding)
      ensures old(editingItem).None? ==> isSaving == old(isSaving) && calls == old(calls)
      ensures old(editingItem).Some? ==>
                var saved := SaveDraft(experience, old(editingItem).value);
                isSaving && calls == old(calls) + [OnUpdate(saved), OnSave(saved)]
    {
      if editingItem.None? {
        return;
      }
      isSaving := true;
      var updated := SaveDraft(experience, editingItem.value);
      calls := calls + [OnUpdate(updated)];
      calls := calls + [OnSave(updated)];
    }

    /** `handleSave` after its `await`: the draft closes only when `onSave` resolved; either
        way the save is over. A rejection leaves the draft open so the user can retry. */
    method FinishSave(saved: bool)
      requires isSaving
      modifies this
      ensures !isSaving
      ensures saved ==> editingItem == None && !isAdding
      ensures !saved ==> editingItem == old(editingItem) && isAdding == old(isAdding)
      ensures experience == old(experience) && calls == old(calls)
    {
      if saved {
        editingItem := None;
        isAdding := false;
      }
      isSaving := false;
    }

    /** `handleCancel`: close the draft without telling the parent. */
    method HandleCancel()
      modifies this
      ensures editingItem == None && !isAdding
      ensures experience == old(experience) && isSaving == old(isSaving) && calls == old(calls)
    {
      editingItem := None;
      isAdding := false;
    }

    /** `handleDelete`: if the user confirms, hand the parent the list without the items that
        carry the target's id. */
    method HandleDelete(target: Item, confirmed: bool)
      modifies this
      ensures confirmed ==> calls == old(calls) + [OnUpdate(DeleteById(experience, target.id))]
      ensures !confirmed ==> calls == old(calls)
      ensures editingItem == old(editingItem) && isAdding == old(isAdding)
      ensures isSaving == old(isSaving) && experience == old(experience)
    {
      if confirmed {
        calls := calls + [OnUpdate(DeleteById(experience, target.id))];
      }
    }

    /** `handleInputChange`: set one field of the draft, by `EditDraft`. */
    method HandleInputChange(field: string, value: Value)
      modifies this
      ensures editingItem == Some(EditDraft(old(editingItem), field, value))
      ensures isAdding == old(isAdding) && isSaving == old(isSaving)
      ensures experience == old(experience) && calls == old(calls)
    {
      editingItem := Some(EditDraft(editingItem, field, value));
    }
  }
}
