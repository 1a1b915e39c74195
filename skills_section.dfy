/** The skills section of the React resume editor (`frontend/src/components/resume/ResumeSkillsSection.js`): a list of
    skill items received from the parent, one open draft, the parent's `onUpdate` and the
    awaited `onSave`. */
module SkillsSection {
  import opened Common
  import opened SectionList

  /** The fields of the blank draft "Add" opens. */
  const InitialFields: map<string, Value> :=
    map["name" := Text(""), "category" := Text(""), "proficiency" := Text("Intermediate")]

  class SkillsEditor {
    /** The `skills` prop as last rendered. */
    var skills: seq<Item>
    /** `editingItem`: the open draft, if any. */
    var editingItem: Option<Item>
    var isAdding: bool
    /** A save is awaiting `onSave`; the save and cancel buttons are disabled meanwhile. */
    var isSaving: bool
    /** Every list handed to the parent, in order. */
    var calls: seq<Call>

    constructor (skills: seq<Item>)
      ensures this.skills == skills && editingItem == None && !isAdding && !isSaving && calls == []
    {
      this.skills := skills;
      editingItem := None;
      isAdding := false;
      isSaving := false;
      calls := [];
    }

    /** The parent renders the component again with a new list. */
    method Receive(skills: seq<Item>)
      modifies this
      ensures this.skills == skills
      ensures editingItem == old(editingItem) && isAdding == old(isAdding)
      ensures isSaving == old(isSaving) && calls == old(calls)
    {
      this.skills := skills;
    }

    /** `handleAdd`: open a blank draft carrying the sentinel id. */
    method HandleAdd()
      modifies this
      ensures isAdding && editingItem.Some? && OpenedDraft(editingItem.value, InitialFields)
      ensures editingItem.value.fields["proficiency"] == Text("Intermediate")
      ensures skills == old(skills) && isSaving == old(isSaving) && calls == old(calls)
    {
      isAdding := true;
      editingItem := Some(Item(NewId, InitialFields));
    }

    /** `handleEdit`: open a copy of an existing item. */
    method HandleEdit(item: Item)
      modifies this
      ensures editingItem == Some(item)
      ensures isAdding == old(isAdding) && isSaving == old(isSaving)
      ensures skills == old(skills) && calls == old(calls)
    {
      editingItem := Some(item);
    }

    /** `handleSave` up to its `await`: with a draft open, mark the save in progress, hand the
        parent the saved list through `onUpdate`, then the same list to `onSave`. No draft, no
        effect. */
    method BeginSave()
      modifies this
      ensures skills == old(skills) && editingItem == old(editingItem) && isAdding == old(isAdding)
      ensures old(editingItem).None? ==> isSaving == old(isSaving) && calls == old(calls)
      ensures old(editingItem).Some? ==>
                var saved := SaveDraft(skills, old(editingItem).value);
                isSaving && calls == old(calls) + [OnUpdate(saved), OnSave(saved)]
    {
      if editingItem.None? {
        return;
      }
      isSaving := true;
      var updated := SaveDraft(skills, editingItem.value);
      calls := calls + [OnUpdate(updated)];
      calls := calls + [OnSave(updated)];
    }

    /** `handleSave` after its `await`: the draft closes only when `onSave` resolved; either
        way the save is over. A rejection leaves the draft open so the user can retry. */
    method FinishSave(saved: bool)
      requires isSaving
      modifies this
      ensures !isSaving
      ensures saved ==> editingItem == None && !isAdding
      ensures !saved ==> editingItem == old(editingItem) && isAdding == old(isAdding)
      ensures skills == old(skills) && calls == old(calls)
    {
      if saved {
        editingItem := None;
        isAdding := false;
      }
      isSaving := false;
    }

    /** `handleCancel`: close the draft without telling the parent. */
    method HandleCancel()
      modifies this
      ensures editingItem == None && !isAdding
      ensures skills == old(skills) && isSaving == old(isSaving) && calls == old(calls)
    {
      editingItem := None;
      isAdding := false;
    }

    /** `handleDelete`: if the user confirms, hand the parent the list without the items that
        carry the target's id. */
    method HandleDelete(target: Item, confirmed: bool)
      modifies this
      ensures confirmed ==> calls == old(calls) + [OnUpdate(DeleteById(skills, target.id))]
      ensures !confirmed ==> calls == old(calls)
      ensures editingItem == old(editingItem) && isAdding == old(isAdding)
      ensures isSaving == old(isSaving) && skills == old(skills)
    {
      if confirmed {
        calls := calls + [OnUpdate(DeleteById(skills, target.id))];
      }
    }

    /** `handleInputChange`: set one field of the draft. */
    method HandleInputChange(field: string, value: Value)
      modifies this
      ensures editingItem == Some(SetField(old(editingItem), field, value))
      ensures isAdding == old(isAdding) && isSaving == old(isSaving)
      ensures skills == old(skills) && calls == old(calls)
    {
      editingItem := Some(SetField(editingItem, field, value));
    }
  }
}
