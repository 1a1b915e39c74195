/** The projects section of the React resume editor (`frontend/src/components/resume/ResumeProjectsSection.js`): a list of
    project items received from the parent, one open draft, and the parent's `onUpdate`. */
module ProjectsSection {
  import opened Common
  import opened SectionList

  /** The fields of the blank draft "Add" opens. */
  const InitialFields: map<string, Value> :=
    map["name" := Text(""), "description" := Text(""), "technologies" := Text(""), "start_date" := Text(""), "end_date" := Text(""), "url" := Text(""), "github_url" := Text("")]

  class ProjectsEditor {
    /** The `projects` prop as last rendered. */
    var projects: seq<Item>
    /** `editingItem`: the open draft, if any. */
    var editingItem: Option<Item>
    var isAdding: bool
    /** Every list handed to the parent, in order. */
    var calls: seq<Call>

    constructor (projects: seq<Item>)
      ensures this.projects == projects && editingItem == None && !isAdding && calls == []
    {
      this.projects := projects;
      editingItem := None;
      isAdding := false;
      calls := [];
    }

    /** The parent renders the component again with a new list. */
    method Receive(projects: seq<Item>)
      modifies this
      ensures this.projects == projects
      ensures editingItem == old(editingItem) && isAdding == old(isAdding) && calls == old(calls)
    {
      this.projects := projects;
    }

    /** `handleAdd`: open a blank draft carrying the sentinel id. */
    method HandleAdd()
      modifies this
      ensures isAdding && editingItem.Some? && OpenedDraft(editingItem.value, InitialFields)
      ensures AllBlank(editingItem.value.fields)
      ensures projects == old(projects) && calls == old(calls)
    {
      isAdding := true;
      editingItem := Some(Item(NewId, InitialFields));
    }

    /** `handleEdit`: open a copy of an existing item. */
    method HandleEdit(item: Item)
      modifies this
      ensures editingItem == Some(item)
      ensures isAdding == old(isAdding) && projects == old(projects) && calls == old(calls)
    {
      editingItem := Some(item);
    }

    /** `handleSave`: hand the parent the list with the draft appended (new) or put in place
        of every item with its id (existing), then close the draft; no draft, no effect. */
    method HandleSave()
      modifies this
      ensures projects == old(projects)
      ensures old(editingItem).None? ==>
                editingItem == None && isAdding == old(isAdding) && calls == old(calls)
      ensures old(editingItem).Some? ==>
                && calls == old(calls) + [OnUpdate(SaveDraft(projects, old(editingItem).value))]
                && editingItem == None && !isAdding
    {
      if editingItem.None? {
        return;
      }
      var updated := SaveDraft(projects, editingItem.value);
      calls := calls + [OnUpdate(updated)];
      editingItem := None;
      isAdding := false;
    }

    /** `handleCancel`: close the draft without telling the parent. */
    method HandleCancel()
      modifies this
      ensures editingItem == None && !isAdding
      ensures projects == old(projects) && calls == old(calls)
    {
      editingItem := None;
      isAdding := false;
    }

    /** `handleDelete`: if the user confirms, hand the parent the list without the items that
        carry the target's id. */
    method HandleDelete(target: Item, confirmed: bool)
      modifies this
      ensures confirmed ==> calls == old(calls) + [OnUpdate(DeleteById(projects, target.id))]
      ensures !confirmed ==> calls == old(calls)
      ensures editingItem == old(editingItem) && isAdding == old(isAdding) && projects == old(projects)
    {
      if confirmed {
        calls := calls + [OnUpdate(DeleteById(projects, target.id))];
      }
    }

    /** `handleInputChange`: set one field of the draft. */
    method HandleInputChange(field: string, value: Value)
      modifies this
      ensures editingItem == Some(SetField(old(editingItem), field, value))
      ensures isAdding == old(isAdding) && projects == old(projects) && calls == old(calls)
    {
      editingItem := Some(SetField(editingItem, field, value));
    }
  }
}
