/** The certifications section of the React resume editor (`frontend/src/components/resume/ResumeCertificationsSection.js`): a list of
    certification items received from the parent, one open draft, and the parent's `onUpdate`. */
module CertificationsSection {
  import opened Common
  import opened SectionList

  /** The fields of the blank draft "Add" opens. */
  const InitialFields: map<string, Value> :=
    map["name" := Text(""), "issuing_organization" := Text(""), "issue_date" := Text(""), "expiry_date" := Text(""), "credential_id" := Text(""), "credential_url" := Text("")]

  class CertificationsEditor {
    /** The `certifications` prop as last rendered. */
    var certifications: seq<Item>
    /** `editingItem`: the open draft, if any. */
    var editingItem: Option<Item>
    var isAdding: bool
    /** Every list handed to the parent, in order. */
    var calls: seq<Call>

    constructor (certifications: seq<Item>)
      ensures this.certifications == certifications && editingItem == None && !isAdding && calls == []
    {
      this.certifications := certifications;
      editingItem := None;
      isAdding := false;
      calls := [];
    }

    /** The parent renders the component again with a new list. */
    method Receive(certifications: seq<Item>)
      modifies this
      ensures this.certifications == certifications
      ensures editingItem == old(editingItem) && isAdding == old(isAdding) && calls == old(calls)
    {
      this.certifications := certifications;
    }

    /** `handleAdd`: open a blank draft carrying the sentinel id. */
    method HandleAdd()
      modifies this
      ensures isAdding && editingItem.Some? && OpenedDraft(editingItem.value, InitialFields)
      ensures AllBlank(editingItem.value.fields)
      ensures certifications == old(certifications) && calls == old(calls)
    {
      isAdding := true;
      editingItem := Some(Item(NewId, InitialFields));
    }

    /** `handleEdit`: open a copy of an existing item. */
    method HandleEdit(item: Item)
      modifies this
      ensures editingItem == Some(item)
      ensures isAdding == old(isAdding) && certifications == old(certifications) && calls == old(calls)
    {
      editingItem := Some(item);
    }

    /** `handleSave`: hand the parent the list with the draft appended (new) or put in place
        of every item with its id (existing), then close the draft; no draft, no effect. */
    method HandleSave()
      modifies this
      ensures certifications == old(certifications)
      ensures old(editingItem).None? ==>
                editingItem == None && isAdding == old(isAdding) && calls == old(calls)
      ensures old(editingItem).Some? ==>
                && calls == old(calls) + [OnUpdate(SaveDraft(certifications, old(editingItem).value))]
                && editingItem == None && !isAdding
    {
      if editingItem.None? {
        return;
      }
      var updated := SaveDraft(certifications, editingItem.value);
      calls := calls + [OnUpdate(updated)];
      editingItem := None;
      isAdding := false;
    }

    /** `handleCancel`: close the draft without telling the parent. */
    method HandleCancel()
      modifies this
      ensures editingItem == None && !isAdding
      ensures certifications == old(certifications) && calls == old(calls)
    {
      editingItem := None;
      isAdding := false;
    }

    /** `handleDelete`: if the user confirms, hand the parent the list without the items that
        carry the target's id. */
    method HandleDelete(target: Item, confirmed: bool)
      modifies this
      ensures confirmed ==> calls == old(calls) + [OnUpdate(DeleteById(certifications, target.id))]
      ensures !confirmed ==> calls == old(calls)
      ensures editingItem == old(editingItem) && isAdding == old(isAdding) && certifications == old(certifications)
    {
      if confirmed {
        calls := calls + [OnUpdate(DeleteById(certifications, target.id))];
      }
    }

    /** `handleInputChange`: set one field of the draft. */
    method HandleInputChange(field: string, value: Value)
      modifies this
      ensures editingItem == Some(SetField(old(editingItem), field, value))
      ensures isAdding == old(isAdding) && certifications == old(certifications) && calls == old(calls)
    {
      editingItem := Some(SetField(editingItem, field, value));
    }
  }
}
