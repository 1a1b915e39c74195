/** The header section of the React resume editor (`ResumeHeaderSection.js`): a form of nine
    contact fields copied from the resume, an edit/cancel snapshot, and a save that reports
    every field to the parent one `onUpdate(key, value)` at a time. */
module HeaderSection {
  import opened Common

  /** One property of the form object. */
  datatype Field = Field(key: string, value: Json)

  /** A JavaScript object as its properties in insertion order, the order `Object.keys`
      reports them in. */
  type Form = seq<Field>

  /** The nine header fields, in the order the form object is built. */
  const HeaderKeys: seq<string> :=
    ["name", "title", "phone", "email", "location",
     "linkedin_url", "github_url", "website_url", "twitter_url"]

  /** The property names of a form, in order. */
  function Keys(f: Form): (ks: seq<string>)
    ensures |ks| == |f|
    ensures forall i :: 0 <= i < |f| ==> ks[i] == f[i].key
  {
    if f == [] then [] else [f[0].key] + Keys(f[1..])
  }

  /** No property name occurs twice, as in any JavaScript object. */
  predicate UniqueKeys(f: Form) {
    forall i, j :: 0 <= i < j < |f| ==> f[i].key != f[j].key
  }

  /** `form[key]`, `None` for `undefined`. */
  function Get(f: Form, key: string): (r: Option<Json>)
    ensures r.None? <==> key !in Keys(f)
  {
    if f == [] then None
    else if f[0].key == key then Some(f[0].value)
    else Get(f[1..], key)
  }

  /** On an object, the value read back is the one stored under that name. */
  lemma {:induction false} GetAt(f: Form, i: int)
    requires UniqueKeys(f) && 0 <= i < |f|
    ensures Get(f, f[i].key) == Some(f[i].value)
  {
    if i > 0 {
      assert UniqueKeys(f[1..]);
      GetAt(f[1..], i - 1);
    }
  }

  /** `{ ...prev, [key]: value }`: an existing property keeps its place, a new one goes last. */
  function Put(f: Form, key: string, value: Json): (r: Form)
    requires UniqueKeys(f)
    ensures key in Keys(f) ==> |r| == |f| && Keys(r) == Keys(f)
    ensures key !in Keys(f) ==> r == f + [Field(key, value)]
    ensures forall i :: 0 <= i < |f| && f[i].key != key ==> r[i] == f[i]
    ensures forall i :: 0 <= i < |f| && f[i].key == key ==> r[i] == Field(key, value)
  {
    if f == [] then [Field(key, value)]
    else if f[0].key == key then [Field(key, value)] + f[1..]
    else [f[0]] + Put(f[1..], key, value)
  }

  /** A change keeps the form an object: no property name appears twice. */
  lemma {:induction false} PutUnique(f: Form, key: string, value: Json)
    requires UniqueKeys(f)
    ensures UniqueKeys(Put(f, key, value))
  {
    if f != [] && f[0].key != key {
      assert UniqueKeys(f[1..]);
      PutUnique(f[1..], key, value);
      var t := Put(f[1..], key, value);
      assert f[0].key !in Keys(f[1..]);
      assert forall j :: 0 <= j < |t| ==> t[j].key in Keys(f[1..]) || t[j].key == key;
    }
  }

  /** A change to one field reads back as the new value and leaves every other field alone. */
  lemma {:induction false} PutGet(f: Form, key: string, value: Json, other: string)
    requires UniqueKeys(f)
    ensures Get(Put(f, key, value), key) == Some(value)
    ensures other != key ==> Get(Put(f, key, value), other) == Get(f, other)
  {
    if f != [] && f[0].key != key {
      assert UniqueKeys(f[1..]);
      PutGet(f[1..], key, value, other);
    }
  }

  /** A value `x || ''` leaves unchanged: truthy, or the empty string. */
  predicate Normal(v: Json) {
    Truthy(v) || v == JStr("")
  }

  /** `obj?.key || ''`. */
  function OrEmpty(obj: map<string, Json>, key: string): (r: Json)
    ensures Normal(r)
    ensures key in obj && Normal(obj[key]) ==> r == obj[key]
    ensures key in obj && Truthy(obj[key]) ==> r == obj[key]
    ensures !(key in obj && Truthy(obj[key])) ==> r == JStr("")
  {
    if key in obj && Truthy(obj[key]) then obj[key] else JStr("")
  }

  /** The form built from a resume (an absent resume reads as an empty object). */
  function FormFrom(resume: map<string, Json>): (f: Form)
    ensures Keys(f) == HeaderKeys
    ensures UniqueKeys(f)
    ensures forall i :: 0 <= i < |f| ==> f[i].value == OrEmpty(resume, HeaderKeys[i])
  {
    HeaderKeysDistinct();
    FormOf(HeaderKeys, resume)
  }

  /** The nine header field names are all different. */
  lemma HeaderKeysDistinct()
    ensures forall i, j :: 0 <= i < j < |HeaderKeys| ==> HeaderKeys[i] != HeaderKeys[j]
  {
    forall i, j | 0 <= i < j < |HeaderKeys|
      ensures HeaderKeys[i] != HeaderKeys[j]
    {
      // No two names share both their length and their first letter.
      assert |HeaderKeys[i]| != |HeaderKeys[j]| || HeaderKeys[i][0] != HeaderKeys[j][0];
    }
  }

  /** The form with the given property names, each read from `resume` with `|| ''`. */
  function FormOf(keys: seq<string>, resume: map<string, Json>): (f: Form)
    ensures Keys(f) == keys
    ensures forall i :: 0 <= i < |f| ==> f[i].value == OrEmpty(resume, keys[i])
    ensures (forall i, j :: 0 <= i < j < |keys| ==> keys[i] != keys[j]) ==> UniqueKeys(f)
  {
    if keys == [] then [] else [Field(keys[0], OrEmpty(resume, keys[0]))] + FormOf(keys[1..], resume)
  }

  /** A parent that stores each reported field on the resume, in call order. */
  function ApplyUpdates(resume: map<string, Json>, updates: seq<Field>): map<string, Json>
    decreases |updates|
  {
    if updates == [] then resume
    else ApplyUpdates(resume[updates[0].key := updates[0].value], updates[1..])
  }

  /** Applying a form's properties stores each of them and touches nothing else. */
  lemma {:induction false} ApplyUpdatesGet(resume: map<string, Json>, u: Form, k: string)
    requires UniqueKeys(u)
    ensures k in Keys(u) ==> k in ApplyUpdates(resume, u) && ApplyUpdates(resume, u)[k] == Get(u, k).value
    ensures k !in Keys(u) ==> (k in ApplyUpdates(resume, u) <==> k in resume)
    ensures k !in Keys(u) && k in resume ==> ApplyUpdates(resume, u)[k] == resume[k]
    decreases |u|
  {
    if u != [] {
      assert UniqueKeys(u[1..]);
      ApplyUpdatesGet(resume[u[0].key := u[0].value], u[1..], k);
      if k == u[0].key {
        assert k !in Keys(u[1..]);
      }
    }
  }

  /** A saved header reads back unchanged: the parent stores what `handleSave` reports, the
      resume comes back as the new prop, and the form built from it is the form that was
      saved, whatever the resume held before. */
  lemma SaveRoundTrip(resume: map<string, Json>, form: Form)
    requires UniqueKeys(form) && Keys(form) == HeaderKeys
    requires forall i :: 0 <= i < |form| ==> Normal(form[i].value)
    ensures FormFrom(ApplyUpdates(resume, form)) == form
  {
    var stored := ApplyUpdates(resume, form);
    var f := FormFrom(stored);
    forall i | 0 <= i < |form|
      ensures f[i] == form[i]
    {
      ApplyUpdatesGet(resume, form, form[i].key);
      GetAt(form, i);
    }
  }

  class HeaderEditor {
    /** The `resume` prop as last rendered; `None` is a null resume. */
    var resume: Option<map<string, Json>>
    var isEditing: bool
    var formData: Form
    /** The snapshot `handleEdit` takes, `null` outside an edit. */
    var originalData: Option<Form>
    /** Every `onUpdate(key, value)` made to the parent, in order. */
    var calls: seq<Field>

    /** The form and its snapshot are JavaScript objects. */
    predicate Valid()
      reads this
    {
      UniqueKeys(formData) && (originalData.Some? ==> UniqueKeys(originalData.value))
    }

    constructor (resume: Option<map<string, Json>>)
      ensures Valid()
      ensures this.resume == resume && !isEditing && originalData == None && calls == []
      ensures formData == FormFrom(if resume.Some? then resume.value else map[])
    {
      this.resume := resume;
      isEditing := false;
      formData := FormFrom(if resume.Some? then resume.value else map[]);
      originalData := None;
      calls := [];
    }

    /** A new `resume` prop: the effect rebuilds the form from a non-null resume. */
    method Receive(resume: Option<map<string, Json>>)
      requires Valid()
      modifies this
      ensures Valid()
      ensures this.resume == resume
      ensures formData == (if resume.Some? then FormFrom(resume.value) else old(formData))
      ensures isEditing == old(isEditing) && originalData == old(originalData) && calls == old(calls)
    {
      this.resume := resume;
      if resume.Some? {
        formData := FormFrom(resume.value);
      }
    }

    /** `handleEdit`: snapshot the form and start editing. */
    method HandleEdit()
      requires Valid()
      modifies this
      ensures Valid()
      ensures isEditing && originalData == Some(old(formData))
      ensures formData == old(formData) && resume == old(resume) && calls == old(calls)
    {
      originalData := Some(formData);
      isEditing := true;
    }

    /** `handleCancel`: put the snapshot back, if there is one, and stop editing. */
    method HandleCancel()
      requires Valid()
      modifies this
      ensures Valid()
      ensures formData == (if old(originalData).Some? then old(originalData).value else old(formData))
      ensures !isEditing && originalData == None
      ensures resume == old(resume) && calls == old(calls)
    {
      if originalData.Some? {
        formData := originalData.value;
      }
      isEditing := false;
      originalData := None;
    }

    /** `handleChange`: set one field of the form. */
    method HandleChange(field: string, value: Json)
      requires Valid()
      modifies this
      ensures Valid()
      ensures formData == Put(old(formData), field, value)
      ensures isEditing == old(isEditing) && originalData == old(originalData)
      ensures resume == old(resume) && calls == old(calls)
    {
      PutUnique(formData, field, value);
      formData := Put(formData, field, value);
    }

    /** `handleSave`: report every property of the form, in key order, with the value stored
        under it; then stop editing and drop the snapshot. */
    method HandleSave()
      requires Valid()
      modifies this
      ensures Valid()
      ensures calls == old(calls) + old(formData)
      ensures !isEditing && originalData == None
      ensures formData == old(formData) && resume == old(resume)
    {
      var form := formData;
      var reported := [];
      for i := 0 to |form|
        invariant reported == form[..i]
        invariant formData == form && resume == old(resume)
        invariant calls == old(calls) && originalData == old(originalData)
      {
        GetAt(form, i);
        var value := Get(form, form[i].key).value;
        reported := reported + [Field(form[i].key, value)];
        assert form[..i + 1] == form[..i] + [form[i]];
      }
      assert form[..|form|] == form;
      calls := calls + reported;
      isEditing := false;
      originalData := None;
    }
  }
}
