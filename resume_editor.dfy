/** The jQuery resume editor (`static/js/resume-editor.js`): the global `appState` (the resume,
    its header, its six section lists and the unsaved-changes flag), changed in place by the
    page's handlers once each awaited REST call has settled. */
module ResumeEditor {
  import opened Common
  import opened Records

  /** `appState.header`. */
  datatype Header = Header(
    name: string,
    title: string,
    phone: string,
    email: string,
    location: string,
    linkedin: string,
    github: string,
    website: string,
    twitter: string)

  /** `appState.header` before anything is loaded. */
  const EmptyHeader := Header("", "", "", "", "", "", "", "", "")

  /** The header `initializeHeader` shows when nothing identifies the person yet. */
  const PlaceholderHeader := Header("Your Name", "Professional Title", "+1 (555) 123-4567",
                                    "your.email@example.com", "City, State", "", "", "", "")

  /** The six keys of `appState.sections`. */
  datatype Section = Education | Experience | Projects | Skills | Certifications | Achievements

  /** The six lists the parallel section load resolves to, taken as one atomic outcome. */
  datatype SectionLists = SectionLists(
    education: seq<Record>,
    experience: seq<Record>,
    projects: seq<Record>,
    skills: seq<Record>,
    certifications: seq<Record>,
    achievements: seq<Record>)

  /** `appState.sections` after a load. */
  function SectionsFrom(l: SectionLists): (m: map<Section, seq<Record>>)
    ensures Education in m && Experience in m && Projects in m
    ensures Skills in m && Certifications in m && Achievements in m
    ensures m[Education] == l.education && m[Experience] == l.experience
    ensures m[Projects] == l.projects && m[Skills] == l.skills
    ensures m[Certifications] == l.certifications && m[Achievements] == l.achievements
  {
    map[Education := l.education, Experience := l.experience, Projects := l.projects,
        Skills := l.skills, Certifications := l.certifications, Achievements := l.achievements]
  }

  /** A map holding the six keys holds every section. */
  lemma EverySection(m: map<Section, seq<Record>>)
    requires Education in m && Experience in m && Projects in m
    requires Skills in m && Certifications in m && Achievements in m
    ensures forall s: Section :: s in m
  {
    forall s: Section
      ensures s in m
    {
      match s {
        case Education =>
        case Experience =>
        case Projects =>
        case Skills =>
        case Certifications =>
        case Achievements =>
      }
    }
  }

  /** The header `loadResumeData` reads from a resume record (`resume.x || ''` for text). */
  function HeaderFromResume(r: Record): (h: Header)
    ensures forall k :: k in HeaderBackendKeys ==> BackendField(h, k) == TextOr(r, k)
  {
    Header(TextOr(r, "name"), TextOr(r, "professional_title"), TextOr(r, "phone"),
           TextOr(r, "email"), TextOr(r, "location"), TextOr(r, "linkedin_url"),
           TextOr(r, "github_url"), TextOr(r, "website_url"), TextOr(r, "twitter_url"))
  }

  /** The body `saveResume` sends: the title and the header under the backend's names. */
  function SavePayload(title: Json, h: Header): (p: Record)
    ensures p.Keys == HeaderBackendKeys + {"title"}
    ensures p["title"] == title
    ensures forall k :: k in HeaderBackendKeys ==> p[k] == JStr(BackendField(h, k))
  {
    map["title" := title, "name" := JStr(h.name), "professional_title" := JStr(h.title),
        "phone" := JStr(h.phone), "email" := JStr(h.email), "location" := JStr(h.location),
        "linkedin_url" := JStr(h.linkedin), "github_url" := JStr(h.github),
        "website_url" := JStr(h.website), "twitter_url" := JStr(h.twitter)]
  }

  /** `resume.title`; a missing title is taken as `null`. */
  function TitleOf(r: Record): Json {
    if "title" in r then r["title"] else JNull
  }

  /** The resume fields the header is read from. */
  const HeaderBackendKeys: set<string> :=
    {"name", "professional_title", "phone", "email", "location",
     "linkedin_url", "github_url", "website_url", "twitter_url"}

  /** The header field stored under a backend name. */
  function BackendField(h: Header, k: string): string
    requires k in HeaderBackendKeys
  {
    if k == "name" then h.name
    else if k == "professional_title" then h.title
    else if k == "phone" then h.phone
    else if k == "email" then h.email
    else if k == "location" then h.location
    else if k == "linkedin_url" then h.linkedin
    else if k == "github_url" then h.github
    else if k == "website_url" then h.website
    else h.twitter
  }

  /** Save then load: a header sent by `saveResume` reads back as the same header. */
  lemma LoadSavedHeader(title: Json, h: Header)
    ensures HeaderFromResume(SavePayload(title, h)) == h
  {
  }

  /** Load then save: every header field the resume held as text goes back unchanged under
      its own name, and a missing field goes back as the empty string. */
  lemma SaveLoadedHeader(r: Record, title: Json, k: string)
    requires k in HeaderBackendKeys
    ensures k in SavePayload(title, HeaderFromResume(r))
    ensures k in r && r[k].JStr? ==> SavePayload(title, HeaderFromResume(r))[k] == r[k]
    ensures k !in r ==> SavePayload(title, HeaderFromResume(r))[k] == JStr("")
  {
  }

  /** The list an item save leaves: a new item is pushed; an existing one is assigned at its
      `findIndex` position, and when no item has the id, `list[-1] = saved` adds a property,
      not an element, so the list is unchanged. */
  function PlaceSaved(list: seq<Record>, itemId: Json, saved: Record): (r: seq<Record>)
    ensures itemId == JStr("new") ==> r == list + [saved]
    ensures itemId != JStr("new") ==> |r| == |list|
    ensures itemId != JStr("new") && FindIndex(list, itemId) >= 0 ==>
              r == list[FindIndex(list, itemId) := saved]
    ensures itemId != JStr("new") && FindIndex(list, itemId) == -1 ==> r == list
  {
    if itemId == JStr("new") then list + [saved]
    else
      var index := FindIndex(list, itemId);
      if index >= 0 then list[index := saved] else list
  }

  /** Saving an existing item changes the first item with its id and no other. */
  lemma SaveExistingTouchesOne(list: seq<Record>, itemId: Json, saved: Record, j: int)
    requires itemId != JStr("new") && 0 <= j < |list|
    requires !HasId(list[j], itemId) || exists k :: 0 <= k < j && HasId(list[k], itemId)
    ensures PlaceSaved(list, itemId, saved)[j] == list[j]
  {
  }

  /** A form control `getFormData` visits: its `name` attribute ('' when absent), whether it
      is a checkbox, its checked state and its `val()`. */
  datatype Control = Control(name: string, checkbox: bool, checked: bool, value: string)

  /** What `getFormData` stores for one control. */
  function ControlValue(c: Control): Json {
    if c.checkbox then JBool(c.checked) else JStr(c.value)
  }

  /** The object `getFormData` builds from the controls, in document order: every named
      control stores its value, and a later control overwrites an earlier one of that name. */
  function FormDataOf(controls: seq<Control>): (fd: Record)
    ensures forall k :: k in fd ==> k != ""
  {
    if controls == [] then map[]
    else
      var last := controls[|controls| - 1];
      var prev := FormDataOf(controls[..|controls| - 1]);
      if last.name != "" then prev[last.name := ControlValue(last)] else prev
  }

  /** A name is in the form data exactly when some control carries it. */
  lemma {:induction false} FormDataNames(controls: seq<Control>, k: string)
    requires k != ""
    ensures k in FormDataOf(controls) <==> exists j :: 0 <= j < |controls| && controls[j].name == k
  {
    if controls != [] {
      var init := controls[..|controls| - 1];
      FormDataNames(init, k);
      assert forall j :: 0 <= j < |init| ==> init[j] == controls[j];
      if k in FormDataOf(init) {
        var j :| 0 <= j < |init| && init[j].name == k;
        assert controls[j].name == k;
      }
    }
  }

  /** The value stored under a name is the value of the last control carrying it. */
  lemma {:induction false} FormDataLast(controls: seq<Control>, i: int)
    requires 0 <= i < |controls| && controls[i].name != ""
    requires forall j :: i < j < |controls| ==> controls[j].name != controls[i].name
    ensures controls[i].name in FormDataOf(controls)
    ensures FormDataOf(controls)[controls[i].name] == ControlValue(controls[i])
  {
    if i < |controls| - 1 {
      var init := controls[..|controls| - 1];
      assert init[i] == controls[i];
      FormDataLast(init, i);
    }
  }

  /** The body an item save sends, exactly as the code builds it: the form data, the resume
      id, and for experience `is_current === 'on'`, which compares the checkbox's boolean
      with a string. */
  function ItemBodyAsWritten(section: Section, fd: Record, resumeId: Json): (body: Record)
    ensures body.Keys == ItemBody(section, fd, resumeId).Keys
    ensures forall k :: k in body && k != "is_current" ==> body[k] == ItemBody(section, fd, resumeId)[k]
    ensures section == Experience && "is_current" in fd && fd["is_current"].JBool? ==>
              body["is_current"] == JBool(false)
  {
    var withResume := fd["resume" := resumeId];
    if section == Experience then
      withResume["is_current" := JBool("is_current" in fd && fd["is_current"] == JStr("on"))]
    else withResume
  }

  /** As written, the experience body never reports a current job: a ticked checkbox is
      stored as `true`, and `true === 'on'` is false. */
  lemma IsCurrentNeverSent(controls: seq<Control>, i: int, resumeId: Json)
    requires 0 <= i < |controls| && controls[i] == Control("is_current", true, true, "on")
    requires forall j :: i < j < |controls| ==> controls[j].name != "is_current"
    ensures ItemBodyAsWritten(Experience, FormDataOf(controls), resumeId)["is_current"] == JBool(false)
  {
    FormDataLast(controls, i);
  }

  /** The body an item save is evidently meant to send: the form data and the resume id, with
      the experience checkbox sent as the boolean it already is. */
  function ItemBody(section: Section, fd: Record, resumeId: Json): (body: Record)
    ensures body.Keys == fd.Keys + {"resume"} + (if section == Experience then {"is_current"} else {})
    ensures body["resume"] == resumeId
    ensures forall k :: k in fd && k != "resume" && (section != Experience || k != "is_current") ==>
              body[k] == fd[k]
    ensures section == Experience ==> body["is_current"].JBool?
    ensures section == Experience ==>
              (body["is_current"] == JBool(true) <==> "is_current" in fd && fd["is_current"] == JBool(true))
  {
    var withResume := fd["resume" := resumeId];
    if section == Experience then
      withResume["is_current" := JBool("is_current" in fd && fd["is_current"] == JBool(true))]
    else withResume
  }

  /** With the correction, a ticked "currently working here" box is sent as current. */
  lemma IsCurrentSent(controls: seq<Control>, i: int, resumeId: Json)
    requires 0 <= i < |controls| && controls[i] == Control("is_current", true, true, "on")
    requires forall j :: i < j < |controls| ==> controls[j].name != "is_current"
    ensures ItemBody(Experience, FormDataOf(controls), resumeId)["is_current"] == JBool(true)
  {
    FormDataLast(controls, i);
  }

  /** With the correction, an unticked box is sent as not current. */
  lemma IsCurrentUntickedSent(controls: seq<Control>, i: int, resumeId: Json)
    requires 0 <= i < |controls| && controls[i] == Control("is_current", true, false, "on")
    requires forall j :: i < j < |controls| ==> controls[j].name != "is_current"
    ensures ItemBody(Experience, FormDataOf(controls), resumeId)["is_current"] == JBool(false)
  {
    FormDataLast(controls, i);
  }

  /** One entry of the social-link list. */
  datatype Link = Link(url: string, text: string)

  /** A link when its url is filled in, nothing otherwise. */
  function KeepLink(l: Link): seq<Link> {
    if l.url != "" then [l] else []
  }

  /** The links whose url is not empty, in order. */
  function NonEmptyLinks(links: seq<Link>): (r: seq<Link>)
    ensures |r| <= |links|
    ensures forall i :: 0 <= i < |r| ==> r[i].url != ""
  {
    if links == [] then [] else KeepLink(links[0]) + NonEmptyLinks(links[1..])
  }

  /** Links are filtered one by one: two blocks keep the links of the first, then those of
      the second, so the kept links stay in their order. */
  lemma {:induction false} NonEmptyLinksAppend(a: seq<Link>, b: seq<Link>)
    ensures NonEmptyLinks(a + b) == NonEmptyLinks(a) + NonEmptyLinks(b)
  {
    if a == [] {
      assert a + b == b;
    } else {
      NonEmptyLinksAppend(a[1..], b);
      HeadTailAppend(a, b);
      AppendAssoc(KeepLink(a[0]), NonEmptyLinks(a[1..]), NonEmptyLinks(b));
    }
  }

  /** A single link is kept exactly when its url is filled in. */
  lemma NonEmptyLinksSingle(l: Link)
    ensures NonEmptyLinks([l]) == (if l.url != "" then [l] else [])
  {
    assert [l][1..] == [];
  }

  /** A string when it is not empty, nothing otherwise. */
  function Keep(item: string): seq<string> {
    if item != "" then [item] else []
  }

  /** The strings that are not empty, in order. */
  function NonEmpty(items: seq<string>): (r: seq<string>)
    ensures |r| <= |items|
    ensures forall i :: 0 <= i < |r| ==> r[i] != ""
  {
    if items == [] then [] else Keep(items[0]) + NonEmpty(items[1..])
  }

  /** Strings are filtered one by one: two blocks keep the strings of the first, then those
      of the second, so the kept strings stay in their order. */
  lemma {:induction false} NonEmptyAppend(a: seq<string>, b: seq<string>)
    ensures NonEmpty(a + b) == NonEmpty(a) + NonEmpty(b)
  {
    if a == [] {
      assert a + b == b;
    } else {
      NonEmptyAppend(a[1..], b);
      HeadTailAppend(a, b);
      AppendAssoc(Keep(a[0]), NonEmpty(a[1..]), NonEmpty(b));
    }
  }

  /** A single string is kept exactly when it is not empty. */
  lemma NonEmptySingle(x: string)
    ensures NonEmpty([x]) == (if x != "" then [x] else [])
  {
    assert [x][1..] == [];
  }

  /** What the header display shows. */
  datatype Display = Display(
    displayName: string,
    contacts: seq<string>,
    contactPlaceholder: bool,
    links: seq<Link>)

  /** The four candidate links, in display order. */
  function AllLinks(h: Header): seq<Link> {
    [Link(h.linkedin, "LinkedIn"), Link(h.github, "GitHub"),
     Link(h.website, "Portfolio"), Link(h.twitter, "Twitter")]
  }

  /** The filled-in links, spelled out field by field. */
  lemma LinksUnfold(h: Header)
    ensures NonEmptyLinks(AllLinks(h)) ==
              KeepLink(Link(h.linkedin, "LinkedIn")) + KeepLink(Link(h.github, "GitHub")) +
              KeepLink(Link(h.website, "Portfolio")) + KeepLink(Link(h.twitter, "Twitter"))
  {
    var all := AllLinks(h);
    assert all[3..] == [all[3]] && all[3..][1..] == [];
    assert NonEmptyLinks(all[3..]) == KeepLink(all[3]) + [];
    assert all[2..][1..] == all[3..];
    assert NonEmptyLinks(all[2..]) == KeepLink(all[2]) + NonEmptyLinks(all[3..]);
    assert all[1..][1..] == all[2..];
    assert NonEmptyLinks(all[1..]) == KeepLink(all[1]) + NonEmptyLinks(all[2..]);
    assert NonEmptyLinks(all) == KeepLink(all[0]) + NonEmptyLinks(all[1..]);
  }

  /** The filled-in contacts, spelled out field by field; the contact placeholder shows
      exactly when there is none. */
  lemma ContactsUnfold(h: Header)
    ensures NonEmpty([h.phone, h.email, h.location]) == Keep(h.phone) + Keep(h.email) + Keep(h.location)
    ensures NonEmpty([h.phone, h.email, h.location]) == [] <==>
              (h.phone == "" && h.email == "" && h.location == "")
  {
    var cs := [h.phone, h.email, h.location];
    assert cs[2..] == [cs[2]] && cs[2..][1..] == [];
    assert NonEmpty(cs[2..]) == Keep(cs[2]) + [];
    assert cs[1..][1..] == cs[2..];
    assert NonEmpty(cs[1..]) == Keep(cs[1]) + NonEmpty(cs[2..]);
    assert NonEmpty(cs) == Keep(cs[0]) + NonEmpty(cs[1..]);
  }

  /** The contact chips `updateHeaderDisplay` appends, one filled-in field at a time. */
  method ContactChips(h: Header) returns (contacts: seq<string>)
    ensures contacts == NonEmpty([h.phone, h.email, h.location])
  {
    contacts := [];
    if h.phone != "" { contacts := contacts + [h.phone]; }
    assert contacts == Keep(h.phone);
    if h.email != "" { contacts := contacts + [h.email]; }
    assert contacts == Keep(h.phone) + Keep(h.email);
    if h.location != "" { contacts := contacts + [h.location]; }
    assert contacts == Keep(h.phone) + Keep(h.email) + Keep(h.location);
    ContactsUnfold(h);
  }

  /** The social links `updateHeaderDisplay` pushes, one filled-in field at a time. */
  method SocialLinks(h: Header) returns (links: seq<Link>)
    ensures links == NonEmptyLinks(AllLinks(h))
  {
    links := [];
    if h.linkedin != "" { links := links + [Link(h.linkedin, "LinkedIn")]; }
    assert links == KeepLink(Link(h.linkedin, "LinkedIn"));
    if h.github != "" { links := links + [Link(h.github, "GitHub")]; }
    assert links == KeepLink(Link(h.linkedin, "LinkedIn")) + KeepLink(Link(h.github, "GitHub"));
    if h.website != "" { links := links + [Link(h.website, "Portfolio")]; }
    assert links == KeepLink(Link(h.linkedin, "LinkedIn")) + KeepLink(Link(h.github, "GitHub")) +
                    KeepLink(Link(h.website, "Portfolio"));
    if h.twitter != "" { links := links + [Link(h.twitter, "Twitter")]; }
    assert links == KeepLink(Link(h.linkedin, "LinkedIn")) + KeepLink(Link(h.github, "GitHub")) +
                    KeepLink(Link(h.website, "Portfolio")) + KeepLink(Link(h.twitter, "Twitter"));
    LinksUnfold(h);
  }

  class Editor {
    /** `appState.resume`; `None` before the first load. */
    var resume: Option<Record>
    var resumeId: Json
    var hasUnsavedChanges: bool
    /** The copy "Edit header" takes; `None` for `null`. */
    var originalHeader: Option<Header>
    var header: Header
    /** The values in the header form's inputs. */
    var form: Header
    var sections: map<Section, seq<Record>>

    /** Every section key is present. */
    predicate Valid()
      reads this
    {
      forall s: Section :: s in sections
    }

    constructor (resumeId: Json)
      ensures Valid()
      ensures resume == None && this.resumeId == resumeId && !hasUnsavedChanges
      ensures originalHeader == None && header == EmptyHeader && form == EmptyHeader
      ensures sections == SectionsFrom(SectionLists([], [], [], [], [], []))
    {
      resume := None;
      this.resumeId := resumeId;
      hasUnsavedChanges := false;
      originalHeader := None;
      header := EmptyHeader;
      form := EmptyHeader;
      var empty := SectionsFrom(SectionLists([], [], [], [], [], []));
      EverySection(empty);
      sections := empty;
    }

    method MarkAsChanged()
      modifies this
      ensures hasUnsavedChanges
      ensures resume == old(resume) && originalHeader == old(originalHeader)
      ensures header == old(header) && form == old(form) && sections == old(sections)
      ensures resumeId == old(resumeId)
    {
      hasUnsavedChanges := true;
    }

    method MarkAsSaved()
      modifies this
      ensures !hasUnsavedChanges
      ensures resume == old(resume) && originalHeader == old(originalHeader)
      ensures header == old(header) && form == old(form) && sections == old(sections)
      ensures resumeId == old(resumeId)
    {
      hasUnsavedChanges := false;
    }

    /** `loadResumeData`: the resume and the header read from it are stored as soon as the
        resume arrives; the six lists only when the section load also succeeds. */
    method LoadResumeData(record: Result<Record, string>, lists: Result<SectionLists, string>)
      requires Valid()
      modifies this
      ensures Valid()
      ensures record.Err? ==> resume == old(resume) && header == old(header)
      ensures record.Ok? ==> resume == Some(record.value) && header == HeaderFromResume(record.value)
      ensures sections == (if record.Ok? && lists.Ok? then SectionsFrom(lists.value) else old(sections))
      ensures hasUnsavedChanges == old(hasUnsavedChanges) && originalHeader == old(originalHeader)
      ensures form == old(form) && resumeId == old(resumeId)
    {
      if record.Err? {
        return;
      }
      resume := Some(record.value);
      header := HeaderFromResume(record.value);
      if lists.Ok? {
        sections := SectionsFrom(lists.value);
        EverySection(sections);
      }
    }

    /** The title input: the title goes on the resume and the page is marked changed; before
        the resume is loaded the handler fails at the assignment and nothing changes. */
    method SetTitle(newTitle: string)
      modifies this
      ensures resumeId == old(resumeId)
      ensures old(resume).Some? ==>
                resume == Some(old(resume).value["title" := JStr(newTitle)]) && hasUnsavedChanges
      ensures old(resume).None? ==> resume == None && hasUnsavedChanges == old(hasUnsavedChanges)
      ensures originalHeader == old(originalHeader) && header == old(header)
      ensures form == old(form) && sections == old(sections)
    {
      if resume.None? {
        return;
      }
      resume := Some(resume.value["title" := JStr(newTitle)]);
      MarkAsChanged();
    }

    /** "Edit header": keep a copy of the header. */
    method EditHeader()
      modifies this
      ensures resumeId == old(resumeId)
      ensures originalHeader == Some(header)
      ensures header == old(header) && form == old(form) && resume == old(resume)
      ensures hasUnsavedChanges == old(hasUnsavedChanges) && sections == old(sections)
    {
      originalHeader := Some(header);
    }

    /** "Cancel": put the copy back, when there is one, and reload the form from it. The copy
        is kept. */
    method CancelHeader()
      modifies this
      ensures resumeId == old(resumeId)
      ensures old(originalHeader).Some? ==>
                header == old(originalHeader).value && form == old(originalHeader).value
      ensures old(originalHeader).None? ==> header == old(header) && form == old(form)
      ensures originalHeader == old(originalHeader) && resume == old(resume)
      ensures hasUnsavedChanges == old(hasUnsavedChanges) && sections == old(sections)
    {
      if originalHeader.Some? {
        header := originalHeader.value;
        form := header;
      }
    }

    /** Typing in the header form. */
    method HeaderInput(values: Header)
      modifies this
      ensures resumeId == old(resumeId)
      ensures form == values && hasUnsavedChanges
      ensures header == old(header) && originalHeader == old(originalHeader)
      ensures resume == old(resume) && sections == old(sections)
    {
      form := values;
      MarkAsChanged();
    }

    /** "Save header": commit the form to the header, mark the page changed, drop the copy. */
    method SaveHeader()
      modifies this
      ensures resumeId == old(resumeId)
      ensures header == old(form) && form == old(form) && hasUnsavedChanges
      ensures originalHeader == None
      ensures resume == old(resume) && sections == old(sections)
    {
      header := form;
      MarkAsChanged();
      originalHeader := None;
    }

    /** `initializeHeader`: a header with no name, email or phone becomes the placeholder;
        the form is then loaded from the header. */
    method InitializeHeader()
      modifies this
      ensures resumeId == old(resumeId)
      ensures old(header).name == "" && old(header).email == "" && old(header).phone == "" ==>
                header == PlaceholderHeader
      ensures !(old(header).name == "" && old(header).email == "" && old(header).phone == "") ==>
                header == old(header)
      ensures form == header
      ensures originalHeader == old(originalHeader) && resume == old(resume)
      ensures hasUnsavedChanges == old(hasUnsavedChanges) && sections == old(sections)
    {
      if header.name == "" && header.email == "" && header.phone == "" {
        header := PlaceholderHeader;
      }
      form := header;
    }

    /** `updateHeaderDisplay`: the name or its placeholder, the contacts that are filled in
        (phone, email, location), the placeholder exactly when none is, and the links that are
        filled in (LinkedIn, GitHub, Portfolio, Twitter), each pushed in that order. */
    method UpdateHeaderDisplay() returns (d: Display)
      ensures d.displayName == (if header.name != "" then header.name else "Your Name")
      ensures d.contacts == NonEmpty([header.phone, header.email, header.location])
      ensures d.contactPlaceholder <==> d.contacts == []
      ensures d.links == NonEmptyLinks(AllLinks(header))
    {
      var h := header;
      var contacts := ContactChips(h);
      ContactsUnfold(h);
      var placeholder := h.phone == "" && h.email == "" && h.location == "";
      var links := SocialLinks(h);
      d := Display(if h.name != "" then h.name else "Your Name", contacts, placeholder, links);
    }

    /** `getFormData`: visit the controls in document order and store each named one's value. */
    method GetFormData(controls: seq<Control>) returns (fd: Record)
      ensures fd == FormDataOf(controls)
    {
      fd := map[];
      for i := 0 to |controls|
        invariant fd == FormDataOf(controls[..i])
      {
        assert controls[..i + 1][..i] == controls[..i];
        var c := controls[i];
        if c.name != "" {
          if c.checkbox {
            fd := fd[c.name := JBool(c.checked)];
          } else {
            fd := fd[c.name := JStr(c.value)];
          }
        }
      }
      assert controls[..|controls|] == controls;
    }

    /** `save*Item`: build the body from the item's form, send it, and once the server
        answers (`response`, `None` on failure) put the saved record in the list by
        `PlaceSaved` and mark the page saved; a failure changes nothing. */
    method SaveItem(section: Section, itemId: Json, controls: seq<Control>, response: Option<Record>)
      returns (body: Record)
      requires Valid()
      modifies this
      ensures Valid()
      ensures body == ItemBody(section, FormDataOf(controls), resumeId)
      ensures response.Some? ==>
                && sections == old(sections)[section := PlaceSaved(old(sections)[section], itemId, response.value)]
                && !hasUnsavedChanges
      ensures response.None? ==> sections == old(sections) && hasUnsavedChanges == old(hasUnsavedChanges)
      ensures resume == old(resume) && header == old(header) && form == old(form)
      ensures originalHeader == old(originalHeader) && resumeId == old(resumeId)
    {
      var fd := GetFormData(controls);
      body := ItemBody(section, fd, resumeId);
      if response.None? {
        return;
      }
      var saved := response.value;
      var list := sections[section];
      if itemId == JStr("new") {
        list := list + [saved];
      } else {
        var index := FindIndex(list, itemId);
        if index >= 0 {
          list := list[index := saved];
        }
      }
      sections := sections[section := list];
      MarkAsSaved();
    }

    /** `deleteItem`: an unsaved (`'new'`) item is only removed from the page; otherwise the
        DELETE is sent (`failure` is its rejection) and on success every item with the id is
        dropped and the page marked saved. */
    method DeleteItem(section: Section, itemId: Json, failure: Option<string>) returns (requested: bool)
      requires Valid()
      modifies this
      ensures Valid()
      ensures requested <==> itemId != JStr("new")
      ensures requested && failure.None? ==>
                && sections == old(sections)[section := RemoveId(old(sections)[section], itemId)]
                && !hasUnsavedChanges
      ensures !(requested && failure.None?) ==>
                sections == old(sections) && hasUnsavedChanges == old(hasUnsavedChanges)
      ensures resume == old(resume) && header == old(header) && form == old(form)
      ensures originalHeader == old(originalHeader) && resumeId == old(resumeId)
    {
      if itemId == JStr("new") {
        return false;
      }
      requested := true;
      if failure.None? {
        sections := sections[section := RemoveId(sections[section], itemId)];
        MarkAsSaved();
      }
    }

    /** `saveResume`: send the title and the header (`failure` is the rejection of the PUT);
        success marks the page saved. Before the resume is loaded, building the body fails and
        nothing is sent. */
    method SaveResume(failure: Option<string>) returns (payload: Option<Record>)
      modifies this
      ensures resumeId == old(resumeId)
      ensures old(resume).Some? ==> payload == Some(SavePayload(TitleOf(old(resume).value), header))
      ensures old(resume).None? ==> payload == None
      ensures payload.Some? && failure.None? ==> !hasUnsavedChanges
      ensures !(payload.Some? && failure.None?) ==> hasUnsavedChanges == old(hasUnsavedChanges)
      ensures resume == old(resume) && header == old(header) && form == old(form)
      ensures originalHeader == old(originalHeader) && sections == old(sections)
    {
      if resume.None? {
        return None;
      }
      payload := Some(SavePayload(TitleOf(resume.value), header));
      if failure.None? {
        MarkAsSaved();
      }
    }
  }
}
