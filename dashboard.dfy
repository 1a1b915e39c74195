/** The jQuery dashboard (`static/js/dashboard.js`): the module-level `resumes` array and
    `selectedResumeId`, changed by the page's handlers once each awaited REST call settles. */
module Dashboard {
  import opened Common
  import opened Records

  /** 7 days in milliseconds. */
  const WeekMs: int := 7 * 24 * 60 * 60 * 1000

  /** The week is 604800000 ms. */
  lemma WeekMsValue()
    ensures WeekMs == 604800000
  {
  }

  /** A card shows "recently modified" when less than a week has passed since the resume's
      `updated_at`, or its `created_at` when it was never updated. Times are milliseconds
      since the epoch. */
  function IsRecentlyModified(now: int, createdAt: int, updatedAt: Option<int>): (recent: bool)
    ensures updatedAt.Some? ==> (recent <==> now < updatedAt.value + 604800000)
    ensures updatedAt.None? ==> (recent <==> now < createdAt + 604800000)
  {
    var lastModified := if updatedAt.Some? then updatedAt.value else createdAt;
    now - lastModified < WeekMs
  }

  /** A card is recent from its last change until exactly a week (604800000 ms) later, and
      never again after that; an update resets the window even when creation is older. */
  lemma RecentWindow(now: int, later: int, createdAt: int, updatedAt: Option<int>)
    requires now <= later
    ensures IsRecentlyModified(later, createdAt, updatedAt) ==> IsRecentlyModified(now, createdAt, updatedAt)
    ensures var last := if updatedAt.Some? then updatedAt.value else createdAt;
            IsRecentlyModified(last, createdAt, updatedAt) &&
            !IsRecentlyModified(last + WeekMs, createdAt, updatedAt) &&
            IsRecentlyModified(last + WeekMs - 1, createdAt, updatedAt)
    ensures updatedAt.Some? ==> IsRecentlyModified(now, createdAt, updatedAt) == (now - updatedAt.value < WeekMs)
  {
  }

  /** `${resume.title}` for a title the API sends as text, `null` or not at all. */
  function TitleText(r: Record): (t: string)
    ensures "title" !in r ==> t == "undefined"
    ensures "title" in r && r["title"].JStr? ==> t == r["title"].s
    ensures "title" in r && r["title"] == JNull ==> t == "null"
    ensures "title" in r && r["title"].JBool? ==> t == (if r["title"].b then "true" else "false")
  {
    if "title" !in r then "undefined"
    else match r["title"]
      case JStr(s) => s
      case JNull => "null"
      case JBool(b) => if b then "true" else "false"
      case JObj(_) => "[object Object]"
      case _ => ""
  }

  class DashboardPage {
    var resumes: seq<Record>
    /** `selectedResumeId`; `JNull` for `null`. */
    var selectedResumeId: Json

    constructor ()
      ensures resumes == [] && selectedResumeId == JNull
    {
      resumes := [];
      selectedResumeId := JNull;
    }

    /** `loadResumes`: the fetched list replaces the array; a failure keeps it. */
    method LoadResumes(response: Result<seq<Record>, string>)
      modifies this
      ensures resumes == (if response.Ok? then response.value else old(resumes))
      ensures selectedResumeId == old(selectedResumeId)
    {
      if response.Ok? {
        resumes := response.value;
      }
    }

    /** `showResumeActions` and `toggleResumeMenu`: remember which resume the actions apply to. */
    method SelectResume(resumeId: Json)
      modifies this
      ensures selectedResumeId == resumeId && resumes == old(resumes)
    {
      selectedResumeId := resumeId;
    }

    /** `closeResumeActionsModal`: forget the selection. */
    method CloseResumeActionsModal()
      modifies this
      ensures selectedResumeId == JNull && resumes == old(resumes)
    {
      selectedResumeId := JNull;
    }

    /** `handleCreateResume`: a title blank after `trim()` is refused with a message and no
        request; otherwise `{title}` is posted with the trimmed title and the created resume
        goes to the front. Returns the error shown (`None` when there is none) and the title
        posted (`None` when nothing was sent). */
    method HandleCreateResume(input: string, response: Result<Record, string>)
      returns (error: Option<string>, posted: Option<string>)
      modifies this
      ensures Trim(input) == "" ==>
                && error == Some("Please enter a resume title") && posted == None
                && resumes == old(resumes)
      ensures Trim(input) != "" ==> posted == Some(Trim(input))
      ensures Trim(input) != "" && response.Ok? ==>
                resumes == [response.value] + old(resumes) && error == None
      ensures Trim(input) != "" && response.Err? ==>
                resumes == old(resumes) && error == Some("Failed to create resume. Please try again.")
      ensures selectedResumeId == old(selectedResumeId)
    {
      var title := Trim(input);
      if title == "" {
        return Some("Please enter a resume title"), None;
      }
      posted := Some(title);
      match response {
        case Ok(newResume) =>
          resumes := [newResume] + resumes;
          error := None;
        case Err(_) =>
          error := Some("Failed to create resume. Please try again.");
      }
    }

    /** `editResume`: the resume whose `/resume/<id>/edit/` page to open; nothing for a falsy id. */
    method EditResume(resumeId: Json) returns (target: Option<Json>)
      ensures target == (if Truthy(resumeId) then Some(resumeId) else None)
    {
      if !Truthy(resumeId) {
        return None;
      }
      target := Some(resumeId);
    }

    /** `viewResume`: the title to announce, if the id is truthy and a resume has it. */
    method ViewResume(resumeId: Json) returns (shown: Option<string>)
      ensures !Truthy(resumeId) ==> shown == None
      ensures Truthy(resumeId) ==>
                shown == (if Find(resumes, resumeId).Some? then Some(TitleText(Find(resumes, resumeId).value)) else None)
      ensures shown.Some? ==> exists j :: 0 <= j < |resumes| && HasId(resumes[j], resumeId)
    {
      if !Truthy(resumeId) {
        return None;
      }
      var resume := Find(resumes, resumeId);
      if resume.None? {
        return None;
      }
      shown := Some(TitleText(resume.value));
    }

    /** `duplicateResume`: for a truthy id of a listed resume, post `"<title> (Copy)"` and put
        the server's copy at the front. Returns the title posted, `None` when nothing was sent. */
    method DuplicateResume(resumeId: Json, response: Result<Record, string>)
      returns (posted: Option<string>)
      modifies this
      ensures old(Find(resumes, resumeId)).None? || !Truthy(resumeId) ==>
                posted == None && resumes == old(resumes)
      ensures Truthy(resumeId) && old(Find(resumes, resumeId)).Some? ==>
                && posted == Some(TitleText(old(Find(resumes, resumeId)).value) + " (Copy)")
                && resumes == (if response.Ok? then [response.value] + old(resumes) else old(resumes))
      ensures selectedResumeId == old(selectedResumeId)
    {
      if !Truthy(resumeId) {
        return None;
      }
      var original := Find(resumes, resumeId);
      if original.None? {
        return None;
      }
      posted := Some(TitleText(original.value) + " (Copy)");
      if response.Ok? {
        resumes := [response.value] + resumes;
      }
    }

    /** `deleteResume`: for a truthy id of a listed resume that the user confirms, send the
        DELETE (`failure` is its rejection) and on success drop every resume with the id.
        Returns whether the request was sent. */
    method DeleteResume(resumeId: Json, confirmed: bool, failure: Option<string>)
      returns (requested: bool)
      modifies this
      ensures requested <==> Truthy(resumeId) && old(Find(resumes, resumeId)).Some? && confirmed
      ensures requested && failure.None? ==> resumes == RemoveId(old(resumes), resumeId)
      ensures !(requested && failure.None?) ==> resumes == old(resumes)
      ensures selectedResumeId == old(selectedResumeId)
    {
      if !Truthy(resumeId) {
        return false;
      }
      var resume := Find(resumes, resumeId);
      if resume.None? || !confirmed {
        return false;
      }
      requested := true;
      if failure.None? {
        resumes := RemoveId(resumes, resumeId);
      }
    }
  }

  /** A confirmed, successful delete removes the resume it found and keeps every other. */
  lemma DeleteRemovesFound(resumes: seq<Record>, id: Json, other: Record)
    requires Find(resumes, id).Some?
    requires other in resumes && !HasId(other, id)
    ensures Find(resumes, id).value !in RemoveId(resumes, id)
    ensures other in RemoveId(resumes, id)
  {
    RemoveIdKeepsOthers(resumes, id, other);
  }
}
