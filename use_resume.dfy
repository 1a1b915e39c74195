/** The `useResume` hook (`frontend/src/hooks/useResume.js`): one resume with its six
    sections, a loading flag, the last load error and the unsaved-changes flag. */
module UseResume {
  import opened Common

  /** The seven results the parallel load resolves to, taken as one atomic outcome. */
  datatype Loaded = Loaded(
    base: map<string, Json>,
    education: seq<Json>,
    experience: seq<Json>,
    skills: seq<Json>,
    projects: seq<Json>,
    certifications: seq<Json>,
    achievements: seq<Json>)

  /** The names under which the six sections are attached to the resume. */
  const SectionKeys: set<string> :=
    {"education", "experience", "skills", "projects", "certifications", "achievements"}

  /** `{ ...resumeData, education, experience, skills, projects, certifications, achievements }`. */
  function Combine(l: Loaded): (r: map<string, Json>)
    ensures r.Keys == l.base.Keys + SectionKeys
    ensures r["education"] == JArr(l.education) && r["experience"] == JArr(l.experience)
    ensures r["skills"] == JArr(l.skills) && r["projects"] == JArr(l.projects)
    ensures r["certifications"] == JArr(l.certifications)
    ensures r["achievements"] == JArr(l.achievements)
    ensures forall k :: k in l.base && k !in SectionKeys ==> r[k] == l.base[k]
  {
    l.base["education" := JArr(l.education)]["experience" := JArr(l.experience)]
          ["skills" := JArr(l.skills)]["projects" := JArr(l.projects)]
          ["certifications" := JArr(l.certifications)]["achievements" := JArr(l.achievements)]
  }

  /** `{ ...prev, ...newData }`: the new keys win, every other key is kept. */
  function Merge(prev: map<string, Json>, newData: map<string, Json>): (r: map<string, Json>)
    ensures r.Keys == prev.Keys + newData.Keys
    ensures forall k :: k in newData ==> r[k] == newData[k]
    ensures forall k :: k in prev && k !in newData ==> r[k] == prev[k]
  {
    prev + newData
  }

  /** Merging the same data twice changes nothing more. */
  lemma MergeIdempotent(prev: map<string, Json>, newData: map<string, Json>)
    ensures Merge(Merge(prev, newData), newData) == Merge(prev, newData)
  {
  }

  /** An edit that names no section keeps every loaded section. */
  lemma MergeKeepsSections(l: Loaded, newData: map<string, Json>)
    requires forall k :: k in newData ==> k !in SectionKeys
    ensures Merge(Combine(l), newData)["education"] == JArr(l.education)
    ensures Merge(Combine(l), newData)["achievements"] == JArr(l.achievements)
    ensures forall k :: k in SectionKeys ==> Merge(Combine(l), newData)[k] == Combine(l)[k]
  {
  }

  class ResumeHook {
    /** The `resumeId` argument; `!resumeId` is JavaScript falsiness. */
    var resumeId: Json
    /** The resume; `None` for `null`. */
    var resume: Option<map<string, Json>>
    var loading: bool
    var error: Option<string>
    var hasUnsavedChanges: bool

    constructor (resumeId: Json)
      ensures this.resumeId == resumeId && resume == None && loading && error == None
      ensures !hasUnsavedChanges
    {
      this.resumeId := resumeId;
      resume := None;
      loading := true;
      error := None;
      hasUnsavedChanges := false;
    }

    /** `fetchResume` up to its `await`: nothing happens without an id. */
    method BeginFetch() returns (started: bool)
      modifies this
      ensures started == Truthy(resumeId)
      ensures loading == (old(loading) || started)
      ensures resumeId == old(resumeId) && resume == old(resume) && error == old(error)
      ensures hasUnsavedChanges == old(hasUnsavedChanges)
    {
      if !Truthy(resumeId) {
        return false;
      }
      loading := true;
      started := true;
    }

    /** `fetchResume` after its `await`: a load replaces the resume with the combined record,
        clears the error and the unsaved-changes flag; a failure records the message and keeps
        everything else. Loading ends either way. */
    method FinishFetch(response: Result<Loaded, string>)
      modifies this
      ensures !loading && resumeId == old(resumeId)
      ensures response.Ok? ==>
                resume == Some(Combine(response.value)) && error == None && !hasUnsavedChanges
      ensures response.Err? ==>
                && resume == old(resume) && error == Some(response.error)
                && hasUnsavedChanges == old(hasUnsavedChanges)
    {
      match response {
        case Ok(l) =>
          resume := Some(Combine(l));
          error := None;
          hasUnsavedChanges := false;
        case Err(message) =>
          error := Some(message);
      }
      loading := false;
    }

    /** `updateResume`: the server's record becomes the resume and nothing is unsaved; a
        failure is rethrown and nothing changes. */
    method UpdateResume(response: Result<map<string, Json>, string>)
      returns (r: Result<map<string, Json>, string>)
      modifies this
      ensures r == response
      ensures response.Ok? ==> resume == Some(response.value) && !hasUnsavedChanges
      ensures response.Err? ==> resume == old(resume) && hasUnsavedChanges == old(hasUnsavedChanges)
      ensures resumeId == old(resumeId) && loading == old(loading) && error == old(error)
    {
      if response.Ok? {
        resume := Some(response.value);
        hasUnsavedChanges := false;
      }
      r := response;
    }

    /** `updateResumeData`: merge the changes over the resume (a null resume spreads as an
        empty object) and mark it unsaved. */
    method UpdateResumeData(newData: map<string, Json>)
      modifies this
      ensures resume == Some(Merge(if old(resume).Some? then old(resume).value else map[], newData))
      ensures hasUnsavedChanges
      ensures resumeId == old(resumeId) && loading == old(loading) && error == old(error)
    {
      var prev := if resume.Some? then resume.value else map[];
      resume := Some(Merge(prev, newData));
      hasUnsavedChanges := true;
    }

    /** `resetChanges`: load the resume again. */
    method ResetChanges() returns (started: bool)
      modifies this
      ensures started == Truthy(resumeId)
      ensures loading == (old(loading) || started)
      ensures resumeId == old(resumeId) && resume == old(resume) && error == old(error)
      ensures hasUnsavedChanges == old(hasUnsavedChanges)
    {
      started := BeginFetch();
    }
  }
}
