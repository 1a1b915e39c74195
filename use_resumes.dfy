/** The `useResumes` hook (`frontend/src/hooks/useResumes.js`): the user's resume list, kept in
    step with the outcome of each awaited REST call. */
module UseResumes {
  import opened Common
  import opened Records

  /** A resume record as the API returns it. */
  type Resume = Record

  class ResumesStore {
    var resumes: seq<Resume>
    var loading: bool
    /** `err.message` of the last failed fetch; `None` for `null`. */
    var error: Option<string>

    constructor ()
      ensures resumes == [] && loading && error == None
    {
      resumes := [];
      loading := true;
      error := None;
    }

    /** `fetchResumes` up to its `await`. */
    method BeginFetch()
      modifies this
      ensures loading && resumes == old(resumes) && error == old(error)
    {
      loading := true;
    }

    /** `fetchResumes` after its `await`: the fetched list replaces the old one and clears the
        error; a failure keeps the list and records the message. Loading ends either way. */
    method FinishFetch(response: Result<seq<Resume>, string>)
      modifies this
      ensures !loading
      ensures response.Ok? ==> resumes == response.value && error == None
      ensures response.Err? ==> resumes == old(resumes) && error == Some(response.error)
    {
      match response {
        case Ok(data) =>
          resumes := data;
          error := None;
        case Err(message) =>
          error := Some(message);
      }
      loading := false;
    }

    /** `createResume`: the created record goes last and is returned; a failure is rethrown
        and the list is unchanged. */
    method CreateResume(response: Result<Resume, string>) returns (r: Result<Resume, string>)
      modifies this
      ensures r == response
      ensures response.Ok? ==> resumes == old(resumes) + [response.value]
      ensures response.Err? ==> resumes == old(resumes)
      ensures loading == old(loading) && error == old(error)
    {
      if response.Ok? {
        resumes := resumes + [response.value];
      }
      r := response;
    }

    /** `updateResume`: every record with the id becomes the returned one; a failure is
        rethrown and the list is unchanged. */
    method UpdateResume(id: Json, response: Result<Resume, string>) returns (r: Result<Resume, string>)
      modifies this
      ensures r == response
      ensures response.Ok? ==> resumes == ReplaceId(old(resumes), id, response.value)
      ensures response.Err? ==> resumes == old(resumes)
      ensures loading == old(loading) && error == old(error)
    {
      if response.Ok? {
        resumes := ReplaceId(resumes, id, response.value);
      }
      r := response;
    }

    /** `deleteResume`: `failure` is the rejection of the DELETE, `None` when it succeeded;
        success drops every record with the id, a failure is rethrown. */
    method DeleteResume(id: Json, failure: Option<string>) returns (r: Option<string>)
      modifies this
      ensures r == failure
      ensures failure.None? ==> resumes == RemoveId(old(resumes), id)
      ensures failure.Some? ==> resumes == old(resumes)
      ensures loading == old(loading) && error == old(error)
    {
      if failure.None? {
        resumes := RemoveId(resumes, id);
      }
      r := failure;
    }

    /** `duplicateResume`: the copy the server made goes last and is returned. */
    method DuplicateResume(response: Result<Resume, string>) returns (r: Result<Resume, string>)
      modifies this
      ensures r == response
      ensures response.Ok? ==> resumes == old(resumes) + [response.value]
      ensures response.Err? ==> resumes == old(resumes)
      ensures loading == old(loading) && error == old(error)
    {
      if response.Ok? {
        resumes := resumes + [response.value];
      }
      r := response;
    }
  }
}
