/** The create-resume dialog (`frontend/src/components/dashboard/CreateResumeModal.js`): the
    typed title, the error shown under it and the awaited `onCreate`. */
module CreateResumeModal {
  import opened Common

  const TitleRequired := "Resume title is required"
  const CreateFailed := "Failed to create resume. Please try again."

  class CreateDialog {
    var title: string
    var loading: bool
    /** The message shown under the input; '' for none. */
    var error: string
    /** Every title handed to `onCreate`, in order. */
    var created: seq<string>
    /** How many times `onClose` was called. */
    var closeCalls: nat

    constructor ()
      ensures title == "" && !loading && error == "" && created == [] && closeCalls == 0
    {
      title := "";
      loading := false;
      error := "";
      created := [];
      closeCalls := 0;
    }

    /** The submit button is disabled while loading or while the title is blank. */
    predicate SubmitDisabled()
      reads this
    {
      loading || Trim(title) == ""
    }

    /** `handleSubmit` up to its `await`: a blank title only shows the error; otherwise the
        error is cleared, loading starts and `onCreate` gets the trimmed title. A submit the
        enabled button makes always reaches `onCreate`. */
    method BeginSubmit() returns (started: bool)
      modifies this
      ensures title == old(title) && closeCalls == old(closeCalls)
      ensures started <==> Trim(title) != ""
      ensures !old(SubmitDisabled()) ==> started
      ensures !started ==> error == TitleRequired && loading == old(loading) && created == old(created)
      ensures started ==> error == "" && loading && created == old(created) + [Trim(title)]
    {
      var trimmed := Trim(title);
      if trimmed == "" {
        error := TitleRequired;
        started := false;
      } else {
        loading := true;
        error := "";
        created := created + [trimmed];
        started := true;
      }
    }

    /** `handleSubmit` after its `await`: success clears the title, failure keeps it and shows
        the failure message; loading ends either way. */
    method FinishSubmit(succeeded: bool)
      requires loading
      modifies this
      ensures !loading && created == old(created) && closeCalls == old(closeCalls)
      ensures succeeded ==> title == "" && error == old(error)
      ensures !succeeded ==> title == old(title) && error == CreateFailed
    {
      if succeeded {
        title := "";
      } else {
        error := CreateFailed;
      }
      loading := false;
    }

    /** `handleClose`: clear the title and the error, then call `onClose`. */
    method HandleClose()
      modifies this
      ensures title == "" && error == "" && closeCalls == old(closeCalls) + 1
      ensures loading == old(loading) && created == old(created)
    {
      title := "";
      error := "";
      closeCalls := closeCalls + 1;
    }

    /** Typing: the input holds the new text and any error is cleared. */
    method HandleTitleChange(value: string)
      modifies this
      ensures title == value && error == ""
      ensures loading == old(loading) && created == old(created) && closeCalls == old(closeCalls)
    {
      title := value;
      error := "";
    }
  }
}
