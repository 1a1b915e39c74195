/** The profile picture uploader (`frontend/src/components/ui/ProfilePictureUpload.js`): a
    type and size check on the chosen file, the preview, and the awaited upload. */
module ProfilePictureUpload {
  import opened Common

  /** A chosen file: its MIME type and its size in bytes. */
  datatype File = File(mime: string, size: int)

  /** The image types accepted. */
  const AllowedTypes: seq<string> := ["image/jpeg", "image/jpg", "image/png", "image/webp"]

  /** 5 MB. */
  const MaxSize: int := 5 * 1024 * 1024

  const BadTypeMessage := "Please upload a valid image file (JPEG, PNG, or WebP)"
  const TooLargeMessage := "File size must be less than 5MB"

  /** The outcome of `validateFile`: accepted, or rejected with the one message shown. */
  datatype Verdict = Accepted | Rejected(message: string)

  /** `validateFile`: the type is checked first, then the size. */
  function ValidateFile(f: File): (v: Verdict)
    ensures v == Accepted <==> f.mime in AllowedTypes && f.size <= MaxSize
    ensures f.mime !in AllowedTypes ==> v == Rejected(BadTypeMessage)
    ensures f.mime in AllowedTypes && f.size > MaxSize ==> v == Rejected(TooLargeMessage)
  {
    if f.mime !in AllowedTypes then Rejected(BadTypeMessage)
    else if f.size > MaxSize then Rejected(TooLargeMessage)
    else Accepted
  }

  /** The limit is 5242880 bytes and is itself allowed; one byte more is refused. */
  lemma SizeBoundary(mime: string)
    requires mime in AllowedTypes
    ensures MaxSize == 5242880
    ensures ValidateFile(File(mime, MaxSize)) == Accepted
    ensures ValidateFile(File(mime, MaxSize + 1)) == Rejected(TooLargeMessage)
  {
  }

  /** A file of the wrong type is refused for its type whatever its size. */
  lemma TypeCheckedFirst(f: File)
    requires f.mime !in AllowedTypes
    ensures ValidateFile(f) == ValidateFile(File(f.mime, 0))
  {
  }

  class Uploader {
    /** The preview data URL; `None` for `null`. */
    var preview: Option<string>
    /** The file the input holds, `None` once the input is reset. */
    var selected: Option<File>
    var isUploading: bool
    /** Every file handed to `updateProfilePicture`, in order. */
    var uploads: seq<File>
    /** How many times `onUploadSuccess` was called. */
    var successCalls: nat

    constructor ()
      ensures preview == None && selected == None && !isUploading && uploads == [] && successCalls == 0
    {
      preview := None;
      selected := None;
      isUploading := false;
      uploads := [];
      successCalls := 0;
    }

    /** `handleFileSelect` on a choice (`None` when none was made): an invalid file resets the
        input and leaves the preview alone; a valid one becomes the preview, `dataUrl` being
        what the browser's reader yields for it. Returns the rejection message, if any. */
    method HandleFileSelect(file: Option<File>, dataUrl: string) returns (message: Option<string>)
      modifies this
      ensures file.None? ==> message == None && preview == old(preview) && selected == None
      ensures file.Some? && ValidateFile(file.value).Rejected? ==>
                && message == Some(ValidateFile(file.value).message)
                && selected == None && preview == old(preview)
      ensures file.Some? && ValidateFile(file.value) == Accepted ==>
                message == None && selected == file && preview == Some(dataUrl)
      ensures isUploading == old(isUploading) && uploads == old(uploads)
      ensures successCalls == old(successCalls)
    {
      selected := file;
      if file.None? {
        return None;
      }
      var verdict := ValidateFile(file.value);
      if verdict.Rejected? {
        selected := None;
        return Some(verdict.message);
      }
      preview := Some(dataUrl);
      message := None;
    }

    /** `handleUpload` up to its `await`: with no file it only reports
        'Please select a file first'; otherwise the upload starts. */
    method BeginUpload() returns (message: Option<string>)
      modifies this
      ensures old(selected).None? ==>
                && message == Some("Please select a file first")
                && isUploading == old(isUploading) && uploads == old(uploads)
      ensures old(selected).Some? ==>
                message == None && isUploading && uploads == old(uploads) + [old(selected).value]
      ensures preview == old(preview) && selected == old(selected) && successCalls == old(successCalls)
    {
      if selected.None? {
        return Some("Please select a file first");
      }
      isUploading := true;
      uploads := uploads + [selected.value];
      message := None;
    }

    /** `handleUpload` after its `await`: success clears the preview and the input and calls
        `onUploadSuccess` when one was given; either way the upload is over. */
    method FinishUpload(succeeded: bool, hasCallback: bool)
      requires isUploading
      modifies this
      ensures !isUploading && uploads == old(uploads)
      ensures succeeded ==> preview == None && selected == None
      ensures succeeded ==> successCalls == old(successCalls) + (if hasCallback then 1 else 0)
      ensures !succeeded ==>
                preview == old(preview) && selected == old(selected) && successCalls == old(successCalls)
    {
      if succeeded {
        preview := None;
        selected := None;
        if hasCallback {
          successCalls := successCalls + 1;
        }
      }
      isUploading := false;
    }

    /** `handleCancel`: drop the preview and reset the input. */
    method HandleCancel()
      modifies this
      ensures preview == None && selected == None
      ensures isUploading == old(isUploading) && uploads == old(uploads)
      ensures successCalls == old(successCalls)
    {
      preview := None;
      selected := None;
    }
  }
}
