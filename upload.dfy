/** The upload page: pick a video file, preview it, write a description and
    post both as one multipart request. */
module Upload {
  import opened Wrappers
  import opened Text

  /** A `blob:` URL made by `URL.createObjectURL`; the page never revokes one. */
  type ObjectUrl = string

  /** The part of a browser `File` the page looks at. */
  datatype FileInfo = FileInfo(name: string, mimeType: string)

  /** The multipart POST to `/api/videos`: fields `video` and `description`. */
  datatype UploadRequest = UploadRequest(video: FileInfo, description: string)

  const SelectVideoMessage := "Please select a video file"
  const AddDescriptionMessage := "Please add a description"
  const TooLongMessage := "Video must be less than 60 seconds"
  const UploadFailedMessage := "Upload failed"

  /** Longest accepted clip, in seconds. */
  const MaxDuration: real := 60.0

  /** `file.type.startsWith('video/')`. */
  predicate IsVideoType(mimeType: string)
  {
    StartsWith(mimeType, "video/")
  }

  class UploadForm {
    var file: Option<FileInfo>
    var description: string
    var uploading: bool
    /** The message shown above the form; "" shows none. */
    var error: string
    var preview: Option<ObjectUrl>
    /** Every preview URL created so far, oldest first; all of them stay live. */
    var createdUrls: seq<ObjectUrl>

    /** A file is held exactly while its preview is shown: every handler that
        sets or clears one does the same to the other. */
    predicate FileHasPreview()
      reads this
    {
      file.Some? <==> preview.Some?
    }

    constructor ()
      ensures file == None && description == "" && !uploading && error == ""
      ensures preview == None && createdUrls == []
      ensures FileHasPreview()
    {
      file, description, uploading, error := None, "", false, "";
      preview, createdUrls := None, [];
    }

    /** `handleFileChange` with `selected` the first chosen file (None when the
        dialog was dismissed) and `freshUrl` what `URL.createObjectURL` returns
        for it. A video takes the place of the current file and preview without
        revoking the old URL; anything else is refused and clears both. */
    method HandleFileChange(selected: Option<FileInfo>, freshUrl: ObjectUrl)
      modifies this`file, this`error, this`preview, this`createdUrls
      ensures selected.None? ==>
        file == old(file) && error == old(error) && preview == old(preview) && createdUrls == old(createdUrls)
      ensures selected.Some? && IsVideoType(selected.value.mimeType) ==>
        file == selected && error == "" && preview == Some(freshUrl)
        && createdUrls == old(createdUrls) + [freshUrl]
      ensures selected.Some? && !IsVideoType(selected.value.mimeType) ==>
        file == None && error == SelectVideoMessage && preview == None && createdUrls == old(createdUrls)
      ensures old(FileHasPreview()) ==> FileHasPreview()
    {
      if selected.Some? {
        if IsVideoType(selected.value.mimeType) {
          file := selected;
          error := "";
          createdUrls := createdUrls + [freshUrl];
          preview := Some(freshUrl);
        } else {
          error := SelectVideoMessage;
          file := None;
          preview := None;
        }
      }
    }

    /** The preview's `onLoadedMetadata` with the clip's `duration` in seconds:
        anything longer than a minute is dropped with a message; exactly a
        minute or less changes nothing. The callback exists only while the
        preview <video> is mounted, that is, while there is a preview. */
    method MetadataLoaded(duration: real)
      requires preview.Some?
      modifies this`file, this`error, this`preview
      ensures old(FileHasPreview()) ==> FileHasPreview()
      ensures duration > MaxDuration ==> file == None && preview == None && error == TooLongMessage
      ensures duration <= MaxDuration ==> file == old(file) && preview == old(preview) && error == old(error)
    {
      if duration > MaxDuration {
        error := TooLongMessage;
        file := None;
        preview := None;
      }
    }

    /** The description's `onChange`; the 500-character limit is the
        textarea's own `maxLength`, not checked here. */
    method EditDescription(text: string)
      modifies this`description
      ensures description == text
    {
      description := text;
    }

    /** `handleSubmit` up to its `await`: a missing file is reported first, then
        a blank description; otherwise the form is marked uploading, the
        message cleared and the request sent. Nothing here looks at
        `uploading`, so a second submit while one is in flight sends again. */
    method SubmitStart() returns (request: Option<UploadRequest>)
      modifies this`error, this`uploading
      ensures file.None? ==>
        request == None && error == SelectVideoMessage && uploading == old(uploading)
      ensures file.Some? && IsBlank(description) ==>
        request == None && error == AddDescriptionMessage && uploading == old(uploading)
      ensures file.Some? && !IsBlank(description) ==>
        request == Some(UploadRequest(file.value, description)) && uploading && error == ""
    {
      if file.None? {
        error := SelectVideoMessage;
        return None;
      }
      if Trim(description) == "" {
        error := AddDescriptionMessage;
        return None;
      }
      uploading := true;
      error := "";
      request := Some(UploadRequest(file.value, description));
    }

    /** `handleSubmit` after its `await`: a success navigates to the feed; a
        failure shows the server's message, or the generic one when the message
        is missing or empty; either way `uploading` ends false and the file
        and description stay for a retry. */
    method SubmitSettled(response: Outcome<()>) returns (navigateHome: bool)
      modifies this`error, this`uploading
      ensures !uploading
      ensures navigateHome <==> response.Ok?
      ensures response.Ok? ==> error == old(error)
      ensures response.Failed? ==>
        error == if response.message.Some? && response.message.value != "" then response.message.value
                 else UploadFailedMessage
    {
      navigateHome := false;
      match response {
        case Ok(_) =>
          navigateHome := true;
        case Failed(message) =>
          error := if message.Some? && message.value != "" then message.value else UploadFailedMessage;
      }
      uploading := false;
    }

    /** `handleCancel`: clears the file, the description, the preview and the
        message; the preview URL is dropped without being revoked. */
    method HandleCancel()
      modifies this`file, this`description, this`preview, this`error
      ensures file == None && description == "" && preview == None && error == ""
      ensures FileHasPreview()
    {
      file := None;
      description := "";
      preview := None;
      error := "";
    }
  }

  /** A video longer than a minute cannot be submitted: once its metadata has
      loaded the form has no file, so a submit reports the missing file and
      sends nothing, whatever the description. */
  method TooLongVideoIsNotSent(f: FileInfo, url: ObjectUrl, duration: real, text: string)
    returns (request: Option<UploadRequest>, error: string)
    requires IsVideoType(f.mimeType) && duration > MaxDuration
    ensures request == None && error == SelectVideoMessage
  {
    var form := new UploadForm();
    form.HandleFileChange(Some(f), url);
    form.MetadataLoaded(duration);
    form.EditDescription(text);
    request := form.SubmitStart();
    error := form.error;
  }

  /** A video of at most a minute with a non-blank description is sent as one
      request carrying that file and the description as typed. */
  method ShortVideoIsSent(f: FileInfo, url: ObjectUrl, duration: real, text: string)
    returns (request: Option<UploadRequest>, uploading: bool)
    requires IsVideoType(f.mimeType) && duration <= MaxDuration && !IsBlank(text)
    ensures request == Some(UploadRequest(f, text)) && uploading
  {
    var form := new UploadForm();
    form.HandleFileChange(Some(f), url);
    form.MetadataLoaded(duration);
    form.EditDescription(text);
    request := form.SubmitStart();
    uploading := form.uploading;
  }

  /** After a failed upload the form shows the failure and keeps the file and
      the description, so submitting again sends the same request. */
  method RetryAfterFailureResends(f: FileInfo, url: ObjectUrl, text: string, message: Option<string>)
    returns (first: Option<UploadRequest>, shown: string, second: Option<UploadRequest>)
    requires IsVideoType(f.mimeType) && !IsBlank(text)
    ensures first == second == Some(UploadRequest(f, text))
    ensures shown == if message.Some? && message.value != "" then message.value else UploadFailedMessage
  {
    var form := new UploadForm();
    form.HandleFileChange(Some(f), url);
    form.EditDescription(text);
    first := form.SubmitStart();
    var _ := form.SubmitSettled(Failed(message));
    shown := form.error;
    second := form.SubmitStart();
  }

  /** A second submit while the first is still in flight sends a second,
      identical request: only the disabled button prevents it. */
  method SubmitTwiceWhileUploading(f: FileInfo, url: ObjectUrl, text: string)
    returns (first: Option<UploadRequest>, second: Option<UploadRequest>)
    requires IsVideoType(f.mimeType) && !IsBlank(text)
    ensures first.Some? && second == first
  {
    var form := new UploadForm();
    form.HandleFileChange(Some(f), url);
    form.EditDescription(text);
    first := form.SubmitStart();
    second := form.SubmitStart();
  }

  /** Choosing two videos one after the other keeps both object URLs alive:
      the second replaces the first in the preview without revoking it. */
  method ReplacedPreviewStaysLive(f: FileInfo, g: FileInfo, u: ObjectUrl, v: ObjectUrl)
    returns (preview: Option<ObjectUrl>, live: seq<ObjectUrl>)
    requires IsVideoType(f.mimeType) && IsVideoType(g.mimeType)
    ensures preview == Some(v) && live == [u, v]
  {
    var form := new UploadForm();
    form.HandleFileChange(Some(f), u);
    form.HandleFileChange(Some(g), v);
    preview, live := form.preview, form.createdUrls;
  }
}
