/**
 * The video upload form (app/youtube/upload/page.tsx, duplicated line for
 * line in app/upload/page.tsx): the ordered validation chain, the simulated
 * progress bar, and what a finished upload does to the form.
 */
module UploadForm {
  import opened Optional
  import opened Text

  /** The browser's File as far as validation looks at it. */
  datatype FileInfo = FileInfo(size: nat, mimeType: string)

  /** The form's input fields. */
  datatype Fields = Fields(
    title: string,
    description: string,
    tags: string,
    videoFile: Option<FileInfo>,
    thumbnailFile: Option<FileInfo>,
    madeForKids: bool,
    privacyStatus: string,
    selectedPlaylist: string,
    googleAccountId: string)

  const MiB := 1024 * 1024
  const MaxVideoSize := 128 * MiB
  const MaxThumbnailSize := 2 * MiB
  const ValidImageTypes := ["image/jpeg", "image/png", "image/jpg"]

  /** The checks of validateForm, one constructor per early return. */
  datatype Problem =
    | MissingTitle
    | MissingDescription
    | MissingVideo
    | MissingPrivacy
    | VideoTooLarge
    | ThumbnailTooLarge
    | ThumbnailType
    | MissingAccount

  /** The position of each check in the chain. */
  function Rank(p: Problem): nat {
    match p
    case MissingTitle => 0
    case MissingDescription => 1
    case MissingVideo => 2
    case MissingPrivacy => 3
    case VideoTooLarge => 4
    case ThumbnailTooLarge => 5
    case ThumbnailType => 6
    case MissingAccount => 7
  }

  /** The message validateForm writes to `error` for each check. */
  function Message(p: Problem): string {
    match p
    case MissingTitle => "Please enter a title"
    case MissingDescription => "Please enter a description"
    case MissingVideo => "Please select a video file"
    case MissingPrivacy => "Please select a privacy setting"
    case VideoTooLarge => "Video file too large. Maximum size is 128 MB"
    case ThumbnailTooLarge => "Thumbnail file too large. Maximum size is 2 MB"
    case ThumbnailType => "Thumbnail must be a JPEG or PNG file"
    case MissingAccount => "Please select a Google account for uploading"
  }

  /**
   * Each check on its own, independent of the order: what makes the field
   * it guards unacceptable.  The size and type checks concern a file that
   * is present.
   */
  predicate Fails(f: Fields, p: Problem) {
    match p
    case MissingTitle => |Trim(f.title)| == 0
    case MissingDescription => |Trim(f.description)| == 0
    case MissingVideo => f.videoFile.None?
    case MissingPrivacy => |f.privacyStatus| == 0
    case VideoTooLarge => f.videoFile.Some? && f.videoFile.value.size > MaxVideoSize
    case ThumbnailTooLarge => f.thumbnailFile.Some? && f.thumbnailFile.value.size > MaxThumbnailSize
    case ThumbnailType => f.thumbnailFile.Some? && f.thumbnailFile.value.mimeType !in ValidImageTypes
    case MissingAccount => |f.googleAccountId| == 0
  }

  /** validateForm's chain as a value: the first check that fails, or None. */
  function FirstProblem(f: Fields): Option<Problem> {
    if Fails(f, MissingTitle) then Some(MissingTitle)
    else if Fails(f, MissingDescription) then Some(MissingDescription)
    else if Fails(f, MissingVideo) then Some(MissingVideo)
    else if Fails(f, MissingPrivacy) then Some(MissingPrivacy)
    else if Fails(f, VideoTooLarge) then Some(VideoTooLarge)
    else if Fails(f, ThumbnailTooLarge) then Some(ThumbnailTooLarge)
    else if Fails(f, ThumbnailType) then Some(ThumbnailType)
    else if Fails(f, MissingAccount) then Some(MissingAccount)
    else None
  }

  /**
   * The chain reports a check exactly when that check fails and every
   * check before it passes; it reports nothing exactly when no check fails.
   */
  lemma FirstProblemIsFirstFailure(f: Fields, p: Problem)
    ensures FirstProblem(f) == Some(p) <==> Fails(f, p) && forall q :: Rank(q) < Rank(p) ==> !Fails(f, q)
    ensures FirstProblem(f).None? <==> forall q :: !Fails(f, q)
  {
    var first := FirstProblem(f);
    if first.Some? {
      forall q | Rank(q) < Rank(first.value) ensures !Fails(f, q) {
        match q
        case MissingTitle =>
        case MissingDescription =>
        case MissingVideo =>
        case MissingPrivacy =>
        case VideoTooLarge =>
        case ThumbnailTooLarge =>
        case ThumbnailType =>
        case MissingAccount =>
      }
      assert Fails(f, first.value);
      if first.value != p && Fails(f, p) {
        // p fails and is not first, so an earlier check than p fails too.
        assert Rank(first.value) < Rank(p) by {
          match p
          case MissingTitle =>
          case MissingDescription =>
          case MissingVideo =>
          case MissingPrivacy =>
          case VideoTooLarge =>
          case ThumbnailTooLarge =>
          case ThumbnailType =>
          case MissingAccount =>
        }
      }
    } else {
      forall q ensures !Fails(f, q) {
        match q
        case MissingTitle =>
        case MissingDescription =>
        case MissingVideo =>
        case MissingPrivacy =>
        case VideoTooLarge =>
        case ThumbnailTooLarge =>
        case ThumbnailType =>
        case MissingAccount =>
      }
    }
  }

  /** A video of exactly 128 MiB passes the size check; one byte more does not. */
  lemma VideoSizeBoundary(f: Fields)
    requires f.videoFile.Some?
    ensures f.videoFile.value.size == 134217728 ==> !Fails(f, VideoTooLarge)
    ensures f.videoFile.value.size == 134217729 ==> Fails(f, VideoTooLarge)
  {
  }

  /** The figures in the two size messages are the limits in MB. */
  lemma MessagesStateLimits()
    ensures MaxVideoSize / MiB == 128 && MaxThumbnailSize / MiB == 2
  {
  }

  /** A form without a thumbnail never fails a thumbnail check. */
  lemma ThumbnailOptional(f: Fields)
    requires f.thumbnailFile.None?
    ensures !Fails(f, ThumbnailTooLarge) && !Fails(f, ThumbnailType)
  {
  }

  // ------------------------------------------------------------ progress

  /**
   * One tick of the 500 ms progress interval: +5 below 95, otherwise 95 and
   * the interval clears itself (`stop`).
   */
  function Tick(prev: int): (r: (int, bool))
    ensures r.1 <==> prev >= 95
    ensures r.1 ==> r.0 == 95
    ensures !r.1 ==> r.0 == prev + 5 && r.0 < 100
  {
    if prev >= 95 then (95, true) else (prev + 5, false)
  }

  /** The bar after `n` ticks from `start`, the interval running throughout. */
  function ProgressAfter(start: int, n: nat): int
    decreases n
  {
    if n == 0 then start else Tick(ProgressAfter(start, n - 1)).0
  }

  /**
   * From 0 the bar reads min(5n, 95) after n ticks: a multiple of 5 that
   * never passes 95.
   */
  lemma {:induction false} ProgressFromZero(n: nat)
    ensures ProgressAfter(0, n) == if 5 * n <= 95 then 5 * n else 95
    ensures ProgressAfter(0, n) % 5 == 0 && 0 <= ProgressAfter(0, n) <= 95
    decreases n
  {
    if n > 0 {
      ProgressFromZero(n - 1);
    }
  }

  /**
   * Submitting does not reset the bar: after a successful upload it reads
   * 100, and the next submission's first tick brings it down to 95.
   */
  lemma ProgressFromFullDropsTo95()
    ensures ProgressAfter(100, 1) == 95
  {
  }

  // -------------------------------------------------------------- outcome

  /**
   * How handleSubmit's request ended: the server answered (ok or not, with
   * the `message` of its JSON body, "" where absent, and its `videoId`,
   * `None` where absent), or the fetch itself threw with the given message.
   */
  datatype Outcome =
    | Responded(ok: bool, serverMessage: string, videoId: Option<string>)
    | Thrown(errorMessage: string)

  predicate Succeeded(o: Outcome) {
    o.Responded? && o.ok
  }

  /**
   * The message shown after a successful upload; the template literal
   * renders a missing id as "undefined".
   */
  function SuccessMessage(videoId: Option<string>): string {
    "Video uploaded successfully! Video ID: " + (if videoId.Some? then videoId.value else "undefined")
  }

  /**
   * The success message ends with the video id, or with "undefined" when the
   * response has none; distinct ids give distinct messages, except that a
   * missing id reads like the id "undefined".
   */
  lemma SuccessMessageNamesVideo(videoId: Option<string>, otherId: Option<string>)
    ensures videoId.Some? ==> SuccessMessage(videoId)[39..] == videoId.value
    ensures videoId.None? ==> SuccessMessage(videoId) == "Video uploaded successfully! Video ID: undefined"
    ensures SuccessMessage(videoId) == SuccessMessage(otherId) ==>
      videoId == otherId || (videoId.None? && otherId == Some("undefined")) || (otherId.None? && videoId == Some("undefined"))
  {
    assert SuccessMessage(videoId)[39..] == (if videoId.Some? then videoId.value else "undefined");
    assert SuccessMessage(otherId)[39..] == (if otherId.Some? then otherId.value else "undefined");
  }

  /**
   * The error shown after a failure: a rejected response throws
   * `data.message || "Upload failed"`; the catch shows
   * `err.message || "Something went wrong"`.
   */
  function FailureMessage(o: Outcome): string
    requires !Succeeded(o)
  {
    var thrown := if o.Responded? then (if o.serverMessage == "" then "Upload failed" else o.serverMessage)
                  else o.errorMessage;
    if thrown == "" then "Something went wrong" else thrown
  }

  /**
   * The error is never empty: a server message is shown as sent, a rejected
   * response without one shows "Upload failed", and only a thrown error
   * without a message shows "Something went wrong".
   */
  lemma FailureMessageMeaning(o: Outcome)
    requires !Succeeded(o)
    ensures FailureMessage(o) != ""
    ensures o.Responded? ==> FailureMessage(o) == (if o.serverMessage == "" then "Upload failed" else o.serverMessage)
    ensures o.Thrown? ==> FailureMessage(o) == (if o.errorMessage == "" then "Something went wrong" else o.errorMessage)
  {
  }

  /** A rejected server response never shows the catch-all message, unless the server sent it. */
  lemma RejectionNeverGeneric(o: Outcome)
    requires o.Responded? && !o.ok && o.serverMessage != "Something went wrong"
    ensures FailureMessage(o) != "Something went wrong"
  {
  }

  /** The form after a successful upload: every field but the account back to its initial value. */
  function Cleared(f: Fields): (r: Fields)
    ensures r.googleAccountId == f.googleAccountId
  {
    Fields("", "", "", None, None, false, "private", "", f.googleAccountId)
  }

  /** The cleared form fails its first check: a new title is needed before the next upload. */
  lemma ClearedFormNeedsTitle(f: Fields)
    ensures FirstProblem(Cleared(f)) == Some(MissingTitle)
    ensures Cleared(f).privacyStatus == "private" && Cleared(f).videoFile.None?
  {
  }

  // ------------------------------------------------------------- the page

  /** The page component's form and upload state. */
  class UploadPage {
    var title: string
    var description: string
    var tags: string
    var videoFile: Option<FileInfo>
    var thumbnailFile: Option<FileInfo>
    var madeForKids: bool
    var privacyStatus: string
    var selectedPlaylist: string
    var googleAccountId: string
    var isUploading: bool
    var uploadProgress: int
    var message: string
    var error: string
    /** Whether the progress interval is still scheduled. */
    var timerRunning: bool

    function Form(): Fields
      reads this
    {
      Fields(title, description, tags, videoFile, thumbnailFile, madeForKids,
             privacyStatus, selectedPlaylist, googleAccountId)
    }

    /** The page as first rendered. */
    constructor ()
      ensures Form() == Fields("", "", "", None, None, false, "private", "", "")
      ensures !isUploading && uploadProgress == 0 && message == "" && error == "" && !timerRunning
    {
      title, description, tags := "", "", "";
      videoFile, thumbnailFile := None, None;
      madeForKids, privacyStatus, selectedPlaylist, googleAccountId := false, "private", "", "";
      isUploading, uploadProgress, message, error, timerRunning := false, 0, "", "", false;
    }

    /**
     * validateForm: the checks in order, the first failing one writing its
     * message to `error`.  Returns whether every check passed.
     */
    method ValidateForm() returns (ok: bool)
      modifies this`error
      ensures ok <==> FirstProblem(old(Form())).None?
      ensures !ok ==> error == Message(FirstProblem(old(Form())).value)
      ensures ok ==> error == old(error)
    {
      var f := Form();
      if |Trim(f.title)| == 0 {
        assert FirstProblem(f) == Some(MissingTitle);
        error := Message(MissingTitle);
        return false;
      }
      if |Trim(f.description)| == 0 {
        assert FirstProblem(f) == Some(MissingDescription);
        error := Message(MissingDescription);
        return false;
      }
      if f.videoFile.None? {
        assert FirstProblem(f) == Some(MissingVideo);
        error := Message(MissingVideo);
        return false;
      }
      if |f.privacyStatus| == 0 {
        assert FirstProblem(f) == Some(MissingPrivacy);
        error := Message(MissingPrivacy);
        return false;
      }
      if f.videoFile.value.size > MaxVideoSize {
        assert FirstProblem(f) == Some(VideoTooLarge);
        error := Message(VideoTooLarge);
        return false;
      }
      if f.thumbnailFile.Some? {
        if f.thumbnailFile.value.size > MaxThumbnailSize {
          assert FirstProblem(f) == Some(ThumbnailTooLarge);
          error := Message(ThumbnailTooLarge);
          return false;
        }
        if f.thumbnailFile.value.mimeType !in ValidImageTypes {
          assert FirstProblem(f) == Some(ThumbnailType);
          error := Message(ThumbnailType);
          return false;
        }
      }
      if |f.googleAccountId| == 0 {
        assert FirstProblem(f) == Some(MissingAccount);
        error := Message(MissingAccount);
        return false;
      }
      return true;
    }

    /**
     * The first half of handleSubmit: clear the messages, validate, and on
     * success start uploading with the progress interval running.
     */
    method BeginSubmit() returns (started: bool)
      modifies this
      ensures started <==> FirstProblem(Form()).None?
      ensures Form() == old(Form()) && uploadProgress == old(uploadProgress)
      ensures message == ""
      ensures started ==> error == "" && isUploading && timerRunning
      ensures !started ==>
        && error == Message(FirstProblem(Form()).value)
        && isUploading == old(isUploading) && timerRunning == old(timerRunning)
    {
      error := "";
      message := "";
      started := ValidateForm();
      if started {
        isUploading := true;
        timerRunning := true;
      }
    }

    /** The progress interval fires (it does nothing once cleared). */
    method TickProgress()
      modifies this`uploadProgress, this`timerRunning
      ensures old(timerRunning) ==> (uploadProgress, !timerRunning) == Tick(old(uploadProgress))
      ensures !old(timerRunning) ==> uploadProgress == old(uploadProgress) && !timerRunning
    {
      if timerRunning {
        var next := Tick(uploadProgress);
        uploadProgress := next.0;
        timerRunning := !next.1;
      }
    }

    /**
     * The second half of handleSubmit: the interval is cleared; success
     * shows the video id, fills the bar and clears the form (the account
     * stays selected); failure shows the error and empties the bar.
     */
    method FinishSubmit(outcome: Outcome)
      modifies this`timerRunning, this`isUploading, this`uploadProgress, this`message, this`error,
               this`title, this`description, this`tags, this`videoFile, this`thumbnailFile,
               this`madeForKids, this`privacyStatus, this`selectedPlaylist
      ensures !timerRunning && !isUploading
      ensures Succeeded(outcome) ==>
        && uploadProgress == 100
        && message == SuccessMessage(outcome.videoId)
        && error == old(error)
        && Form() == Cleared(old(Form()))
      ensures !Succeeded(outcome) ==>
        && uploadProgress == 0
        && error == FailureMessage(outcome)
        && message == old(message)
        && Form() == old(Form())
    {
      timerRunning := false;
      if Succeeded(outcome) {
        ShowSuccess(outcome.videoId);
      } else {
        error := FailureMessage(outcome);
        uploadProgress := 0;
      }
      isUploading := false;
    }

    /** The success branch: the bar fills, the video id is shown and the form is cleared. */
    method ShowSuccess(videoId: Option<string>)
      modifies this`uploadProgress, this`message,
               this`title, this`description, this`tags, this`videoFile, this`thumbnailFile,
               this`madeForKids, this`privacyStatus, this`selectedPlaylist
      ensures uploadProgress == 100 && message == SuccessMessage(videoId)
      ensures Form() == Cleared(old(Form()))
    {
      uploadProgress := 100;
      message := SuccessMessage(videoId);
      ResetForm();
    }

    /** The reset after a successful upload: every field but the account back to its initial value. */
    method ResetForm()
      modifies this`title, this`description, this`tags, this`videoFile, this`thumbnailFile,
               this`madeForKids, this`privacyStatus, this`selectedPlaylist
      ensures Form() == Cleared(old(Form()))
    {
      var cleared := Cleared(Form());
      title, description, tags := cleared.title, cleared.description, cleared.tags;
      videoFile, thumbnailFile := cleared.videoFile, cleared.thumbnailFile;
      madeForKids, privacyStatus, selectedPlaylist := cleared.madeForKids, cleared.privacyStatus, cleared.selectedPlaylist;
    }
  }
}
