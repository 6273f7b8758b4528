/**
 * The POST handler of app/api/youtube/upload/route.ts: its early-return
 * guards, the video metadata it builds from the form, the optional
 * thumbnail and playlist steps, and the response.
 *
 * The session, the database lookup, the token refresh and the three
 * YouTube calls are I/O; their outcomes are the fields of `Env`.  The
 * handler's result records the response together with the external steps
 * it took, in order.
 */
module YouTubeUploadRoute {
  import opened Optional
  import opened Text
  import opened YouTubeErrors

  datatype File = File(name: string, size: nat)

  /** The multipart form as `formData.get` sees it: `None` for a field that was not sent. */
  datatype Form = Form(
    title: Option<string>, description: Option<string>, tags: Option<string>,
    videoFile: Option<File>, thumbnailFile: Option<File>, madeForKids: Option<string>,
    privacyStatus: Option<string>, playlistId: Option<string>)

  datatype User = User(googleRefreshToken: Option<string>)

  /** The `snippet` and `status` parts of the insert request. */
  datatype VideoMetadata = VideoMetadata(
    title: string, description: string, tags: Option<seq<string>>,
    privacyStatus: string, selfDeclaredMadeForKids: bool)

  datatype InsertOutcome = Inserted(videoId: string) | InsertFailed(message: Option<string>)

  /** What the handler's environment answers. */
  datatype Env = Env(
    email: Option<string>,
    user: Option<User>,
    tokenRefreshed: bool,
    insert: VideoMetadata -> InsertOutcome,
    setThumbnail: string -> bool,
    addToPlaylist: (string, string) -> bool)

  /** The external steps, each with what it was asked and, for the non-fatal ones, whether it succeeded. */
  datatype Step =
    | FindUser(email: string)
    | RefreshAccessToken
    | InsertVideo(metadata: VideoMetadata)
    | SetThumbnail(videoId: string, succeeded: bool)
    | AddToPlaylist(playlistId: string, videoId: string, succeeded: bool)

  datatype Response = Plain(status: int, body: string) | Uploaded(message: string, videoId: string)

  datatype Outcome = Outcome(response: Response, steps: seq<Step>)

  /** JavaScript truthiness of a form field: present and not empty. */
  predicate Truthy(field: Option<string>) {
    field.Some? && field.value != ""
  }

  /** `formData.get('madeForKids') === 'true'`. */
  function MadeForKids(field: Option<string>): bool {
    field == Some("true")
  }

  /** `madeForKids.toString()`, as the upload pages send it. */
  function BoolText(b: bool): string {
    if b then "true" else "false"
  }

  /** The pages' encoding of the flag parses back to the flag; anything else the route reads as false. */
  lemma MadeForKidsRoundTrip(b: bool, other: Option<string>)
    requires other != Some("true")
    ensures MadeForKids(Some(BoolText(b))) == b
    ensures !MadeForKids(other)
  {
    assert "false" != "true" by { assert "false"[0] != "true"[0]; }
  }

  /** `tags ? tags.split(',').map(tag => tag.trim()) : undefined`. */
  function Tags(tags: Option<string>): (r: Option<seq<string>>)
    ensures r.None? <==> !Truthy(tags)
  {
    if Truthy(tags) then
      var pieces := Split(tags.value, ',');
      Some(seq(|pieces|, i requires 0 <= i < |pieces| => Trim(pieces[i])))
    else None
  }

  /**
   * A tags string gives one tag per comma-separated piece, empty pieces
   * included: each tag is its piece trimmed, and no tag holds a comma.
   */
  lemma TagsArePieces(tags: string)
    requires tags != ""
    ensures var r := Tags(Some(tags)).value; var pieces := Split(tags, ',');
      && |r| == multiset(tags)[','] + 1
      && Join(pieces, ',') == tags
      && forall k :: 0 <= k < |r| ==> r[k] == Trim(pieces[k]) && ',' !in r[k]
  {
    var pieces := Split(tags, ',');
    forall k | 0 <= k < |pieces| ensures ',' !in Trim(pieces[k]) {
      TrimShape(pieces[k]);
    }
  }

  /** Without white space the tags are exactly the pieces, and joining them with commas gives the string back. */
  lemma TagsRoundTrip(tags: string)
    requires tags != ""
    requires forall k :: 0 <= k < |tags| ==> !IsWhitespace(tags[k])
    ensures Tags(Some(tags)) == Some(Split(tags, ','))
    ensures Join(Tags(Some(tags)).value, ',') == tags
  {
    var pieces := Split(tags, ',');
    forall k | 0 <= k < |pieces| ensures Trim(pieces[k]) == pieces[k] {
      PieceIsTrimmed(pieces, k);
    }
    assert Tags(Some(tags)).value == pieces;
  }

  /** A piece of a string without white space is its own trim. */
  lemma PieceIsTrimmed(pieces: seq<string>, k: nat)
    requires k < |pieces|
    requires forall m :: 0 <= m < |Join(pieces, ',')| ==> !IsWhitespace(Join(pieces, ',')[m])
    ensures Trim(pieces[k]) == pieces[k]
  {
    forall m | 0 <= m < |pieces[k]| ensures !IsWhitespace(pieces[k][m]) {
      JoinKeepsCharacters(pieces, ',', k, pieces[k][m]);
    }
    TrimWithoutWhitespace(pieces[k]);
  }

  /** The request body of `youtube.videos.insert` (the form's required fields are present here). */
  function Metadata(form: Form): VideoMetadata
    requires Truthy(form.title) && Truthy(form.description) && Truthy(form.privacyStatus)
  {
    VideoMetadata(form.title.value, form.description.value, Tags(form.tags),
                  form.privacyStatus.value, MadeForKids(form.madeForKids))
  }

  /** The required-field guard: title, description, video file and privacy status. */
  predicate HasRequiredFields(form: Form) {
    Truthy(form.title) && Truthy(form.description) && form.videoFile.Some? && Truthy(form.privacyStatus)
  }

  const NotConnectedMessage := "Google account not properly connected. Please reconnect your Google account."
  const ReauthenticateMessage := "Failed to authenticate with YouTube. Please reconnect your Google account."
  const SuccessMessage := "Video uploaded successfully"

  /**
   * POST: the guards in order, then the upload and its two optional
   * follow-up steps.  Every refusal carries a 4xx or 5xx status; nothing is
   * looked up or uploaded exactly when the session or form guard refuses;
   * a success comes only after every guard passed.
   */
  function Post(form: Form, env: Env): (r: Outcome)
    ensures r.response.Plain? ==> 400 <= r.response.status <= 599
    ensures r.steps == [] <==> !Truthy(env.email) || !HasRequiredFields(form)
    ensures r.response.Uploaded? ==>
      HasRequiredFields(form) && env.user.Some? && Truthy(env.user.value.googleRefreshToken) && env.tokenRefreshed
  {
    if !Truthy(env.email) then Outcome(Plain(401, "Unauthorized"), [])
    else if !HasRequiredFields(form) then Outcome(Plain(400, "Missing required fields"), [])
    else
      var found := [FindUser(env.email.value)];
      if env.user.None? then Outcome(Plain(404, "User not found"), found)
      else if !Truthy(env.user.value.googleRefreshToken) then Outcome(Plain(400, NotConnectedMessage), found)
      else
        var refreshed := found + [RefreshAccessToken];
        if !env.tokenRefreshed then Outcome(Plain(401, ReauthenticateMessage), refreshed)
        else
          var metadata := Metadata(form);
          var inserted := refreshed + [InsertVideo(metadata)];
          match env.insert(metadata)
          case InsertFailed(message) =>
            Outcome(Plain(ErrorStatus(message), ErrorBody(message, "YouTube upload failed: ")), inserted)
          case Inserted(videoId) =>
            Outcome(Uploaded(SuccessMessage, videoId), inserted + FollowUps(form, env, videoId))
  }

  /** The optional steps after a successful insert: set the thumbnail, then add to the playlist. */
  function FollowUps(form: Form, env: Env, videoId: string): seq<Step> {
    var thumbnail :=
      if form.thumbnailFile.Some? then [SetThumbnail(videoId, env.setThumbnail(videoId))] else [];
    var playlist :=
      if Truthy(form.playlistId) then [AddToPlaylist(form.playlistId.value, videoId, env.addToPlaylist(form.playlistId.value, videoId))]
      else [];
    thumbnail + playlist
  }

  /** The HTTP status of a response; the JSON success response is 200. */
  function Status(r: Response): int {
    if r.Uploaded? then 200 else r.status
  }

  /**
   * Without a signed-in user the answer is 401, and with a required field
   * missing it is 400, both before any database or YouTube step.
   */
  lemma GuardsComeFirst(form: Form, env: Env)
    ensures !Truthy(env.email) ==> Post(form, env) == Outcome(Plain(401, "Unauthorized"), [])
    ensures Truthy(env.email) && !HasRequiredFields(form) ==>
      Post(form, env) == Outcome(Plain(400, "Missing required fields"), [])
  {
  }

  /** A failed insert is answered with the status its message maps to, and no further step is taken. */
  lemma InsertFailureStatus(form: Form, env: Env, message: Option<string>)
    requires Truthy(env.email) && HasRequiredFields(form)
    requires env.user.Some? && Truthy(env.user.value.googleRefreshToken) && env.tokenRefreshed
    requires env.insert(Metadata(form)) == InsertFailed(message)
    ensures Status(Post(form, env).response) == ErrorStatus(message)
    ensures Post(form, env).steps[|Post(form, env).steps| - 1] == InsertVideo(Metadata(form))
  {
  }

  /**
   * A successful insert is answered with its video id, after the user
   * lookup, the token refresh and the insert, followed by the optional steps.
   */
  lemma UploadSucceeds(form: Form, env: Env, videoId: string)
    requires Truthy(env.email) && HasRequiredFields(form)
    requires env.user.Some? && Truthy(env.user.value.googleRefreshToken) && env.tokenRefreshed
    requires env.insert(Metadata(form)) == Inserted(videoId)
    ensures Post(form, env).response == Uploaded(SuccessMessage, videoId)
    ensures Post(form, env).steps
         == [FindUser(env.email.value), RefreshAccessToken, InsertVideo(Metadata(form))] + FollowUps(form, env, videoId)
  {
  }

  /**
   * The thumbnail is set exactly when one was sent, and the video is added
   * to a playlist, last, exactly when a playlist id was sent.
   */
  lemma FollowUpsListed(form: Form, env: Env, videoId: string)
    ensures var steps := FollowUps(form, env, videoId);
      && |steps| == (if form.thumbnailFile.Some? then 1 else 0) + (if Truthy(form.playlistId) then 1 else 0)
      && (form.thumbnailFile.Some? <==> steps != [] && steps[0].SetThumbnail?)
      && (form.thumbnailFile.Some? ==> steps[0].videoId == videoId)
      && (Truthy(form.playlistId) <==> steps != [] && steps[|steps| - 1].AddToPlaylist?)
      && (Truthy(form.playlistId) ==>
            steps[|steps| - 1].playlistId == form.playlistId.value && steps[|steps| - 1].videoId == videoId)
  {
  }

  /** Whether the thumbnail or playlist step fails does not change the response. */
  lemma FollowUpStepsAreNonFatal(form: Form, env: Env,
                                 setThumbnail: string -> bool, addToPlaylist: (string, string) -> bool)
    ensures Post(form, env.(setThumbnail := setThumbnail, addToPlaylist := addToPlaylist)).response
         == Post(form, env).response
  {
  }

  /** The metadata sent carries the form's title, description, privacy, parsed flag and split tags. */
  lemma MetadataFromForm(form: Form)
    requires Truthy(form.title) && Truthy(form.description) && Truthy(form.privacyStatus)
    ensures Metadata(form).title == form.title.value && Metadata(form).description == form.description.value
    ensures Metadata(form).privacyStatus == form.privacyStatus.value
    ensures Metadata(form).selfDeclaredMadeForKids <==> form.madeForKids == Some("true")
    ensures Metadata(form).tags.None? <==> !Truthy(form.tags)
  {
  }
}
