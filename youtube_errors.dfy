/**
 * The mapping from a failed YouTube API call to an HTTP status, written
 * out identically in app/api/youtube/upload/route.ts and
 * app/api/youtube/playlists/route.ts.  An error may carry no message
 * (`youtubeError.message` undefined), which is `None` here.
 */
module YouTubeErrors {
  import opened Optional
  import opened Text

  /** `message && message.includes(word)`: a present message mentioning the word. */
  predicate Mentions(message: Option<string>, word: string) {
    message.Some? && message.value != "" && Contains(message.value, word)
  }

  /** The status of a failed call: quota first, then permission, otherwise a server error. */
  function ErrorStatus(message: Option<string>): (status: int)
    ensures status in {429, 403, 500}
  {
    if Mentions(message, "quota") then 429
    else if Mentions(message, "permission") then 403
    else 500
  }

  /** The message shown when the call failed for some other reason, or "Unknown YouTube API error". */
  function Detail(message: Option<string>): (r: string)
    ensures message.Some? && message.value != "" ==> r == message.value
    ensures message.None? || message.value == "" ==> r == "Unknown YouTube API error"
  {
    if message.Some? && message.value != "" then message.value else "Unknown YouTube API error"
  }

  const QuotaMessage := "YouTube API quota exceeded. Please try again later."
  const PermissionMessage := "Insufficient permissions. Please reconnect your Google account with appropriate permissions."

  /** The body sent with the status; `failurePrefix` names the route's operation for a server error. */
  function ErrorBody(message: Option<string>, failurePrefix: string): string {
    var status := ErrorStatus(message);
    if status == 429 then QuotaMessage
    else if status == 403 then PermissionMessage
    else failurePrefix + Detail(message)
  }

  /** Each status corresponds to exactly one class of message. */
  lemma ErrorStatusClasses(message: Option<string>)
    ensures ErrorStatus(message) == 429 <==> Mentions(message, "quota")
    ensures ErrorStatus(message) == 403 <==> !Mentions(message, "quota") && Mentions(message, "permission")
    ensures ErrorStatus(message) == 500 <==> !Mentions(message, "quota") && !Mentions(message, "permission")
  {
  }

  /**
   * Any message with "quota" written in it maps to 429, even when it also
   * mentions permissions: the quota check comes first.
   */
  lemma QuotaWins(before: string, after: string)
    ensures ErrorStatus(Some(before + "quota" + after)) == 429
  {
    ContainsInfix(before, "quota", after);
    assert |before + "quota" + after| >= 5;
  }

  /** A message with "permission" written in it and no mention of a quota maps to 403. */
  lemma PermissionIsForbidden(before: string, after: string)
    requires !Contains(before + "permission" + after, "quota")
    ensures ErrorStatus(Some(before + "permission" + after)) == 403
  {
    ContainsInfix(before, "permission", after);
    assert |before + "permission" + after| >= 10;
  }

  /** An error without a message is a server error with the generic detail. */
  lemma NoMessageIsServerError()
    ensures ErrorStatus(None) == 500 && Detail(None) == "Unknown YouTube API error"
  {
  }
}
