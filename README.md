# A verified model of the editor, upload and sharing logic of a social-media publishing app

The application is a Next.js app for preparing social-media content and publishing it. Its logic is small and scattered across pages, components and API routes. This project models it in Dafny, one module per source file, and proves what each part promises.

- **The canvas editor** (`components/Editor.tsx`), module `Editor` with its laws in `EditorLaws`.
  - The document is an ordered list of scene objects (text boxes, shapes, images with filters), a document size and a selected object. The canvas element's own size is kept apart. It follows the document size, except that undo and redo set it from the snapshot they load, and alignment reads it.
  - History is a snapshot-based undo/redo. `saveState` records a snapshot of the document and a size. That size is always 800x600: `saveState` is memoised on the canvas alone, so it keeps the size of the render in which the canvas appeared. It skips unchanged states, caps undo at 30 entries and empties redo. `undo` and `redo` move one snapshot between the stacks.
  - Changes are debounced: a pending capture that a new schedule replaces. Edits schedule it. So do `undo`, `redo` and the initial load, because reloading the canvas fires `object:removed` and `object:added` for every object.
  - Operations: load the initial document, resize, apply a preset, add shapes, filters, text styling, alignment, delete, clone and reorder.
  - Every operation is a method of the class `Editor.EditorSession`. Its postcondition equates the new state with a pure step function of the old state, and the laws are proved about those step functions.
- **The video upload form** (`app/youtube/upload/page.tsx`, and its copy `app/upload/page.tsx`, whose logic is identical five lines further down), module `UploadForm`.
  - The ordered validation chain and its messages.
  - The simulated progress bar.
  - What success and failure do to the form. The page is the class `UploadForm.UploadPage`.
- **The weekly schedule widget** (`components/WeeklySchedule.tsx`), module `WeeklySchedule`.
  - A week of days per platform, and a three-day window that scrolls over them.
  - Platform selection and editing a day's content, in the class `ScheduleView`.
- **The share buttons** (`components/ShareButtons.tsx`), module `ShareButtons`: the hashtag pipeline, the share text and the Tumblr share link.
- **The Facebook analytics page** (`app/facebook/analytics/page.tsx`), module `FacebookAnalytics`: metric lookup, totals, the 14-entry chart window and its bar heights, and the default account selection.
- **The project dashboard** (`app/Editordashboard/page.tsx`), module `EditorDashboard`.
  - The search filter.
  - The "recent projects" strip. It sorts the projects array in place, newest first, by an insertion sort on an `array`, and takes its first five entries.
- **The middleware** (`middleware.ts`), module `Middleware`: public paths, the redirect decision, and the matcher.
  - The session-refresh redirect is proved never to fire. The query parameter is set before the check that looks for it, so the check always finds it.
- **The YouTube API routes**:
  - `app/api/youtube/upload/route.ts`, module `YouTubeUploadRoute`. It covers the guard chain, the `madeForKids` parse, the tag split, and the non-fatal thumbnail and playlist steps.
  - `app/api/youtube/playlists/route.ts`, module `YouTubePlaylistsRoute`. It covers the guard chain and the playlist mapping with defaults.
  - Both share the error-to-status mapping of module `YouTubeErrors`.

Helper modules:
- `Optional` holds the option type.
- `Text` holds the parts of JavaScript's string methods that the code uses: `split` on one character, `trim`, `includes`, `startsWith`, and ASCII `toLowerCase`.

Inputs the code reads from the outside world are parameters:
- the clock;
- `JSON.parse`;
- `encodeURIComponent`;
- date formatting;
- the session;
- the database;
- the YouTube API.

A route handler's answer is a function of those inputs.

## Model

| member | source | states |
|---|---|---|
| Editor.Capture | components/Editor.tsx:116-121 | the snapshot holds the scene and the size 800x600 of the render in which `saveState` was memoised (lines 33-34, 130), whatever the document's current size |
| Editor.EditorSession.SaveState | components/Editor.tsx:116-130 | the new state is `Save` of the old one, and the session invariant holds: the selection is in range, undo plus redo hold at most 30 entries, and redo entries carry no document size |
| EditorLaws.SaveSkipsIdentical | components/Editor.tsx:118-122 | a capture equal to the last recorded state changes nothing |
| EditorLaws.SaveRecordsChange | components/Editor.tsx:122-128 | a new capture empties redo and becomes the last state; the previous last state is pushed onto undo only if there was one; undo keeps its 30 newest entries and evicts the oldest |
| EditorLaws.SaveBoundsUndo | components/Editor.tsx:123-125 | after a save the undo stack holds at most 30 entries |
| EditorLaws.SaveIdempotent | components/Editor.tsx:116-130 | saving twice in a row is the same as saving once |
| EditorLaws.FirstChangeIsNotUndoable | components/Editor.tsx:123-125 | in a fresh editor the first recorded change pushes nothing, so it cannot be undone |
| Editor.EditorSession.DebounceSaveState | components/Editor.tsx:111-114 | schedules the capture; an existing schedule is replaced |
| Editor.EditorSession.SaveTimerFires | components/Editor.tsx:113 | a pending capture runs once and is no longer pending |
| EditorLaws.EditKeepsHistory | components/Editor.tsx:71-74 | every edit (add, resize, filter, format, text alignment, alignment, delete, clone, reorder) leaves undo, redo and the last state alone, keeps a scheduled capture, and schedules one whenever it changes the scene or the size |
| EditorLaws.EditsKeepHistory | components/Editor.tsx:71-74 | the same for any sequence of edits with no timer firing in between |
| EditorLaws.EditsCoalesce | components/Editor.tsx:111-130 | a burst of edits followed by one timer firing adds at most one undo entry; when the history was in step before the burst, that entry is the scene before the burst, redo is emptied and the scene after the burst becomes the last state |
| EditorLaws.UndoRevertsBurst | components/Editor.tsx:111-144 | after a burst of edits and the timer, one undo brings back the scene from before the burst |
| EditorLaws.FlushAddsAtMostOne | components/Editor.tsx:111-130 | one timer firing adds at most one undo entry |
| Editor.EditorSession.Undo | components/Editor.tsx:132-144 | the new state is `UndoStep` of the old one, and the invariant holds; the canvas element takes the loaded entry's size (line 136); the reload schedules a capture when it removes or adds any object (lines 71-74) |
| Editor.EditorSession.Redo | components/Editor.tsx:146-158 | the new state is `RedoStep` of the old one, and the invariant holds; the canvas element takes the loaded entry's size (line 150); the reload schedules a capture when it removes or adds any object (lines 71-74) |
| EditorLaws.EmptyStacksAreNoOps | components/Editor.tsx:132-158 | undo with an empty undo stack and redo with an empty redo stack change nothing |
| EditorLaws.UndoMovesNewestEntry | components/Editor.tsx:132-144 | undo loads the newest undo entry, which becomes the last state, removes it, and puts the bare pre-undo scene at the front of redo |
| EditorLaws.RedoMovesFrontEntry | components/Editor.tsx:146-158 | redo loads the front redo entry, removes it, and appends the bare pre-redo scene to undo without the cap |
| EditorLaws.UndoThenRedo | components/Editor.tsx:132-158 | undo then redo restores the scene, the redo stack and the undo stack's length; the entry that went round loses its document size |
| EditorLaws.RedoThenUndo | components/Editor.tsx:132-158 | redo then undo restores the scene, the undo stack and the redo stack's length |
| EditorLaws.UndosThenRedos | components/Editor.tsx:132-158 | k undos followed by k redos restore the scene, the redo stack and the undo stack's length |
| EditorLaws.CaptureAfterRedoClearsRedo | components/Editor.tsx:116-158 | after a redo the next capture always differs from the last state, because the redo entry has no document size, so that capture empties redo |
| EditorLaws.TimerAfterUndoKeepsRedo | components/Editor.tsx:111-144 | when the entry undone was a capture, the timer the reload scheduled (lines 71-74) records nothing, so redo stays available |
| EditorLaws.TimerAfterRedoEndsRedo | components/Editor.tsx:111-158 | a redo that reloads any object schedules a capture (lines 71-74); when the timer fires, redo is emptied, so a second redo after the timer does nothing |
| EditorLaws.UndoNeverExceedsCap | components/Editor.tsx:124-156 | redo's uncapped append never takes undo past 30 |
| Editor.EditorSession.LoadInitialData | components/Editor.tsx:82-102 | the new state is `Load` of the old one, and the invariant holds; the reload schedules a capture when it removes or adds any object (lines 71-74) |
| Editor.EditorSession.LoadParsed | components/Editor.tsx:84-96 | once the document parsed, the new state is `Loaded` of the old one: the `\|\|` size defaults for the document and the canvas element, the parsed scene, the bare serialisation recorded, both stacks emptied, and a capture scheduled when objects were removed or added |
| EditorLaws.LoadOutcome | components/Editor.tsx:83-100 | a parsed document replaces the scene and takes its nonzero width and height as given (800/600 when missing or 0); it gives the canvas element the same size (line 90), records itself, empties both stacks and schedules a capture exactly when objects were removed or added; an empty prop or a parse failure changes nothing |
| EditorLaws.FirstCaptureAfterLoad | components/Editor.tsx:82-130 | after a load the first capture is recorded even without an edit, and the loaded scene is the one undo entry |
| EditorLaws.RectangleTextUndoRedo | components/Editor.tsx:82-158 | worked example: load, add a rectangle and a text, undo leaves the rectangle, redo brings the text back after it |
| Editor.EditorSession.UpdateCanvasSize | components/Editor.tsx:171-179 | the document and the canvas element take the new size and a capture is scheduled |
| Editor.EditorSession.ApplyPreset | components/Editor.tsx:181-187 | a preset resizes to its width and height |
| Editor.EditorSession.SetSizeInputs | components/Editor.tsx:520-529 | an input sets the width or height, with 800/600 when it parses to nothing or 0; the size effect (lines 104-109) passes the size to the canvas element only when the size state changed |
| EditorLaws.ResizeKeepsObjects | components/Editor.tsx:171-179 | resizing sets the document size and the canvas element's size and leaves every object as it was |
| EditorLaws.PresetsWellFormed | components/Editor.tsx:181-187 | five presets with positive sizes and distinct names |
| Editor.EditorSession.AddText | components/Editor.tsx:276-287 | appends the default text box at (100, 100), selects it and schedules a capture |
| Editor.EditorSession.AddRectangle | components/Editor.tsx:289-298 | appends the 100x100 rectangle at (100, 100), selects it and schedules a capture |
| Editor.EditorSession.AddCircle | components/Editor.tsx:300-309 | appends the radius-50 circle at (100, 100), selects it and schedules a capture |
| Editor.EditorSession.AddTriangle | components/Editor.tsx:311-320 | appends the 100x100 triangle at (100, 100), selects it and schedules a capture |
| Editor.EditorSession.AddPolygon | components/Editor.tsx:322-334 | appends the pentagon at (100, 100), selects it and schedules a capture |
| Editor.EditorSession.AddUploadedImage | components/Editor.tsx:263-270 | appends the uploaded image at the origin at half scale, selects it and schedules a capture |
| Editor.EditorSession.Select | components/Editor.tsx:67-68 | selecting an object changes only the selection |
| Editor.EditorSession.ClearSelection | components/Editor.tsx:69 | clearing the selection changes nothing else |
| Editor.FiltersFor | components/Editor.tsx:353-358 | the installed filter list has at most one filter, and is empty exactly for an unknown kind |
| Editor.EditorSession.ApplyFilter | components/Editor.tsx:350-363 | the new state is `FilterStep` of the old one |
| EditorLaws.FilterReplacesList | components/Editor.tsx:350-363 | only a selected image is affected; its filter list becomes exactly one filter of the requested kind and value, or none for an unknown kind |
| EditorLaws.FilterIdempotent | components/Editor.tsx:350-363 | applying the same filter and value twice equals applying it once |
| Editor.Formatted | components/Editor.tsx:368-372 | formatting keeps the text and everything but the style |
| Editor.EditorSession.FormatText | components/Editor.tsx:365-376 | the new state is `FormatStep` of the old one |
| EditorLaws.FormatTwiceRestores | components/Editor.tsx:368-372 | toggling underline twice, or bold or italic from normal or set, restores the text box |
| EditorLaws.BoldTwiceFromOtherWeight | components/Editor.tsx:369 | any other weight becomes bold and then normal, so it is lost |
| Editor.EditorSession.AlignText | components/Editor.tsx:380-387 | the new state is `AlignTextStep` of the old one |
| Editor.EditorSession.AlignObject | components/Editor.tsx:389-403 | the new state is `AlignStep` of the old one: the selected object is aligned against the canvas element's size, not the document size |
| EditorLaws.AlignedPlacesBox | components/Editor.tsx:392-399 | left/top go to 0, right/bottom put the scaled box's far edge on the document's, center/middle centre it; exactly one coordinate moves; an unknown value changes nothing |
| EditorLaws.CenterExample | components/Editor.tsx:394 | a 100-wide object centred in an 800-wide document lands at 350 |
| EditorLaws.AlignTouchesOnlySelection | components/Editor.tsx:389-403 | alignment moves only the selected object, placing it against the canvas element's width and height, leaves every object in place when the dimension it reads is undefined, and schedules a capture |
| EditorLaws.ReloadSetsElementSize | components/Editor.tsx:132-158 | undo gives the canvas element the size of the entry it loads, redo leaves it undefined (redo entries carry no size), and neither touches the document size |
| EditorLaws.AlignRightAfterUndo | components/Editor.tsx:132-144 | after an undo to a capture, a new rectangle aligned right lands at 700 (lines 289-298, 395) whatever the document size |
| EditorLaws.AlignAfterRedoMovesNothing | components/Editor.tsx:146-158 | after a redo, aligning a selected object to the centre, right, middle or bottom (lines 394-398) moves nothing and only schedules a capture |
| Editor.EditorSession.DeleteObject | components/Editor.tsx:405-412 | the new state is `Delete` of the old one |
| EditorLaws.DeleteRemovesSelection | components/Editor.tsx:405-412 | delete removes exactly the selected object (one copy fewer in the multiset) and clears the selection |
| Editor.EditorSession.CloneObject | components/Editor.tsx:414-424 | the new state is `Clone` of the old one |
| EditorLaws.CloneAppendsOffsetCopy | components/Editor.tsx:414-424 | clone appends a copy 10 right and 10 down, selects it, and leaves every existing object as it was |
| Editor.EditorSession.BringObjectForward | components/Editor.tsx:941-947 | the new state is `BringForward` of the old one |
| Editor.EditorSession.SendObjectBackwards | components/Editor.tsx:952-958 | the new state is `SendBackwards` of the old one |
| EditorLaws.ForwardThenBackward | components/Editor.tsx:941-958 | forward then backward restores the order and the selection |
| EditorLaws.ReorderKeepsObjects | components/Editor.tsx:941-958 | reordering permutes the objects and does nothing at the end of the stack |
| UploadForm.FirstProblemIsFirstFailure | app/youtube/upload/page.tsx:91-140 | the chain reports a check exactly when it fails and every earlier check passes, and reports nothing exactly when no check fails (app/upload/page.tsx:96-145 is the same chain) |
| UploadForm.VideoSizeBoundary | app/youtube/upload/page.tsx:109-117 | a video of exactly 128 MiB passes and one byte more fails |
| UploadForm.MessagesStateLimits | app/youtube/upload/page.tsx:111-126 | the size messages' figures are the limits in MB |
| UploadForm.ThumbnailOptional | app/youtube/upload/page.tsx:119-134 | without a thumbnail no thumbnail check fails |
| UploadForm.UploadPage.ValidateForm | app/youtube/upload/page.tsx:91-140 | returns true exactly when no check fails; otherwise `error` holds the first failing check's message (the same on app/upload/page.tsx:96-145) |
| UploadForm.UploadPage.BeginSubmit | app/youtube/upload/page.tsx:142-150 | clears the messages; it starts uploading with the progress timer running only when validation passes |
| UploadForm.UploadPage.TickProgress | app/youtube/upload/page.tsx:151-159 | a running timer adds 5 below 95, otherwise sets 95 and stops |
| UploadForm.ProgressFromZero | app/youtube/upload/page.tsx:151-159 | from 0 the bar reads min(5n, 95) after n ticks, a multiple of 5 never above 95 (app/upload/page.tsx:156-164 is the same timer) |
| UploadForm.ProgressFromFullDropsTo95 | app/youtube/upload/page.tsx:151-159 | a bar left at 100 drops to 95 on the next upload's first tick |
| UploadForm.UploadPage.FinishSubmit | app/youtube/upload/page.tsx:184-222 | success sets progress 100, shows the video id ("undefined" when the response has none) and resets the fields except the account; failure sets progress 0 and shows the error; uploading ends either way (app/upload/page.tsx:189-227 handles it the same way) |
| UploadForm.UploadPage.ResetForm | app/youtube/upload/page.tsx:203-212 | the fields become the cleared form |
| UploadForm.Cleared | app/youtube/upload/page.tsx:203-212 | the reset keeps the selected account |
| UploadForm.ClearedFormNeedsTitle | app/youtube/upload/page.tsx:203-212 | the cleared form is private, has no video, and fails first on the title |
| UploadForm.SuccessMessageNamesVideo | app/youtube/upload/page.tsx:202 | the success message ends with the video id, or with "undefined" when the response has none; distinct ids give distinct messages, except that a missing id reads like the id "undefined" |
| UploadForm.FailureMessageMeaning | app/youtube/upload/page.tsx:198-218 | the error is never empty: the server's message, else "Upload failed" for a rejection, else "Something went wrong" for a thrown error |
| UploadForm.RejectionNeverGeneric | app/youtube/upload/page.tsx:198-218 | a rejected response never shows the catch-all message unless the server sent it |
| WeeklySchedule.GenerateWeekSchedule | components/WeeklySchedule.tsx:23-33 | exactly 7 days; day i is dated today + i and titled after its formatted date |
| WeeklySchedule.VisibleDaysWindow | components/WeeklySchedule.tsx:71 | the visible days are the slice of at most 3 days from the index, exactly 3 when 3 remain |
| WeeklySchedule.ScheduleView.constructor | components/WeeklySchedule.tsx:36-68 | four platforms with a fresh week each; Facebook active; window at 0 |
| WeeklySchedule.ScheduleView.ScrollUp | components/WeeklySchedule.tsx:74-78 | the index drops by one only when positive, and 3 days stay visible |
| WeeklySchedule.ScheduleView.ScrollDown | components/WeeklySchedule.tsx:80-84 | the index rises by one only below days - 3, so it stays in 0..4 with 3 days visible |
| WeeklySchedule.ScheduleView.SelectPlatform | components/WeeklySchedule.tsx:87-90 | the chosen platform becomes active and the window returns to its first 3 days |
| WeeklySchedule.ScheduleView.FindPlatform | components/WeeklySchedule.tsx:95 | the first index with the id, or -1 when none has it |
| WeeklySchedule.ScheduleView.UpdateDayContent | components/WeeklySchedule.tsx:93-100 | only day `dayIndex` of the active platform gets the new title and summary; every other day and platform is unchanged; the active platform is the updated entry; an index outside the week changes nothing |
| WeeklySchedule.WithDayContent | components/WeeklySchedule.tsx:96-97 | only the chosen day's title and summary change |
| ShareButtons.TagsOf | components/ShareButtons.tsx:27 | the filter and map over the tokens: at most one tag per token (membership is stated by TagsOfMembership) |
| ShareButtons.HashtagsArray | components/ShareButtons.tsx:27 | at most one tag per space-separated token |
| ShareButtons.TagsOfAppend | components/ShareButtons.tsx:27 | the filter-and-strip step commutes with concatenation, so tags keep the tokens' order |
| ShareButtons.TagsOfMembership | components/ShareButtons.tsx:27 | a tag is produced exactly when '#' followed by it is a token |
| ShareButtons.TagsComeFromTokens | components/ShareButtons.tsx:27 | each tag with '#' put back is one of the space-separated tokens, and conversely |
| ShareButtons.StripsOneHash | components/ShareButtons.tsx:27 | worked example of the token rule: "##a" gives "#a", a lone "#" gives "", and empty or '#'-less tokens are dropped |
| ShareButtons.TumblrCaption | components/ShareButtons.tsx:29 | the caption is the description, or nothing, then one space, then the raw hashtags |
| ShareButtons.TumblrUrlParameters | components/ShareButtons.tsx:29 | when the encoder escapes '&', the link splits at '&' into exactly its three encoded parameters |
| ShareButtons.ShareText | components/ShareButtons.tsx:33-40 | title, description and hashtags separated by spaces; an absent description reads "undefined" |
| FacebookAnalytics.SumValues | app/facebook/analytics/page.tsx:305-307 | `reduce` with `item.value \|\| 0`: a series whose values are all missing sums to 0 |
| FacebookAnalytics.SumValuesAppend | app/facebook/analytics/page.tsx:305-307 | the sum of a concatenation is the sum of the parts |
| FacebookAnalytics.SumValuesSingle | app/facebook/analytics/page.tsx:305-307 | the empty sum is 0; a missing value counts as 0 |
| FacebookAnalytics.SumValuesBounds | app/facebook/analytics/page.tsx:305-307 | non-negative values give a non-negative sum that bounds each value |
| FacebookAnalytics.FindInsight | app/facebook/analytics/page.tsx:209-253 | the result is an insight of that name from the list, and is absent exactly when no insight has the name |
| FacebookAnalytics.FindInsightIsFirst | app/facebook/analytics/page.tsx:209-253 | the insight found is the first with the name |
| FacebookAnalytics.FanCount | app/facebook/analytics/page.tsx:232 | the fan count is 0 when the metric is absent |
| FacebookAnalytics.MissingMetricShowsZero | app/facebook/analytics/page.tsx:232-253 | an absent metric gives an empty series, a total of 0 and a fan count of 0 |
| FacebookAnalytics.Window | app/facebook/analytics/page.tsx:329 | the window is the last min(14, n) entries |
| FacebookAnalytics.WindowKeepsNewest | app/facebook/analytics/page.tsx:329 | the window keeps the entries' order and ends with the newest |
| FacebookAnalytics.MaxValue | app/facebook/analytics/page.tsx:332 | the maximum is one of the values and bounds them all |
| FacebookAnalytics.Heights | app/facebook/analytics/page.tsx:332-338 | one height per shown entry (the heights themselves are stated by HeightsWithinRange, LargestBarIsFull and FlatBars) |
| FacebookAnalytics.BarHeights | app/facebook/analytics/page.tsx:323-338 | no bars exactly for empty data, otherwise one height per window entry |
| FacebookAnalytics.HeightsWithinRange | app/facebook/analytics/page.tsx:332-338 | for non-negative values every height lies in [0, 100] |
| FacebookAnalytics.LargestBarIsFull | app/facebook/analytics/page.tsx:332-338 | with a positive maximum some bar is exactly 100 |
| FacebookAnalytics.FlatBars | app/facebook/analytics/page.tsx:332-338 | a missing value (NaN maximum) or a zero maximum makes every height 0 |
| FacebookAnalytics.DefaultSelection | app/facebook/analytics/page.tsx:49-53 | with accounts and no selection, the first account is selected; otherwise the selection stays |
| FacebookAnalytics.DefaultSelectionStable | app/facebook/analytics/page.tsx:49-53 | running the effect again changes nothing, and the result is the old selection or a connected account |
| FacebookAnalytics.AnalyticsView.SelectDefaultAccount | app/facebook/analytics/page.tsx:49-53 | the selection becomes `DefaultSelection` of the old one |
| EditorDashboard.FilteredProjects | app/Editordashboard/page.tsx:78-80 | every kept project is one of the projects and matches the term |
| EditorDashboard.FilterKeepsMatches | app/Editordashboard/page.tsx:78-80 | every matching project is kept |
| EditorDashboard.FilterAppend | app/Editordashboard/page.tsx:78-80 | filtering commutes with concatenation, so the original order is kept |
| EditorDashboard.EmptySearchKeepsAll | app/Editordashboard/page.tsx:78-80 | an empty search term keeps every project, in order |
| EditorDashboard.SortNewestFirst | app/Editordashboard/page.tsx:82-83 | the array is sorted in place, newest first, and is a permutation of what it was |
| EditorDashboard.InsertAt | app/Editordashboard/page.tsx:82-83 | one insertion step extends the newest-first prefix by one element and permutes the array |
| EditorDashboard.RecentProjects | app/Editordashboard/page.tsx:82-84 | sorts the projects array in place and returns its first min(5, n) entries |
| EditorDashboard.RecentAreNewest | app/Editordashboard/page.tsx:82-84 | at most 5 projects, newest first, none older than a project left out, and all of them when there are 5 or fewer |
| Middleware.PublicPathsExactly | middleware.ts:8-9 | a path is public exactly when it is "/login" or "/register" |
| Middleware.SetParam | middleware.ts:30 | after `set` the query holds the name with the new value |
| Middleware.SetParamIsSingle | middleware.ts:30 | after `set` every pair with the name has the new value, and pairs with other names are kept |
| Middleware.RefreshParamAlwaysPresent | middleware.ts:28-38 | the path and search string after `set` always contain `_session_refresh`, so the redirect under it never fires |
| Middleware.Decide | middleware.ts:6-42 | the middleware's decision; the session-refresh redirect never fires, because the parameter it looks for is set just before the check |
| Middleware.DecisionTable | middleware.ts:6-42 | no token and not public: redirect to /login; token and public: redirect to /; every other combination passes through |
| Middleware.Handle | middleware.ts:44-46 | a path outside the matcher passes through |
| Middleware.PublicPathsAreMatched | middleware.ts:8-46 | both public paths are matched, so a signed-in user is sent from them to / |
| Middleware.LoginRedirectOnlyForProtectedPaths | middleware.ts:6-46 | a redirect to /login happens exactly for a matched, non-public path without a token |
| YouTubeErrors.ErrorStatus | app/api/youtube/upload/route.ts:210-222 | a failed YouTube call maps to 429, 403 or 500 |
| YouTubeErrors.ErrorStatusClasses | app/api/youtube/upload/route.ts:210-222 | 429 exactly for a message mentioning "quota"; 403 exactly for "permission" without "quota"; 500 otherwise (app/api/youtube/playlists/route.ts:126-138 maps the same way) |
| YouTubeErrors.QuotaWins | app/api/youtube/upload/route.ts:211-213 | any message with "quota" in it maps to 429, even one that also mentions permission |
| YouTubeErrors.PermissionIsForbidden | app/api/youtube/upload/route.ts:215-217 | a message with "permission" in it and no "quota" maps to 403 |
| YouTubeErrors.NoMessageIsServerError | app/api/youtube/upload/route.ts:219-222 | an error without a message is a 500 with the generic detail |
| YouTubeErrors.Detail | app/api/youtube/upload/route.ts:220 | the server-error detail is the message, or "Unknown YouTube API error" when there is none |
| YouTubeUploadRoute.MadeForKidsRoundTrip | app/api/youtube/upload/route.ts:31 | the pages' `toString()` of the flag parses back to the flag, and any other value reads as false |
| YouTubeUploadRoute.Tags | app/api/youtube/upload/route.ts:143 | no tag list exactly when the tags field is missing or empty |
| YouTubeUploadRoute.TagsArePieces | app/api/youtube/upload/route.ts:143 | one tag per comma-separated piece, commas + 1 of them, empty pieces kept, each its piece trimmed and comma-free |
| YouTubeUploadRoute.TagsRoundTrip | app/api/youtube/upload/route.ts:143 | without white space the tags are the pieces, and joining them with commas gives the field back |
| YouTubeUploadRoute.Post | app/api/youtube/upload/route.ts:10-232 | the POST handler; every refusal carries a 4xx or 5xx status, no step is taken exactly when the session or form guard refuses, and a success comes only after every guard passed |
| YouTubeUploadRoute.GuardsComeFirst | app/api/youtube/upload/route.ts:17-50 | no session user gives 401 and a missing required field gives 400, both before any database or API step |
| YouTubeUploadRoute.InsertFailureStatus | app/api/youtube/upload/route.ts:207-223 | a failed insert is answered with the status its message maps to, and no step follows it |
| YouTubeUploadRoute.UploadSucceeds | app/api/youtube/upload/route.ts:135-206 | a successful insert returns its video id, after the user lookup, the token refresh and the insert, followed only by the optional thumbnail and playlist steps |
| YouTubeUploadRoute.FollowUpsListed | app/api/youtube/upload/route.ts:159-201 | the thumbnail step comes exactly when a thumbnail was sent, and the playlist step comes last exactly when a playlist id was sent; both use the new video's id |
| YouTubeUploadRoute.FollowUpStepsAreNonFatal | app/api/youtube/upload/route.ts:159-206 | the outcome of the thumbnail and playlist steps never changes the response |
| YouTubeUploadRoute.MetadataFromForm | app/api/youtube/upload/route.ts:137-149 | the request carries the form's title, description and privacy, the parsed flag and the split tags |
| YouTubePlaylistsRoute.ToPlaylist | app/api/youtube/playlists/route.ts:114-116 | a missing or empty id becomes "", a missing or empty title becomes "Untitled Playlist" |
| YouTubePlaylistsRoute.PlaylistsOf | app/api/youtube/playlists/route.ts:113-117 | absent items give an empty list |
| YouTubePlaylistsRoute.MapItemsPointwise | app/api/youtube/playlists/route.ts:113-117 | the mapping keeps the count and the order |
| YouTubePlaylistsRoute.Get | app/api/youtube/playlists/route.ts:9-148 | the GET handler; every refusal carries a 4xx or 5xx status, and playlists are answered only after every guard passed and the channel lookup found a channel |
| YouTubePlaylistsRoute.GuardOrder | app/api/youtube/playlists/route.ts:17-44 | no session user gives 401, then no database user gives 404, then no refresh token gives 400 |
| YouTubePlaylistsRoute.MissingChannelIsNotFound | app/api/youtube/playlists/route.ts:88-98 | no channel items, or a first channel without an id, gives 404 |
| YouTubePlaylistsRoute.ListFailureStatus | app/api/youtube/playlists/route.ts:123-139 | a failed channel lookup is answered with the mapped status and body |
| YouTubePlaylistsRoute.PlaylistsOfFirstChannel | app/api/youtube/playlists/route.ts:104-122 | with a channel found, the response lists the first channel's playlists, one per item, in order |

## Left out

- Canvas rendering is not modelled (fabric.js's `toJSON`, `loadFromJSON`, `renderAll`, pixel filtering). A snapshot is the object list plus the optional document size.
- Layer order is not modelled in full. `bringObjectForward` and `sendObjectBackwards` are an adjacent swap that does nothing at the ends of the stack.
- `debounceSaveState` has stale-closure capture: its callback is memoised once and calls the first render's `saveState`. The model calls the current `saveState`, as the code evidently intends. The 300 ms timer is a pending flag that the tick `SaveTimerFires` consumes.
- Zoom (components/Editor.tsx:48-56) is not modelled. It sets the canvas element's size to the document size times the zoom factor, in floating point. The modelled element size is the one at zoom 1.
- `loadFromJSON`'s second argument is modelled as running once the load is complete. In the fabric 6 API, which the namespace import and the `fabric.CanvasEvents` type at components/Editor.tsx:71 point to, it is a per-object reviver: it runs once per loaded object, before the canvas is filled. The model does not capture that ordering, nor the case of a document with no objects, where the callback never runs.
- `undo` and `redo` call `canvas.setDimensions` from the snapshot. This sets the canvas element's size (which alignment reads), not the size state, and it is modelled as such. `loadFromJSON` clearing the selection is modelled as the selection becoming empty.
- Editor.EditorSession.AlignObject: when the dimension an alignment reads is undefined, the source writes NaN into the position. This happens for the centre, right, middle and bottom alignments after a redo, or after an undo to an entry without a size. The model has no NaN, so it leaves the object where it is and still schedules the capture.
- The following are not modelled:
  - the background colour;
  - the side-panel setters for font, colour, stroke and opacity;
  - the free-drawing brush and drawing mode;
  - keyboard shortcuts, which call undo and redo;
  - `handleSave` and the image upload's network request.
- The clone's `left \|\| 0` default is not modelled. Positions are always numbers here, so only the +10/+10 offset is kept.
- Object positions and sizes are reals. The model has no NaN and no floating-point rounding.
- Text layout is not computed: `addText` takes the text box's measured width and height as parameters.
- Network calls are out of scope: the pages' `fetch` calls, next-auth, Prisma, googleapis, Cloudinary and UploadThing. Their results are the inputs of the route models (`Env`), and the debug panel is left out.
- The routes' outer `catch` is not modelled. It answers 500 "Error uploading video" or "Error fetching playlists" when the session, form, database or stream calls throw.
- The conversion of the video and thumbnail to streams is not modelled.
- `toLowerCase` is modelled for ASCII letters only, and Unicode case mapping is left out. `trim` uses ECMAScript's white-space and line-terminator set.
- EditorDashboard.SortNewestFirst: `new Date(createdAt)` is taken as an already-parsed integer timestamp. Invalid dates give a NaN comparator, and that case is left out. Stability is by construction: an element moves only past strictly older ones, matching ECMAScript's stable sort. It is not stated as a postcondition.
- `encodeURIComponent` and date-fns' `format` are function parameters, so their output formats are not modelled.
- Middleware's query-string serialisation writes pairs without percent-encoding. The refresh parameter's name and a decimal timestamp need none.
- Middleware.Decide: the redirect URL is the bare path. The request's origin that `new URL(path, request.url)` adds is left out.
- WeeklySchedule.ScheduleView.UpdateDayContent: an index outside the week makes the source throw a TypeError. The model returns `ok == false` with nothing changed.
- A fractional `dayIndex` (an `undefined` day) is not modelled.
- The source mutates the shared day objects, so the platform list and the active platform alias. The model stores them as values and sets both explicitly.
- The thumbnail preview URL and `formRef.reset()` are not modelled, since they touch only the display.
- The following are display-only and not modelled:
  - components/CircularProgress.tsx, which does floating-point geometry;
  - components/AudioController.tsx, a WaveSurfer wrapper;
  - the remaining pages, components and API routes.
