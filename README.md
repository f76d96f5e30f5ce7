# InstaReelFlow client: interaction state, upload form and feed lists

A Dafny model of the logic inside the React client of a short-video feed. Four
pieces of it change state:

- **VideoCard** (`VideoCard.Card`): one card of the feed. It plays or pauses its
  `<video>` element from IntersectionObserver batches and from clicks, and it
  likes and comments through the server. Nothing changes before the server
  answers. A success replaces `likes` or `comments` with the server's list as it
  is and reports it to the page through `onLike` / `onComment`. A failure is
  only logged.
- **Upload** (`Upload.UploadForm`): the upload form. A file must have a
  `video/` type, and a clip longer than 60 seconds is dropped once its metadata
  has loaded. On submit, a missing file is reported before a blank description.
  A failed upload shows the server's message or `Upload failed`, and it keeps
  the file and the description. Cancel clears the form.
- **Home** (`Home.HomePage`): the feed page. It loads the list on mount and again from the error
  view's Try Again button, and it
  applies the cards' reports by replacing the likes or comments of the video
  with that `_id`.
- **Profile** (`Profile.ProfilePage`): the same list update, plus three running
  totals. The totals are recomputed on load and then moved by the difference
  each report makes.

The shared pieces are JavaScript's `trim` / `startsWith` (module `Text`) and the
server's video record with the per-id list update and the sums over the list
(module `Media`).

Inputs from outside are parameters:

- each axios request's outcome is an `Outcome` (the data, or a failure with the
  server's optional message);
- the signed-in user is an `Option<User>`;
- an observer batch is a sequence of `isIntersecting` flags;
- `URL.createObjectURL` gives a caller-supplied `ObjectUrl`;
- a clip's duration is a `real`.

Every handler is one atomic step. `handleSubmit` is split at its `await` into
`SubmitStart` and `SubmitSettled`, so a submit that is still in flight can be
observed.

The client has no optimistic like updates, no single-playing rule across
cards, no request numbering, no revocation of preview URLs and no re-entry
guard in `handleSubmit`. The scenario methods `Upload.SubmitTwiceWhileUploading`
and `Upload.ReplacedPreviewStaysLive` exhibit the last two.

## Model

| member | source | states |
|---|---|---|
| `Text.TrimStart` | client/src/components/VideoCard.js:69 | the result is the suffix of the input left after removing leading whitespace; it does not start with whitespace, and everything removed is whitespace |
| `Text.TrimEnd` | client/src/components/VideoCard.js:69 | the result is the prefix of the input left after removing trailing whitespace; it does not end with whitespace, and everything removed is whitespace |
| `Text.TrimEmptyIffBlank` | client/src/pages/Upload.js:49 | trimming gives the empty string exactly when every character of the input is JavaScript whitespace |
| `Text.StartsWith` | client/src/pages/Upload.js:26 | definition with no contract: `s.startsWith(prefix)` holds when `prefix` is no longer than `s` and equals its first characters |
| `Text.Trim` | client/src/components/VideoCard.js:69 | `trim()` is empty iff the input is blank; a non-empty result neither starts nor ends with whitespace |
| `Media.WithLikes` | client/src/pages/Home.js:27-33 | the per-id `map` keeps the length and order; each video with the id gets the new likes and keeps every other field, and every other video is unchanged |
| `Media.WithComments` | client/src/pages/Home.js:35-41 | the same for `comments` |
| `Media.WithLikesIdempotent` | client/src/pages/Home.js:27-33 | applying the same `handleLike(videoId, likes)` twice gives the same list as applying it once |
| `Media.WithCommentsIdempotent` | client/src/pages/Home.js:35-41 | the same for `handleComment` |
| `Media.Find` | client/src/pages/Profile.js:59 | `find` gives nothing iff no video has the id; otherwise it gives a video of the list with that id, and no earlier video has the id |
| `Media.SumLikes` | client/src/pages/Profile.js:36 | definition with no contract: `videos.reduce((sum, video) => sum + video.likes.length, 0)`; its properties are `Media.SumLikesAppend` and `Media.SumsAfterWithLikes` |
| `Media.SumComments` | client/src/pages/Profile.js:37 | definition with no contract: the same `reduce` over `comments.length`; its properties are `Media.SumCommentsAppend` and `Media.SumsAfterWithComments` |
| `Media.SumLikesAppend` | client/src/pages/Profile.js:36 | the sum agrees with `reduce`'s left-to-right accumulation: one more video adds exactly its like count |
| `Media.SumCommentsAppend` | client/src/pages/Profile.js:37 | the same for the comment sum |
| `Media.LikeDiff` | client/src/pages/Profile.js:61 | definition with no contract: `likes.length - video.likes.length` for the video `find` returns, and 0 when it returns nothing (the `if (video)` at line 60) |
| `Media.CommentDiff` | client/src/pages/Profile.js:79 | definition with no contract: `comments.length - video.comments.length`, and 0 for an unknown id |
| `Media.UnknownIdKeepsList` | client/src/pages/Profile.js:52-56 | an update for an id that is not in the list gives back the same list |
| `Media.UpdatesKeepIdsUnique` | client/src/pages/Profile.js:70-74 | likes and comments updates keep the ids of a list unique |
| `Media.SumsAfterWithLikes` | client/src/pages/Profile.js:59-66 | with unique ids, the sum of like counts after the update is the old sum plus `likes.length - video.likes.length` of the found video (plus 0 for an unknown id); the comment sum does not change |
| `Media.SumsAfterWithComments` | client/src/pages/Profile.js:77-84 | with unique ids, the comment sum moves by exactly the difference `handleComment` adds; the like sum does not change |
| `Media.DuplicateIdsMiscountLikes` | client/src/pages/Profile.js:59-66 | without unique ids the running total goes wrong: two videos sharing an id both get the new likes, but the difference is added only once |
| `VideoCard.LikedBy` | client/src/components/VideoCard.js:15 | `likes.some(like => like.user === id)` holds iff some entry's `user` is the id |
| `VideoCard.Commands` | client/src/components/VideoCard.js:24-32 | an observer batch sends one command per entry, in order: play for an intersecting entry and pause for any other |
| `VideoCard.Card.constructor` | client/src/components/VideoCard.js:9-16 | a new card is paused, with an empty input and the video's likes and comments; `isLiked` holds iff a user is signed in and some like has that user's id |
| `VideoCard.Card.ObserveEntries` | client/src/components/VideoCard.js:22-35 | after a batch, `isPlaying` is the last entry's `isIntersecting` (unchanged for an empty batch), and each entry has played or paused the element |
| `VideoCard.Card.Click` | client/src/components/VideoCard.js:44-52 | a click negates `isPlaying`, pausing a playing element and playing a paused one |
| `VideoCard.TwoClicksRestore` | client/src/components/VideoCard.js:44-52 | two clicks restore whatever the observer last set, after one play and one pause |
| `VideoCard.Card.HandleLike` | client/src/components/VideoCard.js:54-65 | with no user, nothing is sent and nothing changes. Otherwise one like POST is sent. On success, `likes` is exactly the server's list, `isLiked` is negated and `onLike` gets the same list. On failure, nothing changes and nothing is reported. `isLiked` stays in step with the list only when the server toggles this user's like |
| `VideoCard.LikeFailsThenSucceeds` | client/src/components/VideoCard.js:57-64 | a failed like leaves the card's likes as they were and reports nothing; a later success takes the server's list and reports it once |
| `VideoCard.Card.EditComment` | client/src/components/VideoCard.js:171 | typing sets the comment input |
| `VideoCard.Card.HandleComment` | client/src/components/VideoCard.js:67-81 | with no user or a blank input, nothing is sent and nothing changes. Otherwise the untrimmed input is posted. On success, `comments` is the server's list, the input is cleared and `onComment` gets that list. On failure, the comments and the input are kept |
| `Upload.UploadForm.constructor` | client/src/pages/Upload.js:8-12 | the form starts with no file, preview, description or message, and it is not uploading; a file is held exactly when a preview is shown |
| `Upload.IsVideoType` | client/src/pages/Upload.js:26 | definition with no contract: `selectedFile.type.startsWith('video/')` |
| `Upload.UploadForm.HandleFileChange` | client/src/pages/Upload.js:23-39 | no file changes nothing. A `video/` file becomes the file with a new preview URL and no message, and the old URL is not revoked. Any other file clears file and preview and shows "Please select a video file". "A file is held exactly when a preview is shown" is preserved |
| `Upload.ReplacedPreviewStaysLive` | client/src/pages/Upload.js:30-32 | choosing a second video replaces the preview, but both object URLs stay live |
| `Upload.UploadForm.MetadataLoaded` | client/src/pages/Upload.js:116-130 | called only while the preview is mounted. A duration over 60 clears file and preview and shows the length message; a duration of at most 60, including exactly 60, changes nothing. "A file is held exactly when a preview is shown" is preserved |
| `Upload.TooLongVideoIsNotSent` | client/src/pages/Upload.js:124-128 | a video over 60 seconds cannot be submitted: the submit reports the missing file and sends nothing |
| `Upload.UploadForm.EditDescription` | client/src/pages/Upload.js:147 | typing sets the description |
| `Upload.UploadForm.SubmitStart` | client/src/pages/Upload.js:41-59 | no file gives "Please select a video file" and no request, checked before the description. A blank description gives "Please add a description" and no request. Otherwise `uploading` is set, the message is cleared and exactly one request with the file and the untrimmed description is sent |
| `Upload.ShortVideoIsSent` | client/src/pages/Upload.js:54-66 | a video of at most 60 seconds with a non-blank description is sent as one request carrying both |
| `Upload.SubmitTwiceWhileUploading` | client/src/pages/Upload.js:41-54 | the handler has no re-entry guard: a second submit while uploading sends the same request again |
| `Upload.UploadForm.SubmitSettled` | client/src/pages/Upload.js:61-73 | `uploading` ends false. Success navigates home. Failure shows the server's message when it is present and non-empty, else "Upload failed" |
| `Upload.RetryAfterFailureResends` | client/src/pages/Upload.js:69-73 | after a failure the server's message is shown when present and non-empty, else "Upload failed", and the kept file and description make a second submit send the same request |
| `Upload.UploadForm.HandleCancel` | client/src/pages/Upload.js:76-81 | cancel clears file and preview and empties the description and the message, which re-establishes "a file is held exactly when a preview is shown" |
| `Home.HomePage.constructor` | client/src/pages/Home.js:7-9 | the page starts loading, with an empty list and no error |
| `Home.HomePage.FetchVideos` | client/src/pages/Home.js:15-25 | `loading` ends false on both paths. Success sets the list to the response. Failure keeps the list and sets "Failed to load videos". No path clears an earlier error |
| `Home.RetryKeepsError` | client/src/pages/Home.js:54-65 | a successful "Try Again" after a failed load fills the list but leaves the error set, so the page keeps showing the error view |
| `Home.HomePage.HandleLike` | client/src/pages/Home.js:27-33 | the list becomes the per-id likes update of the old list |
| `Home.HomePage.HandleComment` | client/src/pages/Home.js:35-41 | the list becomes the per-id comments update of the old list |
| `Home.LikeFromFeed` | client/src/pages/Home.js:27-33 | after a like succeeds on a card of a feed with unique ids, that video in the page's list has exactly the server's likes, and every other video is unchanged |
| `Profile.ProfilePage.constructor` | client/src/pages/Profile.js:13-19 | the page starts loading, with an empty list and zero totals |
| `Profile.ProfilePage.FetchUserVideos` | client/src/pages/Profile.js:29-49 | success sets the list, and `totalVideos`, `totalLikes` and `totalComments` become its length and the sums of the like and comment counts. Failure changes nothing but `loading`. A list with unique ids establishes the totals invariant |
| `Profile.ProfilePage.HandleLike` | client/src/pages/Profile.js:51-67 | the list gets the per-id likes update, and `totalLikes` moves by the new count minus the found video's old count. An unknown id changes neither. `totalVideos` and `totalComments` are untouched. "Totals are the sums over the list, and ids are unique" is preserved |
| `Profile.ProfilePage.HandleComment` | client/src/pages/Profile.js:69-85 | the same for comments and `totalComments` |
| `Profile.TotalsFollowReports` | client/src/pages/Profile.js:36-43 | after loading a list with unique ids and applying a like report and a comment report, `totalVideos` is the list's length and the like and comment totals are the sums over the updated list |

## Left out

- Rendering, CSS and `formatDate` (client/src/components/VideoCard.js:83-89) are display only. Routing and navigation links (client/src/App.js, client/src/components/Header.js) are not part of this model.
- The `showComments` toggle (client/src/components/VideoCard.js:10,138) only shows or hides the comment list.
- The redirects to `/login` when nobody is signed in (client/src/pages/Upload.js:17-21, client/src/pages/Profile.js:21-27) are left out: navigation is an effect the model does not follow. Navigating home after an upload is returned as a flag.
- The `|| []` fallbacks for a video without `likes` or `comments` (client/src/components/VideoCard.js:12-13) are left out. A `Video` always carries both lists, as the pages' own `video.likes.length` already assumes.
- Request URLs and bodies are reduced to the video id and the posted text. The fetch of the user's videos by `user._id` is reduced to its outcome. `console.error` logging is left out.
- React's asynchronous state updates are not modelled; each handler is one atomic step. Stale closures are therefore out of scope: `isLiked` in `handleLike` (client/src/components/VideoCard.js:60), and the `userVideos` that the profile's handlers search (client/src/pages/Profile.js:59,77) instead of the list they update.
- `onLike` and `onComment` are optional in the card (`onLike && onLike(...)`, client/src/components/VideoCard.js:61,77). An absent callback is not modelled: `VideoCard.Card.HandleLike` and `VideoCard.Card.HandleComment` always return the notice on success, as both pages pass the callbacks.
- Observer setup and teardown (`observe` / `unobserve`, client/src/components/VideoCard.js:37-41) are left out. A `null` video element is left out as well.
- `Upload.UploadForm.MetadataLoaded`: the duration is an ordered `real`. Floating point, and a `NaN` duration (which compares false), are not modelled.
- The 500-character limit on the description is the textarea's `maxLength` (client/src/pages/Upload.js:150). No handler checks it.
