# FoGether feed, comment thread and capture form in Dafny

FoGether is a food-journal web app. A user photographs a dish, fills in its name, place,
star rating and a note, and posts it to a shared feed. Other users read and like the
comments under a post. This project models the three pieces of the app that hold state
and make decisions, with every remote call replaced by an outcome passed in as a parameter:

- **The comment thread** of one post (`Comments`, comments.dfy). It covers the like toggle
  and the background write it dispatches, and the two halves of a submit around the
  awaited insert. It also covers the stable most-liked-first view and the relative-time
  label.
- **The home feed** (`Feed`, feed.dfy). It turns fetched rows into posts, keeps the
  `loading` flag, and prepends the optimistic `temp-` post before the insert is sent.
- **The capture form** (`Capture`, capture.dfy). It covers the camera toggle, capture and
  retake, the star rating, and the place name built from a reverse-geocoding answer. It
  also covers the submit-disabled rule and the upload step that hands the form to the
  feed.

Two shared modules support them. `Text` (text.dfy) holds JavaScript's `trim`, `split` on
one character, `join`, `slice(0, n)`, `||` on strings and number-to-decimal rendering.
`Wrappers` (wrappers.dfy) holds `Option`.

Each React component becomes a class whose fields are its `useState` variables. Each
handler becomes a method whose `ensures` gives the complete new state. The pure
expressions inside the handlers (the `map` over comments, the copy-and-sort, the row
mapping, the `filter`/`join`/`split` chain) become functions, and lemmas state what they
promise.

Notes on what the model shows:

- A like press reads the comment as it is when the press is handled (the functional
  updater). So `n` presses move the count by the net number of likes, which is 0 or ±1
  (`ToggleTimesCount`). A comment whose count already includes its own like never goes
  negative.
- `handleSubmit` checks only for blank text. The `submitting` flag is checked by the
  send button and nowhere else, and the Enter key calls `handleSubmit` directly.
  `BeginSubmit` therefore has the same contract whatever `submitting` is.
- After a failed, throwing or row-less insert, both the list and the typed text stay
  as they were. The new comment takes its text and author from the row the store sends
  back, not from the request. `SubmittedComment` proves that it is the trimmed text
  whenever the store echoes the request.
- Changing the facing mode re-runs the camera effect, which clears the captured image
  and the `uploading` flag. `ToggleCamera` includes that effect.
- The feed the upload handler prepends to is the one of the render that created it
  (`setFeedPosts([newPostTemp, ...feedPosts])`, not a functional updater), and the capture
  view calls that handler only after its two awaits. `HandleUploadSuccess` therefore takes
  that render's feed as `seen`. If the mount fetch settles while the storage upload is
  running, its posts are dropped and the feed shows only the optimistic post
  (`FetchSettlesDuringUpload`). If it settles before the upload starts, the optimistic
  post goes in front of the fetched posts (`FetchSettlesBeforeUpload`). If it settles
  after the handler has run, the fetch replaces the feed without a functional updater
  and the optimistic post disappears (`FetchSettlesAfterUpload`).
- `uploadImage` checks only that an image was captured (a non-empty string). The blank-place and in-flight
  checks are on the button alone (`CaptureForm.SubmitDisabled`).

## Model

| member | source | states |
|---|---|---|
| `Text.Trim` | app/components/CommentsModal.tsx:66 | `trim` drops exactly the leading and trailing ECMAScript whitespace: the result is an infix of the input, neither end is whitespace, and it is empty iff the input is all whitespace |
| `Text.JoinSplit` | app/components/CameraView.tsx:231 | joining the pieces of `split(c)` with `c` gives the string back |
| `Text.KeepFields` | app/components/CameraView.tsx:231 | `split(sep).slice(0, n).join(sep)` is the prefix of the string just before its n-th separator: it keeps min(n-1, all) separators and is followed by a separator when shorter |
| `Text.Decimal` | app/components/CommentsModal.tsx:119 | `${n}` renders a whole number as digits with no leading zero |
| `Text.DecimalRoundTrip` | app/components/CommentsModal.tsx:119 | reading the decimal rendering back gives the number |
| `Text.DecimalInjective` | app/page.tsx:177 | different numbers render differently |
| `Comments.ToggleLike` | app/components/CommentsModal.tsx:44-47 | one press flips liked-ness (absent counts as not liked), moves `likes` by +1 when newly liked and -1 otherwise, keeps every other field, and keeps `likes >= (liked ? 1 : 0)` |
| `Comments.ToggleTwice` | app/components/CommentsModal.tsx:42-47 | two presses restore the count and the liked-ness |
| `Comments.ToggleTimesCount` | app/components/CommentsModal.tsx:42-47 | after n presses, each reading the current state, the count is the start count plus the net number of likes, and a consistent count never goes negative |
| `Comments.ToggleById` | app/components/CommentsModal.tsx:42-61 | only comments with the pressed id change; length and order are kept and every other comment is untouched; the count invariant is preserved |
| `Comments.LikeUpdates` | app/components/CommentsModal.tsx:49-55 | the writes dispatched by a press all carry the pressed id, there are at most as many as comments, and there are none iff no comment has that id |
| `Comments.AbsentIdNoChange` | app/components/CommentsModal.tsx:42-61 | pressing an id no comment has changes nothing and dispatches no write |
| `Comments.UpdateCarriesNewCount` | app/components/CommentsModal.tsx:46-57 | with unique ids, a press dispatches exactly one write, and it carries the new local count of that comment |
| `Comments.ToggleByIdTwice` | app/components/CommentsModal.tsx:42-61 | two presses on the same id restore every comment's count and liked-ness |
| `Comments.SortByLikes` | app/components/CommentsModal.tsx:112 | the view is a permutation of the comments, ordered by non-increasing likes |
| `Comments.SortKeepsTies` | app/components/CommentsModal.tsx:112 | the sort is stable: comments with equal likes keep their relative order |
| `Comments.TimeAgoBucket` | app/components/CommentsModal.tsx:115-124 | under a minute is "just now"; then whole minutes below an hour, whole hours below a day, whole days after, each the floor of the difference |
| `Comments.TimeAgo` | app/components/CommentsModal.tsx:115-124 | the label is "vừa xong" iff the difference is under a minute, else the floored count followed by " phút", " giờ" or " ngày" |
| `Comments.InsertRequest` | app/components/CommentsModal.tsx:70-78 | the insert carries the post id, the trimmed text, the user's name, the avatar only when truthy, and 0 likes |
| `Comments.AddedComment` | app/components/CommentsModal.tsx:87-96 | the appended comment takes id, text and date from the returned row, the row's author or "Ẩn danh", the row's avatar or the user's, 0 likes and not liked |
| `Comments.SubmittedComment` | app/components/CommentsModal.tsx:66-98 | when the store echoes the request, the appended comment has the trimmed non-blank text, the user's name or "Ẩn danh" when it is empty, 0 likes and not liked |
| `Comments.CommentThread.constructor` | app/components/CommentsModal.tsx:36-38 | the modal opens on the post's comments with an empty input and nothing in flight |
| `Comments.CommentThread.Type` | app/components/CommentsModal.tsx:266 | typing sets the input and nothing else |
| `Comments.CommentThread.HandleLikeComment` | app/components/CommentsModal.tsx:41-62 | the list becomes the toggled current list, the dispatched writes are those of the toggle, the input and the flag are unchanged |
| `Comments.CommentThread.BeginSubmit` | app/components/CommentsModal.tsx:65-80 | blank text returns with no request and no state change; otherwise `submitting` is raised and the insert request for the trimmed text is returned |
| `Comments.CommentThread.FinishSubmit` | app/components/CommentsModal.tsx:82-102 | a returned row appends exactly one comment at the end and clears the input; an error, a throw or no row keeps list and input; `submitting` is false on every path |
| `Comments.CommentThread.SubmitDisabled` | app/components/CommentsModal.tsx:278 | the send button is disabled iff a submit is in flight or the text is all whitespace |
| `Comments.CommentThread.SortedComments` | app/components/CommentsModal.tsx:112 | the view is sorted by non-increasing likes, a permutation of the stored list and stable, and reading it changes nothing |
| `Comments.CommentThread.HandleClose` | app/components/CommentsModal.tsx:106-109 | closing hands the post id and the local list to the parent unchanged |
| `Feed.TitleOf` | app/page.tsx:137 | the title is the title if truthy, else the location if truthy, else "Món ngon", and never empty |
| `Feed.NoteList` | app/page.tsx:145-152 | exactly one note, with the given id and the note text, iff the note is a non-empty string; otherwise no note |
| `Feed.RowBadge` | app/page.tsx:140-144 | a fetched post's badge is a star of the rating variant, labelled with the rating when it is truthy and "5.0" otherwise |
| `Feed.FormatPost` | app/page.tsx:135-153 | a fetched post keeps the row's id, picture and creation date, and takes its title, badge and notes from the row's title or place, rating and note |
| `Feed.FormatPosts` | app/page.tsx:135-153 | normalising keeps the number and order of rows, one post per row |
| `Feed.FormattedFeed` | app/page.tsx:135-153 | each fetched post keeps its row's id, has a non-empty title, and has one note with id "note-" + id iff the row has a note, none otherwise |
| `Feed.TempId` | app/page.tsx:177 | a temporary id is "temp-" followed by decimal digits |
| `Feed.TempIdsDistinct` | app/page.tsx:177 | different clock readings give different temporary ids |
| `Feed.TempIdNotCanonical` | app/page.tsx:177 | a temporary id never equals an id that does not start with "temp-" |
| `Feed.OptimisticPost` | app/page.tsx:176-190 | the optimistic post has a temporary id, the dish name as title, else the place, else "Món ngon", the uploaded picture, the form's rating, and a note iff the note text is non-empty |
| `Feed.InsertFor` | app/page.tsx:197-207 | the insert carries the raw dish name, place, rating, picture URL, note and coordinates |
| `Feed.OptimisticAgreesWithFetch` | app/page.tsx:135-153 | once the insert is stored, a later fetch shows the same title, picture, badge and note text as the optimistic post (for the non-zero ratings the form gives) |
| `Feed.Home.constructor` | app/page.tsx:116-118 | the page mounts with an empty feed, loading, and the camera closed |
| `Feed.Home.FetchPosts` | app/page.tsx:122-161 | rows replace the feed with their normalised posts; an error, a throw or no data leave the feed as it was (empty at mount); `loading` is false on every path |
| `Feed.Home.OpenCamera` | app/page.tsx:335 | the footer button opens the capture view and changes nothing else |
| `Feed.Home.CloseCamera` | app/page.tsx:222 | the close callback shuts the capture view and changes nothing else |
| `Feed.Home.HandleUploadSuccess` | app/page.tsx:166-216 | the feed becomes the optimistic post followed by the feed of the render that created the handler, which is the current feed only when no fetch settled since; the view closes, the insert carries the form data, and only a returned error raises the alert |
| `Feed.FetchSettlesDuringUpload` | app/page.tsx:122-192 | when the mount fetch settles during the storage upload, the handler overwrites the fetched posts: the feed is the optimistic post alone and holds none of them |
| `Feed.FetchSettlesAfterUpload` | app/page.tsx:122-192 | when the mount fetch settles after the handler has run, the feed is exactly the fetched posts and the optimistic post is gone |
| `Feed.FetchSettlesBeforeUpload` | app/page.tsx:122-192 | when the mount fetch settles before the upload starts, the feed is the optimistic post followed by every fetched post in order |
| `Capture.Flip` | app/components/CameraView.tsx:90-92 | the toggle always switches to the other camera |
| `Capture.FlipTwice` | app/components/CameraView.tsx:90-92 | toggling twice is the identity |
| `Capture.NonEmpty` | app/components/CameraView.tsx:229 | `filter(Boolean)` keeps only non-empty pieces and is empty iff every piece is |
| `Capture.NonEmptyAppend` | app/components/CameraView.tsx:229 | `filter(Boolean)` of a concatenation is the concatenation of the filtered halves, and a single piece is kept iff it is non-empty: every non-empty piece is kept, in order |
| `Capture.ShortNameParts` | app/components/CameraView.tsx:225-228 | the three pieces are the road, the suburb else the neighbourhood, and the city else the town else the village, each the first truthy value, empty when none is or when there is no address |
| `Capture.ShortName` | app/components/CameraView.tsx:225-229 | the short name is empty iff all three pieces are empty |
| `Capture.ShortNameOfParts` | app/components/CameraView.tsx:225-229 | the short name is the join with ", " of the present pieces in order, for every pattern of present pieces (e.g. "area, town" with no road) |
| `Capture.DisplayNameHead` | app/components/CameraView.tsx:231 | the fallback is the display name cut just before its third comma, and it is non-empty for a non-empty display name |
| `Capture.ResolvedLocation` | app/components/CameraView.tsx:222-237 | with a display name the place is the short name, or the fallback when that is empty, and is never empty; with no answer or no display name it is the formatted coordinates |
| `Capture.CaptureForm.constructor` | app/components/CameraView.tsx:25-36 | the form opens on the back camera with nothing captured, empty fields and five stars |
| `Capture.CaptureForm.ToggleCamera` | app/components/CameraView.tsx:75-92 | the facing mode flips, and the effect this triggers clears the captured image and `uploading`; the form fields are kept |
| `Capture.CaptureForm.CaptureImage` | app/components/CameraView.tsx:94-128 | a captured frame or a picked file becomes the captured image; nothing else changes |
| `Capture.CaptureForm.Retake` | app/components/CameraView.tsx:130-132 | retake clears the captured image and keeps every form field |
| `Capture.CaptureForm.Edit` | app/components/CameraView.tsx:310-369 | typing sets the dish name, place and note and nothing else |
| `Capture.CaptureForm.ChooseStar` | app/components/CameraView.tsx:351-357 | pressing star k of 1..5 sets the rating to k, and star s is lit iff s <= k |
| `Capture.CaptureForm.ApplyPosition` | app/components/CameraView.tsx:211-240 | a position stores the coordinates, sets the place to the resolved location and ends the lookup |
| `Capture.CaptureForm.SubmitDisabled` | app/components/CameraView.tsx:376 | the submit button is disabled iff an upload is running or the place is all whitespace |
| `Capture.CaptureForm.UploadImage` | app/components/CameraView.tsx:134-184 | with no image (none or an empty string) nothing changes; on success the callback gets the URL and the current dish name, place, rating, note and coordinates unchanged, and the view closes; on failure an alert is raised; `uploading` is false afterwards |

## Left out

- Camera and media handling is browser I/O and is not modelled: `getUserMedia`, stream tracks, canvas drawing, `FileReader`, and the data-URL to Blob conversion. A captured image is an opaque string passed to `CaptureImage`.
- The storage upload, the posts and comments selects and inserts, and the comment like update are supplied outcomes (`StorageOutcome`, `FetchResponse`, `SaveOutcome`, `InsertOutcome`). Like updates are returned as values (`LikeUpdate`), and their completion, which is only logged, is not modelled.
- The geolocation availability check, the permission query, the position error codes and their alerts, and the reverse-geocoding HTTP request are not modelled. Only the outcome enters `ApplyPosition`: a decoded answer or none.
- Number formatting is not modelled: `toFixed(4)` coordinates are the `coordsLabel` parameter, and `toFixed(1)` ratings are the `OneDecimal(rating)` tag. Dates are not modelled either: `toLocaleDateString` is the `LocaleDate(createdAt)` tag. `Date.now()` readings and time differences are parameters (`now`, `noteNow`, `diff`).
- Ratings are whole numbers, the only values the star picker produces. A fractional rating stored by another client is not modelled.
- `Capture.CaptureForm.UploadImage`: the upload is one step, so state changes made while its awaits are pending (a camera toggle, typing) are not interleaved with it; the form fields it hands over are those at the press.
- `Comments.TimeAgo`: a creation time that does not parse (JavaScript's `NaN` difference) is not modelled; the difference is always a whole number.
- `console.error` logging, the flash toggle, the `error` banner of the camera view, `gettingLocation` being raised, and all rendering are left out. So are the hard-coded sample `recentSpots` and `posts`.
- The login page, header, footer layout, root layout and auth callback are presentation and redirects.
- Post-level likes, search, filters, a saved set, post edit and delete, and replacing a temporary id by the store's id are not in this code. Nothing models them, and a `temp-` post keeps its temporary id until the next fetch.
- The comments modal is not opened anywhere in this code, so the parent's `onCommentsUpdate` is modelled only as the value `HandleClose` returns.
