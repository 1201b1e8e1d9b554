# Post lifecycle core of a couples' memory-posting web app

The app lets a logged-in couple keep dated "memory" posts with images. The
edit dialog caps a post's images at four; the router's `create` accepts any
number of urls. This project models the three parts of it that hold logic:

- **The edit dialog** (`EditModal`), in module `EditCard`, class
  `EditCard.EditModal`. Its state is:
  - the new local files;
  - the images already on the post;
  - the selected date;
  - the upload progress;
  - the loading flag.

  Each handler is a method:
  - dropping files, under a cap of four images in all;
  - removing a file or an existing image by index;
  - closing the dialog;
  - the effect that runs when the post arrives;
  - submitting.

  A submission runs in stages, each its own event method:
  1. The submit handler up to its first wait.
  2. The ticks of its progress interval.
  3. The settling of all uploads, as `Promise.all` does.
  4. The success or failure callback of the update mutation.

  Calls out of the component are recorded in a `calls` log, in order, with their
  arguments. These are: each file's upload, the update mutation, the notices, and
  the parent's `onClose` and `onPostUpdated`.
- **The post router** (module `PostRouter`, class `PostRouter.PostStore`). It
  works over a post table and an image table, each with an auto-increment id
  counter. It has four procedures:
  - `hello`;
  - `create`: checks the session, then the input schema, then writes the post
    row, then (as a separate write, and only when urls are given) one image
    row per url;
  - `getUserPosts`: every post with its images, newest first;
  - `deletePosts`.
- **The create-form schema** (module `CreateForm`): length bounds on title and
  description. It is stated against the router's bounds.

Module `StringSchema` models the piece of zod these schemas use:
- a `z.string().min(a).max(b)` chain;
- the issues zod reports when a check fails.

`Wrappers` holds `Option`/`Result`. `Sequences` holds one indexing fact.

The model takes these things as parameters:
- the upload outcomes;
- zod's `.cuid()` and `.url()` predicates;
- date parsing and locale formatting;
- the clock value for `createdAt`;
- whether the store accepts the image batch.

On three points the model states exactly what the code does:
- `deletePosts` is a public procedure. It needs no session.
- The server bounds are 3–380 for the title and 3–1000 for the description.
- `deletePosts` issues no image deletion.

## Model

| member | source | states |
|---|---|---|
| `StringSchema.Failures` | src/components/validation/form.ts:4-5 | the failed checks of a chain are exactly the checks the string does not pass; none fails iff every check passes |
| `StringSchema.StringIssues` | src/components/validation/form.ts:4-5 | a field reports no issue iff it passes every check of its chain; every issue carries the field's name |
| `StringSchema.BetweenPassesIff` | src/server/api/routers/post.ts:20-23 | a `min(lo).max(hi)` chain reports nothing iff the length is in [lo, hi] |
| `CreateForm.TitleIssues` | src/components/validation/form.ts:4 | the title passes iff its length is between 3 and 80 inclusive |
| `CreateForm.DescriptionIssues` | src/components/validation/form.ts:5 | the description passes iff its length is between 3 and 280 inclusive |
| `CreateForm.Parse` | src/components/validation/form.ts:3-6 | the form passes iff both fields pass (equivalently, both length bounds hold); a pass returns the values unchanged; a failure reports exactly the title's issues followed by the description's, and at least one |
| `CreateForm.ClientValidImpliesServerValid` | src/components/validation/form.ts:4-5 | a title and description the form accepts also pass the `create` schema's checks for those two fields |
| `CreateForm.ServerAcceptsLongerTitles` | src/server/api/routers/post.ts:20 | the converse fails: an 81-character title passes the server check but not the form |
| `PostRouter.Hello` | src/server/api/routers/post.ts:10-16 | the greeting is `"Hello "` followed by exactly the given text |
| `PostRouter.UrlIssues` | src/server/api/routers/post.ts:24 | no issue iff every url satisfies the url predicate; all issues are on `images` |
| `PostRouter.CreateIssues` | src/server/api/routers/post.ts:19-25 | the object schema reports no issue iff the input meets `AcceptedInput` |
| `PostRouter.AcceptedInput` | src/server/api/routers/post.ts:19-25 | the acceptance condition of the object schema, field by field: title 3–380, description 3–1000, `createdById` a cuid, `datePosted` 3–30, every given url a url |
| `PostRouter.ParseCreateInput` | src/server/api/routers/post.ts:18-25 | the input is accepted iff title is 3–380, description 3–1000, `createdById` a cuid, `datePosted` 3–30 characters and every given url a url; an accepted input is passed on unchanged; a rejection carries at least one issue |
| `PostRouter.ImageRows` | src/server/api/routers/post.ts:39-45 | one row per url, in order, with that url, the given post id and consecutive fresh ids |
| `PostRouter.ImagesOf` | src/server/api/routers/post.ts:53-54 | the included images of a post are exactly the image rows whose `postId` is that post's id, each as often as it occurs in the table |
| `PostRouter.InsertByDate` | src/server/api/routers/post.ts:57-59 | inserting into a newest-first list keeps it newest-first and adds exactly that post |
| `PostRouter.SortNewestFirst` | src/server/api/routers/post.ts:57-59 | the result is ordered by `createdAt` descending and is a permutation of the posts |
| `PostRouter.WithImages` | src/server/api/routers/post.ts:52-56 | the k-th result pairs the k-th post with its images |
| `PostRouter.WithoutPost` | src/server/api/routers/post.ts:70-74 | removing by id never lengthens the table; its closed form is stated by the three lemmas below |
| `PostRouter.WithoutPostMembers` | src/server/api/routers/post.ts:70-74 | after removing by id, the posts left are exactly those with another id |
| `PostRouter.WithoutPostRemovesOne` | src/server/api/routers/post.ts:70-74 | with increasing ids (as `PostStore.Valid()` keeps them), removing by id removes exactly the one matching post and keeps the others in order |
| `PostRouter.WithoutPostKeepsAll` | src/server/api/routers/post.ts:70-74 | removing an id that no post has changes nothing |
| `PostRouter.PostStore.constructor` | src/server/api/routers/post.ts:27 | the store starts with empty post and image tables whose id invariants hold |
| `PostRouter.PostStore.InsertPost` | src/server/api/routers/post.ts:29-37 | appends one post row under the next id; the image table is unchanged |
| `PostRouter.PostStore.InsertImages` | src/server/api/routers/post.ts:40-45 | appends exactly the rows of `ImageRows` for the urls; the post table is unchanged |
| `PostRouter.PostStore.Create` | src/server/api/routers/post.ts:18-47 | no session: Unauthorized, nothing written. Rejected input: the schema's issues, nothing written. Accepted: appends one post with title, description, `createdById` and `datePosted` as given and `couplesId` from the session. Then with no or empty urls: no image rows. With urls: exactly one row per url for the new post's id, and the image counter advances by the number of urls. If the batch is refused: the post stays, without images. Ids stay increasing |
| `PostRouter.PostStore.GetUserPosts` | src/server/api/routers/post.ts:49-63 | returns every post exactly once (a permutation of the table), newest first, each with its images |
| `PostRouter.PostStore.DeletePost` | src/server/api/routers/post.ts:65-75 | succeeds iff a post has that id. It removes exactly that post, keeping the others in order. A missing id is NotFound and changes nothing. Image rows and counters are unchanged |
| `EditCard.WithoutIndex` | src/components/Features/Post/components/EditCard.tsx:203-209 | the index filter never lengthens the list; its closed form is `WithoutIndexRemovesAt` |
| `EditCard.WithoutIndexRemovesAt` | src/components/Features/Post/components/EditCard.tsx:203-209 | filtering out index `i` removes exactly the element at `i` when in range, keeping the rest in order, and returns the list unchanged otherwise |
| `EditCard.Urls` | src/components/Features/Post/components/EditCard.tsx:179 | the i-th url is the i-th existing image's url |
| `EditCard.AllImageUrls` | src/components/Features/Post/components/EditCard.tsx:178-181 | the update's image list is the existing urls in order, followed by the uploaded urls in order |
| `EditCard.UploadCalls` | src/components/Features/Post/components/EditCard.tsx:147-149 | one upload call per file, in file order |
| `EditCard.JoinAll` | src/components/Features/Post/components/EditCard.tsx:147-149 | all uploads succeed iff every outcome is a url; then the i-th url is the i-th upload's url |
| `EditCard.EditModal.Displayed` | src/components/Features/Post/components/EditCard.tsx:336 | progress is shown only while loading and positive, and shows the current value |
| `EditCard.EditModal.SubmitEnabled` | src/components/Features/Post/components/EditCard.tsx:358 | the save button is enabled iff the form is valid, nothing is loading and a date is selected; `Submit` proves that a submission from an enabled button always starts loading, so the date guard never fires |
| `EditCard.EditModal.constructor` | src/components/Features/Post/components/EditCard.tsx:50-54 | initial state: no files, no existing images, no date, progress 0, not loading |
| `EditCard.EditModal.OnDrop` | src/components/Features/Post/components/EditCard.tsx:63-81 | a drop taking the total past 4 leaves all state unchanged except a notice; otherwise the dropped files are appended after the current ones, in order, the total is at most 4, and nothing else changes |
| `EditCard.EditModal.OnDropRejected` | src/components/Features/Post/components/EditCard.tsx:83-91 | only a notice is added |
| `EditCard.EditModal.RemoveExistingImage` | src/components/Features/Post/components/EditCard.tsx:203-205 | removes exactly the existing image at the index when in range; no change otherwise; no other state changes |
| `EditCard.EditModal.RemoveNewImage` | src/components/Features/Post/components/EditCard.tsx:207-209 | removes exactly the file at the index when in range; no change otherwise; no other state changes |
| `EditCard.EditModal.SelectDate` | src/components/Features/Post/components/DatePicker.tsx:17-19 | sets the date to the given, defined value and changes nothing else |
| `EditCard.EditModal.HandleClose` | src/components/Features/Post/components/EditCard.tsx:122-127 | empties the files, resets progress to 0, tells the parent; nothing else changes |
| `EditCard.EditModal.OnPostLoaded` | src/components/Features/Post/components/EditCard.tsx:129-141 | existing images become the post's images; the date is set (to the parsed value) only when the post's date is present and non-empty |
| `EditCard.EditModal.Submit` | src/components/Features/Post/components/EditCard.tsx:151-189 | called only while not loading (the button's enabling, line 358). Loading starts iff a date is selected. No date: only a notice, no update. No new files: nothing uploaded; progress becomes 100; the update is sent with the existing urls alone. New files: loading, a running timer, one upload per file in order, and the submission captures files, existing images, values and date |
| `EditCard.EditModal.SubmitFromZero` | src/components/Features/Post/components/EditCard.tsx:163-172 | as `Submit`, but a started upload begins with progress 0, so the progress cap holds from the start |
| `EditCard.EditModal.ProgressTick` | src/components/Features/Post/components/EditCard.tsx:165-172 | a running interval adds its increment, stops itself once past 90, and sets progress to the total capped at 90; a cleared interval changes nothing; the cap invariant is kept. When every running interval is the pending submission's (`TimersOwned`) and the progress is not ahead of that interval (`ProgressBehindTimer`, which `SubmitFromZero` sets up), the progress never decreases |
| `EditCard.EditModal.UploadsSettled` | src/components/Features/Post/components/EditCard.tsx:174-200 | all uploads succeed: timer cleared, progress 100, update sent with the captured values, the formatted date and the existing urls then the uploaded urls in file order. Any failure: loading false, progress 0, a notice, no update; the timer is not cleared, so the invariant that every running interval belongs to the pending submission is kept only on success |
| `EditCard.EditModal.UploadsSettledClearing` | src/components/Features/Post/components/EditCard.tsx:190-200 | as `UploadsSettled`, but the failure branch also clears the submission's interval; the invariant that every running interval belongs to the pending submission is kept on both branches |
| `EditCard.EditModal.UpdateSucceeded` | src/components/Features/Post/components/EditCard.tsx:95-108 | loading stops. The refresh callback runs when given. Then the dialog closes (files emptied, progress 0) and a success notice follows |
| `EditCard.EditModal.UpdateFailed` | src/components/Features/Post/components/EditCard.tsx:109-119 | loading stops and an error notice is shown; files, images, date and progress are kept |
| `EditCard.StaleProgressOnRetry` | src/components/Features/Post/components/EditCard.tsx:163-176 | with the handler as written: after an update failure, resubmitting shows 100 while uploads are pending |
| `EditCard.FreshProgressOnRetry` | src/components/Features/Post/components/EditCard.tsx:163-176 | with the corrected handler, the same events show no progress until a tick |
| `EditCard.OrphanedTimerOnRetry` | src/components/Features/Post/components/EditCard.tsx:165-172 | with the failure branch as written: a failed upload, then a retry whose upload succeeds (showing 100), then one tick of the old interval shows 10 while still loading |
| `EditCard.ClearedTimerOnRetry` | src/components/Features/Post/components/EditCard.tsx:190-200 | with the failure branch clearing the interval, the same events still show 100 after the tick |

## Findings

| source | as written | input that shows it | evidently intended | confidence | as-written member | corrected member |
|---|---|---|---|---|---|---|
| src/components/Features/Post/components/EditCard.tsx:163-176 | `onSubmit` sets loading but does not reset `uploadProgress`. The update's `onError` leaves it at 100 | A date is selected and a file dropped. Submit. The upload succeeds (progress 100). The update fails. Submit again: "Uploading: 100%" shows while the new upload is pending, until the first tick | show at most 90 while uploads are pending; start each submission from 0 | medium, not executed | `EditCard.StaleProgressOnRetry` (with `EditCard.EditModal.Submit`) | `EditCard.EditModal.SubmitFromZero` (with `EditCard.FreshProgressOnRetry`) |
| src/components/Features/Post/components/EditCard.tsx:190-200 | the `catch` branch resets the progress but never calls `clearInterval`, so the failed submission's interval keeps writing `uploadProgress` on every tick (line 171) | A date is selected and a file dropped. Submit; the upload fails. Submit again; the upload succeeds and 100 is shown. A tick of the first interval then shows 10 while the update is still loading | clear the interval on every path, so the shown progress never decreases during a submission | medium, not executed | `EditCard.OrphanedTimerOnRetry` (with `EditCard.EditModal.UploadsSettled`) | `EditCard.EditModal.UploadsSettledClearing` (with `EditCard.ClearedTimerOnRetry` and the `TimersOwned` clauses of every method) |

## Left out

- Object storage upload (`src/server/s3.ts`) is network I/O behind a wall-clock key. Each upload is a recorded call. Its outcome is the parameter of `UploadsSettled`. The URL shape is not modelled.
- zod's `.cuid()` and `.url()` are library predicates. They are parameters `isCuid` and `isUrl`.
- zod counts lengths in UTF-16 code units. The model counts characters.
- react-dropzone's MIME filter and its `maxFiles` limit are library behaviour. `OnDrop` receives the files the library accepted.
- `EditCard.EditModal.ProgressTick`: the interval's 500 ms schedule and its random float increment (`Math.random() * 20`) are not modelled. A tick is an event with an arbitrary non-negative integer increment.
- Preview object URLs (`URL.createObjectURL` / `revokeObjectURL` in an effect cleanup) are browser resource management. They are not modelled.
- `new Date(string)` and `toLocaleDateString()` are opaque functions given to the constructor.
- The server side of `getPostById` and `updatePost` is not part of this model. The dialog only records the `updatePost` call and its argument. The loaded post is the argument of `OnPostLoaded`.
- react-hook-form is not modelled: validation rules, `reset()` and `isValid`. The submitted values are the parameter of `Submit`.
- Toasts are not modelled beyond which notice is shown. The `console.error` logging in the update's error callback (EditCard.tsx line 118) is not modelled.
- `EditCard.EditModal.Submit` requires that no submission is in progress. The button is disabled while loading (line 358). Two overlapping submissions are therefore not modelled. The other events run one at a time.
- `EditCard.EditModal.UpdateSucceeded` is one atomic event. In the source, loading is cleared before `onPostUpdated()` is awaited, so the Save button is enabled while the refresh runs, and a second submission could start before `handleClose` closes the dialog; the model excludes that interleaving. A rejected `onPostUpdated()` is not modelled either: the source then skips the close and the success notice, while the model always closes and notifies.
- `PostRouter.ParseCreateInput` takes a typed `CreateInput`, so the input is assumed well-typed: zod's `invalid_type` issues for a missing or non-string field cannot arise in the model.
- `PostRouter.PostStore.GetUserPosts`: the included `createdBy` user is not modelled, because the user table is not part of this model. The order among posts with equal `createdAt` is left unspecified, as the query leaves it. A post's images are returned in table order: the include sets no order, so here the model is more specific than the query.
- `PostRouter.PostStore.DeletePost`: image rows are left unchanged. The database schema, and with it any cascade or restriction on delete, is not part of this model. A non-integer id is not modelled.
- Store failures other than a refused image batch are not modelled, such as a rejected post insert or a foreign-key check on `createdById`.
- Authentication is just a present or absent session, as `protectedProcedure` requires. The session middleware is not part of this model.
- After an upload fails, its interval keeps running, because the catch branch never clears it. `UploadsSettled` keeps this behaviour; the second row of "## Findings" shows a tick of that interval changing the progress shown during a later submission.
- `modal.tsx`'s call of `create` without `datePosted` is not modelled. The listing page's month/year filter is not in the modelled files.
