# Lipsync video-job lifecycle, modelled in Dafny

This project models the job-tracking core of a small lip-sync video app. The
app has two back ends. The hosted one is a pair of Next.js routes plus Convex
functions. The standalone one is an Express server with no store. Both
forward an image and an audio file to the video provider (HeyGen).

The hosted back end records one job per accepted generation request in the
Convex `videos` table. Two paths then drive the record forward, and both call
the same `updateStatus` mutation:

- the pull path: `GET /api/status` asks the provider and writes the mapped status;
- the push path: the provider's `POST /heygen/callback` webhook.

Around them sit the submission handlers and the decision rules of the two
front ends: orientation detection, submit guards and display predicates.

Everything is modelled as immutable values and pure functions:

| file | module | models |
|---|---|---|
| `wrappers.dfy` | `Wrappers` | `Option`, for a value that may be `undefined` |
| `js.dfy` | `Js`, `Http` | JavaScript truthiness, `a \|\| b`, and the status codes used |
| `text.dfy` | `Text` | `String.prototype.replace` with a string pattern (first occurrence only), `startsWith`, and number-to-decimal conversion |
| `schema.dfy` | `Schema` | the `videos` record |
| `videos.dfy` | `Videos` | the store as a `seq<Video>` in insertion order: `createVideo`, `getVideos`, `updateStatus` |
| `provider.dfy` | `Provider` | the provider's replies as inputs, the asset-id key fallbacks, the orientation values, request payloads, and outbound calls |
| `webhook.dfy` | `Webhook` | the callback handler |
| `status_route.dfy` | `StatusRoute` | the poll route |
| `generate_route.dfy` | `GenerateRoute` | the hosted submission route |
| `server.dfy` | `Server` | the standalone `/api/generate-video` handler |
| `video_generator.dfy` | `VideoGenerator` | the hosted React form and video list rules |
| `app.dfy` | `App` | the standalone page's cards, drag-and-drop, button and submit |
| `lifecycle.dfy` | `Lifecycle` | properties that span components |

Network calls are not performed. Each handler takes the reply the provider
would give to each call as a parameter. The two generation handlers list the
calls they made, in order, so "nothing was uploaded" or "audio was never
uploaded" can be stated directly; the status route records only whether it
queried the provider. Clock readings (`Date.now()`) are also parameters.

In the code, status is not monotonic, ids are not unique, omitted fields are not left untouched, and the webhook does not always reply 200. The model states what the code does:

- `updateStatus` has no terminal-state guard. It writes whatever status it is given.
- Each optional argument that is left out removes the stored field. This is Convex's `patch` semantics for `undefined`.
- So a stale poll reply can move a `completed` record back to `processing` and clear its url (`StatusRoute.StalePollRegresses`, `Lifecycle.StalePollUndoesCompletion`, `Lifecycle.CompletedJobRegresses`).
- `heygenId` is not unique. A duplicate `createVideo` adds a second record. Only the oldest record with that id is ever updated (`Videos.DuplicateIsShadowed`).
- The webhook does not always reply 200. For a success or fail event without `event_data`, or without `video_id`, the handler throws before replying (`Webhook.Handle`).
- For every other event type it replies 200 "OK".

## Model

| member | source | states |
|---|---|---|
| Videos.CreateVideo | convex/videos.ts:4-13 | exactly one record is appended (status "processing", no url/thumbnail/error, the given id and time); every existing record is kept, and the multiset grows by exactly that record |
| Videos.FirstIndex | convex/videos.ts:31-34 | the lookup finds a record iff some record has the id, and what it finds is the oldest such record |
| Videos.Patched | convex/videos.ts:37-42 | the patch sets status, url, thumbnailUrl and error to the arguments exactly (omitted becomes absent) and keeps heygenId and createdAt |
| Videos.UpdateStatus | convex/videos.ts:22-45 | an unknown id leaves the store unchanged; otherwise only the first matching record changes, to the patched record; the length is kept |
| Videos.Newest | convex/videos.ts:18 | `order("desc").take(n)`: min(n, size) records, the k-th being the k-th newest |
| Videos.GetVideos | convex/videos.ts:15-20 | at most 10 records, exactly 10 when the store holds at least 10, newest first |
| Videos.UpdateKeepsIds | convex/videos.ts:31-42 | an update changes no heygenId, so it does not change the record any later lookup finds |
| Videos.LastWriteWins | convex/videos.ts:36-42 | two updates of one id leave exactly what the second alone leaves: nothing of the first survives |
| Videos.UpdateIdempotent | convex/videos.ts:37-42 | applying the same update twice equals applying it once |
| Videos.UpdatesOfDifferentIdsCommute | convex/videos.ts:31-42 | updates of different ids commute |
| Videos.NoTerminalGuard | convex/videos.ts:36-42 | whatever the matched record held, it ends with the update's status and optionals; the prior status is never consulted |
| Videos.UnknownIdIsDropped | convex/videos.ts:31-36 | an update for an id no record has leaves the store unchanged and creates nothing |
| Videos.CreateThenLookup | convex/videos.ts:6-34 | a new record is what a later update finds iff no older record has its id; otherwise the older one still is |
| Videos.DuplicateIsShadowed | convex/videos.ts:6-43 | creating a duplicate id and then updating it leaves the duplicate exactly as created |
| Videos.CreateHeadsPage | convex/videos.ts:7-18 | after createVideo the new record heads the page and the rest is the previous page, cut to 9 when it was full |
| Text.ReplaceFirst | app/api/generate/route.ts:59 | without an occurrence the string is unchanged; otherwise only the first occurrence is replaced, with prefix and suffix kept |
| Text.ReplaceFirstUndo | app/api/generate/route.ts:59 | putting the pattern back at the replaced position restores the original string |
| Text.DecimalRoundTrip | app/api/generate/route.ts:65 | the title's timestamp digits read back as the timestamp |
| Provider.ImageKey | app/api/generate/route.ts:41 | the image key is truthy iff `image_key` or `asset_id` is truthy, with `image_key` preferred |
| Provider.AudioAssetId | app/api/generate/route.ts:45 | the audio id is truthy iff `asset_id` or `id` is truthy, with `asset_id` preferred |
| Provider.ErrorDetails | app/api/generate/route.ts:93 | the details of a thrown call are its response's body, and absent when the call got no response |
| Provider.FallbacksShareAssetId | app/api/generate/route.ts:41-45 | an upload reply with a truthy `asset_id` yields both a usable image key and that audio id; a reply with only `id` yields an audio id but no image key, and one with only `image_key` the reverse |
| Webhook.Handle | convex/http.ts:10-31 | success gives `completed` with the event url and no thumbnail or error; fail gives `failed`, no url, error = msg if truthy else "Unknown error"; other event types update nothing; the reply is 200 "OK" whenever the handler returns; it throws iff a handled event lacks event_data or video_id |
| Webhook.Apply | convex/http.ts:16-27 | a thrown or ignored event leaves the store as it was; otherwise no record is added, removed or re-keyed, and only the oldest record with the event's id can change |
| Webhook.DeliverTwice | convex/http.ts:16-27 | delivering the same event twice leaves the store as delivering it once |
| Webhook.SuccessClearsThumbnail | convex/http.ts:16-21 | a success event removes a stored thumbnail and error, because it omits them |
| StatusRoute.MapStatus | app/api/status/route.ts:41-43 | the result is "completed" iff the provider said exactly "completed", and "failed" iff it said "failed"; anything else is "processing" |
| StatusRoute.Code | app/api/status/route.ts:14-61 | 400 for a missing videoId, 500 for a failed query, 200 for a completed poll |
| StatusRoute.Poll | app/api/status/route.ts:9-63 | a missing or empty videoId gives 400 with no provider call and no update; a rejected call gives 500 with the provider's error body, and a reply without `data` gives 500 with no details, both with no update; otherwise the update carries the mapped status, with empty or absent url, thumbnail and error passed as omitted, and the reply, sent only after the provider was queried, echoes the mapped status and the raw url |
| StatusRoute.MissingIdIgnoresProvider | app/api/status/route.ts:14-16 | with a missing videoId the outcome is the same whatever the provider would have answered |
| StatusRoute.StalePollRegresses | app/api/status/route.ts:41-52 | a non-terminal provider status without a url turns a completed record back to "processing" and removes its url |
| StatusRoute.Apply | app/api/status/route.ts:46-52 | a poll without an update leaves the store as it was; otherwise no record is added, removed or re-keyed, and only the oldest record with the polled id can change |
| StatusRoute.PollTwice | app/api/status/route.ts:46-52 | the same poll reply applied twice equals applying it once |
| GenerateRoute.Code | app/api/generate/route.ts:34-95 | 200 iff a job was submitted, 400 iff files were missing, 500 for every other failure |
| GenerateRoute.AspectRatio | app/api/generate/route.ts:32 | an absent or empty aspectRatio becomes "portrait"; any other value is kept |
| GenerateRoute.DimensionFor | app/api/generate/route.ts:52-57 | "landscape" gives 1920x1080; every other value gives 1080x1920; the frame is wider than tall iff the value is "landscape" |
| GenerateRoute.CallbackUrl | app/api/generate/route.ts:59 | the callback ends with "/heygen/callback", and a URL without ".cloud" is kept as it is |
| GenerateRoute.CallbackForDeployment | app/api/generate/route.ts:59 | for every `https://<name>.convex.cloud` the callback is `https://<name>.convex.site/heygen/callback` |
| GenerateRoute.VideoTitle | app/api/generate/route.ts:65 | the title is "Video_" followed by at least one character |
| GenerateRoute.BuildPayload | app/api/generate/route.ts:63-71 | the payload carries both asset ids, fit "cover", the callback and the frame for the aspect ratio, and no orientation field |
| GenerateRoute.Post | app/api/generate/route.ts:27-97 | missing files give 400 before any upload; a thrown image upload ends the run after that one call, and a thrown audio upload after two, each with the provider's error body; both uploads happen before the ids are checked, and a missing id gives 500; with both ids but no CONVEX_URL the run fails after the two uploads; the generation call is made, as the third call, exactly when the handler gets that far; a job is submitted iff every step succeeds and the reply carries `data.video_id`, and a reply without it is malformed |
| GenerateRoute.Apply | app/api/generate/route.ts:83-88 | a record is created only for a submitted job, with heygenId equal to the returned video id; failures leave the store unchanged |
| GenerateRoute.FrameFollowsAspectRatio | app/api/generate/route.ts:32-57 | a submitted job's frame is 1920x1080 iff the form said "landscape" |
| Server.ErrorStatus | server.js:153 | the error reply uses the upstream status when it has a non-zero one, else 500 |
| Server.Code | server.js:77-157 | 400 for missing files; 500 for a missing key or an unusable upload reply; the upstream status for a failed call; 200 on success |
| Server.BuildPayload | server.js:53-68 | the request is always `video_orientation: "portrait"` and fit "cover", with no callback and no dimension |
| Server.PostGenerateVideo | server.js:71-159 | a missing API key gives 500 before the files are checked; missing files give 400 with no calls; a thrown image upload gives its status and body after one call; an image reply without a truthy key gives 500 echoing that reply and stops before the audio upload; a thrown audio upload gives its status and body after two calls; an audio reply without a truthy id gives 500 echoing it, and only then; the generation call is made, as the third call with the fixed portrait payload, exactly when both ids are usable; the video is started iff that call answers |
| Server.AspectRatioIgnored | server.js:85-137 | two requests that differ only in aspectRatio are handled identically |
| Server.NoAudioUploadWithoutImageKey | server.js:107-113 | without an image key the only call is the image upload, and the reply is 500 with the upload response |
| VideoGenerator.Classify | components/VideoGenerator.tsx:34-40 | landscape iff width > height; portrait otherwise, square included |
| VideoGenerator.ChangeImage | components/VideoGenerator.tsx:21-25 | a new image (or none) clears the orientation notice and keeps the aspect ratio until it loads |
| VideoGenerator.ImageLoaded | components/VideoGenerator.tsx:30-41 | the aspect ratio and the notice follow the classification of the loaded size |
| VideoGenerator.ChangeAudio | components/VideoGenerator.tsx:164 | choosing audio changes only the audio file: the image, notice, aspect ratio, loading flag and error are kept |
| VideoGenerator.BeginSubmit | components/VideoGenerator.tsx:48-63 | no request iff a file is missing, and then only the error changes; otherwise the form carries both files and the current aspect ratio |
| VideoGenerator.FinishSubmit | components/VideoGenerator.tsx:70-85 | success resets both files and the notice but keeps the aspect ratio; failure keeps the files and shows `data.error` or "Failed to generate video", or the thrown message; loading always ends |
| VideoGenerator.EnabledButtonSubmits | components/VideoGenerator.tsx:183 | when the button is enabled a submit sends a request, and the button is then disabled |
| VideoGenerator.SuccessNeedsNewFiles | components/VideoGenerator.tsx:76-79 | after a successful submit the button is disabled and a new submit sends nothing until both files are chosen again |
| VideoGenerator.BadgeFor | components/VideoGenerator.tsx:263-267 | green iff "completed", red iff "failed", yellow for every other string |
| VideoGenerator.SubmitDisabled | components/VideoGenerator.tsx:183 | the button is disabled iff a request is in flight or either file is missing |
| VideoGenerator.CanPlay | components/VideoGenerator.tsx:245 | the play overlay and the modal player are offered iff the record is "completed" and has a non-empty url |
| VideoGenerator.ShowsRefresh | components/VideoGenerator.tsx:272 | the refresh control and spinner appear iff the status is exactly "processing" |
| VideoGenerator.PlayAndRefreshExclusive | components/VideoGenerator.tsx:245-272 | no record shows both the play overlay and the refresh control; a refreshable record is yellow and a playable one green |
| App.Detect | public/app.js:44-56 | landscape iff width > height, portrait iff height > width, square iff equal |
| App.UpdateButton | public/app.js:125-127 | the button is enabled exactly when both files are chosen; nothing else changes |
| App.PickImage | public/app.js:19-28 | a chosen image is kept and highlighted and the button follows the audio; only the image, its highlight and the button change; no file changes nothing |
| App.PickAudio | public/app.js:80-88 | a chosen audio file is kept and highlighted and the button follows the image; only the audio, its highlight and the button change; no file changes nothing |
| App.DragOver | public/app.js:92-95 | dragover highlights the card and changes nothing else |
| App.DragLeave | public/app.js:97-101 | the card stays highlighted after dragleave iff it was highlighted and holds a file; nothing else changes |
| App.Drop | public/app.js:103-122 | only an `image/*` file on the image card or an `audio/*` file on the audio card replaces a file; after an accepted drop the button is enabled exactly when both files are chosen; other drops only recompute the button; only the card's file, its highlight and the button can change, so the other card, the detected orientation, loading and the result are kept |
| App.OrientationDetected | public/app.js:38-72 | after the image loads, the remembered orientation is landscape iff it is wider than tall and portrait iff it is taller than wide; nothing else on the page changes |
| App.DetectedOrientationIsSent | public/app.js:147-149 | once an image has been measured, the next submit with both files sends the orientation the `onload` stored for that image as aspectRatio, "landscape" exactly for a wider image |
| App.Submit | public/app.js:130-149 | no request iff a file is missing, and then only the error result is shown; otherwise the result box is hidden, the form has aspectRatio iff an orientation was detected, and the page is loading with the button disabled; nothing else changes in either case |
| App.Finish | public/app.js:156-177 | the result is shown with the success style iff the response was ok; loading ends and the button is enabled exactly when both files are chosen; only loading, the button and the result change |
| App.ResultFollowsLastSubmit | public/app.js:133-141 | a submit without audio shows an error and sends nothing; after the audio is chosen the next submit hides the error, and an ok response shows success |
| App.StepKeepsConsistent | public/app.js:19-177 | every handler keeps each chosen file's card highlighted and, when idle, keeps the button matched to the files |
| App.InitialConsistent | public/app.js:190-195 | the page the `load` handler leaves is consistent, and stays so after a submit without files |
| App.RunKeepsConsistent | public/app.js:190-195 | from a consistent page, any sequence of events keeps it consistent |
| App.DropWhileLoadingEnables | public/app.js:103-127 | a drop completing the pair during a request re-enables the button while still loading |
| Lifecycle.LastArrivalDecides | convex/videos.ts:31-42 | for a webhook update and a poll update of one record, in either order, the store is what the later one alone would leave |
| Lifecycle.StalePollUndoesCompletion | app/api/status/route.ts:41-52 | after a success webhook a stale poll leaves the record "processing" with no url: the player is gone and the refresh control is back |
| Lifecycle.WebhookFindsSubmittedJob | app/api/generate/route.ts:83-86 | on a store without the id, the webhook's update lands on the record the submission created |
| Lifecycle.FrameFollowsMeasuredImage | components/VideoGenerator.tsx:34-63 | the hosted front end and route give 1920x1080 iff the image is wider than tall |
| Lifecycle.StandaloneRequestsPortrait | public/app.js:147-149 | whatever orientation the standalone page sends, the server requests a portrait video without a dimension |
| Lifecycle.CompletedJobRegresses | app/api/status/route.ts:41-52 | for any job the handler submits, with any id and url: submit, then poll "completed" with a url, then a stale "processing" poll: the record returns to its initial state |

## Left out

- Network I/O is not modelled. This covers the axios calls, the Convex HTTP client, and the request and response objects; provider replies and webhook bodies are inputs.
- Store failures are not modelled. A mutation that throws (Convex unavailable) would give 500 in both routes; every mutation here succeeds. The exception is argument validation of a missing id, which is modelled.
- Provider bodies that are not objects, such as an empty-string error body, are not modelled. `Raw` is an opaque object and always truthy.
- Non-string JSON values in provider replies are not modelled. Fields are strings or absent.
- JSON parse failures of the webhook body are not modelled. Its parsed body is the input.
- Router plumbing, CORS, static serving, dotenv and multer's 50 MB limit are not modelled; the library enforces that limit.
- React rendering, DOM changes, SVG markup, object URLs and image decoding are not modelled. Width and height are inputs.
- The notice texts and the `alert` of the standalone page are not modelled. The result box is modelled only as hidden, success or error; its JSON text is not.
- Timestamps and titles are parameters. `getVideos` orders by Convex's creation time, which is the insertion order of the sequence, not by `createdAt`.
- Real concurrency is not modelled. A race is an interleaving of whole `updateStatus` calls (`Lifecycle.LastArrivalDecides`). The gap between a lookup and its patch is not split.
- Stale `onload` callbacks are not modelled. An image can finish loading after another was chosen; each event is applied in arrival order.
- Whether the provider honours `callback_id` is not modelled.
- Logging is not modelled.
- The component's refresh control being disabled while its own poll is in flight, and the record's error line, are display only and are not modelled.
- app/page.tsx is a wrapper around the component and is not part of this model.
- A terminal-state guard is not modelled, because the code has none. A `completed` or `failed` record can return to `processing`; `Videos.NoTerminalGuard` and `StatusRoute.StalePollRegresses` show how.
- GenerateRoute.VideoTitle: states only the "Video_" prefix, not the exact digits of the clock reading; the digits are covered by Text.DecimalRoundTrip.
- GenerateRoute.CallbackUrl: states the suffix and the no-".cloud" case; the replaced host is stated by Text.ReplaceFirst and by GenerateRoute.CallbackForDeployment for Convex deployment URLs.
