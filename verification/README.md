# Hairstyle try-on session pipeline

A Dafny model of the logic of a mobile hairstyle try-on app. The user picks a
hairstyle from a fixed catalogue and supplies a photo. A processing screen then
sends the photo with a generated instruction to a remote image-edit endpoint
and stores the edited image, which a results screen displays, saves or shares.

The screens share one session store with three fields: `selectedHairstyle`,
`userPhoto` and `processedImage`. The model has:

- `js_runtime.dfy` (`JsRuntime`): the JavaScript behaviour the code relies on.
  This covers `null` as `Option`, truthiness of `string | null` (the empty
  string is falsy), template interpolation of `undefined`, ASCII
  `toLowerCase`, `split` on one character with its inverse `join`, and the
  decimal rendering of a timestamp.
- `store.dfy` (`Store`): the store as a class with three fields, plus its
  state as a value with one pure transition per setter.
- `edit_api.dfy` (`EditApi`): the wire contract. It covers the data-URI prefix
  strip (`split(',')[1]`), the edit instruction, the JSON request body, the
  response record and the rebuilt `data:<mime>;base64,<payload>` URI (the form
  given in RFC 2397).
- `processing.dfy` (`Processing`): the fixed progress checkpoints and the stage
  as a pure specification (outcome, request sent, store after, checkpoints
  shown). It also has the screen as a class whose `ProcessHairstyle` method
  walks the checkpoint table in a loop and is proved against that specification.
- `results.dfy`, `photo.dfy`, `hairstyles.dfy`, `home.dfy`: the guards and
  handlers of the other screens.
- `pipeline.dfy` (`Pipeline`): every store write of every screen, taken as a
  sequence of events, with each processing run taken as one event that reads
  the store and writes its result in the same step. The store enforces no
  invariant itself. Under that atomic reading of a run, the proofs show that
  the screens' guards keep a stored result next to a style and a photo, and
  that every stored result comes from a completed edit. A run that the user
  leaves before it finishes is not captured (see "Left out").

Photo reading, the network exchange, permission prompts, picker results, the
platform (web or native) and the clock are parameters of the operations that
use them.

A success response whose `image` has no `mimeType` is not rejected. Only a
missing `image` throws (app/processing.tsx:94); the missing type is rendered as
the text "undefined" and stored (`Processing.MissingMimeTypeIsStored`).

## Model

| member | source | states |
|---|---|---|
| `Store.HairstyleStore.constructor` | stores/hairstyle-store.ts:20-23 | the store starts with all three fields absent |
| `Store.SessionState.WithSelectedHairstyle` | stores/hairstyle-store.ts:24 | sets `selectedHairstyle` to the argument; `userPhoto` and `processedImage` unchanged |
| `Store.SessionState.WithUserPhoto` | stores/hairstyle-store.ts:25 | sets `userPhoto` only; the other two fields unchanged |
| `Store.SessionState.WithProcessedImage` | stores/hairstyle-store.ts:26 | sets `processedImage` only, from any state |
| `Store.SessionState.Reset` | stores/hairstyle-store.ts:27-31 | all three fields absent, whatever the prior state |
| `Store.ResetIsInitial` | stores/hairstyle-store.ts:21-31 | a reset state equals the initial state |
| `Store.ResetIdempotent` | stores/hairstyle-store.ts:27-31 | resetting twice equals resetting once |
| `Store.ProcessedImageWithoutInputs` | stores/hairstyle-store.ts:26 | the store accepts a result even when no style or photo is present (it enforces no invariant) |
| `Store.HairstyleStore.SetSelectedHairstyle` | stores/hairstyle-store.ts:24 | the object's new state is the old state with only `selectedHairstyle` replaced |
| `Store.HairstyleStore.SetUserPhoto` | stores/hairstyle-store.ts:25 | only `userPhoto` replaced |
| `Store.HairstyleStore.SetProcessedImage` | stores/hairstyle-store.ts:26 | only `processedImage` replaced |
| `Store.HairstyleStore.Reset` | stores/hairstyle-store.ts:27-31 | the object is back in the initial all-absent state |
| `JsRuntime.ToLower` | app/processing.tsx:84 | same length; each character lower-cased; no upper-case letter remains |
| `JsRuntime.ToLowerIdempotent` | app/processing.tsx:84 | lower-casing twice equals lower-casing once |
| `JsRuntime.Split` | app/processing.tsx:69 | at least one part; no part contains the separator; exactly one part iff the input has no separator |
| `JsRuntime.JoinSplit` | app/processing.tsx:69 | joining the parts with the separator restores the input |
| `JsRuntime.SplitJoin` | app/processing.tsx:69 | splitting a join of separator-free parts returns those parts |
| `JsRuntime.Decimal` | app/results.tsx:30 | the timestamp renders as a non-empty string of digits with no leading zero |
| `JsRuntime.ParseDecimalOfDecimal` | app/results.tsx:30 | reading the rendered digits back gives the number |
| `JsRuntime.DecimalInjective` | app/results.tsx:30 | different numbers render differently |
| `EditApi.StripPrefix` | app/processing.tsx:69 | `undefined` iff the data URL has no comma; otherwise a comma-free text |
| `EditApi.StripPrefixBetweenCommas` | app/processing.tsx:69 | the result is the text between the first and the second comma (or the end) |
| `EditApi.StripPrefixOfDataUri` | app/processing.tsx:94 | stripping a data URI built as on line 94 (comma-free type and payload) returns the payload, as line 69 expects |
| `EditApi.PromptFields` | app/processing.tsx:84 | the prompt is the fixed template with the lower-cased name and description at their offsets |
| `EditApi.PromptInjective` | app/processing.tsx:84 | for names of equal length, two prompts are equal iff the lower-cased names and descriptions are |
| `EditApi.PromptIgnoresCase` | app/processing.tsx:84 | the letter case of the catalogue entry does not change the prompt |
| `EditApi.BobCutPrompt` | app/hairstyles.tsx:28-30 | the "Bob Cut" / "Classic bob hairstyle" entry gives "...to bob cut. Apply the classic bob hairstyle hairstyle to..." |
| `EditApi.LowerBobCut` | app/hairstyles.tsx:28 | "Bob Cut" lower-cases to "bob cut" |
| `EditApi.LowerClassicBob` | app/hairstyles.tsx:30 | "Classic bob hairstyle" lower-cases to "classic bob hairstyle" |
| `EditApi.LowerClassic` | app/hairstyles.tsx:30 | "Classic" lower-cases to "classic" |
| `EditApi.RequestBodyShape` | app/processing.tsx:83-86 | the body has exactly `prompt` and `images`; `images` holds one `{type: 'image', image: payload}` entry, without `image` when the payload is undefined |
| `EditApi.ResultUri` | app/processing.tsx:93-94 | a URI exists iff the body parsed and has `image`; it is `data:<mimeType>;base64,<base64Data>`, with "undefined" for a missing sub-field |
| `EditApi.ResultUriTruthy` | app/processing.tsx:94 | a rebuilt URI is never empty |
| `EditApi.ResultUriRoundTrip` | app/processing.tsx:94 | the stored URI strips back to the returned payload |
| `Processing.Checkpoints` | app/processing.tsx:49-54 | six checkpoints 20, 40, 60, 80, 90, 100, strictly increasing, all above the initial 0, ending with "Complete!" |
| `Processing.Request` | app/processing.tsx:41-87 | a request is sent iff a style and a non-empty photo are present and the photo was read |
| `Processing.Outcome` | app/processing.tsx:41-112 | missing data iff the guard fails; a read failure or a non-OK status fails; completes iff OK and the response has `image`, with the rebuilt URI |
| `Processing.TraceIsOrderedPrefix` | app/processing.tsx:56-98 | each run shows a prefix of the checkpoint table, strictly increasing, and reaches 100 iff it completes |
| `Processing.MissingInputsDoNothing` | app/processing.tsx:41-45 | without a style or photo there is no request, no checkpoint and no store change |
| `Processing.FailureKeepsStore` | app/processing.tsx:105-112 | any failure leaves the store unchanged and never shows 100 |
| `Processing.NonOkResponse` | app/processing.tsx:89-90 | a non-OK status fails after the request, with progress at 90 and the store unchanged |
| `Processing.CompletionStoresDataUri` | app/processing.tsx:94-98 | success stores exactly `data:<mime>;base64,<data>`, keeps the other fields, and shows all six checkpoints |
| `Processing.MissingMimeTypeIsStored` | app/processing.tsx:94 | an image without `mimeType` completes with `data:undefined;base64,...` |
| `Processing.RequestCarriesPayload` | app/processing.tsx:63-86 | the request carries the style's prompt and the photo's payload without the data-URI prefix |
| `Processing.ProcessingScreen.constructor` | app/processing.tsx:16-17 | progress 0, "Preparing your photo...", nothing shown yet |
| `Processing.ProcessingScreen.Report` | app/processing.tsx:58-59 | sets progress and status to the checkpoint and appends it to the shown history |
| `Processing.ProcessingScreen.ProcessHairstyle` | app/processing.tsx:40-113 | the outcome, the request, the new store state and the shown checkpoints equal the stage specification; progress and status end at the last checkpoint shown |
| `Processing.NextRoute` | app/processing.tsx:100-111 | the app moves on to the results iff the run completed (after the store write); otherwise it goes back |
| `Results.DownloadNameFields` | app/results.tsx:30 | the download name is `hairstyle-`, the style name, `-`, the timestamp digits, `.jpg` |
| `Results.DownloadNameDistinct` | app/results.tsx:30 | two downloads of one style at different instants get different names |
| `Results.ShareTextNamesStyle` | app/results.tsx:67 | the share text is "Check out my new " + name + " hairstyle!", and two texts are equal iff the names are |
| `Results.SaveImage` | app/results.tsx:23-43 | no result means nothing to save; on the web a download of the result under the download name; natively a save to the library with permission 'granted', and the permission alert otherwise |
| `Results.TryAgain` | app/results.tsx:80-83 | the store is back in the all-absent state, and the results view would show its error |
| `Photo.Adopted` | app/photo.tsx:43-45 | a picked uri iff the result is not canceled and has a first asset, and it is that asset's uri |
| `Photo.ContinueWithPhoto` | app/photo.tsx:71-76 | writes `userPhoto` only when a non-empty photo is selected; otherwise the store is unchanged |
| `Photo.PhotoScreen.constructor` | app/photo.tsx:18 | no photo selected |
| `Photo.PhotoScreen.PickImageFromGallery` | app/photo.tsx:21-46 | native without permission: unchanged; otherwise the picked uri if any, else unchanged |
| `Photo.PhotoScreen.TakePhoto` | app/photo.tsx:48-69 | on the web or without camera permission: unchanged; otherwise the picked uri if any |
| `Photo.PhotoScreen.ChangePhoto` | app/photo.tsx:94 | the selected photo becomes absent |
| `Photo.PhotoScreen.HandleContinue` | app/photo.tsx:71-76 | proceeds iff a non-empty photo is selected, and the store changes exactly as `ContinueWithPhoto` says |
| `Photo.PickedPhotoReachesStore` | app/photo.tsx:66-76 | a picked non-empty uri, once continued with, is the store's photo and nothing else changes |
| `Hairstyles.Catalogue` | app/hairstyles.tsx:19-68 | eight entries with ids '1' to '8', pairwise distinct, each with a non-empty name and description |
| `Hairstyles.AtMostOneCardSelected` | app/hairstyles.tsx:97-106 | at most one card is marked, and after choosing entry k only card k is |
| `Hairstyles.NoCardSelectedInitially` | app/hairstyles.tsx:97 | with no selection no card is marked |
| `Hairstyles.HandleSelectHairstyle` | app/hairstyles.tsx:73-75 | the pressed entry replaces the selection; nothing else changes |
| `Hairstyles.HandleContinue` | app/hairstyles.tsx:77-81 | proceeds iff a style is selected |
| `Home.LikedIds` | app/home.tsx:49 | an id is liked iff some card with that id has `liked` set |
| `Home.OnlyAfroFlagged` | app/home.tsx:35-44 | only the "afro" card of the gallery is flagged as liked |
| `Home.InitialLikedIsAfro` | app/home.tsx:49 | the initial liked set is exactly {"afro"} |
| `Home.ToggleLike` | app/home.tsx:52-58 | the toggled id's membership flips and every other id's stays |
| `Home.ToggleLikeTwice` | app/home.tsx:54-55 | toggling the same id twice restores the set |
| `Home.FilteredGallery` | app/home.tsx:61-63 | the whole gallery, whatever the category |
| `Home.HomeScreen.constructor` | app/home.tsx:48-49 | category "all" and the initial liked set |
| `Home.HomeScreen.SetActive` | app/home.tsx:170 | changes the category only |
| `Home.HomeScreen.HandleToggleLike` | app/home.tsx:52-58 | the liked set becomes the toggled copy of the old one; the category is unchanged |
| `Pipeline.StepKeepsConsistent` | app/processing.tsx:41-96 | every screen action keeps "a result only beside a style and a non-empty photo" |
| `Pipeline.RunKeepsConsistent` | app/processing.tsx:41-96 | any sequence of screen actions keeps that invariant, with each processing run taken as atomic (see Left out) |
| `Pipeline.ResultsViewMatchesStore` | app/results.tsx:85-96 | in every session reached by screen actions with atomic processing runs, the "No results" view shows iff no result is stored |
| `Pipeline.ResultComesFromCompletedRun` | app/processing.tsx:96 | every stored result is the image of an earlier completed processing run |
| `Pipeline.TryAgainClearsSession` | app/results.tsx:80-83 | after any history, "Try Again" leaves the empty session |
| `Pipeline.PixieCutEndToEnd` | app/processing.tsx:40-103 | "Pixie Cut", a photo and a JPEG answer store `data:image/jpeg;base64,<data>`, show all six checkpoints, and reach the result view |

## Left out

- Layout, styling, animations, gradients and the landing screen: presentation only.
- Fetching and reading the photo (`fetch`, `blob`, `FileReader`) is an input: the data URL read, or absent when fetching fails. If the reader itself errors, `null.split` throws inside its callback and the stage never settles. That hang is not modelled.
- The base64 codec belongs to the platform's reader. The payload is an opaque string, so no encode/decode round trip is stated.
- The POST is an input: an OK flag and the parsed body, absent when `json()` rejects. Headers, the URL and `JSON.stringify` text are not modelled; the body is a JSON value.
- Timers (800 ms per checkpoint, 1000 ms before navigating) and alerts are not modelled. The route taken after a run is `Processing.NextRoute`.
- `Date.now()` is a parameter.
- `toLowerCase` is ASCII only; other letters are kept as they are.
- Card ratings (floating point and `toFixed`) are not modelled. Neither is the trending list, which only supplies more ids to the like toggle.
- The native save writes nothing to the device, and the media-library calls are I/O. `Results.SaveImage` stops at the decision to save to the library.
- Share on the web and the native share placeholder are not modelled beyond the share text.
- The comparison toggle on the results screen is view state only.
- `Platform.OS` is a boolean parameter where a handler branches on it.
- No timeout, retry or cancellation exists in the code, so none is modelled.
- Pipeline.RunKeepsConsistent, Pipeline.ResultsViewMatchesStore: a processing run is modelled as atomic. In the code the run reads the style and photo when the screen mounts (app/processing.tsx:18, 37), writes `processedImage` only after the waits and the two fetches (line 96), and nothing cancels it when the user leaves (the effect at lines 22-38 has no cleanup). So a run abandoned by going back can write its result after a later "Try Again" reset (app/results.tsx:81), leaving a result beside no style and no photo, or store one style's image after another style was chosen. Neither lemma covers such an interleaving.
