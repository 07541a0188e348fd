# Baby photo wizard: a verified model of its core

The application is a five-screen wizard (home, upload, template, generating,
result). On the upload screen, users pick up to three photos. Each photo
passes a size filter and a consent dialog, and then a remote face-detection
service checks it. Users then pick a scene and a style. The generating
screen sends the photos one at a time to a remote image-generation service.
The result screen shows the successful images behind a cursor.

This project models the logic under the screens in Dafny:

- `types.dfy` (module `Types`): the entities of `types.ts`. These are the
  photo, the generated photo, scene and style (only id and name), the five
  `AppStep` values and an `Option` for the optional `hasFace` field.
- `upload.dfy` (module `Upload`, `components/steps/UploadStep.tsx`): the pure
  list updates as functions: the size filter, photo creation, detection by
  id, removal, the rotate update and the `allValid` gate. The screen's
  handlers are methods of the class `UploadStep`. The detection loop of
  the consent handler is a `while` loop with invariants.
- `generation.dfy` (module `Generation`, `components/steps/GenerationStep.tsx`):
  one generation pass is specified by the function `Generate`. The class
  `GenerationStep` holds the guard, the counter, the error and the message
  index. Its `StartGeneration` runs the sequential `for` loop and is proved
  against `Generate`.
- `results.dfy` (module `Results`, `components/steps/ResultStep.tsx`): the
  cursor and its disabled arrows, the displayed photo and position, the
  restart buttons and the download file name.
- `wizard.dfy` (module `Wizard`, `App.tsx`): the function `Handle` gives what
  each handler does to the wizard state. `Offered` says which screen can
  raise which event. The class `App` has one method per handler, each proved
  to match `Handle`. Lemmas prove the invariant kept along any sequence of
  user actions.

The two remote services are oracles. A caller supplies one outcome per call:
`Detected(hasFace)` or `DetectFailed` for face detection, and
`Generated(url)` or `GenerationFailed` for generation. Ids made from
`Math.random`/`Date.now` are also supplied. New photo ids must be distinct
and unused; generated ids come one per position.

Some behaviour of the code is worth spelling out:

- The progress counter goes up only on a success
  (components/steps/GenerationStep.tsx:57). With two photos and one failure
  the pass has one result (`Generation.TwoPhotosOneFailure`), and
  `StartGeneration` leaves the counter equal to the number of results.
- A failed detection call is not caught (components/steps/UploadStep.tsx:58
  and :80). It ends the handler. A new photo stays "validating" with no
  verdict; a turned photo stays "validating" and keeps its earlier verdict.
- The angle sent for re-detection on rotate is computed from the
  render-time `photos` snapshot (components/steps/UploadStep.tsx:77-79). It
  matches the stored angle when the snapshot is current
  (`Upload.CurrentSnapshotSendsStoredAngle`) and lags by a quarter turn when
  the snapshot is stale (`Upload.StaleSnapshotSendsOldAngle`).
- The generation screen shows its back button only after a failed pass
  (components/steps/GenerationStep.tsx:81-95). By then the error is set and
  the guard is cleared (:72-73), so no call is in flight and no completion
  is pending.

## Model

| member | source | states |
|---|---|---|
| `Upload.KeepWithinLimit` | components/steps/UploadStep.tsx:23 | every kept file is at most 10 MiB; each file within 10 MiB is kept as many times as it was selected; no larger file is kept |
| `Upload.KeepWithinLimitDistributes` | components/steps/UploadStep.tsx:23 | filtering a concatenation gives the concatenation of the filtered parts, so kept files keep their relative order |
| `Upload.OversizeInTail` | components/steps/UploadStep.tsx:23-27 | when the first file is within the ceiling, some file is over it exactly when one of the remaining files is |
| `Upload.KeepWithinLimitDropsIff` | components/steps/UploadStep.tsx:23-27 | the filter returns fewer files exactly when some selected file is over 10 MiB |
| `Upload.UploadStep.HandleFileChange` | components/steps/UploadStep.tsx:20-35 | the oversize notice is raised iff some file is over the ceiling; the pending files are set and the consent dialog opened only when a file survives; photos unchanged |
| `Upload.UploadStep.ClosePrivacyModal` | components/steps/UploadStep.tsx:193-197 | the dialog closes and the photos and pending files stay |
| `Upload.CreatePhotos` | components/steps/UploadStep.tsx:38-44 | one photo per accepted file, with the supplied id, that file, rotation 0, validating, and no face verdict |
| `Upload.MarkDetected` | components/steps/UploadStep.tsx:59-61 | a detection result stops validation and sets the verdict; id, file and rotation are kept |
| `Upload.ApplyDetection` | components/steps/UploadStep.tsx:59-61 | only photos with the matching id change, and they take the verdict; length, order and every other photo are unchanged |
| `Upload.DetectedCount` | components/steps/UploadStep.tsx:57-62 | the number of detection calls that report before the first rejection: all earlier calls reported, and the next one was rejected |
| `Upload.DetectionStep` | components/steps/UploadStep.tsx:57-62 | applying the next verdict by id to the list updates exactly the next photo of the new batch, given distinct ids |
| `Upload.UploadStep.HandlePrivacyAgree` | components/steps/UploadStep.tsx:37-63 | above the 3-photo cap: a notice, photos and pending files unchanged, no detection. Otherwise: the new photos go after the old ones in order, pending files are cleared, and the verdicts up to the first rejection are applied; the cap, distinct ids and quarter-turn angles are kept (the supplied ids are unused and distinct) |
| `Upload.RemovePhoto` | components/steps/UploadStep.tsx:65-67 | no photo with the id is left; every other photo is kept as many times as it occurred; nothing changes when the id is absent |
| `Upload.RemovedPhotosWereThere` | components/steps/UploadStep.tsx:66 | every photo left after a removal was in the list |
| `Upload.RemoveIdempotent` | components/steps/UploadStep.tsx:66 | removing an id twice is the same as removing it once |
| `Upload.RemoveDistributes` | components/steps/UploadStep.tsx:66 | removal works part by part, so the remaining photos keep their order |
| `Upload.RemoveKeepsDistinct` | components/steps/UploadStep.tsx:66 | removal keeps photo ids unique |
| `Upload.UploadStep.HandleRemovePhoto` | components/steps/UploadStep.tsx:65-67 | the new list is the old list minus that id; the invariant is kept |
| `Upload.NextRotation` | components/steps/UploadStep.tsx:72 | the new angle is below 360; from 0, 90 or 180 it goes up by 90, and from 270 it wraps to 0 |
| `Upload.FourTurnsRestore` | components/steps/UploadStep.tsx:72 | four quarter turns give back the original angle |
| `Upload.Turned` | components/steps/UploadStep.tsx:72 | a turned photo has the next angle and is validating again; its id, file and verdict are kept |
| `Upload.RotatePhoto` | components/steps/UploadStep.tsx:70-75 | only photos with the matching id are turned and marked validating; all others are unchanged |
| `Upload.FindIndex` | components/steps/UploadStep.tsx:77 | the position of the first photo with the id, or the length when there is none |
| `Upload.FindPhoto` | components/steps/UploadStep.tsx:77 | there is a result iff some photo has the id, and it is the photo at the first such position |
| `Upload.CurrentSnapshotSendsStoredAngle` | components/steps/UploadStep.tsx:70-80 | when the snapshot is the list the update ran on, the angle sent to detection is the angle now stored |
| `Upload.StaleSnapshotSendsOldAngle` | components/steps/UploadStep.tsx:77-80 | with a snapshot one turn behind, the angle sent is 90 while 180 is stored |
| `Upload.UploadStep.constructor` | components/steps/UploadStep.tsx:15-17 | the screen mounts on the wizard's list with no pending files and the dialog closed; a list within the cap, with unique ids and quarter-turn angles, sets up the invariant |
| `Upload.UploadStep.HandleRotatePhoto` | components/steps/UploadStep.tsx:69-85 | the list is turned; the angle sent is the snapshot's next angle; no call is made when the snapshot lacks the id; the verdict is applied by id only when the call reports |
| `Upload.NewPhotosCloseGate` | components/steps/UploadStep.tsx:87 | a list with a newly created photo does not pass the gate |
| `Upload.RotateClosesGate` | components/steps/UploadStep.tsx:87 | after turning a photo that is present, the gate is closed |
| `Upload.NoFaceClosesGate` | components/steps/UploadStep.tsx:87 | a "no face" verdict for a photo that is present closes the gate |
| `Upload.AllValid` | components/steps/UploadStep.tsx:87 | the gate is open iff there is a photo and every photo has finished detection with a face found |
| `Upload.RemoveKeepsGate` | components/steps/UploadStep.tsx:87 | after a removal from a passing list, the gate stays open iff some photo remains |
| `Generation.NextMessageIndex` | components/steps/GenerationStep.tsx:32 | the index always names one of the five messages, steps by one and wraps to 0 after the last |
| `Generation.TemplateName` | components/steps/GenerationStep.tsx:54 | the name is the scene name, a space and the style name, and both names can be read back from it |
| `Generation.Attempt` | components/steps/GenerationStep.tsx:47-60 | one attempt adds one record exactly when the call succeeded, with the fresh id, the image, the photo's id and the template name; a failure adds nothing |
| `Generation.Generate` | components/steps/GenerationStep.tsx:43-61 | a pass never has more results than photos, and every result carries the run's template name |
| `Generation.SuccessIndices` | components/steps/GenerationStep.tsx:46-60 | the increasing list of positions whose call succeeded, with every success in it |
| `Generation.GenerateMatchesSuccesses` | components/steps/GenerationStep.tsx:43-56 | the results are exactly the successes, in input order; the k-th result has the k-th success's id, its image, `originalPhotoId` equal to the source photo's id, and the run's template name |
| `Generation.GenerateEmptyIff` | components/steps/GenerationStep.tsx:63-65 | a pass yields no result exactly when every call failed |
| `Generation.ResultsComeFromPhotos` | components/steps/GenerationStep.tsx:53 | every result points back at one of the pass's photos |
| `Generation.ResultCountIsSuccessCount` | components/steps/GenerationStep.tsx:46-57 | the number of results is the number of successful calls, and at most the number of photos |
| `Generation.IncreasingIndicesBounded` | components/steps/GenerationStep.tsx:46 | a strictly increasing list of positions below n has at most n entries |
| `Generation.TwoPhotosOneFailure` | components/steps/GenerationStep.tsx:46-57 | crib scene and cream style, first photo generated and second failed: one result, named "婴儿床时光 软萌奶油风", coming from the first photo |
| `Generation.GenerationStep.constructor` | components/steps/GenerationStep.tsx:23-26 | the counter is 0, there is no error, the message index is 0 and the guard is clear |
| `Generation.GenerationStep.StartGeneration` | components/steps/GenerationStep.tsx:37-75 | with the guard set: no calls, no completion, no state change. Otherwise: one call per photo; the counter equals the number of results; no result gives the failure message, a cleared guard and no completion; any result gives no error, the guard still set and completion with the exact results |
| `Generation.GenerationStep.Retry` | components/steps/GenerationStep.tsx:91 | the guard is cleared first, so a full fresh pass always runs |
| `Generation.GenerationStep.TickMessage` | components/steps/GenerationStep.tsx:30-35 | the index moves to the next message; the run state is unchanged |
| `Results.Press` | components/steps/ResultStep.tsx:62-74 | a disabled or hidden arrow leaves the cursor in place; an enabled "previous" moves it back by one and an enabled "next" forward by one; a valid cursor stays valid |
| `Results.PressAllStaysInRange` | components/steps/ResultStep.tsx:64-74 | from a valid position, any sequence of presses keeps the cursor in [0, length-1] |
| `Results.NoArrowsNoMoves` | components/steps/ResultStep.tsx:62 | with at most one result there are no arrows, and the cursor never moves |
| `Results.Enabled` | components/steps/ResultStep.tsx:62-74 | an arrow is enabled only when the arrows are shown, and from a valid cursor an enabled arrow's move stays on a result |
| `Results.NextThenPrevious` | components/steps/ResultStep.tsx:64-74 | an enabled "next" followed by "previous" returns to the start position |
| `Results.RestartArgument` | components/steps/ResultStep.tsx:51 | "back to home" passes `true`; "change template" (line 113) passes `false` |
| `Results.DownloadFilename` | components/steps/ResultStep.tsx:18 | the name is "baby_photo_", the id, then ".jpg", and the id can be read back from it |
| `Results.ResultStep.constructor` | components/steps/ResultStep.tsx:12 | the cursor starts at 0 |
| `Results.ResultStep.PressPrevious` | components/steps/ResultStep.tsx:64-67 | the cursor moves back exactly when the arrow is enabled, and stays valid |
| `Results.ResultStep.PressNext` | components/steps/ResultStep.tsx:71-74 | the cursor moves on exactly when the arrow is enabled, and stays valid |
| `Results.ResultStep.CurrentPhoto` | components/steps/ResultStep.tsx:28-45 | there is a photo to show iff the list is non-empty, and it is the result under the cursor |
| `Results.ResultStep.Position` | components/steps/ResultStep.tsx:57 | the header shows cursor+1 over the list length, and that is between 1 and the length when there are results |
| `Wizard.App.constructor` | App.tsx:11-15 | the initial state: HOME, no photos, no results, the first scene and style |
| `Wizard.App.HandleStart` | App.tsx:17 | HOME goes to UPLOAD; nothing else changes |
| `Wizard.App.HandleUploadNext` | App.tsx:19 | the screen becomes TEMPLATE; nothing else changes |
| `Wizard.App.HandleUploadBack` | App.tsx:20 | the screen becomes HOME; nothing else changes |
| `Wizard.App.SetUploadedPhotos` | App.tsx:12 | only the photo list is replaced |
| `Wizard.App.HandleTemplateNext` | App.tsx:22-26 | the chosen scene and style are stored and the screen becomes GENERATING |
| `Wizard.App.HandleTemplateBack` | App.tsx:27 | the screen becomes UPLOAD; nothing else changes |
| `Wizard.App.HandleGenerationComplete` | App.tsx:29-32 | the results are stored and the screen becomes RESULT |
| `Wizard.App.HandleGenerationBack` | App.tsx:33 | the screen becomes TEMPLATE; nothing else changes |
| `Wizard.App.HandleRestart` | App.tsx:35-43 | a full reset clears photos and results and goes HOME; otherwise only the screen becomes TEMPLATE; `fullReset` defaults to false |
| `Wizard.Initial` | App.tsx:11-15 | the first state is the home screen and satisfies the invariant |
| `Wizard.Handle` | App.tsx:17-43 | only photo updates and a full restart change the photos; only a completion and a full restart change the results; only leaving the template screen changes the scene and style |
| `Wizard.Offered` | App.tsx:47-82 | an event can happen only on the screen its handler is handed to |
| `Wizard.OfferedEventsFollowTransitions` | App.tsx:17-43 | every event the current screen can raise makes one of the listed screen changes |
| `Wizard.TransitionRealized` | App.tsx:17-43 | every listed screen change is made by some event the current screen can raise |
| `Wizard.PlainMovesChangeOnlyTheStep` | App.tsx:17-33 | the start, next, back and partial-restart moves change only the screen |
| `Wizard.TemplateNextStoresChoice` | App.tsx:22-26 | leaving the template screen stores exactly the chosen pair and keeps photos and results |
| `Wizard.GenerationCompleteStoresResults` | App.tsx:29-32 | completing generation stores exactly the generated list and keeps everything else |
| `Wizard.RestartButtonsEffect` | App.tsx:35-42 | "back to home" clears photos and results and goes HOME; "change template" goes to TEMPLATE and keeps both |
| `Wizard.InvInitialAndPreserved` | App.tsx:11-43 | the initial state satisfies the invariant, and every offered event keeps it |
| `Wizard.RunKeepsInv` | App.tsx:17-43 | any sequence of user actions keeps the invariant: at most three photos, all photos pass the gate past the upload screen, and the result screen has results, for runs in which each handler finishes before the next action |
| `Wizard.ReachableStatesAreSafe` | App.tsx:47-82 | from the start, generation only gets photos that passed the gate, and the viewer never opens on an empty list, for runs in which each handler finishes before the next action |
| `Wizard.PhotosSurvive` | App.tsx:12-42 | the uploaded photos survive every action except a full restart and the upload screen's own updates |

`Offered` brings in the guards that the screens, not App.tsx, impose. The
upload "next" button is disabled unless `allValid` holds
(components/steps/UploadStep.tsx:185). The upload handlers keep at most
three photos. Generation completes only with a non-empty list
(components/steps/GenerationStep.tsx:63-69).

## Left out

- Rendering: all JSX and CSS, the Modal, Button, HomeStep and TemplateStep
  components, the share alert and the feedback dialog of the result screen.
- The scene and style catalogs (constants.ts): only the first entries' id
  and name are kept, as the initial selection. Descriptions and prompt
  fragments only feed the generation service.
- The services `detectFace` and `generateBabyPhoto`: their source is not
  part of this model. Each call is a supplied outcome.
- Id generation (`Math.random`, `Date.now`): ids are supplied.
  `HandlePrivacyAgree` requires the new ids to be distinct and unused, to
  stand for the collision-free supply.
- Browser APIs: `URL.createObjectURL` and the preview URL, `alert` (modelled
  as returned notice flags), the DOM-based download (only its file name is
  modelled), resetting the file input (components/steps/UploadStep.tsx:34),
  and `console.error`. A `File` keeps only its size.
- Timers: the 800 ms delay before `onComplete` is not modelled; the
  completion is returned directly. The 3 s message interval is reduced to
  `TickMessage`.
- The floating-point progress width (components/steps/GenerationStep.tsx:121).
- React scheduling: the mount effect that starts generation (its caller
  calls `StartGeneration`) and interleavings of async completions with other
  handlers are not modelled. Each handler runs to its end in sequence.
- `UploadStep.photos` stands for the wizard's `uploadedPhotos`, read through
  the `photos` prop and written through `setPhotos`. The cap check of the
  consent handler reads the snapshot and the append reads the latest list.
  The model takes them to be the same list; only the rotate handler gets a
  separate snapshot.
- Wizard.Offered: admits the generation screen's "back" in every GENERATING
  state, although the button is rendered only after a failed pass
  (components/steps/GenerationStep.tsx:81-95). The wizard state does not
  hold the generation screen's error. The invariant lemmas therefore cover
  more runs than the source allows.
- Wizard.Offered: a photo update (`SetPhotos`) is admitted with at most
  three photos. This is the cap the upload handlers keep
  (`Upload.UploadStep.HandlePrivacyAgree` ensures `Valid()`). It is assumed
  here, not derived from an upload operation on the wizard's list, so the
  "at most three photos" part of `Wizard.RunKeepsInv` rests on it.
- Wizard.ReachableStatesAreSafe: holds only for runs in which each handler
  finishes before the next action. `setPhotos` is the wizard's own setter
  (App.tsx:54), and a detection still in flight calls it after the user has
  left the upload screen (components/steps/UploadStep.tsx:59-61 and :81-83).
  Example: a passing photo is turned twice quickly, so two calls are in
  flight (:80); the first reports a face and opens the gate (:87); the user
  presses "next" (App.tsx:19); the second reports no face while the wizard
  is on TEMPLATE; generation then receives a photo without a face. The
  model admits `SetPhotos` only on the upload screen, so this run is not
  among its runs.
