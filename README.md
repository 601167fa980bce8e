# Phantom Crop ritual controller — a Dafny model

Phantom Crop lets a user offer one image to a "portal", sends it to a
background-removal backend (a local mock or a live server), optionally asks
for a "spirit reading" of it, and shows the original next to the processed
image. This project models the part with real control flow:

- **The ritual controller** (`App` in `App.tsx` and in `src/App.tsx`), the
  state machine over `RitualState` that owns the current `ProcessedImage`,
  the `BackendConfig` and the object URLs it creates and revokes. Both
  variants are one class, `App.RitualController`, selected by
  `App.Variant`. `AwaitedReading` is `App.tsx`: it awaits a reading and
  starts in live mode. `PlaceholderReading` is `src/App.tsx`: it installs a
  fixed reading and starts in mock mode.
- **The backend gateway** (`src/services/spiritService.ts`), as pure
  functions: the mock, the live call and the dispatch between them.
- **The portal's input guards** (`components/ThePortal.tsx` and
  `src/components/ThePortal.tsx`), as predicates, plus a small class for
  the drag-over cell that the handlers update.
- **The data types** of `src/types.ts`.

How the model is built:

- `handleFileSelected` is one `async` function with awaits, so the model
  cuts it at the awaits. `HandleFileSelected` runs up to the removal call
  and returns a `Ritual`. A `Ritual` is what the suspended call keeps: the
  file, the object URL made for it, and the config read at submission.
  `RemovalSettled` resumes that ritual.
- `RemovalSettled` makes the removal call itself, through
  `SeverSpirit(ritual.file, ritual.config, fetch)`. So the call always uses
  the config captured at submission. `fetch` stands for the network: it maps
  the request sent to a response or a network error.
- The browser's object-URL registry is a map from live URL handles to their
  blobs, plus a counter for fresh handles.
- Pending `setTimeout(…, 3000)` callbacks are a count of armed timers.
- `App.Snapshot` holds the whole controller state as a value. The step
  functions `SelectFile`, `Settle`, `FireTimer`, `ResetStep` and
  `ToggleStep` specify the class methods. `AppProperties` proves facts
  about every run built from these steps: every reachable state, the URLs
  that leak, reset, toggling, and the stale failure timer.

Behaviours of the code a reader may not expect (the model follows the
code):

- On a failed removal, the original object URL created at submission is
  never revoked, so each failed ritual leaks one live URL. In `App.tsx`, a
  reading call that throws leaks both URLs.
- The failure timer sets `IDLE` unconditionally. It does so even when a
  newer ritual is severing or has completed, and nothing cancels it. So
  `COMPLETE` implies a result, but a result does not imply `COMPLETE`
  (`StaleTimerHidesCompletedResult`).
- Starting a new ritual while a result exists does not revoke that
  result's URLs. The next successful ritual replaces the result, and the
  old URLs become orphans.
- In `App.tsx` the reading call is made only after the removal await
  returns, not alongside it. A reading call that throws fails the whole
  ritual.
- `handleReset` has no state guard, but the UI offers it only in the
  result view (the reset button of `SpiritResult`, rendered only when the
  state is COMPLETE and a result exists). The model's events allow a reset
  in every state, which over-approximates what the program can do. The
  same holds for submissions: the portal forwards files only in IDLE or
  FAILED (and is not shown in COMPLETE), but the events allow a submission
  in every state. A removal may also settle with any outcome, so even a mock
  ritual may fail in a run. Every property proved about runs holds for this
  larger set of runs.

## Model

| member | source | states |
|---|---|---|
| `Types.StatesAreExactlyFive` | src/types.ts:7-13 | `RitualState` has exactly the five distinct values IDLE, SUMMONING, SEVERING, COMPLETE, FAILED |
| `SpiritService.MockSeverSpirit` | src/services/spiritService.ts:3-9 | the mock always resolves, and to a blob with exactly the input file's type and bytes |
| `SpiritService.SeverRequest` | src/services/spiritService.ts:12-18 | the live request is a POST to the given URL whose form has exactly one field, named `file`, holding the input |
| `SpiritService.RealSeverSpirit` | src/services/spiritService.ts:11-25 | resolves iff the server responded with an ok status, and then to the response body; a non-ok response is an error whose message ends with the status text |
| `SpiritService.SeverSpirit` | src/services/spiritService.ts:27-32 | with `useMock` the result is the input unchanged; otherwise it succeeds iff the request to `config.serverUrl` got an ok response, and yields its body |
| `SpiritService.SeverDependsOnlyOnItsRequest` | src/services/spiritService.ts:27-32 | the mock consults no network; the live path consults it only about the one POST to `config.serverUrl` |
| `Portal.DropOutcomeOf` | components/ThePortal.tsx:36-52 | a drop forwards a file iff the state is IDLE or FAILED, a file is present and the first file's type starts with `image/`, and then forwards exactly the first file; it is rejected iff accepted with a non-image first file |
| `Portal.ChangeSelection` | components/ThePortal.tsx:60-65 | a file change forwards a file iff at least one was chosen, and then the first, with no state or type check |
| `Portal.LookOf` | src/components/ThePortal.tsx:64-79 | the summoning look is chosen iff summoning; the processing look iff processing and not summoning (summoning wins) |
| `Portal.BusyPortalIgnoresInput` | src/components/ThePortal.tsx:37 | in SEVERING or COMPLETE a drop is ignored and no input is accepted |
| `Portal.DropNeverForwardsNonImage` | src/components/ThePortal.tsx:39-45 | a first file whose type does not start with `image/` is never forwarded by a drop |
| `Portal.ThePortal.constructor` | components/ThePortal.tsx:11 | drag-over starts false |
| `Portal.ThePortal.HandleDragEnter` | components/ThePortal.tsx:14-23 | drag-over becomes true when the state is IDLE or FAILED, and is otherwise unchanged |
| `Portal.ThePortal.HandleDragLeave` | src/components/ThePortal.tsx:21-25 | drag-over is cleared in every state |
| `Portal.ThePortal.HandleDrop` | src/components/ThePortal.tsx:32-47 | drag-over is cleared in every state, and the outcome is `DropOutcomeOf(state, files)` |
| `Portal.ThePortal.HandleClick` | components/ThePortal.tsx:54-58 | the file picker opens iff the state is IDLE or FAILED |
| `Portal.ThePortal.HandleFileChange` | src/components/ThePortal.tsx:55-59 | forwards the first chosen file when there is one |
| `Portal.ThePortal.CurrentLook` | src/components/ThePortal.tsx:61-79 | with drag-over the look is summoning; the processing look shows iff not dragged over and SEVERING (`isSummoning` is drag-over, `isProcessing` is SEVERING) |
| `App.ResultUrls` | App.tsx:134-137 | the URLs a result holds are its original URL and, if non-null, its processed URL, and nothing else |
| `App.Initial` | App.tsx:97-102 | the first state: IDLE, no result, `useMock` false in App.tsx and true in src/App.tsx, the fixed server URL, no live URLs, no armed timers, nothing in flight |
| `App.SelectFile` | App.tsx:104-109 | SEVERING; exactly one new live URL, the counter's fresh one, holding the file; other URLs, result, config and timers unchanged; the new ritual captures the current config |
| `App.Settle` | src/App.tsx:18-34 | the ritual leaves the in-flight set; the state becomes COMPLETE iff the removal succeeded (and, in App.tsx, the reading did not throw), with a result of the ritual's original URL and a fresh processed URL holding the blob; otherwise FAILED with the result kept and one more timer armed; a failed removal creates no URL |
| `App.FireTimer` | App.tsx:129 | IDLE, one timer fewer, result, URLs and rituals in flight untouched |
| `App.ResetStep` | App.tsx:133-140 | IDLE, no result, exactly the result's URLs revoked; rituals in flight, config and timers untouched |
| `App.ToggleStep` | App.tsx:142-144 | `useMock` flipped, server URL and everything else unchanged |
| `App.ShowsResult` | App.tsx:211-218 | the result view is shown only with a result, and in a valid state iff the state is COMPLETE |
| `App.InitialInv` | App.tsx:97-102 | the initial state (IDLE, no result, default config, no URLs) satisfies the controller invariant |
| `App.SelectFileInv` | App.tsx:104-109 | submission keeps the invariant: the new URL is fresh, so it belongs to no result or other ritual |
| `App.SettleInv` | App.tsx:109-130 | settling a ritual keeps the invariant: a new result's URLs are live and distinct, and no other ritual in flight refers to them |
| `App.FireTimerInv` | App.tsx:129 | the timer's callback keeps the invariant |
| `App.ResetStepInv` | App.tsx:133-140 | reset keeps the invariant: rituals in flight keep their URLs |
| `App.ToggleStepInv` | App.tsx:142-144 | toggling keeps the invariant, including the unchanged server URL |
| `App.RitualController.constructor` | src/App.tsx:8-13 | starts IDLE with no result; `useMock` is true in src/App.tsx and false in App.tsx; the server URL is `http://localhost:5000/sever` |
| `App.RitualController.CreateObjectUrl` | App.tsx:108 | returns a URL never handed out before, now live and holding the blob |
| `App.RitualController.RevokeObjectUrl` | App.tsx:135-136 | the URL is no longer live; revoking a dead URL changes nothing |
| `App.RitualController.HandleFileSelected` | App.tsx:104-109 | SEVERING, then one new object URL for the file; the returned ritual captures the current config; the invariant is kept |
| `App.RitualController.RemovalSettled` | App.tsx:109-130 | the removal uses the ritual's captured config; the state becomes `Settle(…)` of it, and the invariant is kept |
| `App.RitualController.FailureTimerFired` | src/App.tsx:33 | sets IDLE and disarms one timer, whatever the state |
| `App.RitualController.HandleReset` | src/App.tsx:37-44 | revokes the result's original URL and processed URL (if non-null), clears the result, sets IDLE |
| `App.RitualController.ToggleMockMode` | src/App.tsx:46-48 | flips `useMock` and changes nothing else |
| `App.RitualController.ShowsResultView` | src/App.tsx:81-85 | in a valid state the result view is shown iff the state is COMPLETE |
| `AppProperties.Apply` | src/App.tsx:15-48 | one controller event: submission, a ritual's removal settling, the failure timer, reset or toggle; never changes the variant or server URL, and the fresh-URL counter never goes back |
| `AppProperties.Run` | App.tsx:104-144 | a run of events in order; over any run the variant and server URL stay fixed and the fresh-URL counter never goes back |
| `AppProperties.ApplyInv` | App.tsx:104-144 | every controller event keeps the invariant |
| `AppProperties.RunInv` | App.tsx:104-144 | every run from a valid state ends in a valid state of the same variant |
| `AppProperties.ReachableStates` | App.tsx:211-218 | in every reachable state: never SUMMONING; FAILED always has an armed timer whose firing returns to IDLE; COMPLETE implies a result with a live, non-null processed URL; the result view shows iff COMPLETE; the server URL never changes; in src/App.tsx every reading is the placeholder |
| `AppProperties.ApplyKeepsOrphans` | App.tsx:133-140 | no event revokes or re-references a live URL that neither the result nor a ritual in flight refers to |
| `AppProperties.LeaksArePermanent` | App.tsx:108 | over any run, every orphaned URL stays live and unreferenced |
| `AppProperties.SupersededResultLeaks` | App.tsx:116-120 | a ritual that completes while an earlier result is held replaces it without revoking its URLs, which become orphans |
| `AppProperties.SelectFileEffect` | src/App.tsx:15-20 | submission: SEVERING, exactly one new live URL holding the file and never used before; result and config unchanged; the ritual captures the config |
| `AppProperties.FailedRemovalLeaksOriginal` | App.tsx:125-130 | a failed removal: FAILED, result and URLs unchanged, one more armed timer, and the ritual's original URL becomes the one new orphan |
| `AppProperties.ThrownReadingLeaksBoth` | App.tsx:110-114 | in App.tsx a throwing reading call fails the ritual after both URLs were created, and both become orphans |
| `AppProperties.SuccessfulRemovalCompletes` | App.tsx:110-122 | a successful removal: COMPLETE, with the ritual's original URL, a fresh processed URL holding the returned blob, and the awaited reading (App.tsx) or the placeholder (src/App.tsx) |
| `AppProperties.MockRitualEchoesInput` | src/services/spiritService.ts:3-9 | in mock mode a completed ritual's processed URL holds the same bytes as its original URL |
| `AppProperties.LiveRefusalFails` | src/services/spiritService.ts:20-22 | a non-ok live response sends the ritual to FAILED and creates no URL |
| `AppProperties.ResetReleasesResult` | App.tsx:133-140 | reset: IDLE, no result, exactly the result's URLs revoked, other blobs untouched; with no result nothing is revoked; a second reset changes nothing |
| `AppProperties.ResetFreesEachHandleOnce` | src/App.tsx:37-44 | in a reachable state a result holds two distinct live URLs, and reset frees exactly that many handles |
| `AppProperties.ToggleOnlyAffectsLaterRituals` | App.tsx:142-144 | toggling flips only `useMock`, undoes itself, commutes with settling a ritual in flight, and changes the config the next ritual captures |
| `AppProperties.StaleTimerInterruptsNewerRitual` | App.tsx:129 | an earlier failure's timer sets IDLE while a newer ritual is severing, and the portal then accepts input again |
| `AppProperties.StaleTimerHidesCompletedResult` | src/App.tsx:33 | the same timer landing after the newer ritual completed leaves IDLE with a result still held, and the result view hidden |
| `AppProperties.SubmissionClosesThePortal` | components/ThePortal.tsx:41 | right after a submission the portal ignores drops and clicks and shows processing |

## Left out

- Sound effects (`soundService`), `console.error` and `alert`, which are assumed not to throw (a throwing `playSuccess` at App.tsx:123 or `playFailure` at App.tsx:128 would change the state flow). A rejected drop is `DropOutcome.Rejected` in both portal variants, whether it plays a failure sound or shows an alert.
- `getSpiritReading` belongs to a module that is not part of this model. Its outcome is an input to `RemovalSettled`: a string, null, or a thrown error.
- In App.tsx there is an await between creating the processed URL and receiving the reading. The model does not let other events happen there; the removal and reading outcomes settle in one step.
- The model does not separate the two steps of `handleFileSelected`'s start. Setting SEVERING and creating the original URL are consecutive statements in `HandleFileSelected`, with nothing able to happen between them.
- App.tsx, App.tsx's portal (components/ThePortal.tsx) and their callers import `severSpirit`, `getSpiritReading` and the data types from root-level `services/spiritService` and `types` modules. Those modules are not part of this model. The model assumes `severSpirit` and the types there behave as in src/services/spiritService.ts and src/types.ts. So, for the App.tsx variant, `RemovalSettled`, `MockRitualEchoesInput` and `LiveRefusalFails` rest on that assumption.
- Real `fetch`, `FormData` and `Blob` transport are not modelled. The network is the `fetch` parameter, and a failure of `response.blob()` is not modelled.
- Object URLs are handle numbers, not `blob:` strings.
- Wall-clock time: the 2000 ms mock delay and the 3000 ms failure timer are events, not durations.
- `Oscilloscope`, `BloodRain` and `SpiritResult` (canvas drawing, randomness, download by DOM manipulation, rendering) are not modelled. Neither are JSX markup, class strings, inline styles, the App.tsx portal's pulse and scale styling, `handleDragOver` (it only stops the browser's default) and the React hook plumbing.
