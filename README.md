# Petition race: a verified model of `PetitionRaceApp`

`PetitionRaceApp` (main.js) runs a two-cat race on a web page. It watches two UK parliament petitions, anti-immigration (id 700824) and pro-immigration (id 727360).

- **Polling.** Every 15 s it fetches both signature counts. Each fetch has three attempts with linear backoff. A petition whose fetch failed is skipped for 30 s.
- **Race.** Each cat stands at a track position between 50 % and 80 %, set by its share of all signatures. A cat whose count went up gets a 2-point bump and ducks the background music. The strictly leading cat wears a crown.
- **Music.** A Web Audio look-ahead scheduler plays a 16-measure chiptune loop of melody notes, rhythm clicks and a meow. It has a mute toggle and pause, resume and cleanup guards on the audio context.

This project models that core in Dafny.

| module | file | contents |
|---|---|---|
| `Config` | config.dfy | the constants of `CONFIG` and the two petitions |
| `Wrappers` | wrappers.dfy | `Option` (JavaScript `null`) |
| `Text` | text.dfy | decimal rendering of numbers in template strings |
| `Race` | race.dfy | position formula, clamp, advancing rule, leader; pure functions and lemmas |
| `Fetch` | fetch.dfy | network answers, the specification of `fetchWithRetry` and of `fetchSignatureCount` with its suppression window |
| `Sequencer` | sequencer.dfy | melody patterns, rhythm clicks, the 16-cycle table and the events of one measure |
| `Scheduler` | scheduler.dfy | the look-ahead arithmetic: passes, cursor and the measures k passes schedule |
| `Audio` | audio.dfy | audio-context states, interval handles, gain automation |
| `App` | app.dfy | class `PetitionRaceApp` with the fields the source mutates and one method per operation |

Everything that changes state in main.js is a method of the class `App.PetitionRaceApp`. The loop of `fetchWithRetry` and the while loop of `scheduleMelody` are Dafny loops with invariants. So are the two `forEach` calls of `scheduleNotes`.

Each method is proved against a specification function in the pure modules:

- `FetchWithRetry` against `Fetch.Retry`;
- `FetchSignatureCount` against `Fetch.PollCount` and `Fetch.PollFailures`;
- `ScheduleNotes` against `Sequencer.MeasureEvents`;
- `ScheduleMelody` against `Scheduler.PassesNeeded`, `Scheduler.Cursor` and `Scheduler.Measures`.

The properties of those functions are lemmas in their own modules.

Inputs the source reads from its environment become parameters:

- the network is a function from the attempt number to an `Attempt`, honouring whether the reply is ok;
- the two `Date.now()` readings of `fetchSignatureCount` are `PollInput.checkedAt` and `PollInput.failedAt`;
- `audioContext.currentTime` is `audioTime`;
- `new Date().toLocaleTimeString()` is `timeText`;
- how creating the `AudioContext` turns out is an `AudioBackend`.

What the page and the audio graph receive is recorded in fields:

- `positions` holds the `left` style each cat gets when its count is shown;
- `crownAnti` and `crownPro` hold the crowns, and `status` the status line;
- `gainEvents` holds the calls on the background gain;
- `scheduled` holds the sound events handed to `playPianoNote`, `playClick` and `playMeow`.

The two test files (`tests/petition.test.js`, `tests/additional-coverage.test.js`) exercise a different version of the class. The model follows main.js where they disagree:

- The tests expect cats at 80 % and 20 % (tests/additional-coverage.test.js:221-222) and at 40 % or 0 % (tests/petition.test.js:355-369). main.js:214-220 maps every share into [50, 80], and the two base positions always add up to 130 (`Race.ComplementaryPositions`). For example, anti at 8000 (was 7000) against pro at 2000 (was 1000) puts the cats at 76 and 58 (`Race.BothAdvanceScenario`).
- The tests read the count from a nested `data.attributes` object, return a cached value on HTTP 429 and return 0 for rejected petitions (tests/petition.test.js:251-289). main.js:195-197 reads `signature_count` at the top level of the JSON. Any failure resolves to `null` (main.js:198-203), and one `null` makes the whole update fail (main.js:349-361).
- The tests expect no toast when only one petition fails (tests/petition.test.js:312-316). main.js:201 raises one for every failed petition. The toast itself is left out.
- The tests call a `destructor` that clears `domCache`, `petitionData` and `failedRequests` (tests/petition.test.js:176-182). main.js has no `destructor`. `cleanup` is defined twice in main.js, and the later definition (main.js:740-750) is the one in effect. It neither resets the interval handles nor clears the maps.
- Only the `main`, `variation` and `bridge` patterns are ever played (main.js:435-465). `harmony` and `bass` are never layered.
- `handleVisibilityChange` only polls (main.js:696-700). `pauseAudio` and `resumeAudio` are never called from main.js; they are still modelled as the guards they are.

## Model

| member | source | states |
|---|---|---|
| Config.PetitionsDiffer | main.js:4-16 | the two petitions have different ids and different names, so the two maps' entries never collide |
| Text.NatToString | main.js:168 | `${n}` renders a non-empty string of decimal digits without a leading zero |
| Text.NatToStringValue | main.js:168 | the rendered digits, read back as a decimal number, are n itself |
| Race.Share | main.js:214-215 | a cat's share is its count over the total, or 0.5 while the total is 0 |
| Race.BasePosition | main.js:217-220 | the share mapped linearly onto [50, 80]; bounds, midpoint and sum are stated by the lemmas below |
| Race.Advancing | main.js:224 | a cat advances when its count rose above a last count that is not 0 |
| Race.Clamp | main.js:246 | `Math.min(Math.max(x, 50), 80)` lies in [50, 80], is `x` inside the bounds and the nearer bound outside |
| Race.FinalPosition | main.js:214-249 | the position written to the cat is always within [50, 80] |
| Race.BasePositionBounds | main.js:214-220 | a count that is part of the total puts the base position in [50, 80] |
| Race.EqualCountsMidpoint | main.js:214-220 | equal counts, 0 against 0 included, put a cat at 65, and a first observation leaves it there |
| Race.ComplementaryPositions | main.js:214-220 | the two cats' base positions add up to 130 |
| Race.ShareMonotone | main.js:214-215 | a cat's share of the total never shrinks when its own count grows and the other stays |
| Race.BasePositionMonotone | main.js:214-220 | more signatures for one side never move that side's cat back, for either side |
| Race.SettledPosition | main.js:223-249 | a cat that is not advancing is placed exactly at its base position |
| Race.AdvancingPosition | main.js:224-246 | an advancing cat stands at min(base + 2, 80), never behind its base |
| Race.NoAdvanceWithoutIncrease | main.js:224 | a first observation (last count 0) or a count that did not rise never advances |
| Race.LeaderOf | main.js:331-335 | anti when anti > pro, pro when pro > anti, nobody on a tie |
| Race.LeaderIsStrict | main.js:331-335 | anti is crowned iff anti > pro, pro iff pro > anti, nobody iff they tie; swapping the counts mirrors the result |
| Race.LeaderIsAhead | main.js:331-335 | the crowned cat's base position is strictly ahead; on a tie both stand level |
| Race.BothAdvanceScenario | main.js:214-246 | 8000 (was 7000) against 2000 (was 1000): anti at 76, pro at 58 (base 56), anti crowned |
| Fetch.Attempt.Ok | main.js:167 | `response.ok`: a reply whose status is 200-299; a thrown error is never ok |
| Fetch.Attempt.ErrorMessage | main.js:168 | a non-ok reply fails with "HTTP {status}: {statusText}", a thrown error with its own message |
| Fetch.ExhaustedMessage | main.js:175 | the rejection "Failed to fetch after {attempts} attempts: {last message}" |
| Fetch.RetryFrom | main.js:153-178 | the loop from iteration i: stop on an ok answer, reject after the last attempt, otherwise wait 1000 * (i + 1) ms and go on |
| Fetch.Retry | main.js:152-180 | `fetchWithRetry` as the loop from iteration 0 |
| Fetch.RetryFromCharacterized | main.js:153-178 | from iteration i on, the loop stops at the first ok answer or after the last attempt, with one wait of 1000 * (j + 1) ms after each earlier failure j, and the exhausted message on rejection |
| Fetch.RetryCharacterized | main.js:152-180 | the first ok response is returned and no later attempt is made; all-failing runs make exactly `attempts` tries and reject with "Failed to fetch after N attempts: msg"; attempts <= 0 makes no request and yields `undefined` |
| Fetch.AlwaysFailingThreeAttempts | main.js:174-177 | with the default three attempts all failing: three tries, waits [1000, 2000], message "Failed to fetch after 3 attempts: " + the last error |
| Fetch.ExhaustedAfterThree | main.js:175 | with three attempts the rejection reads "Failed to fetch after 3 attempts: " + the last message |
| Fetch.CountOf | main.js:195-197 | a JSON body gives `signature_count`, or 0 when it is missing; a rejection, a body that is not JSON or `undefined` gives null |
| Fetch.Suppressed | main.js:184-187 | a petition is skipped while it has a non-zero failure timestamp less than 30000 ms old |
| Fetch.PollCount | main.js:182-204 | null inside the window, otherwise the count of the retried fetch |
| Fetch.PollFailures | main.js:182-204 | inside the window the map is kept; a success deletes the entry, a failure stores the second clock reading |
| Fetch.SuppressedPollChangesNothing | main.js:184-189 | inside the 30 s window the result is null and the failure map is untouched |
| Fetch.LivePoll | main.js:191-203 | outside the window the petition is fetched; success deletes its entry, failure records the failure time |
| Fetch.FailureOpensWindow | main.js:187-200 | after a failure at T, a later poll is suppressed iff it comes less than 30000 ms after T, so the next 15 s poll is skipped |
| Fetch.SuccessClosesWindow | main.js:196 | after a success the petition has no entry and is never suppressed |
| Fetch.PollLeavesOthers | main.js:183-200 | polling one petition leaves every other petition's entry and suppression unchanged |
| Fetch.ZeroTimestampNeverSuppresses | main.js:187 | a stored timestamp of 0 is falsy and suppresses nothing |
| Sequencer.PatternChoice | main.js:432-465 | the if-chain on the cycle: main, variation, main, variation, main, variation, bridge, variation, two cycles each, with intensities 1.0, 1.2, 0.7, 1.4, 1.0, 0.8, 0.6, 1.5 |
| Sequencer.MelodyVolume | main.js:467-473 | 0.1 * 0.9, times 1.1 in cycles 6-7 and times 0.8 in cycles 12-13 |
| Sequencer.Plan | main.js:429-473 | the pattern, intensity and volume chosen for a cycle position |
| Sequencer.NoteEvents | main.js:476-478 | one piano note per pattern entry, in order, at start + onset with the pattern's frequency and duration |
| Sequencer.ClickEvents | main.js:481-483 | one click per rhythm beat, in order, at start + onset with volume `vol * intensity` |
| Sequencer.MeowEvents | main.js:486-488 | a meow at start + 0.7 when the counter is 15 modulo 16, nothing otherwise |
| Sequencer.MeasureEvents | main.js:429-488 | the notes, then the clicks, then the meow of the measure with that counter |
| Sequencer.PlanMatchesSchedule | main.js:429-473 | the if-chains on `measureCount % 16` give exactly the 16-entry table of pattern, rhythm intensity and volume (0.09, 0.099 in cycles 6-7, 0.072 in 12-13) |
| Sequencer.MeasureShape | main.js:476-488 | a measure holds the pattern's notes shifted to its start at the cycle's volume, then the five clicks at `vol * intensity`, then the meow at start + 0.7 on cycle 15 |
| Sequencer.MeowOnlyOnLastMeasure | main.js:486-488 | a measure contains a meow iff its counter is 15 modulo 16 |
| Sequencer.MeasuresRepeatEvery16 | main.js:429-488 | the events of a measure depend on the counter only modulo 16 |
| Sequencer.PatternOnsetsWithinMeasure | main.js:37-66 | every note of the three played patterns starts within the 2 s measure |
| Sequencer.StartsWithinMeansAll | main.js:476-488 | the front-to-back check of event onsets holds iff every event starts in the interval |
| Sequencer.MeasureEventsWithin | main.js:476-488 | every event of a measure starting at t begins in [t, t + 2) |
| Scheduler.PassesNeeded | main.js:421-424 | the number of passes: none once the cursor is at or past the horizon, otherwise one more than from one measure later |
| Scheduler.Cursor | main.js:423 | the cursor after k passes, each adding one measure of 2 s |
| Scheduler.Measures | main.js:421-423 | the events of k passes: those of the first k - 1, then measure `count + k` at the cursor after k - 1 passes |
| Scheduler.PassesReachHorizon | main.js:421-424 | after the passes the cursor is at or past the horizon, the last pass started before it, and no pass happens iff the cursor already is past it |
| Scheduler.OnePassFromNow | main.js:408-409 | starting the cursor at the audio clock makes exactly one pass |
| Scheduler.CursorIsLinear | main.js:423 | after k passes the cursor is start + 2k |
| Scheduler.SingleMeasure | main.js:421-423 | a single pass moves the cursor one measure on and schedules exactly the next measure |
| Scheduler.LookAheadStep | main.js:421-423 | each pass appends the next measure, at the current cursor, to what the earlier passes scheduled |
| Scheduler.PassesCount | main.js:421-424 | a loop stopping at the first cursor at or past the horizon made exactly `PassesNeeded` passes |
| Scheduler.MeasuresWithin | main.js:421-423 | the events of k passes from `start` all begin in [start, start + 2k) |
| Audio.AfterPause | main.js:140-144 | the context changes iff it was running, and then it is suspended |
| Audio.AfterResume | main.js:146-150 | the context changes iff it was suspended, and then it is running |
| Audio.AfterClose | main.js:747-749 | a null context stays null, any other ends closed, and it changes iff it existed and was not closed |
| Audio.CloseIsIdempotent | main.js:747-749 | closing twice is closing once |
| Audio.ClosedIsTerminal | main.js:140-150 | a closed context is neither suspended, resumed nor closed again |
| Audio.PauseResumeRoundTrip | main.js:140-150 | resuming a paused running context and pausing a resumed suspended one restore the state |
| Audio.AfterClearInterval | main.js:741-746 | after `clearInterval` the timer no longer fires, and the handle is non-null iff it was |
| Audio.ClearIsIdempotent | main.js:741-746 | clearing twice is clearing once |
| Audio.DuckRamps | main.js:310-318 | exactly two exponential ramps: down to 0.25 at now + 0.1, then back to 1 at now + 1.1 |
| Audio.MuteGain | main.js:688-693 | one `setValueAtTime` at now, to 0 when muted and to 1 when not |
| App.LastCount | main.js:207 | the last count stored for a petition name, or 0 when none is stored |
| App.PetitionRaceApp.constructor | main.js:94-108 | empty maps, no context, no gain node, no timers, cursor and counter 0, unmuted, uninitialized |
| App.PetitionRaceApp.PauseAudio | main.js:140-144 | the context becomes `AfterPause` of the old one, and the class invariant is kept |
| App.PetitionRaceApp.ResumeAudio | main.js:146-150 | the context becomes `AfterResume` of the old one, and the class invariant is kept |
| App.PetitionRaceApp.FetchWithRetry | main.js:152-180 | result, number of requests and waits are exactly those of `Retry` |
| App.PetitionRaceApp.FetchSignatureCount | main.js:182-204 | the count is `PollCount`, the failure map becomes `PollFailures`; no request is made inside the window |
| App.PetitionRaceApp.DuckAudioVolume | main.js:307-319 | the duck ramps are written only when audio is initialized, unmuted and has a gain node |
| App.PetitionRaceApp.UpdateCatPosition | main.js:206-305 | only this cat's position and last count change; the duck fires only when it advances |
| App.PetitionRaceApp.UpdateLeaderCrown | main.js:321-336 | anti's crown is on iff anti leads strictly, pro's iff pro does |
| App.PetitionRaceApp.ShowCounts | main.js:349-361 | with both counts, both cats, both last counts, the crowns and "Last updated" change; otherwise only the status becomes "Update failed - retrying..." |
| App.PetitionRaceApp.UpdateRace | main.js:338-362 | the all-or-nothing commit over both `fetchSignatureCount` results, and both petitions' failure entries updated |
| App.PetitionRaceApp.ScheduleNotes | main.js:427-489 | the counter grows by one and exactly that measure's events are appended |
| App.PetitionRaceApp.ScheduleMelody | main.js:416-425 | uninitialized: nothing changes; otherwise `PassesNeeded` passes, the cursor k measures on and past the horizon, the counter up by k, and the k measures appended |
| App.PetitionRaceApp.StartMelody | main.js:402-414 | the cursor restarts at the audio clock, one measure is scheduled, and the timer is set |
| App.PetitionRaceApp.InitAudio | main.js:376-400 | already initialized or no context: nothing changes; a suspended context whose resume rejects stays uninitialized; otherwise a running context, gain node, initialized, and the melody started unless muted |
| App.PetitionRaceApp.ToggleMute | main.js:671-694 | the flag flips and the gain is set to 0 or 1 when there is a gain node, so two toggles restore the flag |
| App.PetitionRaceApp.HandleClick | main.js:704-721 | the first click leaves audio unmuted; later clicks flip the mute flag and leave the context alone |
| App.PetitionRaceApp.Cleanup | main.js:740-750 | both timers cleared if set, the context closed if it exists and is open, nothing else touched, and the class invariant kept |
| App.PetitionRaceApp.Init | main.js:763-785 | one race update, then the poll timer is set |

## Left out

- DOM work is left out because it is rendering, not logic. This covers `getElement` and its cache, class and style writes, the hop and rainbow animation, the count display, the floating count-change indicator, screen-reader announcements, `toLocaleString` and the initial 70 % placement in `init`.
- The early returns taken when a DOM element is missing are left out. The model assumes every element exists.
- `showToast` and `console` output are left out: they are user-visible messages only.
- Timers are not modelled as time. `setInterval` and `setTimeout` handles are the states of `Audio.Interval`. The backoff waits are the list `waits`. The 10 s `AbortController` timeout is one more thrown `Attempt`.
- The `Promise.all` in `updateRace` runs both fetches concurrently. The model runs them one after the other, anti first. This is equivalent because they touch different entries of the failure map (`Fetch.PollLeavesOthers`).
- Overlapping `updateRace` runs are left out: `UpdateRace` is treated as atomic. In main.js the 15 s timer (main.js:782) and `handleVisibilityChange` (main.js:698) can start a run while an earlier one is still retrying. That can take up to three 10 s timeouts plus waits of 1 s and 2 s. A stale run can then commit after a fresh one and lower a last count.
- The return of an advancing cat to its base position one second later (main.js:237-242) is not modelled. `positions` keeps the bumped value. `Race.SettledPosition` and `Race.AdvancingPosition` give both values.
- `await audioContext.resume()` and the asynchronous `suspend` and `close` take effect at once in the model.
- Web Audio synthesis is left out, as foreign API calls with floating-point envelopes and `Math.random`. This covers `playPianoNote`, `playNote`, `playClick`, `playMeow`, `playBellChime` and the graph wiring. Only the event records `scheduleNotes` hands them are kept.
- The never-played `harmony` and `bass` patterns are left out.
- Times and volumes are exact reals, not IEEE doubles. So `0.1 * 0.9` is exactly 0.09, and the cursor accumulates no rounding error.
- The first `cleanup` (main.js:118-138) is left out because the later definition overrides it.
- `handleVisibilityChange`, the keyboard shortcut and the link check of the click handler are left out: they only call modelled methods.
- The fields `shouldAutoplay`, `currentPattern` and `domCache` are never read by the core, so they are left out. So are `ANIMATION_DURATION`, `LOOKAHEAD_MS`, `NOTE_DURATION` and `TOAST_DURATION`. `updateCatPosition` never reads its `maxCount` argument; `UpdateCatPosition` takes it and ignores it too.
- The two test files, `jest.config.js` and `assets/generate-audio.js` are not part of this model.
- App.PetitionRaceApp.ScheduleMelody: states the cursor as `Cursor(start, k)`. `Scheduler.CursorIsLinear` turns that into start + 2k.
- App.PetitionRaceApp.HandleClick: states only the mute flag and the context. The rest of the state follows from the contracts of `InitAudio` and `ToggleMute`, which it calls.
- App.PetitionRaceApp.Init: states only the poll timer and the failure map. Positions, crowns and status follow from `UpdateRace`, which it calls.
