# Foresight, modelled in Dafny

Foresight is a strategic-foresight demo with two parts. This model covers
the core of each.

**The client demo.** A question starts an *exploration*.
- `lib/demo-engine.ts` runs a scripted *pipeline* for it. The pipeline emits nine artifacts in a fixed order: clarify, frame, stakeholders, personas, collection plan, signals, horizon scan, scenarios, simulation.
- The signals artifact is filled by eight streamed updates. The pause before each update is drawn from a generator seeded by the question.
- The run ends with `done`. Aborting the controller at any pause stops the pipeline there.
- `components/app-shell.tsx` keeps the session state: explorations, preferable futures and signal selections. It folds every pipeline event into the running exploration and marks the exploration paused when the run is aborted.
- `lib/utils.ts` supplies the `cx` class-name combinator.

**The API prototype.**
- `packages/api/src/index.ts` accepts a generation request (`POST /v1/generate`).
- A valid request is registered as a processing run. A timer later stores canned artifacts for it.
- Polling (`GET /v1/runs/:id`) answers 404, 202, 500 or 200.
- `packages/web/app/page.tsx` derives a topic, a focus, signal chips and three scenarios from the submitted question.

How the modules map to the source:

| module | what it models |
|---|---|
| `Types` | The exploration, artifact, event and state records of `lib/types.ts`. Also `Option` and `Distinct`. |
| `Utils` | `cx`, and `join(' ')` as `JoinSpaced`. |
| `DemoEngine` | The seeded generator as class `Rand`, plus `createExploration` and `makeArtifact`. The pipeline is specified as a *script*: a sequence of `Emit(event)` and `Pause(ms)` steps. `RunDemoPipeline` is the imperative generator, proved to emit the events of the script cut at the aborted pause. |
| `EngineProps` | Properties of complete and cancelled runs. |
| `AppShell` | The state updaters as functions. The component is class `Session`, whose methods are the handlers. `AbortController` is a class. |
| `SessionProps` | What folding a whole run into an exploration yields. |
| `Strings` | JavaScript `trim`, the `\s` class, and the decimal rendering of numbers in template literals. |
| `Api` | The request and artifact records, the canned templates, the run registry class and the handlers. |
| `Intake` | `deriveStructuredOutputs`, `buildScenarios` and `handleSubmit` of the web page. |

Some inputs become explicit parameters of the model:
- Identifiers (`uid`, `crypto.randomUUID`, `nanoid`) are oracles: sequences of ids given to the run.
- Timestamps (`new Date().toISOString()`, `Date.now()`) are oracles in the same way.
- The moment the user aborts is a parameter: the index of the pause during which the controller is aborted, if any.

A complete run consumes 20 ids and 9 timestamps.

## Model

| member | source | states |
|---|---|---|
| Utils.Cx | lib/utils.ts:1 | The result is empty exactly when no argument is truthy (a non-empty string). |
| Utils.CxAppend | lib/utils.ts:1 | `cx(...a, ...b)` is `cx(...a)` and `cx(...b)` joined by exactly one space when both are non-empty, and the non-empty one otherwise. |
| Utils.CxSingle | lib/utils.ts:1 | With exactly one truthy argument the result is that class string unchanged. |
| Utils.CxLength | lib/utils.ts:1 | The length is the kept strings' total length plus one separator between each neighbouring pair. |
| Utils.KeptAppend | lib/utils.ts:1 | `filter(Boolean)` distributes over concatenating argument lists. |
| Utils.JoinAppend | lib/utils.ts:1 | `join(' ')` of a concatenation puts exactly one space at the seam when both sides are non-empty. |
| DemoEngine.Rand.constructor | lib/demo-engine.ts:9-11 | The state is the polynomial hash (base 31, modulo 2147483647) of the seed's UTF-16 first code units, so it is below the modulus. |
| DemoEngine.Rand.Next | lib/demo-engine.ts:12 | The state advances by the Lehmer step `h * 48271 % 2147483647`. The drawn value is the new state and stays below the modulus. |
| DemoEngine.Delay | lib/demo-engine.ts:92 | A loop pause `500 + floor(rand() * 400)` lies in 500..899 ms for every generator state. |
| EngineProps.DelayIsFloor | lib/demo-engine.ts:92 | The integer form of the pause equals the floor of the real-valued expression `500 + (x/M)*400`. |
| DemoEngine.CreateExploration | lib/demo-engine.ts:15-38 | The title is the query's first 56 characters (or all of a shorter query). The goal is the fixed prefix followed by the query. A new exploration is running, has no artifacts, uses the scaffold frame, and has `updatedAt == createdAt == now`. |
| DemoEngine.MakeArtifact | lib/demo-engine.ts:40-47 | The artifact carries the given kind, data, status and version, the next id, and the current timestamp. |
| DemoEngine.RunDemoPipeline | lib/demo-engine.ts:49-133 | The emitted events are exactly the script's events up to the aborted pause. The run ends in `Aborted` exactly when the abort falls on one of its pauses. |
| DemoEngine.EmitOpening | lib/demo-engine.ts:50-89 | The events are the prologue script's events up to the aborted pause. It aborts exactly when the abort falls on one of its five pauses. It hands on the fresh empty signals artifact. |
| DemoEngine.EmitFraming | lib/demo-engine.ts:51-60 | The events are those of the clarify/frame section up to the aborted pause. It aborts exactly when the abort falls on one of its two pauses. |
| DemoEngine.EmitResearch | lib/demo-engine.ts:62-89 | The events are those of the research section (stakeholders, personas, collection plan, signals) up to the aborted pause. It aborts exactly when the abort falls on one of its three pauses. It returns the signals artifact it emitted. |
| DemoEngine.StreamSignals | lib/demo-engine.ts:91-103 | The events are the loop script's events up to the aborted pause, the script being driven by the generator's current state. It aborts exactly when the abort falls on one of the eight iterations. The generator has then advanced once per sleep begun: up to and including the aborted one, or eight times. |
| DemoEngine.EmitClosing | lib/demo-engine.ts:104-132 | The events are the epilogue script's events (lock, three artifacts, done) up to the aborted pause. It aborts exactly when the abort falls on one of its three pauses. |
| DemoEngine.PauseCounts | lib/demo-engine.ts:49-133 | A whole run has 16 pauses: 5 in the prologue (2 framing, 3 research), 8 in the loop and 3 in the epilogue. |
| DemoEngine.EventsSplit | lib/demo-engine.ts:49-133 | An abort inside the first of two sections emits only that section's events. Otherwise the whole first section is emitted, then the second cut at the abort shifted past the first section's pauses. |
| DemoEngine.ThreeCut | lib/demo-engine.ts:49-133 | The same split over three sections: the abort falls in exactly one section, whose cut follows the complete earlier ones. |
| DemoEngine.ScriptCut | lib/demo-engine.ts:49-133 | A run's events are the prologue's, the loop's and the epilogue's, each cut at the abort shifted to that section. |
| DemoEngine.SignalStep | lib/demo-engine.ts:91-103 | One iteration adds one item and emits exactly one patch carrying the list of all items so far. |
| DemoEngine.SignalAbort | lib/demo-engine.ts:91-103 | An abort at iteration i emits the patches of the first i iterations. |
| EngineProps.FullRun | lib/demo-engine.ts:49-133 | An uncancelled run is the opening events, then the eight signal patches, then the closing events: 20 events in all. `ScriptEvents` ties it to the script. |
| EngineProps.ScriptEvents | lib/demo-engine.ts:49-133 | The events of the full script equal `FullRun`, independently of the generator's draws. |
| EngineProps.LoopEvents | lib/demo-engine.ts:91-103 | The loop emits the signal patches 1..n in order, whatever pauses are drawn. |
| EngineProps.FullRunArtifacts | lib/demo-engine.ts:51-130 | The created artifacts come in pipeline order: clarify, frame, stakeholders, personas, collection plan, signals, horizon scan, scenarios, simulation. Their ids are the ids drawn at the matching positions. |
| EngineProps.FullRunIdsDistinct | lib/demo-engine.ts:40-41 | When the id oracle yields distinct ids, the nine artifacts have distinct ids. |
| EngineProps.FullRunUpdates | lib/demo-engine.ts:60-104 | Exactly ten updates are emitted, in this order: the lock of the frame, the eight signal patches, and the lock of the signals artifact. |
| EngineProps.FullRunDone | lib/demo-engine.ts:132 | `done` is emitted exactly once, as the last event. |
| EngineProps.SignalsGrow | lib/demo-engine.ts:91-102 | Patch k targets the signals artifact. It carries k items numbered 1..k, and each patch's list strictly extends the previous one. |
| EngineProps.SignalsLockFollows | lib/demo-engine.ts:101-104 | The eighth patch is immediately followed by the lock of the signals artifact. |
| EngineProps.CreatedArtifacts | lib/demo-engine.ts:51-130 | Every artifact is created at version 1. The frame is a draft in manual mode and streaming otherwise, and carries the exploration's frame. Signals start streaming and empty. All other artifacts are locked. |
| EngineProps.StatusAfterEmitted | lib/demo-engine.ts:4-7 | An artifact's status is known after a prefix of events exactly when that prefix created it. |
| EngineProps.FullRunWellTargeted | lib/demo-engine.ts:101-104 | Every update targets an artifact already emitted and not yet locked. |
| EngineProps.CancelledIsStrictPrefix | lib/demo-engine.ts:56-125 | Aborting at any of the 16 pauses yields a strict prefix of the full run. That prefix contains no `done` and its updates are still well targeted. |
| EngineProps.CancelledInLoop | lib/demo-engine.ts:91-103 | Aborting at the loop's j-th pause yields the opening events followed by exactly j signal patches. |
| EngineProps.SleepBounds | lib/demo-engine.ts:56-125 | Every pause of a run lasts 400..899 ms, and every loop pause 500..899 ms. |
| AppShell.Merge | components/app-shell.tsx:52 | The spread `{ ...a, ...patch }` takes each field from the patch where it is present and from the artifact otherwise. |
| AppShell.MergeIdempotent | components/app-shell.tsx:52 | Applying the same patch twice is applying it once. |
| AppShell.MergeLockAndData | components/app-shell.tsx:52 | The pipeline's lock patch changes only the status. A data patch changes only the data. |
| AppShell.MergeById | components/app-shell.tsx:52 | The length is kept. Artifacts with the patch's id are merged and all others are unchanged. |
| AppShell.MergeByUnknownId | components/app-shell.tsx:52 | A patch for an id not present changes nothing. |
| AppShell.ApplyEvent | components/app-shell.tsx:47-57 | An artifact event appends the artifact and stamps `updatedAt`. An update merges by id and stamps `updatedAt`. `done` sets the status to done. Identity, query, goal and frame are kept. |
| AppShell.Updated | components/app-shell.tsx:59-103 | Pausing sets the status to paused. Adding a report appends a locked version-1 report titled after the exploration, without touching `updatedAt`. |
| AppShell.PatchExplorations | components/app-shell.tsx:33-35 | Only explorations with the given id are changed. The length and every id are kept. |
| AppShell.PatchUnknownId | components/app-shell.tsx:33-35 | Patching an id that is not present leaves the list unchanged. |
| AppShell.PatchCommute | components/app-shell.tsx:33-35 | Patches to two different ids commute. |
| AppShell.PatchPrepend | components/app-shell.tsx:33-39 | Patching another id after prepending an exploration equals prepending it to the patched list. |
| AppShell.Settled | components/app-shell.tsx:59-61 | An aborted run is marked paused and everything else is kept. A finished run is unchanged. |
| AppShell.Replay | components/app-shell.tsx:46-58 | The list keeps its length. Each exploration with the run's id becomes the fold of the events over it. |
| AppShell.ReplayAt | components/app-shell.tsx:46-58 | Replaying events one at a time over the list equals folding them into the one exploration. |
| AppShell.SettleReplay | components/app-shell.tsx:46-61 | `SettleRun` keeps the list's length and ids. Each exploration with the run's id becomes the fold of the events settled by the outcome, and every other one is unchanged. |
| AppShell.PrependFuture | components/app-shell.tsx:66-68 | The new future is at the head, with the fresh id and the timestamp. The old futures follow unchanged, and nothing else changes. |
| AppShell.RecordSignal | components/app-shell.tsx:96 | The signal's selection becomes the action. Every other selection and the rest of the state are kept. |
| AppShell.RecordSignalIdempotent | components/app-shell.tsx:96 | Recording the same action twice is recording it once. A later action overrides an earlier one. |
| AppShell.Active | components/app-shell.tsx:28-31 | There is an active exploration exactly when the active id is set and present in the list. It is then the first exploration in the list with that id. |
| AppShell.Find | components/app-shell.tsx:29 | `find` succeeds exactly when some exploration has the id, and returns such an exploration. |
| AppShell.Prepend | components/app-shell.tsx:39 | The exploration is put at the head, the old list follows, and the rest of the state is kept. |
| AppShell.AbortController.constructor | components/app-shell.tsx:42 | A new controller is not aborted. |
| AppShell.AbortController.Abort | components/app-shell.tsx:41 | The controller is aborted. |
| AppShell.Session.constructor | components/app-shell.tsx:20-24 | The loaded state is installed. The first exploration, if any, becomes active. There is no controller. |
| AppShell.Session.Start | components/app-shell.tsx:37-43 | Creates the exploration, prepends it and makes it active. The previous controller is aborted and retired, and a fresh unaborted one is installed. |
| AppShell.Session.OnSubmit | components/app-shell.tsx:37-62 | Consumes the pipeline's events (at most 20, aborted iff the abort falls on a pause). The explorations become `SettleRun` of the new exploration prepended to the old list, so, by `SettleReplay`, the new one is the fold of those events, settled by the outcome. The futures and the selections are unchanged. The previous controller is aborted and a fresh one is installed. The fresh controller ends aborted exactly when the run was stopped. |
| AppShell.Session.Run | components/app-shell.tsx:45-61 | The events are the script's events up to the aborted pause, at most 20, and the run is aborted exactly when the abort falls on a pause. The explorations become `SettleRun` of the old ones under those events and that outcome. The run's controller is aborted, by `stopRun`, exactly when the run is aborted. |
| AppShell.Session.Settle | components/app-shell.tsx:59-64 | A stopped run's controller is aborted and a finished run's is not. The explorations become `SettleRun` of the old ones, and nothing else changes. |
| AppShell.Session.Consume | components/app-shell.tsx:45-61 | The explorations become `SettleRun` of the old ones: the run's exploration is folded and marked paused if the run was aborted. Nothing else changes. |
| AppShell.Session.FoldEvents | components/app-shell.tsx:46-58 | The loop leaves the explorations equal to `Replay` of the events. |
| AppShell.Session.MarkRunPaused | components/app-shell.tsx:59-61 | Only the run's exploration is marked paused. |
| AppShell.Session.Stop | components/app-shell.tsx:64 | The current controller, if any, is aborted. |
| AppShell.Session.SaveFuture | components/app-shell.tsx:66-68 | The state becomes `PrependFuture` of the old state. |
| AppShell.Session.SignalAction | components/app-shell.tsx:96 | The state becomes `RecordSignal` of the old state. |
| AppShell.Session.AddReport | components/app-shell.tsx:98-104 | With an active exploration, a report is appended to it and nothing else changes. Without one the state is unchanged. |
| AppShell.Session.Reset | components/app-shell.tsx:78-82 | The state becomes the default state and nothing is active. |
| AppShell.PipelineLength | lib/demo-engine.ts:49-133 | Any run, cancelled or not, emits at most 20 events, so the clock oracle given to `onSubmit` suffices. |
| SessionProps.OpeningFold | components/app-shell.tsx:46-58 | Folding the opening six events gives the six opening artifacts, with the frame locked by its update, and `updatedAt` from the last of them. |
| SessionProps.FramingFold | components/app-shell.tsx:47-54 | Folding the clarify and frame artifacts and the frame's lock gives those two artifacts, with the frame locked. |
| SessionProps.ResearchFold | components/app-shell.tsx:47-49 | Folding the four research artifacts appends them in order and stamps the last time. |
| SessionProps.PatchesFold | components/app-shell.tsx:49-54 | Folding the k signal patches replaces the signals artifact's data with the k-item list and changes nothing else. |
| SessionProps.CompletedRun | components/app-shell.tsx:46-58 | After a complete run the exploration is done and holds the nine artifacts in pipeline order. All are locked at version 1. The signals artifact holds all eight items, and `updatedAt` is the time of the last artifact. |
| SessionProps.FoldEndsDone | components/app-shell.tsx:55-56 | A run whose last event is `done` leaves the exploration done. |
| SessionProps.FoldKeepsStatus | components/app-shell.tsx:46-54 | Events other than `done` never change the exploration's status. |
| SessionProps.SubmittedStatus | components/app-shell.tsx:45-61 | After `onSubmit` the exploration is paused exactly when the run was aborted, and done otherwise. An aborted run never reached `done` before being paused. |
| Strings.LeadingSpaces | packages/web/app/page.tsx:26 | The count covers exactly the white-space run at the start: the next character, if any, is not white space. |
| Strings.TrailingSpaces | packages/web/app/page.tsx:26 | The count covers exactly the white-space run at the end. |
| Strings.TrimStart | packages/web/app/page.tsx:26 | The result is a suffix of the input. Everything dropped is white space, and the result starts with a non-space. |
| Strings.TrimEnd | packages/web/app/page.tsx:26 | The result is a prefix of the input. Everything dropped is white space, and the result ends with a non-space. |
| Strings.Trim | packages/web/app/page.tsx:26 | The result is the input with exactly its leading and its trailing white space removed: an infix that starts after the leading run, with only white space on either side, and equal to `TrimEnd(TrimStart(s))`. It is empty exactly when the input is all white space, and otherwise starts and ends with a non-space. |
| Strings.TrimNoop | packages/web/app/page.tsx:26 | A string with no white space at either end is its own trim. |
| Strings.TrimIdempotent | packages/web/app/page.tsx:80 | Trimming twice is trimming once. |
| Strings.Decimal | packages/api/src/index.ts:91 | The rendering of a number is a non-empty string of digits with no leading zero. |
| Strings.DecimalRoundTrip | packages/api/src/index.ts:91 | Parsing the rendered digits gives back the number. |
| Api.HorizonMonths | packages/api/src/index.ts:85 | The horizon is 6, 24 or 60 months, and 24 when it is absent. |
| Api.BuildQuickBullets | packages/api/src/index.ts:74-81 | Six bullets. The first names the adopters and the third names the horizon in months. |
| Api.FirstBulletAdopters | packages/api/src/index.ts:75 | The first bullet speaks of "fast adopters" exactly when the seed bias is exploratory, and of "incumbents" exactly when it is not. |
| Api.QuickTakeFor | packages/api/src/index.ts:90-98 | The quick take uses the built bullets, medium confidence and two assumptions. |
| Api.ConesFor | packages/api/src/index.ts:99-118 | Two cones, upside then downside. |
| Api.CannedSignalsShape | packages/api/src/index.ts:119-134 | The canned signals block has six signals, none with a source URL, and four drivers. |
| Api.CannedTimelineShape | packages/api/src/index.ts:135-142 | The canned timeline has three milestones and one inflection. |
| Api.CannedMovesShape | packages/api/src/index.ts:143-155 | The canned moves have three no-regret moves, two options, one watch-out and two tags. |
| Api.BaseArtifactsShape | packages/api/src/index.ts:83-157 | The canned result has the quick take with the built bullets, medium confidence and two assumptions. It has upside and downside cones, six signals without URLs, four drivers, three milestones, one inflection, and three, two and one moves. |
| Api.OneLineShape | packages/api/src/index.ts:85-91 | The one-liner starts with the question and ends with " months", with the horizon's digits in between. Those digits read back as the horizon, which is 24 by default. |
| Api.DefaultLocation | packages/api/src/index.ts:86-96 | The second assumption starts with the location, or with "N/A" when none is given. |
| Api.DefaultPerspective | packages/api/src/index.ts:87-104 | Without a perspective, the upside vignette names "me" as the beneficiary. |
| Api.Registry.constructor | packages/api/src/index.ts:68-70 | The registry starts with no runs and no pending timers, holding the two validators. |
| Api.Registry.ScheduleRun | packages/api/src/index.ts:159-177 | The run id is "RUN-" plus six characters. The run is recorded as processing at the current time, and its completion timer is queued with the input. Under a fresh id every ready run stays ready. |
| Api.Registry.Store | packages/api/src/index.ts:166-172 | The pending run's record is replaced and that timer leaves the queue. The other timers keep their order. |
| Api.Registry.Complete | packages/api/src/index.ts:163-174 | A timer firing stores the canned artifacts for its input as a ready record at the current time, whichever validation branch runs, and leaves the queue. Every run that was ready stays ready. Polling the run then answers 200 with the artifacts when they validate and 500 when they do not. |
| Api.Registry.HandleGenerate | packages/api/src/index.ts:181-189 | Invalid input gets 400 with no change. Valid input gets 202 with the new run id, the run is processing, its timer is queued, and polling it now answers 202. |
| Api.Registry.HandleGetRun | packages/api/src/index.ts:191-208 | The reply is the poll answer for the id in the current registry, and nothing changes. |
| Api.PollOf | packages/api/src/index.ts:191-208 | 404 exactly for an unknown id, with body `not_found`. 202 exactly while processing, with body `processing`. 500 exactly for a ready result the output validator rejects, with body `invalid_artifacts`. 200, with the stored result as body, exactly for one it accepts. |
| Api.PollAfterComplete | packages/api/src/index.ts:163-207 | Once a run is completed, polling answers 200 with the canned artifacts if they validate, and 500 if they do not. |
| Api.ReadyStaysReady | packages/api/src/index.ts:161-172 | Storing a ready record, or a processing record under a fresh id, keeps every ready run ready. |
| Intake.Clean | packages/web/app/page.tsx:29 | Only ASCII letters, digits and white space remain, and nothing is added. |
| Intake.Words | packages/web/app/page.tsx:30-31 | Every word is non-empty and free of white space. |
| Intake.WordsOfWord | packages/web/app/page.tsx:30-31 | A non-empty string without white space is a single word. |
| Intake.WordsAtSpace | packages/web/app/page.tsx:30-31 | Every white-space character is a word break: the words around it are the words before it followed by the words after it. With `WordsOfWord`, words are exactly the maximal runs of non-space characters. |
| Intake.DoubleGap | packages/web/app/page.tsx:29-31 | Two spaces between two words, as cleaning leaves where it drops a symbol, still separate exactly those two words. |
| Intake.WordsConcat | packages/web/app/page.tsx:30-31 | The words together are the input without its white space. |
| Intake.WordsEmptyIff | packages/web/app/page.tsx:30-31 | There are no words exactly when the input is all white space. |
| Intake.CleanChar | packages/web/app/page.tsx:29 | A single character is kept exactly when it is an ASCII letter or digit or white space, and removed otherwise. |
| Intake.CleanAppend | packages/web/app/page.tsx:29 | Cleaning distributes over concatenation. With `CleanChar`, every ASCII letter, digit and white-space character of the input is kept, in order, and nothing else. |
| Intake.CleanAllSpaceIff | packages/web/app/page.tsx:29 | The cleaned text is all white space exactly when the input has no ASCII letter or digit. |
| Intake.CleanWordsAlnum | packages/web/app/page.tsx:28-31 | Every word of the cleaned topic consists of ASCII letters and digits. |
| Intake.WordsOfJoin | packages/web/app/page.tsx:30-32 | Splitting a space-joined list of words gives the list back. |
| Intake.TrimOr | packages/web/app/page.tsx:26-27 | The result is never empty. It is the trimmed statement, or the fallback when that is empty. The topic uses the fallback "your focus area"; the scenario base (line 53) uses "your chosen topic". |
| Intake.Take | packages/web/app/page.tsx:32 | `slice(0, n)`: the first `min(n, length)` words. |
| Intake.WindowStart | packages/web/app/page.tsx:34 | `slice(-5)` starts where at most five words remain. |
| Intake.SignalChips | packages/web/app/page.tsx:33-36 | At most four chips, taken from the last five words in order. Each chip is captioned with its word, with id "word-index". With five or more words the last word never becomes a chip. |
| Intake.DeriveStructuredOutputs | packages/web/app/page.tsx:25-50 | The topic is `Topic`. The focus joins the first six words of the cleaned topic. The signals are the chips of those words. The horizon is fixed, with four actors and three disambiguation prompts. |
| Intake.FocusWords | packages/web/app/page.tsx:28-32 | Splitting the focus gives back exactly the first six words. |
| Intake.NoWordsIff | packages/web/app/page.tsx:28-36 | The focus is empty and there are no signal chips exactly when the topic has no ASCII letter or digit. |
| Intake.BuildScenarios | packages/web/app/page.tsx:52-69 | Three scenarios with the templates' ids, titles and colours. Each has three moves and an outcome that starts with the base. |
| Intake.ScenarioIds | packages/web/app/page.tsx:5-21 | The scenarios are A, B and C, in that order. |
| Intake.Submitted | packages/web/app/page.tsx:78-81 | The submitted question is never empty. It is the trimmed input, or the starter question when that is empty. |
| Intake.SubmittedTrimmed | packages/web/app/page.tsx:80 | The submitted question is already trimmed. |
| Intake.SubmittedIsTopic | packages/web/app/page.tsx:27-80 | The topic derived from a submitted question is the question itself. The default topic never shows after a submission. |
| Intake.SubmittedOutcomes | packages/web/app/page.tsx:53-80 | Every scenario outcome of a submitted question starts with that question. |

## Left out

- Floating point: `rand()` and the pause are modelled on integers. `EngineProps.DelayIsFloor` relates the integer form to the real-valued formula; IEEE rounding of the double product is not modelled.
- Wall-clock time and random identifiers: `Date`, `uid`, `crypto.randomUUID` and `nanoid` are oracle parameters. Their uniqueness is not guaranteed by the model. It is a precondition (`Distinct`) where a property needs it, and a colliding run id in the API simply overwrites the older record.
- The `sleep` timer and its abort listener (lib/utils.ts:4-13) are reduced to a pause step that the abort may cut. Timer scheduling and the listener left registered after the timer resolves are not modelled.
- Aliasing: the signals artifact's own item list grows in place after each patch (lib/demo-engine.ts:102). The model emits the patches as values and does not follow the emitted artifact object's later mutation.
- The prose of the mock artifacts (summaries, bullet texts, signal titles, sources and dates) is kept only where a property speaks of it. Elsewhere only its counts and structure are modelled.
- `async`/`await` and concurrency: concurrent runs in the app shell, and React's batching of `setState` updaters, are not modelled. A superseded run is modelled as aborted and fully consumed before the next starts.
- AppShell.Session.OnSubmit: the only abort modelled inside a run is `stopRun` on that run's own controller. A later submission that aborts the run while it sleeps (components/app-shell.tsx:41) is not modelled, since the two `onSubmit` calls would interleave.
- The app shell's React rendering, the tab and mobile-sidebar state, and `localStorage` persistence (`loadState`/`saveState`/`resetState`): `loadState` becomes the constructor's parameter, and saving is not modelled.
- The API server: the Fastify wiring, CORS, `listen`, logging and the JSON Schema files. The AJV validators are opaque predicates given to the registry, and their error details in the 400 reply are not modelled.
- `Api.Registry.Complete`: `setTimeout` timing is not modelled. A completion is an explicit step that may fire for any pending run at any time, and the 400 ms delay appears only as a constant.
- `DemoEngine.CreateExploration`: `slice(0, 56)` is modelled on characters. UTF-16 code units differ for astral characters.
- `Intake.Clean`: the regular expression is likewise modelled on characters, not UTF-16 code units.
- The web page's rendering and its form state other than the submitted question are not modelled.
- The context files (`packages/web/pages`, `lib/storage.ts`, the chat surfaces, the tests) are not part of this model.
