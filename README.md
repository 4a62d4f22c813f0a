# Sonhoapp core, modelled in Dafny

Sonhoapp is a dream-journal and lucid-dreaming app. Its client keeps this state:

- a **progress store**: the journal of dreams, the user's XP, level and streak, and an onboarding flag. After every change the store mirrors itself into the browser's local store.
- **pages and components** that drive the store through small state machines:
  - the six-screen onboarding
  - the new-dream form and its tag parser
  - the home page, which partitions the catalog of lucidity tasks and picks a daily mission
  - the daily-mission overlay
  - the voice-practice challenge, built on a speech-recognition hook
  - the three-minute binaural session and its player
  - the record button
  - the journal's card stack
  - the journey map of tasks

This project models that logic. Each source file is one Dafny module:

- Operations that update state are methods of a class. Their `modifies` clauses name what changes.
- Pure helpers are functions, with lemmas about them.
- Collaborators the page calls are recorded in call logs (`seq` fields), in order: the router, the remote services, and callbacks such as `onComplete`, `completeMission` or `awardXP`.
- The clock, the UUID generator, the shuffle, the browser's answers and Unicode decomposition are parameters.
- Timers are pending events that the environment fires explicitly.

| module | file | source |
|---|---|---|
| `Wrappers` | wrappers.dfy | `Option`, for the source's nullable and optional values |
| `Types` | types.dfy | `src/types/index.ts` (`Dream`, `UserStats`) |
| `Text` | text.dfy | the JavaScript string operations used by the core: `split`, `join`, `trim`, `includes`, `toString`, `padStart` |
| `ProgressStore` | progress_store.dfy | `src/context/AppContext.tsx` |
| `LucidityTasks` | lucidity_tasks.dfy | `src/data/lucidityTasks.ts` |
| `SpeechRecognition` | speech_recognition.dfy | `src/hooks/useSpeechRecognition.ts` |
| `VoicePractice` | voice_practice.dfy | `src/components/mission/VoicePracticeChallenge.tsx` |
| `MissionOverlay` | mission_overlay.dfy | `src/components/mission/MissionOverlay.tsx` |
| `Dashboard` | dashboard.dfy | `src/pages/Dashboard.tsx` |
| `SoundSession` | sound_session.dfy | `src/context/SoundContext.tsx` |
| `BinauralPlayer` | binaural_player.dfy | `src/components/ui/GlobalBinauralPlayer.tsx` |
| `VoiceInput` | voice_input.dfy | `src/components/ui/AIVoiceInput.tsx` |
| `DreamStack` | dream_stack.dfy | `src/components/journal/DreamStack.tsx` |
| `JourneyMap` | journey_map.dfy | `src/components/gamification/JourneyMap.tsx` |
| `Onboarding` | onboarding.dfy | `src/pages/Onboarding.tsx` |
| `AddDream` | add_dream.dfy | `src/pages/AddDream.tsx` |

Where the code and its comments or declared types disagree, the model follows the code:

- `addDream` awards 2 XP per clarity point, not the 5 its comment says.
- The store never sets `dailyActions`, although `UserStats` declares it.
- Dreams fetched from the remote service never carry `tags`. Their clarity defaults to 50.
- Several callers use store operations that the store does not provide: `completeMission`, `toggleTask` and `awardXP`. These calls are modelled as recorded callbacks. Where a caller reads a value the store does not provide, the model states the consequence:
  - the home page's cards read `completedTasks`, so they never show as completed (`Dashboard.CardsNeverCompleted`).
  - the overlay reads each catalog task's `type`, so it never gates Continue on them (`MissionOverlay.CatalogNeverGated`).
- The home page opens the mission overlay without a category, so the overlay draws nothing (`Dashboard.Page.PressMissionButton`).

## Model

| member | source | states |
|---|---|---|
| `ProgressStore.Mirror` | src/context/AppContext.tsx:38-44 | after the mirroring effects the local store holds the keys it held before plus the dreams key and the stats key |
| `ProgressStore.LoadDreams` | src/context/AppContext.tsx:28-31 | definition without a contract of its own: the stored dream list, or an empty journal when none is stored; `LoadMirror` and `LoadEmpty` state what it reads back |
| `ProgressStore.LoadStats` | src/context/AppContext.tsx:33-36 | definition without a contract of its own: the stored statistics, or the defaults when none are stored; `LoadMirror` and `LoadEmpty` state what it reads back |
| `ProgressStore.LoadOnboarded` | src/context/AppContext.tsx:106-108 | definition without a contract of its own: whether the stored flag is the text `true`; `LoadMirror` and `LoadEmpty` state what it reads back |
| `ProgressStore.LoadMirror` | src/context/AppContext.tsx:28-44 | loading a mirrored store gives back the dreams and the stats written, and keeps the onboarding flag |
| `ProgressStore.LoadEmpty` | src/context/AppContext.tsx:28-36 | an empty local store loads as an empty journal, the default stats (XP 0, level 1, streak 0, no date, 0 dreams) and onboarding not done |
| `ProgressStore.LevelFor` | src/context/AppContext.tsx:49 | the level is the unique level whose hundred-XP band holds the XP |
| `ProgressStore.DefaultWellFormed` | src/context/AppContext.tsx:7-13 | the default stats have the level that matches their XP |
| `ProgressStore.AwardXP` | src/context/AppContext.tsx:46-52 | XP goes up by the amount; the level is recomputed from the new XP; streak, last date and dream count are unchanged |
| `ProgressStore.AwardXPWellFormed` | src/context/AppContext.tsx:46-52 | awarding any amount keeps level and XP consistent |
| `ProgressStore.LevelUnique` | src/context/AppContext.tsx:49 | only one level fits the band condition for an XP total |
| `ProgressStore.RecordAction` | src/context/AppContext.tsx:54-79 | the last date becomes today; the dream count goes up by exactly one; XP and level are untouched |
| `ProgressStore.StreakRule` | src/context/AppContext.tsx:59-70 | after a last date of yesterday the streak goes up by one; after any other date (or none) it restarts at 1; on the same day it is kept, except that 0 becomes 1 |
| `ProgressStore.RecordActionWellFormed` | src/context/AppContext.tsx:57-78 | a recorded action keeps the stats consistent and leaves a streak of at least 1 |
| `ProgressStore.SameDayTwice` | src/context/AppContext.tsx:68-70 | a second action on the same day changes only the dream count |
| `ProgressStore.ConsecutiveDays` | src/context/AppContext.tsx:59-64 | actions on two consecutive days extend the streak by one |
| `ProgressStore.DreamXP` | src/context/AppContext.tsx:91-94 | a new dream earns 10, plus 2 per clarity point, plus 20 when lucid; that is 12 to 40 XP for clarities 1 to 5 |
| `ProgressStore.DreamXPExample` | src/context/AppContext.tsx:91-94 | the extremes are 40 XP (clarity 5, lucid) and 12 XP (clarity 1, not lucid) |
| `ProgressStore.NewDream` | src/context/AppContext.tsx:81-86 | the new dream carries every input field, plus the generated id and creation time |
| `ProgressStore.PrependFresh` | src/context/AppContext.tsx:84-88 | prepending a dream whose id is unused keeps the journal's ids distinct |
| `ProgressStore.WithoutId` | src/context/AppContext.tsx:99 | the filtered journal holds no dream with the id, only dreams of the journal, and every other dream of it |
| `ProgressStore.WithoutIdAppend` | src/context/AppContext.tsx:99 | deletion works piece by piece, so the kept dreams stay in their original order |
| `ProgressStore.WithoutIdAbsent` | src/context/AppContext.tsx:99 | deleting an id that is not in the journal leaves it unchanged |
| `ProgressStore.WithoutIdIdempotent` | src/context/AppContext.tsx:97-99 | deleting the same id twice is the same as deleting it once |
| `ProgressStore.FromRemote` | src/context/AppContext.tsx:126-136 | a remote dream keeps its id, cover image and voice note and takes the night's date; its title is the remote title unless that is absent or empty, when it is "Sonho Sem Título"; its description is the raw text, or empty; its clarity is the remote clarity unless that is absent or 0, when it is 50; lucid is the remote flag, false when absent; its mood is the remote emotion unless absent or empty, when it is "neutral"; it never has tags |
| `ProgressStore.FromNight` | src/context/AppContext.tsx:126 | a night gives its dreams mapped in order; a missing dream list counts as empty |
| `ProgressStore.FromNights` | src/context/AppContext.tsx:125-137 | every flattened dream has a non-empty title and no tags |
| `ProgressStore.FromNightsAppend` | src/context/AppContext.tsx:125 | the flattening goes night by night: night order first, then dream order |
| `ProgressStore.FromNightsLength` | src/context/AppContext.tsx:125-137 | the flattened list has exactly one entry per remote dream |
| `ProgressStore.Reconcile` | src/context/AppContext.tsx:121-146 | a reply with at least one dream replaces the journal with the flattened list; a null reply or one with no dreams keeps the local journal |
| `ProgressStore.AppStore.constructor` | src/context/AppContext.tsx:28-44 | start-up reads the three keys, with their defaults, and mirrors the dreams and stats back |
| `ProgressStore.AppStore.AddDream` | src/context/AppContext.tsx:81-95 | exactly one new dream is added, at the front; the stats are the action record followed by the dream's XP; the store is mirrored; well-formed stats stay well formed, with a streak of at least 1 |
| `ProgressStore.AppStore.DeleteDream` | src/context/AppContext.tsx:97-104 | the dream is removed locally at once and the stored journal is rewritten; a remote delete request is recorded; nothing else changes |
| `ProgressStore.AppStore.CompleteOnboarding` | src/context/AppContext.tsx:110-115 | 'true' is stored under the onboarding key and the flag is set; the journal and stats are untouched |
| `ProgressStore.AppStore.SyncDreams` | src/context/AppContext.tsx:117-147 | a request for the last 30 nights is recorded; the journal becomes the result of `Reconcile`; the store is unchanged when the journal is, and otherwise only its dreams key is rewritten with the new journal; the stats and the onboarding flag stay |
| `LucidityTasks.CountIn` | src/data/lucidityTasks.ts:12-138 | the count of a category's tasks is zero exactly when no task has that category |
| `LucidityTasks.IndexOf` | src/data/lucidityTasks.ts:12-138 | the position found holds the id; -1 means no task has that id |
| `LucidityTasks.CatalogShape` | src/data/lucidityTasks.ts:12-138 | the catalog has 15 tasks with pairwise distinct ids, each worth 10 to 50 XP |
| `LucidityTasks.CatalogCategories` | src/data/lucidityTasks.ts:13-137 | 7 day tasks come first, then 8 night tasks; there is no morning task |
| `LucidityTasks.AdvancedEntries` | src/data/lucidityTasks.ts:122-137 | `wbtb_lite` (50 XP) and `reentry` (40 XP) are night tasks |
| `Dashboard.Filter` | src/pages/Dashboard.tsx:24-26 | a filter keeps exactly those tasks that satisfy the test, and only tasks of the list |
| `Dashboard.FilterAppend` | src/pages/Dashboard.tsx:24-26 | filtering keeps the list's order |
| `Dashboard.FilterAll` | src/pages/Dashboard.tsx:24-26 | a filter that every task passes keeps the whole list |
| `Dashboard.FilterNone` | src/pages/Dashboard.tsx:24-26 | a filter that no task passes gives the empty list |
| `Dashboard.DayTasks` | src/pages/Dashboard.tsx:24 | definition without a contract of its own: the day tasks, in order; `SectionsDisjoint` and `SectionsOf` state how the three sections split a list |
| `Dashboard.NightTasks` | src/pages/Dashboard.tsx:25 | definition without a contract of its own: the night tasks other than the two advanced ones, in order; see `SectionsDisjoint` and `SectionsOf` |
| `Dashboard.AdvTasks` | src/pages/Dashboard.tsx:26 | definition without a contract of its own: the two advanced tasks, in order; see `SectionsDisjoint` and `SectionsOf` |
| `Dashboard.SectionsDisjoint` | src/pages/Dashboard.tsx:24-26 | no task is both a day and a night task, nor both a night and an advanced task |
| `Dashboard.FilterThree` | src/pages/Dashboard.tsx:24-26 | filtering three joined lists gives the three filtered lists joined |
| `Dashboard.SectionsOf` | src/pages/Dashboard.tsx:24-26 | a list of day, ordinary night and advanced tasks splits into exactly those three sections |
| `Dashboard.CatalogSections` | src/pages/Dashboard.tsx:24-26 | on the catalog the day section is the 7 day tasks; night is the 6 night tasks other than `wbtb_lite` and `reentry`; advanced is those two; together they are the whole catalog, in order |
| `Dashboard.DistinctCountsOnce` | src/pages/Dashboard.tsx:19 | a list without repeats holds each task at most once |
| `Dashboard.PermutationKeepsDistinctIds` | src/pages/Dashboard.tsx:19 | any shuffle of a list with distinct ids has distinct ids |
| `Dashboard.DailyMission` | src/pages/Dashboard.tsx:18-21 | the daily mission is a prefix of the shuffle, min(5, n) tasks long, with distinct ids, all from the catalog |
| `Dashboard.CatalogDailyMission` | src/pages/Dashboard.tsx:18-21 | on the 15-task catalog the daily mission is exactly 5 distinct catalog tasks |
| `Dashboard.IsCompleted` | src/pages/Dashboard.tsx:125 | definition without a contract of its own: `completedTasks?.includes(id)`, false when the list is absent; `CardsNeverCompleted` states what it gives on the store's stats |
| `Dashboard.CardsNeverCompleted` | src/pages/Dashboard.tsx:125 | stats without `completedTasks` never show a task card as completed; this holds by definition, since the store's stats never carry the list |
| `Dashboard.TaskCard.constructor` | src/pages/Dashboard.tsx:118-120 | a card starts collapsed with no toggle calls |
| `Dashboard.TaskCard.ClickCard` | src/pages/Dashboard.tsx:134 | a card click flips the expansion and calls nothing |
| `Dashboard.TaskCard.ClickToggle` | src/pages/Dashboard.tsx:152-156 | the round toggle button calls `toggleTask` with its own task's id and XP, and leaves the expansion alone |
| `Dashboard.ToOverlayTasks` | src/pages/Dashboard.tsx:87-91 | the overlay receives the mission's tasks one for one: same ids and XP, no type |
| `Dashboard.Page.constructor` | src/pages/Dashboard.tsx:10-21 | the page starts with the mission closed; its overlay gets the daily mission and no category |
| `Dashboard.Page.PressMissionButton` | src/pages/Dashboard.tsx:34-35 | opening the mission makes the overlay open, but with no category the overlay draws nothing and reports no mission |
| `Dashboard.Page.CloseMission` | src/pages/Dashboard.tsx:89 | closing hides the overlay |
| `MissionOverlay.FromCatalog` | src/components/mission/MissionOverlay.tsx:7-12 | a catalog task reaches the overlay with its id and XP, no type and no options |
| `MissionOverlay.SessionTasks` | src/components/mission/MissionOverlay.tsx:21-24 | the session is the first min(3, n) tasks, in order |
| `MissionOverlay.TotalXPAppend` | src/components/mission/MissionOverlay.tsx:47 | the XP total adds up piece by piece |
| `MissionOverlay.TotalXP` | src/components/mission/MissionOverlay.tsx:47 | definition without a contract of its own: the sum of the session's XP; `TotalXPAppend` and `TotalXPBounds` state how it adds up and its bounds |
| `MissionOverlay.TotalXPBounds` | src/components/mission/MissionOverlay.tsx:47 | n tasks worth lo to hi each total between n·lo and n·hi |
| `MissionOverlay.ContinueDisabled` | src/components/mission/MissionOverlay.tsx:143 | definition without a contract of its own: Continue is disabled on a question task until it is answered; `CatalogNeverGated` states that catalog tasks are never gated |
| `MissionOverlay.Overlay.Renders` | src/components/mission/MissionOverlay.tsx:54 | definition without a contract of its own: the overlay draws only when open and given a category |
| `MissionOverlay.Overlay.FooterShown` | src/components/mission/MissionOverlay.tsx:139 | definition without a contract of its own: the footer shows while drawn, with no success view and a current task |
| `MissionOverlay.CatalogNeverGated` | src/components/mission/MissionOverlay.tsx:143 | Continue is never disabled for a catalog task, since catalog tasks carry no type |
| `MissionOverlay.Overlay.constructor` | src/components/mission/MissionOverlay.tsx:14-18 | the cursor starts at 0, with no answer, no success and no mission call |
| `MissionOverlay.Overlay.SetOpen` | src/components/mission/MissionOverlay.tsx:27-33 | becoming open resets the cursor, the answer and the success view; any other change of `isOpen` leaves them |
| `MissionOverlay.Overlay.HandleNext` | src/components/mission/MissionOverlay.tsx:38-52 | with no current task, nothing happens; before the last task, the cursor moves on and the answer clears; on the last, success shows and `completeMission` gets the session's XP total (the number the success view shows) when there is a category |
| `MissionOverlay.Overlay.ChooseOption` | src/components/mission/MissionOverlay.tsx:108-113 | choosing any shown option of a question task marks it answered; anything else leaves the answer |
| `MissionOverlay.Overlay.PressContinue` | src/components/mission/MissionOverlay.tsx:139-143 | the button exists only in the shown footer and does nothing while disabled; otherwise it acts as `handleNext`: before the last task it moves on and clears the answer, on the last it keeps the task and its answer, shows success and reports the XP total |
| `SpeechRecognition.FullTranscript` | src/hooks/useSpeechRecognition.ts:79-81 | definition without a contract of its own: the first alternatives of all results, joined with nothing between; `FullTranscriptAppend` and `FullTranscriptSingle` state how it grows |
| `SpeechRecognition.FullTranscriptAppend` | src/hooks/useSpeechRecognition.ts:79-81 | the full transcript is built result by result, in order |
| `SpeechRecognition.FullTranscriptSingle` | src/hooks/useSpeechRecognition.ts:80 | one result's transcript is its first alternative |
| `SpeechRecognition.PartsCoverTranscript` | src/hooks/useSpeechRecognition.ts:68-74 | the final and interim parts are together exactly as long as the full transcript |
| `SpeechRecognition.Finality` | src/hooks/useSpeechRecognition.ts:68-74 | the results of one finality, each of them one of the results and no more of them than there are results |
| `SpeechRecognition.TranscriptOfFinality` | src/hooks/useSpeechRecognition.ts:68-74 | each part is the full transcript of exactly the results of its finality, in order |
| `SpeechRecognition.FinalityPartition` | src/hooks/useSpeechRecognition.ts:68-74 | the final and the interim results together are a rearrangement of the results: each goes to exactly one part, as often as it occurs |
| `SpeechRecognition.SplitByFinality` | src/hooks/useSpeechRecognition.ts:65-74 | from `resultIndex` on, the loop concatenates the final results and the interim ones, each in order; a `resultIndex` past the end gives two empty texts (the handler computes both and never uses them) |
| `SpeechRecognition.Recognizer.constructor` | src/hooks/useSpeechRecognition.ts:24-30 | the hook starts not listening, with an empty transcript, no error and no instance |
| `SpeechRecognition.Recognizer.StartListening` | src/hooks/useSpeechRecognition.ts:37-104 | the error and transcript are cleared first; without the API, an error is set and nothing is created; otherwise the previous instance is aborted and the new one started; it becomes current only if `start()` did not throw, else the start error is set |
| `SpeechRecognition.Recognizer.StopListening` | src/hooks/useSpeechRecognition.ts:106-133 | a hard stop detaches the handlers, aborts, forgets the instance and stops listening at once; a soft stop only sends `stop()` |
| `SpeechRecognition.Recognizer.ResetTranscript` | src/hooks/useSpeechRecognition.ts:135-137 | the transcript is cleared and nothing else changes |
| `SpeechRecognition.Recognizer.OnStart` | src/hooks/useSpeechRecognition.ts:56-58 | the instance's start sets listening |
| `SpeechRecognition.Recognizer.OnEnd` | src/hooks/useSpeechRecognition.ts:60-62 | an attached instance's end stops listening; a detached one's does nothing |
| `SpeechRecognition.Recognizer.OnError` | src/hooks/useSpeechRecognition.ts:87-91 | an attached instance's error is recorded and stops listening |
| `SpeechRecognition.Recognizer.OnResult` | src/hooks/useSpeechRecognition.ts:64-85 | the transcript becomes every result's first alternative, concatenated in order, and is passed to `onResult` when one was given |
| `SpeechRecognition.Recognizer.Unmount` | src/hooks/useSpeechRecognition.ts:140-146 | the cleanup asks the current instance, if any, to stop |
| `VoicePractice.LowerChar` | src/components/mission/VoicePracticeChallenge.tsx:70 | a lowered character is never a capital, and a non-capital is left as it is |
| `VoicePractice.ToLower` | src/components/mission/VoicePracticeChallenge.tsx:70 | `toLowerCase` keeps the length, leaves no capital and changes only capitals |
| `VoicePractice.Remove` | src/components/mission/VoicePracticeChallenge.tsx:71-72 | the deletion leaves no dropped character, adds nothing, and is the identity when there is nothing to drop |
| `VoicePractice.TrimUnchanged` | src/components/mission/VoicePracticeChallenge.tsx:73 | `trim` leaves text without surrounding whitespace alone |
| `VoicePractice.StripMarksAndPunctuation` | src/components/mission/VoicePracticeChallenge.tsx:71-72 | no combining mark U+0300–U+036F and no listed punctuation character remains |
| `VoicePractice.Normalize` | src/components/mission/VoicePracticeChallenge.tsx:69-74 | the normalised text has no combining mark and no listed punctuation, does not start or end with whitespace, and has no capital unless decomposition introduced one |
| `VoicePractice.StripKeepsNoUpper` | src/components/mission/VoicePracticeChallenge.tsx:71-72 | the deletions add no capital |
| `VoicePractice.TrimClean` | src/components/mission/VoicePracticeChallenge.tsx:73 | trimming keeps text free of marks, punctuation and capitals, and leaves whitespace-free ends |
| `VoicePractice.NormalizeIdempotent` | src/components/mission/VoicePracticeChallenge.tsx:69-74 | normalising twice is normalising once, when decomposition adds no capital and leaves normalised text alone |
| `VoicePractice.LowerKeepsLower` | src/components/mission/VoicePracticeChallenge.tsx:70 | lowering text without capitals changes nothing |
| `VoicePractice.StripKeepsClean` | src/components/mission/VoicePracticeChallenge.tsx:71-72 | the deletions leave clean text alone |
| `VoicePractice.MatchCases` | src/components/mission/VoicePracticeChallenge.tsx:83-89 | saying exactly the target always matches; a target that normalises to nothing matches anything; a transcript shorter than the target matches only through `isSimilar` |
| `VoicePractice.Words` | src/components/mission/VoicePracticeChallenge.tsx:76-77 | the words have no space, and joined by single spaces they give back the normalised text |
| `VoicePractice.IsMatch` | src/components/mission/VoicePracticeChallenge.tsx:89 | definition without a contract of its own: similar at 0.85 or containing the target, both normalised; `MatchCases` states when it must and must not hold |
| `VoicePractice.Highlighted` | src/components/mission/VoicePracticeChallenge.tsx:127-131 | definition without a contract of its own: matched, or within 1500 ms of the last match; `HighlightRule` states which words it lights |
| `VoicePractice.HighlightRule` | src/components/mission/VoicePracticeChallenge.tsx:127-131 | when the transcript's words begin with all the target's words, every target word is matched; outside the 1500 ms window a target word past the transcript's end is never highlighted; inside the window every word is |
| `VoicePractice.CompleteCountAppend` | src/components/mission/VoicePracticeChallenge.tsx:42-44 | scheduled `onComplete` calls add up over the schedule |
| `VoicePractice.Without` | src/components/mission/VoicePracticeChallenge.tsx:42-49 | a fired timer leaves the schedule, and the others keep their order |
| `VoicePractice.CompleteCountRemove` | src/components/mission/VoicePracticeChallenge.tsx:42-44 | firing a timer removes one pending `onComplete` exactly when it was one |
| `VoicePractice.Challenge.constructor` | src/components/mission/VoicePracticeChallenge.tsx:15-19 | no repetitions, no success, no match time, latch clear, nothing scheduled, recognition idle |
| `VoicePractice.Challenge.HandleMatch` | src/components/mission/VoicePracticeChallenge.tsx:23-53 | once latched it does nothing; otherwise it records the time, hard-stops recognition and clears the transcript: the current instance is aborted and detached, and nothing else of the recogniser changes. It adds exactly one repetition. On reaching the requirement it sets the latch and success and schedules `onComplete` in 2000 ms; otherwise it schedules a restart in 1000 ms. `onComplete` runs at most once over the challenge's life |
| `VoicePractice.Challenge.CheckMatch` | src/components/mission/VoicePracticeChallenge.tsx:80-103 | only while listening, on a match more than 2000 ms after the last accepted one, it runs `handleMatch` (with the same recogniser effect: the current instance aborted and detached, the transcript cleared, nothing else changed) and schedules a transcript clear in 500 ms; otherwise nothing changes |
| `VoicePractice.Challenge.ToggleMic` | src/components/mission/VoicePracticeChallenge.tsx:151 | while listening the button hard-stops the recogniser, with every effect of `stopListening(true)`; otherwise it starts it, with every effect of `startListening`, error cases included |
| `VoicePractice.Challenge.Fire` | src/components/mission/VoicePracticeChallenge.tsx:42-49 | a due timer calls `onComplete` and leaves the recogniser alone, restarts listening with every effect of `startListening`, or clears the transcript and nothing else of the recogniser; it leaves the schedule; the counter and latch stay; `onComplete` is still called at most once |
| `SoundSession.FadeDuration` | src/context/SoundContext.tsx:58 | the fade is the argument when it is a number, else 0.1 |
| `SoundSession.Session.constructor` | src/context/SoundContext.tsx:19-21 | inactive, not minimised, 180 seconds |
| `SoundSession.Session.StartSession` | src/context/SoundContext.tsx:49-54 | active, full modal, 180 seconds, unmuted |
| `SoundSession.Session.StopSession` | src/context/SoundContext.tsx:56-64 | from any state: inactive, not minimised, 180 seconds, muted with the chosen fade |
| `SoundSession.Session.Tick` | src/context/SoundContext.tsx:24-40 | without an active session with time left, nothing happens; above one second, one second is taken off; at one second, 50 XP is awarded, the session stops with a 3-second fade and the updater's 0 is the time left |
| `SoundSession.Session.RedundantStopCheck` | src/context/SoundContext.tsx:41-44 | only a stopped session has 0 seconds left, so the effect's second branch cannot fire |
| `SoundSession.Session.MinimizeSession` | src/context/SoundContext.tsx:66 | only `isMinimized` changes, to true |
| `SoundSession.Session.MaximizeSession` | src/context/SoundContext.tsx:67 | only `isMinimized` changes, to false |
| `BinauralPlayer.Clock` | src/components/ui/GlobalBinauralPlayer.tsx:12 | the clock is exactly the unpadded decimal of the minutes, a colon and two digits of seconds below 60; it reads back as 60·m + s |
| `BinauralPlayer.FormatTime` | src/components/ui/GlobalBinauralPlayer.tsx:9-13 | `formatTime(s)` reads back as s; its minute field is exactly the unpadded decimal of s div 60, and its seconds field two digits below 60 |
| `BinauralPlayer.SplitSeconds` | src/components/ui/GlobalBinauralPlayer.tsx:10-11 | whole minutes and remaining seconds make up the time |
| `BinauralPlayer.FormatFreshSession` | src/components/ui/GlobalBinauralPlayer.tsx:9-13 | a fresh session shows "3:00" |
| `BinauralPlayer.FormatLastSeconds` | src/components/ui/GlobalBinauralPlayer.tsx:9-13 | five seconds before the end shows "0:05" |
| `BinauralPlayer.ViewOf` | src/components/ui/GlobalBinauralPlayer.tsx:7-40 | hidden exactly when inactive; the floating widget exactly when active and minimised; the modal otherwise |
| `BinauralPlayer.PressWidget` | src/components/ui/GlobalBinauralPlayer.tsx:19-20 | the widget's button brings back the modal, and only the minimised flag can change |
| `BinauralPlayer.PressMinimize` | src/components/ui/GlobalBinauralPlayer.tsx:46-47 | the modal's minimise button shrinks it to the widget, and only the minimised flag can change |
| `BinauralPlayer.PressStop` | src/components/ui/GlobalBinauralPlayer.tsx:53-54 | the modal's close button stops the session with the 0.1-second default fade: the player disappears, back at 180 seconds and not minimised, with no award; elsewhere nothing changes |
| `VoiceInput.TwoDigitField` | src/components/ui/AIVoiceInput.tsx:73 | a padded field is at least two digits, exactly two below 100, and reads back as the number |
| `VoiceInput.PaddedClock` | src/components/ui/AIVoiceInput.tsx:73 | both fields are padded to two digits around a colon, and the clock reads back as 60·m + s |
| `VoiceInput.SplitSeconds` | src/components/ui/AIVoiceInput.tsx:71-72 | whole minutes and remaining seconds make up the time |
| `VoiceInput.FormatClock` | src/components/ui/AIVoiceInput.tsx:70-74 | `formatTime(s)` reads back as s, with seconds below 60 |
| `VoiceInput.FormatClockWidth` | src/components/ui/AIVoiceInput.tsx:70-74 | below 100 minutes the clock has 5 characters |
| `VoiceInput.FormatClockStart` | src/components/ui/AIVoiceInput.tsx:70-74 | a new recording shows "00:00" |
| `VoiceInput.FormatClockMinute` | src/components/ui/AIVoiceInput.tsx:70-74 | 65 seconds show "01:05" |
| `VoiceInput.Recorder.constructor` | src/components/ui/AIVoiceInput.tsx:24-27 | not recording, at 0 seconds, in demo mode as given, with the first demo take scheduled in demo mode |
| `VoiceInput.Recorder.RecordingEffect` | src/components/ui/AIVoiceInput.tsx:33-49 | while recording it calls `onStart`; otherwise a positive count is reported to `onStop` once and reset to 0 |
| `VoiceInput.Recorder.HandleClick` | src/components/ui/AIVoiceInput.tsx:76-83 | in demo mode the click leaves the demo and stops; otherwise it toggles the recording; a recording that ends reports its length |
| `VoiceInput.Recorder.Tick` | src/components/ui/AIVoiceInput.tsx:36-40 | while recording the counter goes up by one and the effect calls `onStart` again |
| `VoiceInput.Recorder.DemoStep` | src/components/ui/AIVoiceInput.tsx:51-68 | the demo alternates between starting a take and ending it |
| `DreamStack.SwipeMove` | src/components/journal/DreamStack.tsx:43-53 | past 50 to the left, or with a swipe power below -1000, the move is to the next dream; failing that, past 50 to the right or above 1000, to the previous one |
| `DreamStack.SwipeThresholds` | src/components/journal/DreamStack.tsx:47-53 | a still drag within 50 stays; past 50 to the left always moves on |
| `DreamStack.SwipeMirror` | src/components/journal/DreamStack.tsx:47-53 | a gesture and its mirror image move in opposite directions |
| `DreamStack.ModStep` | src/components/journal/DreamStack.tsx:49-52 | one step round n places, either way, wraps at the ends |
| `DreamStack.Moved` | src/components/journal/DreamStack.tsx:49-52 | the next index is (i+1) mod n and the previous is (i−1+n) mod n; the index stays in [0, n) |
| `DreamStack.MoveBack` | src/components/journal/DreamStack.tsx:49-52 | a move followed by the opposite move returns to the same dream |
| `DreamStack.Reverse` | src/components/journal/DreamStack.tsx:63 | entry k of the reversal is entry n−1−k of the list |
| `DreamStack.ReverseMultiset` | src/components/journal/DreamStack.tsx:63 | reversing keeps every element, as often as before |
| `DreamStack.StackOrder` | src/components/journal/DreamStack.tsx:57-64 | definition without a contract of its own: the pushed list reversed; `StackOrderEntries` and `StackOrderPermutation` state its entries and that it is a permutation |
| `DreamStack.StackOrderEntries` | src/components/journal/DreamStack.tsx:57-64 | `getStackOrder` has n entries; entry k is the dream n−1−k places after the active one, at stack position n−1−k; the last entry is the active dream, at position 0 |
| `DreamStack.Pushed` | src/components/journal/DreamStack.tsx:58-62 | the push loop's list has one card per dream; `PushedIsRotation` states that it is the dreams rotated to the active one |
| `DreamStack.PushedIsRotation` | src/components/journal/DreamStack.tsx:59-62 | before the reversal the list is the dreams rotated to start at the active one |
| `DreamStack.DreamsOfReverse` | src/components/journal/DreamStack.tsx:63 | reversing the cards reverses their dreams |
| `DreamStack.StackOrderPermutation` | src/components/journal/DreamStack.tsx:57-64 | the stack order is a permutation of the dreams |
| `DreamStack.RotationMultiset` | src/components/journal/DreamStack.tsx:59-62 | a rotation keeps every element, as often as before |
| `DreamStack.Indexed` | src/components/journal/DreamStack.tsx:98 | off the stack, the dreams keep their order, each at the position of its index |
| `DreamStack.LayoutStyle` | src/components/journal/DreamStack.tsx:66-88 | definition without a contract of its own: the style of each layout; `StackDepth` and `FlatLayouts` state its ordering and flat cases |
| `DreamStack.StackDepth` | src/components/journal/DreamStack.tsx:66-74 | in the stack a card further back is drawn under, lower and further right than every card in front of it; the top card has zIndex n and rotate −2 |
| `DreamStack.FlatLayouts` | src/components/journal/DreamStack.tsx:75-88 | grid and list cards all have top and left 0, zIndex 1 and rotate 0 |
| `DreamStack.Deck.constructor` | src/components/journal/DreamStack.tsx:28-37 | the default layout, nothing expanded, the first dream active, not dragging |
| `DreamStack.Deck.GetStackOrder` | src/components/journal/DreamStack.tsx:57-64 | the push loop followed by the reversal gives the stack order |
| `DreamStack.Deck.Display` | src/components/journal/DreamStack.tsx:98 | definition without a contract of its own: the stack order in the stack layout, the indexed dreams otherwise; `Deck.DisplayDreams` computes it |
| `DreamStack.Deck.Renders` | src/components/journal/DreamStack.tsx:39-41 | definition without a contract of its own: the deck renders only with at least one dream |
| `DreamStack.Deck.DisplayDreams` | src/components/journal/DreamStack.tsx:98 | the stack layout shows the stack order; the others show the dreams in order |
| `DreamStack.Deck.SetLayout` | src/components/journal/DreamStack.tsx:108-109 | a layout button sets the layout |
| `DreamStack.Deck.DragStart` | src/components/journal/DreamStack.tsx:150-153 | only the top card of the stack can start a drag |
| `DreamStack.Deck.DragEnd` | src/components/journal/DreamStack.tsx:43-55 | the swipe decides the move, the index stays among the dreams, and the drag ends |
| `DreamStack.Deck.DotClick` | src/components/journal/DreamStack.tsx:215-220 | with two or more dreams in the stack layout, dot i makes dream i active |
| `DreamStack.Deck.ClickCard` | src/components/journal/DreamStack.tsx:156-160 | a click during a drag is ignored; otherwise it toggles the card's expansion and reports the card |
| `DreamStack.TopCardIsActive` | src/components/journal/DreamStack.tsx:131 | in the stack exactly one card is the top card, and it is the active dream; off the stack no card is |
| `JourneyMap.Nodes` | src/components/gamification/JourneyMap.tsx:19-41 | one node per task, in order, at y = 100·i + 50, completed exactly when its task's id is among the completed ids |
| `JourneyMap.LockRule` | src/components/gamification/JourneyMap.tsx:38 | node i > 0 is locked exactly when neither it nor the node before it is completed; node 0, completed nodes and nodes after a completed one are never locked |
| `JourneyMap.LockExtremes` | src/components/gamification/JourneyMap.tsx:36-38 | with nothing completed every node but the first is locked; with everything completed none is |
| `JourneyMap.TotalHeight` | src/components/gamification/JourneyMap.tsx:43 | the map is at least 100 high |
| `JourneyMap.NodesInside` | src/components/gamification/JourneyMap.tsx:21-43 | every node lies strictly inside the map's height (100·n + 100), the last 150 above the bottom, neighbours 100 apart |
| `JourneyMap.Path` | src/components/gamification/JourneyMap.tsx:48-65 | one segment per node: a move to the first, then a curve from each node to the next |
| `JourneyMap.PathData` | src/components/gamification/JourneyMap.tsx:48-65 | the loop builds exactly that path |
| `JourneyMap.PathShape` | src/components/gamification/JourneyMap.tsx:49-63 | the path is empty exactly when there are no nodes; otherwise one move is followed only by curves, the k-th from node k−1 to node k, ending at the last node |
| `JourneyMap.CurvesOfNodes` | src/components/gamification/JourneyMap.tsx:57-61 | every control height lies halfway between its two nodes, 50 below the first |
| `JourneyMap.Click` | src/components/gamification/JourneyMap.tsx:114 | a click selects the node's task exactly when the node is not locked |
| `JourneyMap.Disabled` | src/components/gamification/JourneyMap.tsx:115 | definition without a contract of its own: locked and not done; `DisabledIsLocked` states that on the map's nodes it is exactly locked |
| `JourneyMap.DisabledIsLocked` | src/components/gamification/JourneyMap.tsx:114-115 | a node's button is disabled exactly when it is locked, which is exactly when its click selects nothing |
| `JourneyMap.BadgeOf` | src/components/gamification/JourneyMap.tsx:124-130 | a check mark exactly when completed; a padlock exactly when locked and not completed; its task's icon otherwise |
| `JourneyMap.StartIndicator` | src/components/gamification/JourneyMap.tsx:142 | definition without a contract of its own: open, not done, and as far along as there are completed ids; `AtMostOneIndicator` and `IndicatorFollowsProgress` state where it shows |
| `JourneyMap.AtMostOneIndicator` | src/components/gamification/JourneyMap.tsx:142 | the "COMEÇAR" marker is on at most one node |
| `JourneyMap.IdsOf` | src/components/gamification/JourneyMap.tsx:36 | every task's id, in order |
| `JourneyMap.InFirstIds` | src/components/gamification/JourneyMap.tsx:36 | with distinct ids, a task's id is among the first k ids exactly when it is one of the first k tasks |
| `JourneyMap.IndicatorFollowsProgress` | src/components/gamification/JourneyMap.tsx:142 | when tasks were completed in trail order, the marker is on exactly the first task not completed |
| `Onboarding.StepsShape` | src/pages/Onboarding.tsx:11-68 | six screens; only the last asks for the name; the two choice screens offer 4 and 3 options; only choice screens have options |
| `Onboarding.FinalName` | src/pages/Onboarding.tsx:103 | the name passed on is the typed one, or 'Sonhador' when it is empty |
| `Onboarding.ProgressPercent` | src/pages/Onboarding.tsx:122 | the progress bar is above 0 and at most 100 percent, reaching 100 exactly on the last screen |
| `Onboarding.FinishCalls` | src/pages/Onboarding.tsx:101-111 | `finish` first calls `completeOnboarding`; it writes the remote status exactly when a user is signed in; it then navigates home |
| `Onboarding.RemoteWriteOrder` | src/pages/Onboarding.tsx:101-108 | the remote write comes after the store is told, only for a signed-in user, and always with true |
| `Onboarding.Flow.constructor` | src/pages/Onboarding.tsx:71-73 | the first screen, moving forward, with no name |
| `Onboarding.Flow.RedirectEffect` | src/pages/Onboarding.tsx:82-86 | an onboarded user is sent home, replacing the page; otherwise nothing happens |
| `Onboarding.Flow.SetName` | src/pages/Onboarding.tsx:299 | typing sets the name |
| `Onboarding.Flow.Finish` | src/pages/Onboarding.tsx:101-111 | the store saves and sets the onboarding flag and keeps its journal, stats and remote log; the calls of `FinishCalls` are made in order; the screen is unchanged |
| `Onboarding.Flow.HandleNext` | src/pages/Onboarding.tsx:88-95 | before the last screen it moves one screen on, forward, and touches neither the calls nor the store; on the last it finishes, with the whole store effect of `finish`; the screen stays in [0, 5] |
| `Onboarding.Flow.HandleChoice` | src/pages/Onboarding.tsx:97-99 | the option is ignored, and the flow behaves exactly as `handleNext` |
| `Onboarding.Flow.PressContinue` | src/pages/Onboarding.tsx:313-317 | on an info or install screen the button always moves on, never finishing; elsewhere there is no button |
| `Onboarding.Flow.PressOption` | src/pages/Onboarding.tsx:181-184 | an option of a choice screen always moves on |
| `Onboarding.Flow.KeyDown` | src/pages/Onboarding.tsx:301 | Enter finishes, with the whole store effect of `finish`, only on the name screen with a non-empty name, so the name passed on is the typed one; otherwise nothing changes |
| `Onboarding.Flow.PressFinish` | src/pages/Onboarding.tsx:325-330 | the final button finishes, with the whole store effect of `finish`, only with a non-empty name; otherwise nothing changes |
| `AddDream.FinalTitle` | src/pages/AddDream.tsx:22 | an empty title becomes 'Sonho sem título'; any other title is kept |
| `AddDream.TrimEach` | src/pages/AddDream.tsx:26 | each piece is trimmed, in place |
| `AddDream.KeepNonEmpty` | src/pages/AddDream.tsx:26 | the filtered pieces are all non-empty and all come from the input |
| `AddDream.KeepNonEmptyAppend` | src/pages/AddDream.tsx:26 | the filter keeps the order |
| `AddDream.KeepNonEmptyKeeps` | src/pages/AddDream.tsx:26 | a string survives the filter exactly when it was there and is not empty |
| `AddDream.ParseTags` | src/pages/AddDream.tsx:26 | definition without a contract of its own: split on commas, each piece trimmed, the empty ones dropped; `TagsWellFormed` and `TagsInOrder` state what it gives |
| `AddDream.TagsWellFormed` | src/pages/AddDream.tsx:26 | every tag is non-empty, has no comma, and does not start or end with whitespace |
| `AddDream.TrimEachAppend` | src/pages/AddDream.tsx:26 | trimming goes piece by piece |
| `AddDream.TagsInOrder` | src/pages/AddDream.tsx:26 | the tags before a comma come before the tags after it |
| `AddDream.OneTag` | src/pages/AddDream.tsx:26 | text without a comma gives its trimmed self as the only tag, or no tag when it is blank |
| `AddDream.NoSeparatorSplit` | src/pages/AddDream.tsx:26 | text without a comma splits into itself |
| `AddDream.NoTags` | src/pages/AddDream.tsx:15 | the empty tag field gives no tags |
| `AddDream.Form.constructor` | src/pages/AddDream.tsx:11-15 | empty title, description and tags; clarity 3; not lucid |
| `AddDream.Form.SetTitle` | src/pages/AddDream.tsx:56 | typing sets the title |
| `AddDream.Form.SetDescription` | src/pages/AddDream.tsx:66 | typing sets the description |
| `AddDream.Form.SetTags` | src/pages/AddDream.tsx:109 | typing sets the tag text |
| `AddDream.Form.SetClarity` | src/pages/AddDream.tsx:75-81 | the slider sets a whole clarity from 1 to 5 |
| `AddDream.Form.SetLucid` | src/pages/AddDream.tsx:14 | the switch sets the lucid flag |
| `AddDream.Form.Input` | src/pages/AddDream.tsx:21-27 | `addDream` gets the final title, the description, the clarity, the lucid flag and the parsed tags |
| `AddDream.Form.HandleSubmit` | src/pages/AddDream.tsx:17-30 | without a description nothing happens; otherwise exactly one dream is added at the front, worth 12 to 40 XP, the stats record the action and the award, the store mirrors the new journal and stats, the onboarding flag and the remote log stay, and the page goes home |
| `Text.Split` | src/pages/AddDream.tsx:26 | `split` gives at least one piece, and no piece contains the separator |
| `Text.Join` | src/components/mission/VoicePracticeChallenge.tsx:76-77 | definition without a contract of its own: the pieces with the separator between them, the inverse that `JoinSplit` proves for `split` |
| `Text.JoinSplit` | src/components/mission/VoicePracticeChallenge.tsx:76-77 | joining the pieces of a split gives back the original text |
| `Text.SplitAppend` | src/pages/AddDream.tsx:26 | splitting text around a separator splits each side on its own |
| `Text.Leading` | src/components/mission/VoicePracticeChallenge.tsx:73 | from a starting index, the index of the first character that is not whitespace (or the end); everything skipped is whitespace |
| `Text.Trailing` | src/components/mission/VoicePracticeChallenge.tsx:73 | going back from an end index, never below a lower bound, the end of the text once trailing whitespace is dropped; everything dropped is whitespace |
| `Text.Trim` | src/pages/AddDream.tsx:26 | definition without a contract of its own: the text with leading and then trailing whitespace cut; `TrimSpec` and `TrimSubset` state what it leaves |
| `Text.TrimSpec` | src/pages/AddDream.tsx:26 | `trim` leaves a contiguous piece of the text that does not start or end with whitespace, and it cuts off only whitespace |
| `Text.TrimSubset` | src/pages/AddDream.tsx:26 | trimming adds no character |
| `Text.Includes` | src/components/mission/VoicePracticeChallenge.tsx:89 | `includes` holds exactly when the second text occurs in the first |
| `Text.IncludesSelf` | src/components/mission/VoicePracticeChallenge.tsx:89 | every text includes itself and the empty text |
| `Text.DigitChar` | src/components/ui/GlobalBinauralPlayer.tsx:12 | a digit is written as a digit character |
| `Text.DigitValue` | src/components/ui/GlobalBinauralPlayer.tsx:12 | a digit character's value is below 10 |
| `Text.Decimal` | src/components/ui/GlobalBinauralPlayer.tsx:12 | `toString` writes at least one digit, with no leading zero except for 0 |
| `Text.DigitRoundTrip` | src/components/ui/GlobalBinauralPlayer.tsx:12 | a digit reads back as itself |
| `Text.DecimalRoundTrip` | src/components/ui/GlobalBinauralPlayer.tsx:12 | a number written in decimal reads back as itself |
| `Text.DecimalLength` | src/components/ui/AIVoiceInput.tsx:73 | numbers below 10 have one digit, those below 100 at most two |
| `Text.PadStart` | src/components/ui/GlobalBinauralPlayer.tsx:12 | `padStart` puts fill characters in front until the width is reached, and leaves longer text alone |
| `Text.ParseLeadingZero` | src/components/ui/AIVoiceInput.tsx:73 | a leading zero does not change the value |
| `Text.ParseZeroPadded` | src/components/ui/AIVoiceInput.tsx:73 | zero-padding keeps the text digits and keeps its value |
| `Text.TwoDigits` | src/components/ui/GlobalBinauralPlayer.tsx:12 | seconds below 100, padded, are two digits of the same value |
| `Text.TwoCharacters` | src/components/ui/GlobalBinauralPlayer.tsx:12 | a two-digit field reads as ten times its first digit plus its second |
| `Text.ClockFields` | src/components/ui/GlobalBinauralPlayer.tsx:12 | minutes, a colon and two digits of seconds read back as 60·m + s |

## Left out

- Floating point is not modelled: the journey map's sine-based x positions (`JourneyMap.tsx:26-34`) and the path's percentages. A path segment names the nodes it joins instead of their x coordinates.
- The swipe's offset and velocity, measured by the gesture library, are `real` parameters. The model has no pixel rounding and no spring animation.
- Randomness and clocks are parameters:
  - the home page's random `sort` shuffle is any permutation of the catalog;
  - `crypto.randomUUID()`, `new Date().toISOString()`, `toDateString()` and `Date.now()` are arguments;
  - `today` and `yesterday` are assumed to be different calendar-day strings.
- Real timers are not modelled. `setTimeout`/`setInterval` become pending events that the environment fires in any order it chooses. Delays are kept only as scheduled times.
- These React semantics are not modelled: batching of setters, effect scheduling, StrictMode's double call of updaters, and re-renders. Each handler or effect is one atomic method.
- JSON serialisation is not modelled. The local store keeps the values the JSON text encodes, and a stored value of the wrong shape counts as absent.
- Unicode NFD decomposition and the unseen `isSimilar` of `src/lib/stringUtils` are uninterpreted parameters; `src/lib/stringUtils` is not part of this model.
- `toLowerCase` is modelled on ASCII and Latin-1 capitals only. Other scripts' case mappings are not modelled.
- The remote services are recorded calls and abstract replies, not the network: `dreamService`, `authService`, and the remote fetch of `syncDreams`. The asynchronous `await`s are atomic; in particular the redirect effect cannot interleave with `finish`'s awaited remote write.
- Some callbacks are called but never provided. `completeMission`, `toggleTask` and the sound session's `awardXP` are recorded with their arguments. The source calls them although the store does not define them (the store's context value, `src/context/AppContext.tsx:150`, holds none of them). In the source such a call throws a `TypeError`; the model instead lets it return having done nothing else, and goes on with the rest of the handler. `updateBedtime` and `lucidProbability` belong to the profile page, which is presentation and not part of this model.
- `VoicePractice.Challenge.Fire`: the sound service's ping and success sounds are not modelled.
- `SoundSession.Session.StartSession`, `SoundSession.Session.StopSession`: the sound service defines no `setMute` (`src/services/soundService.ts`), so the calls at `SoundContext.tsx:53` and `:63` throw a `TypeError` once the handler's setters have been queued. The model records each attempted call and keeps the queued state; it does not model the thrown error or how it reaches the caller.
- SoundSession.Session.Tick: it lets `awardXP` and `setMute` return instead of throwing (see above). Otherwise the final updater would throw, and React would abandon the update. It also takes the updater to run eagerly, when the interval fires: `stopSession`'s setters are then queued before the updater's own result, so the session ends inactive at 0 seconds rather than at 180.
- The stats record has no `dailyActions` and no `bedtime`: the store never sets them.
- The catalog's icons and the colour classes, stars and animations of every component are presentation and not modelled.
- DreamStack.Deck: the dream list is a constant of the deck. In the source it is a live prop (`src/pages/Journal.tsx:34` passes the store's `dreams`), so a deletion can leave `activeIndex` at or past the new length until the next swipe; the model does not capture a list that changes under the deck.
- The dream stack's `onDreamClick` receives the card (the dream plus its stack position), as the source passes it.
- The journey map's `onTaskSelect` receives the node's task: the source passes the node, which spreads the same fields.
- The mission overlay's progress bar percentage, and the record button's visualizer bars and `isClient` flag, are presentation.
- Dashboard.Page.constructor: the page takes its catalog as a parameter; the app builds it over `LUCIDITY_TASKS`, for which `Dashboard.CatalogDailyMission` holds.
- The new-dream form's submit: the form's `onSubmit` and the Save button's click both run `handleSubmit`, which is `AddDream.Form.HandleSubmit`. The button's `disabled` state does not change what a submission does.
- AddDream.Form.SetClarity: the slider's `Number()` conversion is not modelled; it takes only whole values from 1 to 5, which the range input's bounds and step give.
- AddDream.TagsWellFormed: it does not state where each tag occurs in the typed text, only its shape. `AddDream.TagsInOrder` states the order.
- The profile page, login page, learn page, journal list page, star field, sliders and layout components are presentation and not modelled.
