# VoiceBloom client core, modelled in Dafny

VoiceBloom is a web client for voice journaling. A user records a spoken answer to a daily prompt. They rate it, add a private note, and may share it with the community for feedback. The profile page is meant to show their progress with an activity heat map and a chart. As written it never does: it does not pass the two components their `recordings` (see Findings).

This project models the logic of that client that does not depend on the backend. Each module follows one source file:

- `Store` (store.dfy): the client store, as a class with one method per action. Its invariant: the daily prompt is a mock prompt, toast ids are unique, and every live toast has its expiry timer pending.
- `ActivityCalendar` (activity_calendar.dfy): the 31-day heat map. This covers the window, the per-day counts, the blank cells before the first day, the largest count, the month labels and the shade of each cell.
- `ProgressChart` (progress_chart.dfy): the filter, project and sort pipeline behind the progress chart, and its empty state.
- `ProfilePage` (profile_page.dfy): the profile statistics, the achievement badges, and whether the embedded heat map and chart render.
- `CommunityPage` (community_page.dfy): the shared recordings, the name on each card, the expanded card and the feedback submission handler.
- `VoiceRecorder` (voice_recorder.dfy): the timer label with its parser, the prompt chosen for a saved recording, and the recorder session as a class.
- `PrivateNoteForm` (private_note_form.dfy): the note form's defaults, change detection, score sliders and ordered save guards.
- `ChangeEmail` (change_email.dfy): the e-mail validity test, proved equal to the regular expression's language, and the panel's state.
- `ChangePassword` (change_password.dfy): the ordered password guards and the panel's state.
- `Js` (js.dfy): the JavaScript semantics these files rely on. This covers `||` on strings, `trim` with the ECMAScript white-space set (sections 12.2 and 12.3 of ECMA-262), `split(sep)[0]`, number-to-string, `padStart` and `filter`.

## How the model is built

- Values are datatypes.
- The store and each component's state are classes whose methods say the whole new state.
- Backend calls become parameters. An operation takes the outcome of each call (an error or the data) as an argument.
- Toasts raised through the store's `addToast` become results, in the order they are raised.
- The save handlers of the note form and the two settings panels are split in two at their `await`. `BeginSave` returns what would be sent to the backend, and `FinishSave` takes the answer. The community page's handlers are single methods (see Left out).
- The heat map and chart components are modelled on the `recordings` property they declare. `ProfilePage.RenderPage` states what happens when the page does not pass it.
- Fresh ids from `crypto.randomUUID()` and the value of `Math.random()` are arguments.
- A toast's five-second expiry is the method `Store.Store.Expire`.
- Calendar days are integers, and the host's local calendar formatting is a function parameter (`dayOf`, `monthOf`).

## Model

| member | source | states |
|---|---|---|
| Store.RandomPrompt | src/store/store.ts:117-118 | a draw in [0, 1) always picks one of the mock prompts |
| Store.PickReachable | src/store/store.ts:117-118 | for any list of n entries the draw k/n lies in [0, 1) and selects entry k |
| Store.EveryPromptReachable | src/store/store.ts:103-118 | the draw k/10 picks prompt k, so every prompt can be chosen |
| Store.Merge | src/store/store.ts:186 | `{ ...r, ...patch }`: each property present in the patch overrides the recording's (its laws are `Store.MergeLaws`) |
| Store.MergeLaws | src/store/store.ts:186 | merging the empty patch is the identity and merging a patch twice is merging it once; an absent `id` keeps the old id and a present `title` overrides the old one |
| Store.Patched | src/store/store.ts:183-189 | the list keeps its length; entries with another id are unchanged and entries with the id become the merge |
| Store.PatchedAbsent | src/store/store.ts:183-189 | patching an id no entry has leaves the list unchanged |
| Store.WithoutId | src/store/store.ts:191-197 | `filter(x => x.id !== id)` over recordings and toasts (characterised by `Store.WithoutIdSpec`) |
| Store.WithoutIdSpec | src/store/store.ts:191-197 | removal drops exactly the entries with the id, keeps every other entry as often as it occurred, and distributes over concatenation (order kept) |
| Store.WithoutIdAbsent | src/store/store.ts:221-225 | removing an absent id is a no-op, and removing twice is removing once |
| Store.WithoutIdUnique | src/store/store.ts:214-224 | removal keeps toast ids unique |
| Store.Store.constructor | src/store/store.ts:122-136 | the initial state: signed out, empty lists, a random daily prompt, no blob, no pending expiries; the invariant holds |
| Store.Store.AuthenticateUser | src/store/store.ts:139-146 | signed in with the given user and token; every other field unchanged |
| Store.Store.Login | src/store/store.ts:148-161 | signed in as mock user "1", whose username is the e-mail before its first `@` (a prefix with no `@`); nothing else changes |
| Store.Store.Logout | src/store/store.ts:163-165 | signed out with no user; token, recordings, toasts and the rest unchanged |
| Store.Store.AddRecording | src/store/store.ts:167-181 | one recording appended at the end with the new id, the prompt redrawn, one `{date, count: 1}` activity entry appended; the rest unchanged |
| Store.Store.UpdateRecording | src/store/store.ts:183-189 | only `recordings` changes, to the patched list; an absent id changes nothing |
| Store.Store.DeleteRecording | src/store/store.ts:191-197 | only `recordings` changes: the entries with the id are removed |
| Store.Store.SetIsRecording | src/store/store.ts:199-201 | only the recording flag changes |
| Store.Store.SetCurrentAudioBlob | src/store/store.ts:203-205 | only the current blob changes |
| Store.Store.AddToast | src/store/store.ts:207-219 | the toast is appended with its new id after the existing ones, and its expiry is pending; the invariant holds |
| Store.Store.Expire | src/store/store.ts:214-218 | the timer fires: the toast with that id is gone and its expiry is no longer pending |
| Store.Store.RemoveToast | src/store/store.ts:221-225 | only `toasts` changes: no toast with the id remains |
| Store.ToastLifecycle | src/store/store.ts:207-225 | a toast disappears once its timer fires, and dismissing it first makes the expiry a no-op |
| ActivityCalendar.DaysFrom | src/components/progress/ActivityCalendar.tsx:14-17 | the interval has n days, the i-th being start + i |
| ActivityCalendar.Window | src/components/progress/ActivityCalendar.tsx:11-17 | `daysArray`, the 31 days ending today (shape proved by `ActivityCalendar.WindowShape`) |
| ActivityCalendar.WindowShape | src/components/progress/ActivityCalendar.tsx:11-17 | the window has 31 days, strictly ascending, from today - 30 to today, and holds exactly the days of that range |
| ActivityCalendar.CountOn | src/components/progress/ActivityCalendar.tsx:21-25 | a day's count never exceeds the number of recordings |
| ActivityCalendar.Tally | src/components/progress/ActivityCalendar.tsx:19-31 | one entry per day, in the window's order, holding that day and its count (zero-count days included) |
| ActivityCalendar.ActivityData | src/components/progress/ActivityCalendar.tsx:19-31 | `activityData`, one entry per window day (entries stated by `ActivityCalendar.ActivityDataEntries`, total by `ActivityCalendar.ActivityTotal`) |
| ActivityCalendar.ActivityDataEntries | src/components/progress/ActivityCalendar.tsx:19-31 | entry i is day today - 30 + i with the number of recordings whose date is on that day |
| ActivityCalendar.CountIn | src/components/progress/ActivityCalendar.tsx:21-25 | the recordings dated inside the window never outnumber the recordings |
| ActivityCalendar.SumTally | src/components/progress/ActivityCalendar.tsx:19-31 | over distinct days, the counts add up to the number of recordings dated on one of them |
| ActivityCalendar.ActivityTotal | src/components/progress/ActivityCalendar.tsx:19-31 | the counts add up to the recordings with a string date inside the window, so at most the number of recordings |
| ActivityCalendar.Weekday | src/components/progress/ActivityCalendar.tsx:33 | `getDay()` lies in 0..6 |
| ActivityCalendar.StartDay | src/components/progress/ActivityCalendar.tsx:33 | the blank count lies in 0..6, Monday gives 0 and Sunday 6 |
| ActivityCalendar.FirstCellIsMonday | src/components/progress/ActivityCalendar.tsx:33 | going back by the blank count reaches a Monday |
| ActivityCalendar.StartDayAligns | src/components/progress/ActivityCalendar.tsx:77-110 | after the blanks, day i of the window lands in the Monday-first column of its own weekday |
| ActivityCalendar.MaxCount | src/components/progress/ActivityCalendar.tsx:35 | the maximum is at least 4, at least every count, and is either 4 or one of the counts |
| ActivityCalendar.QuarterBounds | src/components/progress/ActivityCalendar.tsx:42 | the integer ceiling q of 4 * count / maxCount brackets 4 * count between (q - 1) * maxCount and q * maxCount, and is at least 1 for a non-zero count |
| ActivityCalendar.CeilIsIntegerCeiling | src/components/progress/ActivityCalendar.tsx:42 | `Math.ceil(count / maxCount * 4)` in exact arithmetic equals the integer ceiling (4 * count + maxCount - 1) / maxCount |
| ActivityCalendar.Level | src/components/progress/ActivityCalendar.tsx:42 | `Math.min(Math.ceil(count / maxCount * 4), 4)` in exact arithmetic (equal to the clipped integer ceiling by `ActivityCalendar.LevelIsQuarter`) |
| ActivityCalendar.LevelIsQuarter | src/components/progress/ActivityCalendar.tsx:42 | the intensity level is that integer ceiling clipped at 4 |
| ActivityCalendar.ColorIntensity | src/components/progress/ActivityCalendar.tsx:39-56 | `getColorIntensity`, the switch from level to shade (stated by `ActivityCalendar.IntensityLevels`) |
| ActivityCalendar.IntensityLevels | src/components/progress/ActivityCalendar.tsx:39-56 | gray exactly when the count is 0; otherwise a rank k in 1..4 with (k - 1) * maxCount < 4 * count, and 4 * count <= k * maxCount unless clipped |
| ActivityCalendar.AtMaximumDarkest | src/components/progress/ActivityCalendar.tsx:39-56 | a count equal to the maximum gets the darkest shade |
| ActivityCalendar.IntensityMonotone | src/components/progress/ActivityCalendar.tsx:39-56 | a larger count never gets a lighter shade |
| ActivityCalendar.Dedup | src/components/progress/ActivityCalendar.tsx:37 | `Array.from(new Set(xs))` holds exactly the elements of xs, each once |
| ActivityCalendar.DedupOrder | src/components/progress/ActivityCalendar.tsx:37 | the distinct elements come out in order of first appearance |
| ActivityCalendar.Months | src/components/progress/ActivityCalendar.tsx:37 | `months`, the distinct month labels of the window (stated by `ActivityCalendar.MonthsCover`) |
| ActivityCalendar.MonthsCover | src/components/progress/ActivityCalendar.tsx:37 | every window day's month is listed, only window days' months are listed, and none twice |
| ActivityCalendar.Render | src/components/progress/ActivityCalendar.tsx:77-110 | the grid has 31 cells with one shade each, after fewer than 7 blanks |
| ActivityCalendar.RenderShades | src/components/progress/ActivityCalendar.tsx:94-107 | a rendered cell is gray exactly when its day has no recordings, and the busiest day is darkest |
| ProgressChart.LexLeTotal | src/components/progress/ProgressChart.tsx:28 | the date order (code-point `localeCompare`) is total |
| ProgressChart.LexLeAntisymmetric | src/components/progress/ProgressChart.tsx:28 | two dates each not after the other are equal |
| ProgressChart.LexLeTransitive | src/components/progress/ProgressChart.tsx:28 | the date order is transitive |
| ProgressChart.PointOf | src/components/progress/ProgressChart.tsx:22-27 | a point's date is the prefix of the recording's date before its first `T`, so holds no `T`; the three scores are the recording's |
| ProgressChart.Projected | src/components/progress/ProgressChart.tsx:22-27 | the `.map` succeeds exactly when every rated recording has a string date, and then maps each recording to its point, in order |
| ProgressChart.InsertPermutes | src/components/progress/ProgressChart.tsx:28 | insertion adds the point and loses none |
| ProgressChart.SortByDate | src/components/progress/ProgressChart.tsx:28 | the stable sort by date, as insertion (permutation, order and stability by `ProgressChart.SortPermutes`, `ProgressChart.SortSorted`, `ProgressChart.SortStable`) |
| ProgressChart.SortPermutes | src/components/progress/ProgressChart.tsx:20-28 | the sort's output is a permutation of its input |
| ProgressChart.InsertSorted | src/components/progress/ProgressChart.tsx:28 | inserting into a sorted list keeps it sorted |
| ProgressChart.SortSorted | src/components/progress/ProgressChart.tsx:28 | the sort's output is in ascending date order |
| ProgressChart.InsertStable | src/components/progress/ProgressChart.tsx:28 | the inserted point goes after every point of its date |
| ProgressChart.SortStable | src/components/progress/ProgressChart.tsx:28 | points of one date keep their input order (`Array.prototype.sort` is stable) |
| ProgressChart.ProgressData | src/components/progress/ProgressChart.tsx:20-28 | `progressData`, or nothing when the `.map` throws (stated by `ProgressChart.ProgressDataSpec`) |
| ProgressChart.ProgressDataSpec | src/components/progress/ProgressChart.tsx:20-28 | the chart data exists exactly when every rated recording has a date; it then has one point per rated recording, is a sorted, stable permutation of their points, and no date holds a `T` |
| ProgressChart.PointsComeFromRecordings | src/components/progress/ProgressChart.tsx:20-27 | every point carries the date prefix and scores of a rated recording, and every rated recording's point is present |
| ProgressChart.View | src/components/progress/ProgressChart.tsx:63-69 | what the chart area shows: a throw, "No progress yet" or the lines (stated by `ProgressChart.NoProgressIffUnrated`) |
| ProgressChart.NoProgressIffUnrated | src/components/progress/ProgressChart.tsx:63-69 | "No progress yet" shows exactly when no recording has metrics |
| ProfilePage.ComputeStats | src/pages/ProfilePage.tsx:11-18 | there are no statistics (nothing rendered) exactly when there is no user |
| ProfilePage.StatsSpec | src/pages/ProfilePage.tsx:13-18 | public + private == total; each count holds exactly the recordings of its kind; the streak is the user's `streakCount` |
| ProfilePage.PanelAsWritten | src/pages/ProfilePage.tsx:83-118 | the badges as written: "First Recording" always, "Community Contributor" iff a public recording, "Practice Makes Perfect" iff at least 5, the empty-state message iff none |
| ProfilePage.FirstBadgeWithoutRecordings | src/pages/ProfilePage.tsx:83-118 | with no recordings the panel shows the first-recording badge and the no-achievements message together |
| ProfilePage.ProfilePanel | src/pages/ProfilePage.tsx:83-118 | the corrected panel: "First Recording" iff at least one recording; the other conditions as written |
| ProfilePage.BadgesFollowRecordings | src/pages/ProfilePage.tsx:93-115 | "Community Contributor" shows exactly when some recording is public, and "Practice Makes Perfect" exactly when there are at least five |
| ProfilePage.RenderPage | src/pages/ProfilePage.tsx:71-76 | nothing exactly without a user; a missing `recordings` property always crashes the page; a shown page has both properties, a chart that did not throw, and the user's statistics |
| ProfilePage.PageAsWritten | src/pages/ProfilePage.tsx:71-76 | as written the page renders nothing without a user and crashes for every signed-in user, because neither component receives `recordings` |
| ProfilePage.ProfileView | src/pages/ProfilePage.tsx:71-76 | corrected: with the recordings passed, nothing exactly without a user, a crash exactly when the chart throws, and otherwise the heat map and chart of the store's recordings |
| ProfilePage.ProfileViewShowsProgress | src/pages/ProfilePage.tsx:71-76 | with the recordings passed, a signed-in user's page crashes exactly when a rated recording has no date; otherwise it shows the heat map of the store's recordings, whose counts sum to those dated in the window, and the chart, whose empty state shows exactly when nothing is rated |
| ProfilePage.PanelConsistent | src/pages/ProfilePage.tsx:83-118 | on real statistics the empty-state message shows exactly when no badge does, and every badge implies the first |
| CommunityPage.IsShared | src/pages/CommunityPage.tsx:99-101 | `visibility === "public" \|\| visibility === "anonymous"` (used by `CommunityPage.PublicRecordingsSpec`) |
| CommunityPage.PublicRecordings | src/pages/CommunityPage.tsx:99-101 | no private recording is shared |
| CommunityPage.PublicRecordingsSpec | src/pages/CommunityPage.tsx:99-101 | a recording is shared iff it is present and not private; each keeps its multiplicity; the order is kept (a subsequence) |
| CommunityPage.DisplayName | src/pages/CommunityPage.tsx:118-121 | the name is never empty, and is "Anonymous" for anonymous recordings |
| CommunityPage.DisplayNameSpec | src/pages/CommunityPage.tsx:118-121 | anonymous hides username and e-mail; otherwise the first non-empty of username and e-mail, else "Unknown User" |
| CommunityPage.AtMostOneExpanded | src/pages/CommunityPage.tsx:123 | with distinct card ids at most one card is expanded, and none without a selection |
| CommunityPage.UserIdOrNull | src/pages/CommunityPage.tsx:81 | `user?.id \|\| null` is the id exactly when there is a user with a non-empty id |
| CommunityPage.CommunityPage.constructor | src/pages/CommunityPage.tsx:12-15 | no recordings and no selection |
| CommunityPage.CommunityPage.SetRecordings | src/pages/CommunityPage.tsx:18-24 | the fetched recordings replace the list; the selection is unchanged |
| CommunityPage.CommunityPage.LoadFeedbacks | src/pages/CommunityPage.tsx:27-40 | on success the selection is the recording with the loaded feedback; on failure the selection stays and one error toast is raised |
| CommunityPage.CommunityPage.OpenFeedback | src/pages/CommunityPage.tsx:42-44 | on success exactly the cards with the recording's id are expanded |
| CommunityPage.CommunityPage.CloseFeedback | src/pages/CommunityPage.tsx:46-48 | no selection and no expanded card |
| CommunityPage.CommunityPage.HandleFeedbackSubmit | src/pages/CommunityPage.tsx:51-97 | guards in order (missing recording or blank comment, then auth error), each one toast and no insert; otherwise the untrimmed comment is inserted with the recording id, the type and the user id or null, one outcome toast is raised, and the feedback is reloaded either way |
| CommunityPage.BlankCommentRefused | src/pages/CommunityPage.tsx:56-62 | a white-space comment is refused before anything is inserted |
| VoiceRecorder.FormatTime | src/components/recording/VoiceRecorder.tsx:133-137 | the label always contains a `:` |
| VoiceRecorder.LabelRoundTrip | src/components/recording/VoiceRecorder.tsx:133-137 | the label is the minutes in decimal, a `:`, and the seconds zero-padded to two digits; it parses back to mins * 60 + secs |
| VoiceRecorder.FormatTimeRoundTrip | src/components/recording/VoiceRecorder.tsx:133-137 | parsing `formatTime(s)` gives s back for every natural s, with exactly two digits after the `:` |
| VoiceRecorder.InitialMode | src/components/recording/VoiceRecorder.tsx:30-32 | the mode starts as daily exactly when a prompt is given |
| VoiceRecorder.EffectivePrompt | src/components/recording/VoiceRecorder.tsx:109-113 | the trimmed custom prompt in custom mode when it is not blank, else the daily prompt |
| VoiceRecorder.EffectivePromptSpec | src/components/recording/VoiceRecorder.tsx:109-113 | a non-blank custom prompt is saved trimmed (trimming it again changes nothing); a blank one, or daily mode, saves the daily prompt |
| VoiceRecorder.Recorder.constructor | src/components/recording/VoiceRecorder.tsx:18-33 | time 0, no URL, no chunks, no recorder, no timer, an empty custom prompt, the initial mode |
| VoiceRecorder.Recorder.StartRecording | src/components/recording/VoiceRecorder.tsx:46-80 | with the microphone granted: a recorder, an empty buffer, the timer running and `isRecording` set; refused: nothing changes |
| VoiceRecorder.Recorder.OnDataAvailable | src/components/recording/VoiceRecorder.tsx:51-53 | exactly one chunk appended |
| VoiceRecorder.Recorder.OnStop | src/components/recording/VoiceRecorder.tsx:55-65 | the blob of the buffered chunks becomes the current blob, the buffer is emptied, and the URL is set |
| VoiceRecorder.Recorder.StopRecording | src/components/recording/VoiceRecorder.tsx:82-94 | acts only with a recorder while recording: the timer stops and `isRecording` is cleared; otherwise nothing changes |
| VoiceRecorder.Recorder.Tick | src/components/recording/VoiceRecorder.tsx:71-73 | the time goes up by one second while the timer runs |
| VoiceRecorder.Recorder.Reset | src/components/recording/VoiceRecorder.tsx:124-131 | time 0, no URL, no current blob; the rest unchanged |
| VoiceRecorder.Recorder.HandleSave | src/components/recording/VoiceRecorder.tsx:107-118 | without a blob nothing happens; with one the blob and the effective prompt are saved, then reset and the custom prompt cleared |
| VoiceRecorder.Recorder.SetCustomPrompt | src/components/recording/VoiceRecorder.tsx:184 | only the custom prompt changes |
| VoiceRecorder.Recorder.TogglePromptMode | src/components/recording/VoiceRecorder.tsx:150-159 | the mode flips when a prompt is given and the switch is disabled otherwise |
| VoiceRecorder.NoPromptStaysCustom | src/components/recording/VoiceRecorder.tsx:150-159 | without a prompt the mode starts custom and cannot leave it |
| VoiceRecorder.RecordTwoChunks | src/components/recording/VoiceRecorder.tsx:46-118 | a session with two data events saves a blob of exactly those two chunks, in order, and ends not recording with no current blob |
| PrivateNoteForm.ScoreOr5 | src/components/recording/PrivateNoteForm.tsx:20-24 | a missing or zero score reads as 5, any other as itself |
| PrivateNoteForm.Defaults | src/components/recording/PrivateNoteForm.tsx:18-35 | the initial fields and the `useEffect` refill (stated by `PrivateNoteForm.DefaultsSpec`) |
| PrivateNoteForm.DefaultsSpec | src/components/recording/PrivateNoteForm.tsx:18-35 | blank fields with scores 5 without a recording; otherwise its title, its reflection or "", and its scores with 0 or missing replaced by 5 |
| PrivateNoteForm.HasChanged | src/components/recording/PrivateNoteForm.tsx:56-59 | `hasChanged`: title, reflection or scores differ (on a fresh form, stated by `PrivateNoteForm.FreshFormChanged`) |
| PrivateNoteForm.FreshFormChanged | src/components/recording/PrivateNoteForm.tsx:56-59 | a freshly filled form counts as changed exactly when the reflection or the scores are missing, or a score is 0 |
| PrivateNoteForm.WithMetric | src/components/recording/PrivateNoteForm.tsx:110-118 | `{ ...prev, [metric]: value }` (stated by `PrivateNoteForm.WithMetricSpec`) |
| PrivateNoteForm.WithMetricSpec | src/components/recording/PrivateNoteForm.tsx:110-118 | a metric change sets that score and leaves the other two; repeating it, or setting the current value, changes nothing |
| PrivateNoteForm.Updated | src/components/recording/PrivateNoteForm.tsx:80-86 | title, reflection and scores replaced, every other field unchanged, and the result no longer differs from the form |
| PrivateNoteForm.ErrorToast | src/components/recording/PrivateNoteForm.tsx:98-104 | an error toast titled "Error Saving Recording" whose description is the thrown message when it is non-empty, else "An unexpected error occurred." |
| PrivateNoteForm.NoteForm.constructor | src/components/recording/PrivateNoteForm.tsx:18-25 | the fields start as the defaults and the form is not saving |
| PrivateNoteForm.NoteForm.Load | src/components/recording/PrivateNoteForm.tsx:27-35 | a new recording refills the fields with its defaults |
| PrivateNoteForm.NoteForm.SetTitle | src/components/recording/PrivateNoteForm.tsx:140 | only the title changes |
| PrivateNoteForm.NoteForm.SetReflection | src/components/recording/PrivateNoteForm.tsx:130 | only the reflection changes |
| PrivateNoteForm.NoteForm.SetMetric | src/components/recording/PrivateNoteForm.tsx:110-118 | only the one score changes, to a slider value in 1..10 |
| PrivateNoteForm.NoteForm.BeginSave | src/components/recording/PrivateNoteForm.tsx:37-68 | guards in order (no recording, auth loading or no user, nothing changed), each one toast and no call; otherwise saving, with the update of the current fields under way |
| PrivateNoteForm.NoteForm.FinishSave | src/components/recording/PrivateNoteForm.tsx:69-107 | saving stops; success hands on the merged recording with a success toast; a false answer or a thrown error each raise their own toast |
| PrivateNoteForm.UntouchedFormSavesNothing | src/components/recording/PrivateNoteForm.tsx:56-66 | an untouched form over a fully rated recording with a reflection reports "No changes to save" and calls nothing |
| ChangeEmail.IsValidEmail | src/components/ui/ProfileSettings/ChangeEmail.tsx:43 | the format test, decided without the regular expression (equal to its language by `ChangeEmail.IsValidEmailMatchesPattern`) |
| ChangeEmail.ValidEmailMatches | src/components/ui/ProfileSettings/ChangeEmail.tsx:43 | every address the decision procedure accepts matches `^[^\s@]+@[^\s@]+\.[^\s@]+$` |
| ChangeEmail.MatchIsValidEmail | src/components/ui/ProfileSettings/ChangeEmail.tsx:43 | every address the pattern matches is accepted |
| ChangeEmail.IsValidEmailMatchesPattern | src/components/ui/ProfileSettings/ChangeEmail.tsx:43 | the validity test accepts exactly the language of the regular expression |
| ChangeEmail.NoDotOrLeadingDotRejected | src/components/ui/ProfileSettings/ChangeEmail.tsx:43 | `a@b` and `a@.b` are refused |
| ChangeEmail.SpaceRejected | src/components/ui/ProfileSettings/ChangeEmail.tsx:43 | an address with white space is refused |
| ChangeEmail.SecondAtRejected | src/components/ui/ProfileSettings/ChangeEmail.tsx:43 | an address with a second `@` is refused |
| ChangeEmail.PlainAddressAccepted | src/components/ui/ProfileSettings/ChangeEmail.tsx:43 | `a@b.c` is accepted |
| ChangeEmail.EmailSettings.constructor | src/components/ui/ProfileSettings/ChangeEmail.tsx:8-11 | empty input, not editing, not loading |
| ChangeEmail.EmailSettings.StartEditing | src/components/ui/ProfileSettings/ChangeEmail.tsx:95 | the panel opens; input and loading unchanged |
| ChangeEmail.EmailSettings.SetNewEmail | src/components/ui/ProfileSettings/ChangeEmail.tsx:115-116 | the input takes the typed text |
| ChangeEmail.EmailSettings.BeginSave | src/components/ui/ProfileSettings/ChangeEmail.tsx:42-53 | on every Save click, an update pending or not: an invalid address raises "Invalid email format" and changes nothing; a valid one sets loading and is the address requested |
| ChangeEmail.EmailSettings.FinishSaveAsWritten | src/components/ui/ProfileSettings/ChangeEmail.tsx:54-70 | as written, whenever an update answers: failure stops loading and keeps the panel and input; success clears and closes but leaves loading as it was |
| ChangeEmail.EmailSettings.FinishSave | src/components/ui/ProfileSettings/ChangeEmail.tsx:54-70 | corrected: loading stops on both paths; failure keeps the panel and input, success clears the input and closes the panel |
| ChangeEmail.EmailSettings.Cancel | src/components/ui/ProfileSettings/ChangeEmail.tsx:73-76 | the input is cleared and the panel closed, also while an update is pending, whose loading flag stays |
| ChangeEmail.EmailSettings.SaveWhenEnabled | src/components/ui/Button.tsx:7-15 | Save through a button that honours `disabled={loading}`: nothing happens while loading, otherwise it is `BeginSave` |
| ChangeEmail.EmptyAddressRejected | src/components/ui/ProfileSettings/ChangeEmail.tsx:43-46 | the empty address fails the format test |
| ChangeEmail.SecondEditBlockedAsWritten | src/components/ui/ProfileSettings/ChangeEmail.tsx:63-70 | after one successful change the reopened panel still loads, so its native input is disabled and empty: Save answers only "Invalid email format" and requests nothing, and cancelling and reopening leaves the input disabled |
| ChangeEmail.SecondEditAllowed | src/components/ui/ProfileSettings/ChangeEmail.tsx:42-76 | with loading cleared, a second change can be requested right after a successful one |
| ChangeEmail.DoubleSaveAsWritten | src/components/ui/ProfileSettings/ChangeEmail.tsx:127-133 | a second Save click while the first update is pending requests the same address again |
| ChangeEmail.DoubleSaveWhenEnabled | src/components/ui/Button.tsx:7-15 | through a button that honours `disabled`, the second click requests nothing |
| ChangePassword.Refusal | src/components/ui/ProfileSettings/ChangePassword.tsx:14-22 | nothing refuses exactly when the password is not blank and equals the confirmation; blank gives the empty-password toast, otherwise a mismatch gives "Passwords do not match" |
| ChangePassword.BlankReportedBeforeMismatch | src/components/ui/ProfileSettings/ChangePassword.tsx:14-22 | a blank password reports the empty error even with a different confirmation, and is refused even when confirmed |
| ChangePassword.PasswordSettings.constructor | src/components/ui/ProfileSettings/ChangePassword.tsx:8-11 | empty inputs, not editing, not loading |
| ChangePassword.PasswordSettings.StartEditing | src/components/ui/ProfileSettings/ChangePassword.tsx:65 | the panel opens; inputs and loading unchanged |
| ChangePassword.PasswordSettings.SetInputs | src/components/ui/ProfileSettings/ChangePassword.tsx:85-97 | both inputs take the typed text |
| ChangePassword.PasswordSettings.BeginSave | src/components/ui/ProfileSettings/ChangePassword.tsx:13-25 | on every Save click, an update pending or not: a refused password raises its guard's toast and changes nothing; otherwise loading is set and the password is requested untrimmed |
| ChangePassword.PasswordSettings.FinishSave | src/components/ui/ProfileSettings/ChangePassword.tsx:26-39 | whenever an update answers, loading stops; failure keeps both inputs and the panel as they are, success clears both and closes it |
| ChangePassword.PasswordSettings.Cancel | src/components/ui/ProfileSettings/ChangePassword.tsx:42-46 | both inputs cleared and the panel closed, also while an update is pending, whose loading flag stays |
| ChangePassword.CancelDuringUpdate | src/components/ui/ProfileSettings/ChangePassword.tsx:101-114 | a Cancel click during a pending update closes the panel, and the update's later success still lands: "Password updated", inputs cleared, loading stopped |
| ChangePassword.PaddedPasswordSentUntrimmed | src/components/ui/ProfileSettings/ChangePassword.tsx:24-25 | a password padded with spaces is requested with its spaces |
| Js.OrElse | src/pages/CommunityPage.tsx:118-121 | `a \|\| b` is a when a is present and non-empty, else b |
| Js.Trim | src/components/recording/VoiceRecorder.tsx:109 | the result neither starts nor ends with white space |
| Js.TrimIsSlice | src/components/recording/VoiceRecorder.tsx:109 | `trim` returns a contiguous slice of its input |
| Js.TrimDropsWhiteSpace | src/components/recording/VoiceRecorder.tsx:109 | everything removed before and after that slice is white space |
| Js.TrimEmptyIffBlank | src/components/ui/ProfileSettings/ChangePassword.tsx:14 | a string trims to "" exactly when it is all white space |
| Js.TrimIdempotent | src/components/recording/VoiceRecorder.tsx:109-113 | trimming twice is trimming once |
| Js.BeforeFirst | src/components/progress/ProgressChart.tsx:23 | `split(sep)[0]` is a prefix without `sep`, followed in the input by `sep` when shorter |
| Js.BeforeFirstConcat | src/store/store.ts:154 | splitting a + sep + b, with no sep in a, gives back a and b |
| Js.ParseNatToString | src/components/recording/VoiceRecorder.tsx:134-136 | the decimal form of a natural is non-empty, all digits, and reads back as the natural |
| Js.PadStart | src/components/recording/VoiceRecorder.tsx:136 | `padStart` to width w gives at least w characters, the input at the end and only padding before it |
| Js.Filter | src/pages/ProfilePage.tsx:14-16 | an element is kept exactly when it is in the input and passes the test, and the result is no longer than the input |
| Js.FilterAppend | src/pages/CommunityPage.tsx:99-101 | filtering distributes over concatenation |
| Js.FilterCounts | src/pages/ProfilePage.tsx:14-16 | each kept element keeps its multiplicity; the others have none |
| Js.FilterSplit | src/pages/ProfilePage.tsx:14-16 | a test and its negation split the input's length |
| Js.FilterIdempotent | src/store/store.ts:221-225 | filtering twice is filtering once |
| Js.FilterSubsequence | src/pages/CommunityPage.tsx:99-101 | the filtered list is a subsequence of the input |

## Left out

- Backend calls: `src/utils/api.ts`, the Supabase client, `AuthContext` and the fetching of the current e-mail address are not part of this model. Each call's outcome is a parameter of the operation that awaits it.
- Toasts are returned by the component operations, not pushed into one shared `Store` object, so the model does not capture how toasts from several components interleave in the store.
- Persistence (zustand `persist`, `localStorage.setItem("jwt", …)`) and the clearing of the token at logout by another module are not modelled.
- `crypto.randomUUID()` is an argument. `Store.Store.AddRecording` and `Store.Store.AddToast` require that id to be unused, which is what a fresh UUID gives.
- `Math.random()` is an argument in [0, 1); the real number stands for the IEEE-754 double.
- ActivityCalendar.Level reads `count / maxCount * 4` in exact real arithmetic, not in IEEE-754 doubles. The two give the same ceiling for every maxCount below 2^51. Multiplying by 4 is exact. When 4 * count / maxCount is an integer k, the quotient count / maxCount is k / 4, which a double holds exactly. Otherwise 4 * count / maxCount lies at least 1 / maxCount away from every integer, far more than the rounding error of one division.
- Local calendar formatting (`date-fns` `format`, `parseISO`, time zones and daylight saving) is the parameter `dayOf` for a recording's date string and `monthOf` for a day's `"MMM"` label. A recording date that does not parse is not modelled.
- `localeCompare` is modelled as code-point order, which agrees with it on the `YYYY-MM-DD` dates the chart uses.
- The averages and `toFixed` values under the progress chart are floating point and are not modelled.
- `hasChanged` compares metrics with `JSON.stringify`, which depends on key order. The model compares the three scores by value, which agrees whenever the stored object has the form's key order.
- The streak is only read from `user.streakCount`; the files hold no algorithm that computes it. The `|| 0` on it guards an undefined or `NaN` value, which the model's integer field cannot hold, so the model reads the streak as the field itself.
- The MediaRecorder and getUserMedia APIs, object URLs and their revocation, audio playback and `alert` are not modelled. A recording session is driven by its event methods (`OnDataAvailable`, `OnStop`, `Tick`), and the granted microphone is a parameter.
- `finalPrompt` in the recorder is computed but never used, and is left out.
- The avatar initial (`charAt(0).toUpperCase()`) and the joined-date label are presentation and are left out.
- The other components (FeedbackForm, FeedbackPanel, RecordingCard, the username and location settings, the pages not listed above, layout and configuration) are not part of this model.
- The `date` and `isPublic` fields the components read are not declared in the repository's `Recording` type; the model gives them an optional string and a boolean.
- CommunityPage.CommunityPage.LoadFeedbacks, CommunityPage.CommunityPage.OpenFeedback and CommunityPage.CommunityPage.HandleFeedbackSubmit each take all their backend answers up front and run as one step, so the model does not capture events that interleave at their `await`s (src/pages/CommunityPage.tsx lines 28, 66, 77 and 96). For example, a `CloseFeedback` while the reload after a submission is pending is undone when the reload selects the recording again.
- The store's `login` and `authenticateUser` are modelled as actions, but no other file modelled here calls them. The profile page, which renders nothing without a user, therefore shows only for a user persisted from an earlier session.
- Store.Store.Login: the mock timestamps `new Date().toISOString()` are the parameter `now` rather than two independent clock reads.

## Findings

| source | as written | input that shows it | evidently intended | confidence | as-written member | corrected member |
|---|---|---|---|---|---|---|
| src/components/ui/ProfileSettings/ChangeEmail.tsx:63-70 | the success path of `handleSaveEmail` clears the input and closes the panel but never calls `setLoading(false)` | a valid address and an update that succeeds: reopening the panel shows an empty, disabled input, Save then answers only "Invalid email format", and no second address can be entered until the component is mounted again | loading cleared on success as on failure, as the password panel does | not executed | ChangeEmail.SecondEditBlockedAsWritten, ChangeEmail.EmailSettings.FinishSaveAsWritten | ChangeEmail.EmailSettings.FinishSave, ChangeEmail.SecondEditAllowed |
| src/pages/ProfilePage.tsx:83-91 | the "First Recording" badge is rendered without a condition | a user with no recordings: the badge and "You haven't earned any achievements yet" (line 118) show together | the badge shown once there is at least one recording | not executed | ProfilePage.PanelAsWritten, ProfilePage.FirstBadgeWithoutRecordings | ProfilePage.ProfilePanel, ProfilePage.PanelConsistent |
| src/pages/ProfilePage.tsx:71-76 | `<ActivityCalendar />` and `<ProgressChart />` are rendered without their required `recordings` property | any signed-in user: `recordings.filter` on `undefined` throws a `TypeError` (ActivityCalendar.tsx line 21, ProgressChart.tsx line 20), so the page does not render | the store's recordings passed to both components | not executed | ProfilePage.PageAsWritten | ProfilePage.ProfileView, ProfilePage.ProfileViewShowsProgress |
| src/components/ui/Button.tsx:7-15 | `Button` hands only `className`, `onClick` and `children` to its `<button>`, so the `disabled={loading}` the settings panels give their Save and Cancel buttons has no effect | a second Save click in the e-mail panel while the first update is pending: a second `updateUser` request for the same address | the `disabled` property forwarded, so Save and Cancel do nothing while an update is pending | not executed | ChangeEmail.DoubleSaveAsWritten | ChangeEmail.EmailSettings.SaveWhenEnabled, ChangeEmail.DoubleSaveWhenEnabled |
