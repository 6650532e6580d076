# jang-geum-i in Dafny

A functional model of the logic inside jang-geum-i, a recipe assistant. You photograph or name a
dish, a vision model returns the recipe, and you cook it step by step with a voice assistant that
reads the steps aloud, runs a kitchen timer and answers questions. You can then buy the
ingredients, rate the taste, register an account, or chat with a character.

The application is React views and thin Express routes. Each piece of logic inside them is written
here as a pure `(state, event) → (state, effects)` function:
- Every browser or network action becomes an emitted effect value: `Speak`, `Alert`, `StartAlarm`, `Classify`, `Request`, and so on.
- Every answer from outside becomes a parameter: the speech classifier, text-to-speech, Firebase Storage, OpenAI, the Naver shopping API and MongoDB.

The cooking session exists in three revisions that differ in behaviour. They are modelled side by
side and not reconciled:

| module | file |
|---|---|
| `SrcAssistant` | front/src/components/CookingAssistant.js, with its host page `CookingPage` |
| `CharacterAssistant` | front/front/src/components/CookingAssistant.js |
| `CheckpointCooking` | the inline `CookingPage` of front/checkpoint.js |

Shared pieces:
- `Cooking`: the classifier reply and the effect vocabulary.
- `Narration`: the single narration slot behind `playCloudTTS`, configured per revision.
- `CircularTimer`: the `m:ss` label.
- `Taste`: the taste-score table.

The other modules:
- `Upload` and `MainApp`: the main page.
- `Purchase`: the ingredient shopping page.
- `Registration`: user registration.
- `ProductSearch`: the command-line shopping search.
- `RecipeRoute`: the backend `/upload` route in both revisions.
- `Chat`: both chat panels.

`JsText` and `Json` give the JavaScript semantics the code relies on: `trim`, `String(n)`,
`padStart`, `includes`, truthiness, `||` fallbacks and optional chaining.

Where the code as written differs from what its comments or neighbours suggest, the model follows the code:
- Next step on an empty recipe goes to index -1.
- In front/src, a request still in flight when the view unmounts still plays its audio.
- In front/front, `cancel_timer` throws half-way through.
- In front/front, the recogniser's handlers are bound once. A voice "repeat" reads the step seen when the assistant was first switched on, and so does the character check.
- In checkpoint.js, the voice handlers test the step seen when the recogniser was created, but move the live step. A voice "next" after a button press can leave the recipe.
- In checkpoint.js, switching the assistant off and straight back on throws an uncaught `InvalidStateError`, and the assistant stays off.
- The checkpoint's `set_timer` only starts a timer for minutes.
- In front/src, every chat reply is the error line.
- The product-search timestamp keeps the `T`.
- The `<b>` stripper can leave a tag behind.
- The main page's text search is refused by server.js.

Each of these is stated as a lemma.

## Model

| member | source | states |
|---|---|---|
| SrcAssistant.NextStepAction | front/src/components/CookingAssistant.js:50-52 | `next_step` moves to min(step+1, len−1): one forward below the last instruction, clamped at it; an in-range index stays in range; the timer part is untouched; a changed index is narrated |
| SrcAssistant.PrevStepAction | front/src/components/CookingAssistant.js:53-55 | `prev_step` moves to max(step−1, 0): never below 0; the timer part is untouched |
| SrcAssistant.RepeatStepAction | front/src/components/CookingAssistant.js:56-58 | `repeat_step` changes no state and narrates the current instruction, or `undefined` when the index is out of range |
| SrcAssistant.SetCookingTimer | front/src/components/CookingAssistant.js:147-152 | `timer` and `timeLeft` both become the given seconds, the timer is active, the alarm flag and step are kept, and the confirmation is narrated |
| SrcAssistant.TimerSeconds | front/src/components/CookingAssistant.js:60-63 | the unit "분" multiplies by 60; any other unit is taken as seconds |
| SrcAssistant.SetTimerAction | front/src/components/CookingAssistant.js:59-65 | an absent or zero time changes nothing; otherwise the timer is set to the converted seconds with `alarmPlaying` untouched |
| SrcAssistant.StopAlarmAction | front/src/components/CookingAssistant.js:154-163 | the timer is cleared, `timeLeft` is 0, inactive, and no alarm is playing; a playing alarm is stopped |
| SrcAssistant.CancelTimerAction | front/src/components/CookingAssistant.js:66-71 | `cancel_timer` leaves `timer` null, `timeLeft` 0, `timerActive` false and `alarmPlaying` false, with the step kept |
| SrcAssistant.Dispatch | front/src/components/CookingAssistant.js:46-78 | no data or a falsy action changes nothing; `next_step`, `prev_step`, `set_timer` and `cancel_timer` are exactly the bounded step moves, the timer conversion and the cancel; `repeat_step` and `response` keep the state; `response` speaks a truthy answer only; an unknown action only warns |
| SrcAssistant.Settle | front/src/components/CookingAssistant.js:172-182 | at 0 with a timer set and no alarm playing, the alarm starts; otherwise nothing happens; the state ends settled |
| SrcAssistant.TickAction | front/src/components/CookingAssistant.js:173-175 | one second takes exactly 1 off a positive `timeLeft` and never goes below 0 |
| SrcAssistant.Step | front/src/components/CookingAssistant.js:80-88 | a heard question is classified and dispatched, and a failure is logged; the state stays valid and settled; an in-range index stays in range |
| SrcAssistant.Run | front/src/components/CookingAssistant.js:191-195 | from mount, the effects begin with the step hook on step 0, which narrates a truthy first instruction; validity and the alarm effect are settled; with instructions the index stays within them, and with none it stays within −1..0 |
| SrcAssistant.TimerRunsOutAfterItsSeconds | front/src/components/CookingAssistant.js:172-182 | a timer of n seconds left for n ticks reaches 0 and sounds the alarm, with the duration and step kept |
| SrcAssistant.AlarmLatchesUntilCancel | front/src/components/CookingAssistant.js:154-182 | any event other than `cancel_timer` leaves a sounding alarm sounding |
| SrcAssistant.HeardCancelSilencesAlarm | front/src/components/CookingAssistant.js:65-70 | a heard `cancel_timer` stops a sounding alarm, clears the timer and keeps the step |
| SrcAssistant.SecondTimerSupersedesFirst | front/src/components/CookingAssistant.js:147-152 | a second `set_timer` restarts the countdown from its own duration |
| SrcAssistant.EmptyRecipeNextStepGoesNegative | front/src/components/CookingAssistant.js:50-52 | with no instructions, `next_step` moves the index from 0 to −1 |
| CookingPage.NextStep | front/src/pages/CookingPage.js:62-68 | one forward below the last index; at the last index the step stays and a completion alert appears |
| CookingPage.PreviousStep | front/src/pages/CookingPage.js:70-76 | one back above 0; at 0 the step stays and an alert appears |
| CookingPage.PressAll | front/src/pages/CookingPage.js:62-76 | after any sequence of button presses, 0 ≤ step ≤ max(len−1, 0) |
| CookingPage.Step | front/src/pages/CookingPage.js:154-158 | the page and the assistant share one index; a button press leaves the timer untouched and keeps the assistant valid and settled |
| CookingPage.Open | front/src/pages/CookingPage.js:12 | the page opens on step 0 with no timer, and narrates a non-empty first instruction |
| CookingPage.ManualAndVoiceNextAgree | front/src/pages/CookingPage.js:62-68 | the next button and the voice `next_step` reach the same state: +1 below the last step with the same narration, and no move at the last step |
| CookingPage.ManualAndVoicePreviousAgree | front/src/pages/CookingPage.js:70-76 | the previous button and the voice `prev_step` reach the same state from a non-negative index |
| CharacterAssistant.MoveTo | front/front/src/components/CookingAssistant.js:62-67 | a step action moves only the index, narrates a change, and never starts capture |
| CharacterAssistant.SetCookingTimer | front/front/src/components/CookingAssistant.js:190-195 | no positivity guard: the timer and `timeLeft` become the seconds, active, and everything else is kept |
| CharacterAssistant.SetTimerAction | front/front/src/components/CookingAssistant.js:71-77 | with a truthy time, "분" is converted by ×60 and the timer is set; with no time nothing changes |
| CharacterAssistant.StopAlarmAction | front/front/src/components/CookingAssistant.js:197-206 | the timer is cleared and nothing else changes (no alarm clip is ever loaded) |
| CharacterAssistant.CancelTimerAction | front/front/src/components/CookingAssistant.js:78-84 | the three resets take effect, then calling the boolean `timerActive` throws; `fetchAIResponse` logs the error |
| CharacterAssistant.Dispatch | front/front/src/components/CookingAssistant.js:58-91 | next/prev are min/max moves of the live step, and the step hook narrates the new step when it changed; `repeat_step` reads the step the handler captured; timer conversion; a cancel that ends with a logged error; state kept for repeat/response; a warning only for an unknown action |
| CharacterAssistant.StartListening | front/front/src/components/CookingAssistant.js:107-171 | the first call creates the recogniser, whose handlers capture the current step and character, and later calls keep it; `start()` is called only when not listening and the engine is stopped; a running engine gives the `InvalidStateError` warning; an unsupported browser logs an error |
| CharacterAssistant.ToggleAction | front/front/src/components/CookingAssistant.js:180-188 | the on/off flag flips; switching off stops the recogniser and clears listening; switching on starts listening |
| CharacterAssistant.HeardAction | front/front/src/components/CookingAssistant.js:93-105 | with no character in the captured render, an alert appears and nothing is classified; otherwise the question is classified, and a failure is logged |
| CharacterAssistant.Step | front/front/src/components/CookingAssistant.js:58-188 | each event keeps the state valid; only a heard action moves the index; a transcript needs a running engine; capture starts only on a stopped engine; choosing a different character re-runs the step hook on the current step, and choosing the same one does nothing |
| CharacterAssistant.Run | front/front/src/components/CookingAssistant.js:220-227 | from mount, the index stays within the instructions, or within −1..0 when there are none; there is no countdown, so `timeLeft` always equals the set duration or 0 |
| CharacterAssistant.CancelThrowLeavesCancelledState | front/front/src/components/CookingAssistant.js:78-84 | the throwing voice `cancel_timer` ends in the same state as the cancel button; only the logged error differs |
| CharacterAssistant.QuickRetoggleWarns | front/front/src/components/CookingAssistant.js:159-170 | switching off and on before the engine ends gives the already-listening warning, not a second capture |
| CharacterAssistant.RepeatReadsTheCapturedStep | front/front/src/components/CookingAssistant.js:69 | a voice "repeat" speaks the instruction at the step captured when the recogniser was created, whatever the live step is |
| CharacterAssistant.RepeatAfterMoveReadsTheOldStep | front/front/src/components/CookingAssistant.js:115-132 | with instructions "a", "b", the recogniser created at step 0 and the live step at 1, "repeat" speaks "a" |
| CharacterAssistant.CharacterPickedLaterIsNotSeen | front/front/src/components/CookingAssistant.js:93-97 | a character picked after the recogniser was created still gets the "select a character" alert, and nothing is classified |
| CharacterAssistant.NewCharacterRenarrates | front/front/src/components/CookingAssistant.js:55 | choosing another character speaks the current instruction again |
| CheckpointCooking.NextStep | front/checkpoint.js:1269-1275 | if the step the handler saw is below the last index, the live step moves +1 and the new step is narrated; otherwise the step is unchanged and completion is narrated |
| CheckpointCooking.PreviousStep | front/checkpoint.js:1285-1291 | if the step the handler saw is above 0, the live step moves −1; otherwise the step is unchanged and an alert appears |
| CheckpointCooking.SetCookingTimer | front/checkpoint.js:1055-1062 | seconds ≤ 0 change nothing and say nothing; otherwise the timer is set and confirmed |
| CheckpointCooking.SetTimerAction | front/checkpoint.js:1181-1190 | only "분" starts a timer (×60); every truthy time ends with the "<time><unit> 타이머를 설정했습니다." narration |
| CheckpointCooking.CancelTimerAction | front/checkpoint.js:1191-1197 | the timer is cleared, then the undeclared alarm reference throws; the error is logged and the closing narration is never spoken |
| CheckpointCooking.Dispatch | front/checkpoint.js:1166-1209 | the handler's tests read the step it captured, and only the ±1 update reads the live step; the step moves by at most one; `set_timer` and `cancel_timer` are exactly the minutes-only timer and the throwing cancel; `response` speaks a truthy answer only; `navigate_home` goes to "/"; repeat narrates the captured step; repeat, response and home keep the state; an unknown action warns |
| CheckpointCooking.ToggleAction | front/checkpoint.js:1214-1265 | switching off asks an existing recogniser to stop and leaves the engine running until its end; switching on first creates the recogniser, capturing the current step; an unsupported browser logs an error but the flag still flips; `start()` on an engine that has not ended throws out of the handler and leaves the flag off; otherwise the engine starts and the flag is set |
| CheckpointCooking.Step | front/checkpoint.js:1151-1164 | a transcript is dropped only when it is empty or no engine is running, so one arriving after switch-off is still classified; the buttons test the live step and transcripts test the captured one; `onstart` sets the flag on a running engine; `onend` only ends the engine; the reachability invariant is kept |
| CheckpointCooking.Run | front/checkpoint.js:1128-1135 | from mount, any sequence of events keeps 0 ≤ step ≤ max(len−1, 0) until the recogniser exists; afterwards the captured step stays in those bounds, and the live step stays bounded only in the direction the captured step rules out: not below 0 if it was captured at 0, and not past the last index if it was captured there |
| CheckpointCooking.HeardCancelClearsTimerSilently | front/checkpoint.js:1191-1197 | a heard `cancel_timer` clears the timer and keeps the step; after the request only the logged error follows, and the closing narration never comes |
| CheckpointCooking.OnlyMinutesStartATimer | front/checkpoint.js:1181-1190 | a `set_timer` in any unit other than "분" leaves the state unchanged |
| CheckpointCooking.VoiceNextIsButtonNext | front/checkpoint.js:1170-1172 | while the live step still equals the captured step, the voice `next_step` is the next-button handler after the classification request |
| CheckpointCooking.VoiceNextIgnoresTheLiveStep | front/checkpoint.js:1232-1236 | captured below the last index while the live step is already the last: a voice "next" moves past the end and narrates nothing |
| CheckpointCooking.SwitchOnPressNextSayNext | front/checkpoint.js:1270 | with instructions "a", "b": switch on at step 0, press Next, say "next", and the step becomes 2 |
| CheckpointCooking.QuickRetoggleLeavesItOff | front/checkpoint.js:1251-1263 | switching off and on before the engine ends: the stop request, then the uncaught `InvalidStateError`; the assistant stays off and no second capture starts |
| CheckpointCooking.RetoggleAfterEndRestarts | front/checkpoint.js:1244-1263 | after the engine ends, switching on starts the same recogniser again, with the step it captured first |
| CheckpointCooking.ResultAfterSwitchOffIsClassified | front/checkpoint.js:1151-1152 | a non-empty transcript delivered after switch-off is still sent to the classifier, and the assistant stays off |
| Cooking.StepText | front/src/components/CookingAssistant.js:57 | `instructions[step]` is defined exactly for an in-range index |
| Cooking.StepHook | front/src/components/CookingAssistant.js:191-195 | the step effect narrates exactly when the instruction at the index is truthy |
| Cooking.AnswerSpeech | front/src/components/CookingAssistant.js:72-74 | a truthy answer is spoken, and anything else is silent |
| Cooking.StepNarration | front/src/components/CookingAssistant.js:191-195 | the step effect reruns only when the index changed |
| Narration.SpeakStep | front/src/components/CookingAssistant.js:19-31 | each `speak` stops the current clip, aborts the previous request and issues a new one with the revision's format; it never plays anything itself |
| Narration.ResolveStep | front/src/components/CookingAssistant.js:31-43 | only the live request takes effect: audio plays exactly on an audio answer, errors other than `AbortError` are logged, and a superseded request changes nothing |
| Narration.UnmountStep | front/front/src/components/CookingAssistant.js:208-218 | unmount silences the clip; the front/front and checkpoint revisions also abort the request, while front/src leaves it pending |
| Narration.RunTracksLastSpeak | front/src/components/CookingAssistant.js:19-44 | after any event sequence, the abort controller belongs to the last request, which carries the text of the last `speak` |
| Narration.AudibleClipIsLastSpoken | front/src/components/CookingAssistant.js:19-44 | at most one clip is audible, and it is the answer to the most recent `speak` |
| Narration.AbortingUnmountIsQuiet | front/checkpoint.js:1139-1149 | after an aborting unmount, nothing that settles can start audio |
| Narration.SrcUnmountLetsLateAudioPlay | front/src/components/CookingAssistant.js:184-189 | front/src only pauses on unmount, so a response arriving after unmount still plays |
| CircularTimer.SecondsFieldIsPadded | front/src/components/CircularTimer.js:48 | the two-digit field equals `String(s).padStart(2, "0")` |
| CircularTimer.LabelRoundTrip | front/src/components/CircularTimer.js:48 | reading the label back gives minutes·60 + seconds = t |
| CircularTimer.LabelInjective | front/src/components/CircularTimer.js:48 | different times never share a label |
| CircularTimer.SecondsFieldInRange | front/src/components/CircularTimer.js:48 | the seconds field is two digits from 00 to 59 |
| CircularTimer.ShortLabels | front/src/components/CircularTimer.js:48 | under ten minutes the label has four characters, and seconds under ten are zero-padded |
| CircularTimer.NoHourRollover | front/src/components/CircularTimer.js:48 | from one hour on, the minutes keep counting: the part before the colon reads as t/60 |
| CircularTimer.LabelExamples | front/src/components/CircularTimer.js:48 | 0 gives "0:00", 65 gives "1:05", and 3600 gives "60:00" |
| Taste.ConvertTasteScore | front/src/pages/CookingPage.js:26-35 | the five labels map to 5, 4, 3, 2, 1 in order; anything else, the empty placeholder included, maps to 3 |
| Taste.ScoreLabelRoundTrip | front/src/pages/CookingPage.js:26-35 | the table is a bijection between the five labels and the scores 1..5 |
| Taste.Submit | front/src/pages/CookingPage.js:37-46 | an empty user id is rejected; otherwise the id and the three converted scores are posted, each in 1..5 |
| Upload.FileError | front/src/components/MainApp.js:79-81 | a file fails exactly when it is over 5 MiB or not jpeg/png/gif, and size is checked first |
| Upload.ErrorText | front/src/components/MainApp.js:93 | the error is "오류 발생: " followed by the message, or "알 수 없는 오류" when the message is empty |
| Upload.Extract | front/src/components/MainApp.js:48-61 | the status goes to "extracting", then the payload is posted; success stores the answer and completes, and failure goes back to idle with the error |
| Upload.MainUpload | front/src/components/MainApp.js:68-96 | the page is cleared and processing starts; a rejected file fails before storage; an accepted, stored image replaces the text; with neither there is an error and no call; every run ends idle with an error or complete |
| Upload.SendText | front/src/components/MainApp.js:76-89 | without a file, non-blank text is posted untrimmed as `{ query }`; blank text fails with no call |
| Upload.SendImage | front/src/components/MainApp.js:82-89 | an accepted file is stored first; its URL is posted as `{ imageUrl }`; a storage failure posts nothing |
| Upload.AppUpload | front/src/App.js:58-93 | no file does nothing; an oversize or unsupported file only sets the error, size first; a valid file goes uploading → extracting → complete, and a failure goes idle with a prefixed error |
| Upload.SizeLimitIsInclusive | front/src/components/MainApp.js:39-40 | exactly 5·1024·1024 bytes passes, and one byte more fails |
| Upload.SizeIsCheckedBeforeType | front/src/App.js:62-71 | an oversize file of the wrong type reports its size in every revision |
| Upload.ImageOverridesText | front/checkpoint.js:93-110 | with an accepted, stored image, the typed query is never sent |
| MainApp.FetchNewRecipe | front/src/components/MainApp.js:122-139 | blank input alerts and changes nothing; otherwise the page is cleared, the input emptied and the text sent; a failure goes idle with no error message |
| MainApp.StartCooking | front/src/components/MainApp.js:112-115 | the cooking page opens, carrying the result, exactly when the result has a truthy `dish` |
| MainApp.StartPurchase | front/src/components/MainApp.js:117-120 | the purchase page opens exactly when there is a result |
| MainApp.DisplayName | front/src/components/MainApp.js:11-36 | the three characters get their names; any other value gets "" |
| MainApp.Avatar | front/src/components/MainApp.js:18-37 | a known character's avatar is `/images/<id>.png`; anything else gets "" |
| MainApp.NameAndAvatarAgree | front/src/components/MainApp.js:36-37 | a name is shown exactly when an avatar is |
| MainApp.CookableIsPurchasable | front/src/components/MainApp.js:112-120 | any recipe that can be cooked can be bought, but not conversely |
| Purchase.Choose | front/src/pages/PurchasePage.js:19-21 | the selection becomes exactly the chosen ingredient's name, and nothing else changes |
| Purchase.ChooseChecksOne | front/src/pages/PurchasePage.js:68 | after a choice, a radio is checked exactly when its name equals the chosen one |
| Purchase.SearchBegin | front/src/pages/PurchasePage.js:29-31 | the search starts loading with the error and results cleared |
| Purchase.SearchEnd | front/src/pages/PurchasePage.js:33-45 | loading always ends; non-empty items become the results; empty items give the no-items error; a failure gives the failure error |
| Purchase.Search | front/src/pages/PurchasePage.js:23-46 | an empty selection only alerts; otherwise exactly one search for the selection |
| Purchase.StripBold | front/src/pages/PurchasePage.js:118 | removing `<b>`/`</b>` never lengthens the title |
| Purchase.NoAngleUnchanged | front/src/pages/PurchasePage.js:118 | a title without '<' is shown exactly as given |
| Purchase.StripChangesIffTag | front/src/pages/PurchasePage.js:118 | the title changes, and strictly shrinks, exactly when it contains a tag |
| Purchase.OnePassCanLeaveATag | front/src/pages/PurchasePage.js:118 | "<<b>b>" becomes "<b>": one pass does not remove every tag |
| Registration.Register | routes/userRoutes.js:7-32 | a missing field gives 400 before the duplicate check; a taken email gives 400; success appends exactly the given user and gives 201; any failure saves nothing |
| Registration.RegisterKeepsEmailsUnique | routes/userRoutes.js:17-24 | one registration keeps the emails unique |
| Registration.RegisterAll | routes/userRoutes.js:17-24 | any sequence of registrations keeps the emails unique and only appends |
| Registration.SameEmailTwiceIsRefused | routes/userRoutes.js:17-20 | a second sign-up with the same email is refused, even with another name and password |
| ProductSearch.Filter | JanggeumE_Searchproduct/productsearch.js:62 | the kept items are exactly the Smart Store items of the answer |
| ProductSearch.FilterAppend | JanggeumE_Searchproduct/productsearch.js:62 | filtering preserves the original order |
| ProductSearch.KeepTop | JanggeumE_Searchproduct/productsearch.js:62 | at most five items: the first min(5, #matches) matches |
| ProductSearch.KeptAreTheFirstMatches | JanggeumE_Searchproduct/productsearch.js:62 | every kept item is a Smart Store item of the answer, and fewer than five kept means all matches were kept |
| ProductSearch.TimestampShape | JanggeumE_Searchproduct/productsearch.js:86 | for an ISO string, the timestamp is YYYYMMDD, then 'T', then HHMMSS |
| ProductSearch.RecordName | JanggeumE_Searchproduct/productsearch.js:87 | the file name splits back into the query, "_", the timestamp and ".json" |
| ProductSearch.DistinctTimesDistinctRecords | JanggeumE_Searchproduct/productsearch.js:87 | two searches for the same query at different timestamps write different files |
| ProductSearch.Search | JanggeumE_Searchproduct/productsearch.js:39-105 | an empty query only logs; otherwise one request; a link is opened, and it is the first kept link, exactly on a 200 with matches, which are also recorded |
| RecipeRoute.Shape | server.js:148-160 | the answer has exactly `dish`, `ingredients` and `instructions`, each taken from the model when truthy and from the fallback otherwise |
| RecipeRoute.Answer | server.js:133-160 | a model failure or an unparsable answer gives 500; a parsed answer gives 200 with the shaped recipe |
| RecipeRoute.ServerUpload | server.js:54-165 | a falsy `imageUrl` gives 400 before any model call; an unusable body gives the unexpected-error 500; otherwise the model is asked once with the URL |
| RecipeRoute.BackupUpload | serverBackUP.js:36-153 | no file gives 400; the file is stored at `uploads/<now>_<name>`; a storage failure gives 500; the download URL is what the model receives |
| RecipeRoute.CompleteAnswerPassesThrough | server.js:148-150 | a complete answer passes through unchanged, an empty instruction list included |
| RecipeRoute.EmptyAnswerGetsFallbacks | serverBackUP.js:136-138 | an answer without the fields gets every fallback |
| RecipeRoute.RevisionsAgreeAfterTheUrl | serverBackUP.js:127-148 | once the URL is known, both revisions answer the same and send the same model call |
| RecipeRoute.TextQueryIsRefused | server.js:57-60 | the main page's `{ query }` body is refused with 400 |
| Chat.EchoSend | front/front/src/components/ChatUI.jsx:96-100 | blank input changes nothing; otherwise the trimmed text is appended as a user message, the input is cleared and its echo is scheduled |
| Chat.EchoArrives | front/front/src/components/ChatUI.jsx:103-106 | the oldest scheduled echo, "🤖 " + text, is appended |
| Chat.EchoLogOnlyGrows | front/front/src/components/ChatUI.jsx:99-105 | the log is append-only: earlier entries never change |
| Chat.EchoRunBalanced | front/front/src/components/ChatUI.jsx:84-107 | after the greeting, the replies are the echoes of the earliest user messages in order, and the rest are still scheduled |
| Chat.EchoEverythingAnswered | front/front/src/components/ChatUI.jsx:96-107 | once every timeout has fired, each user message has its echo, in order |
| Chat.ReplyText | front/src/components/ChatUI.jsx:105-110 | the reply is the message when truthy, "응답 없음" otherwise, and the error line when the call throws |
| Chat.RemoteSend | front/src/components/ChatUI.jsx:96-112 | the log changes exactly when the input is not blank, and a blank input changes nothing; otherwise the trimmed message, then its reply, is appended and the input is cleared |
| Chat.SendAsWritten | front/src/components/ChatUI.jsx:104-111 | the call is never imported, so every non-blank send appends the message and then the error line |
| Chat.RemoteRun | front/src/components/ChatUI.jsx:99-110 | each event adds at most two entries, a message and its reply |
| Chat.RemoteLogOnlyGrows | front/src/components/ChatUI.jsx:99-110 | the log is append-only: earlier entries never change |
| Chat.RemoteRunAlternates | front/src/components/ChatUI.jsx:84-112 | after the greeting, the log alternates user message, reply |
| Chat.AsWrittenEveryReplyIsTheError | front/src/components/ChatUI.jsx:104-111 | as written, every reply after the greeting is the error line |
| JsText.BlankIffAllSpace | front/src/components/MainApp.js:123 | `!s.trim()` holds exactly when every character is white space |
| JsText.Trim | front/src/components/MainApp.js:123 | `trim()` returns the slice of its input between an all-white-space prefix and an all-white-space suffix, and the slice neither starts nor ends with white space |
| JsText.TrimOfTrimmed | front/front/src/components/ChatUI.jsx:96-100 | trimming an already trimmed, non-empty text leaves it unchanged |
| Narration.Step | front/src/components/CookingAssistant.js:19-44 | every speak, settle or unmount keeps the slot well formed: the controller holds the newest request, and a playing clip is always the answer to that request |
| JsText.PadStart | front/src/components/CircularTimer.js:48 | `padStart` fills on the left up to the width and keeps the string as the suffix |
| JsText.ParseNatToString | front/src/components/CircularTimer.js:48 | `String(n)` reads back as n |

## Left out

- Browser and network effects are emitted values or parameters. This covers SpeechRecognition, Audio, AbortController, fetch/axios, Firebase Storage, OpenAI, the Naver API, MongoDB, `localStorage`, `open()` and `fs`.
- Real time is not modelled. A countdown second is a `Tick` event, a scheduled echo is a `Fired` event, and a settled TTS request is a `Resolve` event. React batching and render timing are not modelled.
- In front/src's chat, a reply is taken to arrive before the next send. Interleaved replies are not modelled.
- The speech auto-restart in `onend` never fires. It reads an `isAssistantOn` captured when the recogniser was created, which is false, so an engine-ended event only marks the engine stopped.
- The voice control of front/src is not modelled. The button's handler test is the toggle function itself, which is always truthy, so the button can only call `stopListening` and the page never starts recognition. The dispatcher is driven with transcripts directly. If a recogniser were ever created, its `onresult` would capture that render's `handleAssistantAction`, and `repeat_step` would read the captured step, as in front/front. Since none is, the modelled dispatcher reads the live step.
- In checkpoint.js, `playAlarm`, `stopAlarm` and the countdown effect are not modelled. They read `alarmAudioRef` and `alarmPlaying`, which the component never declares. The file also declares `const styles` twice. The model describes the handlers' logic as written.
- The text-to-speech voice is not modelled. In front/front it is the character captured when the recogniser was created.
- The front/src `CircularTimer` is passed props it does not read (`onComplete`), and no `onStop`, so its cancel button has no click handler and does nothing. Only the label is modelled.
- The float progress arc of `CircularTimer` and the price formatting of the purchase page are not modelled.
- `parseInt` on arbitrary strings is not modelled. `data.time` is the natural number it yields. NaN is not modelled.
- The server.js route setup is not modelled. It refers to an undefined `upload` middleware, and only the route body is modelled.
- The JSON text of the model's answer is a parameter: `JSON.parse`'s result, or its failure.
- Registration does not model the race between `findOne` and `save`.
- The following are not modelled: JSX, styling, routing, the login and register form pages, the `api.js` wrappers, the query and recipe routes, the Mongoose schemas, `base.js` and `searchlist.js`. They pass data through without logic of their own. The character context is modelled only as the selected character of front/front's cooking view.
- Taste.ConvertTasteScore: requires the text not to be an `Object.prototype` key such as "toString", because the lookup would yield an inherited function instead of a score.
- Taste.Submit: requires the same of the three answers, for the same reason.
- MainApp.DisplayName: requires the character not to be an `Object.prototype` key, for the same reason.
- MainApp.Avatar: requires the character not to be an `Object.prototype` key, for the same reason.
- CircularTimer.Label: models a caller that passes a numeric `timeLeft`, as front/front's `CookingAssistant` does. front/src's `CookingAssistant` passes only `initialTime`, so its label renders "NaN:NaN". Its own contract states only the colon's position. Its meaning is stated by `CircularTimer.LabelRoundTrip` and `CircularTimer.SecondsFieldIsPadded`.
- ProductSearch.Timestamp: its own contract states only the length bound. Its meaning on ISO strings is stated by `ProductSearch.TimestampShape`.
- ProductSearch.Search: on success, the console listing of the kept items, the "첫 번째 상품 링크" line, and the messages logged after `open` and `writeFile` settle are not emitted. The effects are the request, the opened link and the written record. On the other paths the one logged message is the whole outcome, so it is kept.
- ProductSearch.Search: the `NoResponse` case ends in `Crash`, because reading `response.statusCode` of an undefined response throws.
