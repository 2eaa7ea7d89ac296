# A verified model of the "weiwei" stomach-feeling companion app

The app has three screens. The **planner** sends a food description to a language-model gateway
and shows the recommended portions as a stomach that fills up and changes colour. The **journal**
logs how full the stomach felt after a meal, counts the entries per feeling and asks the gateway
for a weekly report. The **calm-down** screen offers three short flows for moments of craving: a
4-7-8 breathing exercise, a bubble-popping game and a short mindfulness quiz. The application shell
holds the current tab. It also holds one pending food summary, which the planner hands to the
journal.

This Dafny project models the logic behind those screens. There is one module per component:

| module | file | models |
|---|---|---|
| `Base` | base.dfy | `Option`, `Outcome` (a resolved value or a rejection), `Max`, `Min` |
| `AppTypes` | app_types.dfy | the records and enums of types.ts |
| `JsText` | js_text.dfy | the JavaScript string semantics the code relies on: truthiness and `\|\|`, `join`, `split`, `trim`, number-to-string |
| `GeminiService` | gemini_service.dfy | `analyzeFoodInput`, `generateWeeklyReport`, the mock branches, the journal serialisation |
| `JournalScreen` | journal.dfy | the journal's state, load/seed, `handleLog`, the report overlay, the chart counts |
| `BreathingExercise` | breathing.dfy | the breathing phase machine with its timeouts, intervals and cleanup |
| `BubbleGame` | bubbles.dfy | bubble generation, `pop`, completion detection |
| `MindfulAsk` | mindful_ask.dfy | the question catalogue, `refreshQuestion`, `handleAnswer` |
| `EmergencyScreen` | emergency.dfy | the calm-down mode and the celebration overlay |
| `PlannerScreen` | planner.dfy | the planner's handlers, fill level, overload flag, colour band, food summary |
| `AppShell` | app.dfy | the tab state, the pending-food handoff, `renderContent` |

**How the source maps onto Dafny**
- Each React component's state cells become the fields of a class. Each handler becomes a method
  whose `ensures` gives the whole new state.
- The pure parts are functions, and lemmas state their properties: the derived values, the gateway
  branches and the serialisation.
- Time is a sequence of events. Each event is either a timeout firing, an interval firing or the
  effect's cleanup.
- The breathing exercise is specified by a pure step function over a `Session` value. Its
  invariant `Consistent` is proved to hold after every event. The `Breathing` class is proved
  against that step function.
- `Math.random()` is a finite list of draws, each in [0, 1).
- The gateway's API key is a string parameter. The empty string stands for an absent key, which is
  falsy in JavaScript.
- The provider call and `JSON.parse` are function parameters.
- The browser's key-value storage is a map from key to the stored list.

**Notes on the code's behaviour**
- `analyzeFoodInput` checks no response shape: it runs `JSON.parse` and an unchecked cast
  (services/geminiService.ts:65). In the model the `parse` parameter yields a `MealAnalysis` or
  nothing, so every successful parse is a well-formed analysis. The ill-shaped results the source
  lets through are listed under "Left out".
- `handleGenerateReport` has a catch branch that sets the failure text. `generateWeeklyReport`
  never rejects, so that branch is never taken. `JournalScreen.Journal.GenerateReport` proves this
  combination. `FinishReport` still models both branches.

## Model

| member | source | states |
|---|---|---|
| `JsText.OrElse` | components/Journal.tsx:46 | `a \|\| b` on an optional string: the value itself when it is truthy (present and non-empty), otherwise the fallback; a non-empty fallback makes the result non-empty |
| `JsText.Join` | components/Planner.tsx:41 | no parts join to the empty string and a single part joins to itself; `JoinAppend` gives every longer join |
| `JsText.JoinAppend` | components/Planner.tsx:41 | joining one more part appends exactly one separator and the part |
| `JsText.JoinLength` | components/Planner.tsx:41 | a join's length is the parts' total length plus one separator per gap |
| `JsText.Split` | services/geminiService.ts:81-83 | reading newline-separated text back: at least one piece, and no piece contains the separator |
| `JsText.SplitJoin` | services/geminiService.ts:81-83 | splitting a join at its separator gives back the parts, when no part contains the separator |
| `JsText.Trim` | components/Planner.tsx:18 | `trim()` is never longer than its input, and a non-empty result neither starts nor ends with whitespace |
| `JsText.TrimEmptyIffBlank` | components/Planner.tsx:18 | `trim()` yields the empty string exactly when every character is JavaScript whitespace |
| `JsText.NatToString` | services/geminiService.ts:76 | a count renders as at least one decimal digit, with a leading zero only for 0 itself |
| `JsText.ParseNatToString` | services/geminiService.ts:76 | the decimal text a count is rendered as reads back as that count |
| `GeminiService.AnalyzeFoodInput` | services/geminiService.ts:7-71 | no key: the fixed mock for every input, never a rejection; with a key: success exactly when the response has non-empty text that parses, the value being the parse; an empty text or a throwing call or parse gives the single error "分析失败，请稍后再试" and never the mock |
| `GeminiService.MockAnalysisShape` | services/geminiService.ts:12-20 | the mock has three dishes, 番茄炒蛋 250 g, 米饭 150 g and 清炒时蔬 100 g, and a load of 75 |
| `GeminiService.MockReport` | services/geminiService.ts:74-76 | the no-key report starts with its fixed head, embeds the entry count right after it and ends with ✨ |
| `GeminiService.MockReportCount` | services/geminiService.ts:76 | the digits embedded in the no-key report are decimal digits that read back as the number of entries |
| `GeminiService.LogLines` | services/geminiService.ts:81-83 | one serialised line per entry, in list order |
| `GeminiService.LogsText` | services/geminiService.ts:81-83 | no entries serialise to the empty string, a single entry to its own line |
| `GeminiService.LogLine` | services/geminiService.ts:82 | a line (date, food note or 未记录 when falsy, feeling) contains no newline when its date and note contain none |
| `GeminiService.LogLineLayout` | services/geminiService.ts:82 | a line starts with "日期: " and the date and ends with the feeling's value |
| `GeminiService.LogsTextLines` | services/geminiService.ts:81-83 | splitting `logsText` at newlines gives back exactly the per-entry lines, in order |
| `GeminiService.GenerateWeeklyReport` | services/geminiService.ts:73-113 | never rejects and never empty; no key: the template with the count; with a key: the apology when the call threw, "生成报告失败" when the text is empty, and otherwise exactly the provider's own non-empty text |
| `JournalScreen.CountIsMultiplicity` | components/Journal.tsx:75-79 | a feeling's filter-count is its multiplicity in the multiset of the entries' feelings |
| `JournalScreen.CountConcat` | components/Journal.tsx:75-79 | counting distributes over concatenation of entry lists |
| `JournalScreen.CountOf` | components/Journal.tsx:75-79 | a feeling's filter-count is at most the number of entries |
| `JournalScreen.CountExtremes` | components/Journal.tsx:75-79 | a feeling's count is 0 exactly when no entry has that feeling, and the number of entries exactly when every entry has it |
| `JournalScreen.ChartData` | components/Journal.tsx:75-79 | three bars, named 刚好, 有点撑 and 撑到了 in that order, coloured #AEC6CF, #FDFD96 and #FFD1DC, each valued at the count of its feeling |
| `JournalScreen.ChartTotal` | components/Journal.tsx:75-79 | the three bars add up to the number of entries |
| `JournalScreen.SeedEntries` | components/Journal.tsx:27-34 | the seed has six entries, two per feeling, each with a food note and no general note |
| `JournalScreen.NewEntry` | components/Journal.tsx:41-47 | the new entry carries the given feeling, id, date and time; its food note is the pending food when truthy, otherwise "未记录食物", so it is never empty |
| `JournalScreen.LogAddsToOneBar` | components/Journal.tsx:48 | prepending an entry raises its own feeling's count by one and leaves the other counts unchanged |
| `JournalScreen.Journal.constructor` | components/Journal.tsx:13-19 | first render: no entries, nothing shown, storage as found, and no hide pending |
| `JournalScreen.Journal.Load` | components/Journal.tsx:21-38 | a stored list is adopted and nothing is written; with nothing stored, the seed becomes the list and is persisted under "weiwei_logs"; either way the persisted copy equals the list |
| `JournalScreen.Journal.HandleLog` | components/Journal.tsx:40-59 | callable only while the log buttons are shown, which the confirmation replaces (components/Journal.tsx:110-147); the list grows by one, with the new entry at the head and the old list as the tail; the persisted copy equals the new list; the clear callback runs exactly when the pending food is truthy and a callback is supplied; the confirmation shows with exactly one hide pending |
| `JournalScreen.Journal.ConfirmationTimeout` | components/Journal.tsx:58 | a pending hide timeout hides the confirmation, so the confirmation is up exactly while one hide is pending; nothing else changes |
| `JournalScreen.Journal.StartReport` | components/Journal.tsx:61-64 | the overlay opens, loading, with empty content |
| `JournalScreen.Journal.FinishReport` | components/Journal.tsx:65-72 | the report text on success, "生成报告失败，请稍后再试。" on a rejection; loading ends in both cases |
| `JournalScreen.Journal.GenerateReport` | components/Journal.tsx:61-73 | the whole handler shows the gateway's report for the current list, never empty, with loading ended |
| `JournalScreen.Journal.CloseReport` | components/Journal.tsx:189 | the overlay closes; the list and storage are unchanged |
| `BreathingExercise.MountedConsistent` | components/Emergency.tsx:151-194 | on mount: phase Start, text 准备, countdown 0, one pending 500 ms timeout that runs the sequence; the invariant holds |
| `BreathingExercise.Entered` | components/Emergency.tsx:159-164 | entering a phase shows its text, resets the countdown to its seconds, and appends one live interval and one live timeout that runs the phase's end after the phase's duration; older handles and the completion count are kept |
| `BreathingExercise.AfterAction` | components/Emergency.tsx:166-191 | the pre-roll enters In, the end of In enters Hold, the end of Hold enters Out; each end stops the running countdown; the end of Out calls the completion callback once and stays in Out |
| `BreathingExercise.Step` | components/Emergency.tsx:155-199 | one event: a spent or unknown timeout changes nothing; a tick lowers the countdown by one, clamped at 0, or changes nothing; cleanup stops the held timer and interval and keeps phase, countdown and completions; no event completes more than once or removes a handle |
| `BreathingExercise.EnteredConsistent` | components/Emergency.tsx:159-164 | entering a phase with nothing pending sets its countdown and text, starts one interval and one timeout, and establishes the invariant |
| `BreathingExercise.StepConsistent` | components/Emergency.tsx:155-199 | every timeout, tick or cleanup keeps the invariant: at most the handles held in `timer` and `interval` are live, and the countdown stays between 0 and the phase's seconds |
| `BreathingExercise.StepInOrder` | components/Emergency.tsx:166-192 | a phase either stays or moves one step forward (Start, In, Hold, Out) with its countdown reset to 4, 7 or 8; the countdown never rises within a phase; the completion callback runs only when Out ends |
| `BreathingExercise.RunConsistent` | components/Emergency.tsx:155-199 | the invariant holds after any sequence of events |
| `BreathingExercise.FinishAtMostOnce` | components/Emergency.tsx:186-189 | whatever happens after mounting, the completion callback runs at most once, and only in phase Out |
| `BreathingExercise.FullSessionCompletesOnce` | components/Emergency.tsx:166-194 | letting each scheduled timeout fire runs In for 4000 ms, Hold for 7000 ms and Out for 8000 ms, then completes exactly once with nothing left pending |
| `BreathingExercise.FullSessionWithTicks` | components/Emergency.tsx:159-194 | with any number of ticks of the running countdown during In, Hold and Out, letting the four timeouts fire in turn completes exactly once, in Out, with nothing pending and the countdown at 8 minus the ticks of Out, clamped at 0 |
| `BreathingExercise.QuietStep` | components/Emergency.tsx:196-199 | with nothing pending, no event changes the state |
| `BreathingExercise.QuietRun` | components/Emergency.tsx:196-199 | with nothing pending, no sequence of events changes the state |
| `BreathingExercise.CleanupSilences` | components/Emergency.tsx:196-199 | cleanup clears only the two held handles, yet leaves nothing pending, so no later phase change, tick or completion happens |
| `BreathingExercise.TicksCountDown` | components/Emergency.tsx:159-163 | k ticks of the live interval lower the countdown by k, clamped at 0, and change nothing else |
| `BreathingExercise.Breathing.constructor` | components/Emergency.tsx:151-194 | the effect's state right after mounting |
| `BreathingExercise.Breathing.StartTimer` | components/Emergency.tsx:159-164 | `startTimer` sets the countdown and stores a new live interval in `interval` |
| `BreathingExercise.Breathing.SetTimeout` | components/Emergency.tsx:172 | `timer = setTimeout(…)` stores a new live timeout in `timer` |
| `BreathingExercise.Breathing.ClearInterval` | components/Emergency.tsx:173 | `clearInterval(interval)` stops only the interval held in `interval` |
| `BreathingExercise.Breathing.ClearTimeout` | components/Emergency.tsx:197 | `clearTimeout(timer)` stops only the timeout held in `timer` |
| `BreathingExercise.Breathing.EnterPhase` | components/Emergency.tsx:168-172 | setting phase and text, starting the countdown and scheduling the phase's end, proved equal to `Entered` |
| `BreathingExercise.Breathing.RunAction` | components/Emergency.tsx:166-191 | a timeout's callback body, proved equal to `AfterAction` |
| `BreathingExercise.Breathing.OnTimeout` | components/Emergency.tsx:172-194 | a timeout callback, proved equal to the step function, keeps the invariant |
| `BreathingExercise.Breathing.OnInterval` | components/Emergency.tsx:161-163 | a tick, proved equal to the step function, keeps the invariant |
| `BreathingExercise.Breathing.Cleanup` | components/Emergency.tsx:196-199 | the cleanup, proved equal to the step function, leaves nothing pending |
| `BubbleGame.Generate` | components/Emergency.tsx:234-242 | twelve unpopped bubbles with ids 0 to 11 and colour `palette[i % 4]` |
| `BubbleGame.PopById` | components/Emergency.tsx:246 | ids and colours are kept; a bubble is popped after the update exactly when it was popped before or has the given id |
| `BubbleGame.PopIdempotent` | components/Emergency.tsx:246 | popping the same id twice is the same as popping it once |
| `BubbleGame.PopPoppedUnchanged` | components/Emergency.tsx:246 | popping an id whose bubbles are already popped leaves the field unchanged |
| `BubbleGame.AfterPop` | components/Emergency.tsx:244-251 | the field is updated, and a completion is scheduled exactly when every bubble is popped after the update |
| `BubbleGame.AfterClick` | components/Emergency.tsx:270-273 | a click keeps the field's size, never un-pops a bubble, schedules at most one completion, and changes nothing on a popped (disabled) or absent button |
| `BubbleGame.AfterClicks` | components/Emergency.tsx:270-273 | any clicks keep the field's size, never un-pop a bubble and never lower the scheduled count |
| `BubbleGame.ClickPops` | components/Emergency.tsx:269-273 | a click (a popped bubble's button is disabled) pops exactly the clicked bubble, and completion is scheduled once exactly when the field is all popped |
| `BubbleGame.ClicksPop` | components/Emergency.tsx:244-273 | after any clicks, a bubble is popped exactly when it was clicked, and the scheduling invariant holds |
| `BubbleGame.CompletionOnce` | components/Emergency.tsx:247-249 | from a fresh field, completion is scheduled at most once, and exactly when all twelve bubbles have been clicked |
| `BubbleGame.BubbleField.constructor` | components/Emergency.tsx:234-242 | the generated field with nothing scheduled |
| `BubbleGame.BubbleField.Pop` | components/Emergency.tsx:244-253 | the `pop(id)` handler, proved equal to `AfterPop` |
| `BubbleGame.BubbleField.Click` | components/Emergency.tsx:272-273 | a click on a rendered button, proved equal to `AfterClick` |
| `MindfulAsk.DrawIndex` | components/Emergency.tsx:302 | a random draw in [0, 1) gives an index into the 4-question catalogue |
| `MindfulAsk.FirstNewIndex` | components/Emergency.tsx:300-303 | the index the do-while settles on, the first drawn index that differs from the current one, is a valid index other than the current one |
| `MindfulAsk.PickQuestion` | components/Emergency.tsx:300-303 | the do-while returns `FirstNewIndex` of the draws, having consumed exactly the draws up to the first one whose index differs |
| `MindfulAsk.Classify` | components/Emergency.tsx:307-313 | 'eat' leads to the Eat view, 'distract' and 'water' to the Distract view, and the Question view is never produced |
| `MindfulAsk.EveryQuestionReachesBothViews` | components/Emergency.tsx:20-49 | the catalogue has four questions, each with two answers, one leading to each outcome view |
| `MindfulAsk.QuestionTextsDistinct` | components/Emergency.tsx:20-49 | no two catalogue questions have the same text |
| `MindfulAsk.ActivityButtons` | components/Emergency.tsx:350-397 | the Question view offers no activity button and each outcome view at least one (three for Distract, one for Eat) |
| `MindfulAsk.AskDialog.constructor` | components/Emergency.tsx:295-296 | question 0 in the Question view |
| `MindfulAsk.AskDialog.CurrentQuestion` | components/Emergency.tsx:315 | `currentQ` is a catalogue question, with its two answers |
| `MindfulAsk.AskDialog.RefreshQuestion` | components/Emergency.tsx:298-305 | back to the Question view, which offers no activity, showing `FirstNewIndex` of the draws: a valid question whose text differs from the previous one |
| `MindfulAsk.AskDialog.HandleAnswer` | components/Emergency.tsx:307-313 | the view becomes the classification of the answer; the question is kept |
| `MindfulAsk.AskDialog.ChooseActivity` | components/Emergency.tsx:350-397 | activity button k invokes the completion callback exactly when the shown view has such a button, never in the Question view |
| `MindfulAsk.AskDialog.AnswerAndAct` | components/Emergency.tsx:307-397 | answering any option and taking the outcome view's first activity always invokes the completion callback |
| `EmergencyScreen.Emergency.constructor` | components/Emergency.tsx:52-53 | the menu, with no celebration and nothing scheduled |
| `EmergencyScreen.Emergency.SetMode` | components/Emergency.tsx:90-93 | a menu or back button sets the mode; the overlay is untouched |
| `EmergencyScreen.Emergency.HandleFinish` | components/Emergency.tsx:55-61 | the celebration shows and one more 3000 ms hide is queued; the mode is kept until then; every queued hide is a 3000 ms one and the overlay is never up without one |
| `EmergencyScreen.Emergency.CelebrationTimeout` | components/Emergency.tsx:57-60 | the oldest queued hide fires: the celebration hides and the menu returns |
| `PlannerScreen.ItemNames` | components/Planner.tsx:41 | the items' names, in order |
| `PlannerScreen.FoodSummary` | components/Planner.tsx:41 | no items give the empty summary, a single item its bare name |
| `PlannerScreen.FoodSummaryAppend` | components/Planner.tsx:41 | one more item adds " + " and its name to the summary |
| `PlannerScreen.FoodSummaryEmpty` | components/Planner.tsx:41 | the summary is empty exactly when there are no items, or one item with an empty name |
| `PlannerScreen.FillLevel` | components/Planner.tsx:48 | 0 with no result, otherwise the load capped at 100: at most 100, at most the load, and equal to the load when that is at most 100 |
| `PlannerScreen.GetColorState` | components/Planner.tsx:55-59 | pink above 85, yellow above 60 up to 85, green at 60 or below, as three if-and-only-if bands |
| `PlannerScreen.IsOverload` | components/Planner.tsx:49 | only a result can overload, and the overload flag (raw load above 85) holds exactly when the colour of the capped level is pink |
| `PlannerScreen.EmojiIndex` | components/Planner.tsx:202 | `name.length % 5` indexes one of the five emojis |
| `PlannerScreen.Planner.constructor` | components/Planner.tsx:12-15 | empty input, not loading, no result, input view |
| `PlannerScreen.Planner.SetInput` | components/Planner.tsx:92 | the input becomes the typed text; nothing else changes |
| `PlannerScreen.Planner.StartAnalyze` | components/Planner.tsx:17-20 | reachable only when not loading and with non-empty input (the button is disabled otherwise, components/Planner.tsx:97); a no-op exactly when the input trims to empty; otherwise loading starts and the result is cleared |
| `PlannerScreen.Planner.CompleteAnalyze` | components/Planner.tsx:21-29 | success stores the result and shows the result view; failure keeps result and view; loading ends in both cases |
| `PlannerScreen.Planner.HandleAnalyze` | components/Planner.tsx:17-30 | the whole handler against the gateway, from the enabled button (components/Planner.tsx:97): whitespace-only input does nothing; otherwise success shows exactly the gateway's analysis of the input, failure leaves no result and the view unchanged, and loading ends |
| `PlannerScreen.Planner.HandleBack` | components/Planner.tsx:32-36 | the input view, with empty input and no result |
| `PlannerScreen.Planner.HandleRecordFeeling` | components/Planner.tsx:38-45 | the item names joined by " + " are handed over exactly when there is a result; the journal tab is always the target |
| `AppShell.RenderContent` | App.tsx:16-27 | the journal tab shows the journal with the pending food, the emergency tab the calm-down screen, and every other value the planner |
| `AppShell.EveryTabHasItsScreen` | App.tsx:17-26 | each of the three tabs is shown as its own screen |
| `AppShell.App.constructor` | App.tsx:9-10 | planner tab, no pending food |
| `AppShell.App.HandleRecordFood` | App.tsx:12-14 | the new summary replaces any pending one |
| `AppShell.App.ClearPendingFood` | App.tsx:21 | the journal's clear callback empties the pending food |
| `AppShell.App.SetTab` | App.tsx:19 | navigation sets the tab and keeps the pending food |
| `AppShell.App.RecordFromPlanner` | App.tsx:19 | the planner's summary, when there is a result, becomes the pending food, and the journal is shown with it |
| `AppShell.App.LogFeeling` | App.tsx:21 | a journal log (while its buttons are shown) takes the pending food when truthy and then clears it; otherwise it records "未记录食物" and the pending value stays; the journal's list and storage gain the entry, its confirmation shows with one more hide pending, and its report state is untouched |

## Left out
- Rendering (JSX, styling, SVG, animation), the menu's layout and the tab bar (components/Navigation.tsx is not part of this model). The tab bar only calls the shell's tab setter with a constant.
- The provider SDK, the model name, the prompt wording and the response schema passed to the SDK. The provider's answer is an abstract outcome: it threw, or it resolved with text that may be empty.
- `JSON.parse`/`JSON.stringify` of the stored list are taken to round-trip. A stored value that fails to parse, and a stored empty string (which is falsy and would re-seed), are not modelled.
- Real time: `setTimeout`/`setInterval` are events in any order, and there is no concurrency. The breathing timeouts' delays (500, 4000, 7000 and 8000 ms) and the 3000 ms celebration hide are recorded with the scheduled timeouts but not enforced. The 1000 ms period of the countdown interval is not recorded: an interval is only a live flag. The journal's 2000 ms confirmation hide and the bubble game's 500 ms completion delay are counted, not timed. The gateway's 1500/2000 ms mock delays are not modelled.
- `Date.now()`, the ISO date and the `Math.random()` id of a new entry are parameters. The ids are not unique, because the code does not make them unique.
- `JournalScreen.SeedEntries`: all six seed timestamps are offsets from one `now`. The source calls `Date.now()` once per entry (components/Journal.tsx:28-33), so its timestamps can drift apart by the milliseconds between those calls.
- `Math.random()` in the quiz is a finite list of draws. `MindfulAsk.PickQuestion` requires a draw that differs from the current index; the source's loop has no bound of its own.
- Floating-point numbers: loads and weights are mathematical reals. The random position, size and delay of each bubble, and the stomach drawing's `scale`, are not modelled.
- `navigator.vibrate`, `alert` and `console` side effects.
- `PlannerScreen.EmojiIndex` counts characters, not UTF-16 code units as `name.length` does; the two differ for names outside the Basic Multilingual Plane.
- Mounting and unmounting of the calm-down flows when the mode changes is not composed into one model. The breathing flow's unmount is its `Cleanup`. The bubble and quiz flows hold no timers besides the bubble completion, which is counted, not cancelled.
- Invoking the completion callback from the flows into `EmergencyScreen.Emergency.HandleFinish` is not composed. The flows count or report their completion calls instead.
- `GeminiService.AnalyzeFoodInput`: a response text that parses to something other than a meal analysis is not modelled. In the source, the text `null` resolves to `null`, and the planner then shows the result view with no result (components/Planner.tsx:23-24, 121). A value without `items` throws when the result view renders (components/Planner.tsx:195).
- `AppShell.App.SetTab`: switching tabs unmounts the screen being left and mounts the new one (App.tsx:16-27). The planner's state is then discarded, and the journal runs its load again on every return. The model keeps each screen's object apart and does not compose this.
