# WealthWise goal planner — Dafny model

A model of the logic inside the WealthWise goal-planning app:

- the savings-plan arithmetic run by the "Calculate" button (`FinancialGoalForm`);
- the goal record built by "Save Goal" (`FinancialGoalForm.NewGoal`);
- the page that owns the goal list, the completed-goal counter, the user level and
  the sticky "First Goal" flag (`HomePage`, with class `Home`);
- the profile card's level progress and badges (`UserProfile`);
- the advice request and its canned fallback, with the network abstracted (`AiService`);
- the goal list's per-goal actions and the progress dialog (`GoalHistory`, with class
  `ProgressDialog`);
- the results card: gap tile, chart and recommendation text (`ResultsSection`, with
  class `ResultsPanel`).

`GoalTypes` holds the `Goal` and `CalculationResult` records of `lib/types.ts`.
Amounts are Dafny `real`s, so the plan identities hold exactly. A goal's `durationType`
stays a string: `"years"` is scaled by 12 and every other value counts as months, as in
the code. The `date` is a value that is only carried along.

The page's state and the dialog's state are classes whose methods reassign their fields
the way the React setters do. The list transforms (`filter`, `map`, the count) are pure
recursive functions on sequences. `Home.Valid()` is the page invariant: the level always
follows the counter by `completed / 5 + 1`, the first-goal flag is on whenever goals
exist, and the counter is never below the number of completed goals in the list.

In these places the model follows the code, which a reader might not expect:

- The "First Goal" badge is a sticky flag. It is set by the first save and by loading a
  non-empty list. It is not "the list is non-empty": deleting every goal leaves it on.
- The completed counter and level are recomputed only on load and on complete. A delete
  leaves them stale (`HomePage.DeleteLeavesCountStale`).
- Updating progress is allowed on a completed goal.
- Progress is not forced into [0,100]. The saved goal's initial progress is the raw
  ratio (`FinancialGoalForm.SavedProgressIsNotClamped`). The dialog's savings input is
  not clamped either.
- The duration unit is any string, not a closed set.

## Model

| member | source | states |
|---|---|---|
| `FinancialGoalForm.Calculate` | components/financial-goal-form.tsx:27-60 | required saving × months + savings = goal exactly; potential = income − expenses, unclamped; gap = potential − required, so gap ≥ 0 iff potential ≥ required; progress in [0,100], equal to savings/goal·100 when that lies in range, 100 when savings ≥ goal > 0, 0 when savings ≤ 0 < goal; goal and savings echoed |
| `FinancialGoalForm.DurationInMonths` | components/financial-goal-form.tsx:41 | a duration in "years" is 12 times as many months; any other unit is taken as months |
| `FinancialGoalForm.Clamp` | components/financial-goal-form.tsx:48 | the min/max clamp stays in [lo,hi], is the identity inside, and pins values below/above to lo/hi |
| `FinancialGoalForm.YearsPlanAsMonths` | components/financial-goal-form.tsx:41 | a horizon of N "years" gives exactly the plan of 12·N "months" |
| `FinancialGoalForm.OtherUnitsPlanAsMonths` | components/financial-goal-form.tsx:41 | any unit other than "years" plans as months |
| `FinancialGoalForm.NewGoal` | components/financial-goal-form.tsx:62-75 | the saved record has an empty id, completed = false, the form's fields and an unclamped progress with progress·goal = savings·100 |
| `FinancialGoalForm.SavedProgressMatchesPlan` | components/financial-goal-form.tsx:74 | for 0 ≤ savings ≤ goal, the saved goal's progress equals the plan's progress percentage |
| `FinancialGoalForm.SavedProgressIsNotClamped` | components/financial-goal-form.tsx:74 | savings 200 of a goal of 100: the plan shows 100% while the saved goal records 200% |
| `FinancialGoalForm.SurplusExample` | components/financial-goal-form.tsx:38-48 | 5000/3000/1000/10000 over 12 months gives potential 2000, required 750, gap 1250, progress 10 |
| `FinancialGoalForm.DeficitExample` | components/financial-goal-form.tsx:38-48 | a goal of 50000 over 1 year gives required 49000/12, a negative gap and progress 2 |
| `HomePage.Appended` | app/page.tsx:46 | save appends exactly one goal at the end, with the fresh id, the new date and completed = false; earlier goals unchanged |
| `HomePage.Removed` | app/page.tsx:56 | delete keeps exactly the goals whose id differs |
| `HomePage.MarkedCompleted` | app/page.tsx:61 | complete sets completed on the matching goals only; length and every other goal and field unchanged |
| `HomePage.ProgressUpdated` | app/page.tsx:71 | update overwrites only progress and currentSavings of the matching goals, completed or not; length unchanged |
| `HomePage.CompletedCount` | app/page.tsx:63 | the completed count is at most the length |
| `HomePage.CompletedCountExtremes` | app/page.tsx:63 | the count is 0 iff no goal is completed, and the length iff every goal is |
| `HomePage.Level` | app/page.tsx:65 | the level is at least 1 and is the block of five the count falls in: 5·(level−1) ≤ count < 5·level |
| `HomePage.LevelExamples` | app/page.tsx:29 | 0 completions give level 1, 4 give 1, 5 give 2, 12 give 3 |
| `HomePage.RemovedConcat` | app/page.tsx:56 | delete distributes over concatenation, so the kept goals stay in their original order |
| `HomePage.RemovedAbsent` | app/page.tsx:56 | deleting an id that no goal carries leaves the list unchanged |
| `HomePage.SaveThenDelete` | app/page.tsx:46-56 | saving under an id not yet present and then deleting that id restores the original list |
| `HomePage.MarkedCompletedIdempotent` | app/page.tsx:61 | completing twice equals completing once |
| `HomePage.CompletedCountConcat` | app/page.tsx:63 | the completed count is additive over concatenation |
| `HomePage.CompletedCountAppended` | app/page.tsx:46 | a save does not change the real completed count |
| `HomePage.CompletedCountRemoved` | app/page.tsx:55-58 | a delete never raises the real count and lowers it when a completed goal is deleted |
| `HomePage.CompletedCountProgressUpdated` | app/page.tsx:70-73 | a progress update does not change the real completed count |
| `HomePage.CompletedCountMarked` | app/page.tsx:60-66 | complete never lowers the count and raises it when an open goal carries the id |
| `HomePage.IdsKept` | app/page.tsx:61-71 | complete and progress update keep the set of ids present |
| `HomePage.NothingReopens` | app/page.tsx:55-73 | no list operation turns a completed goal back into an open one |
| `HomePage.DeleteLeavesCountStale` | app/page.tsx:55-58 | deleting the only completed goal drops the real count from 1 to 0; with `Home.HandleDeleteGoal` keeping the counter, the counter goes stale |
| `HomePage.Home.constructor` | app/page.tsx:13-17 | initial state: no goals, no result, level 1, 0 completed, no first-goal badge |
| `HomePage.Home.LoadSavedGoals` | app/page.tsx:20-34 | a stored list replaces the goals and sets counter = completed count, level by the formula, flag = non-empty; an empty slot changes nothing |
| `HomePage.Home.HandleCalculate` | app/page.tsx:41-43 | stores the result; nothing else changes |
| `HomePage.Home.HandleSaveGoal` | app/page.tsx:45-53 | goals become `Appended(...)`; the first-goal flag turns on and stays on; counter and level unchanged |
| `HomePage.Home.HandleDeleteGoal` | app/page.tsx:55-58 | goals become `Removed(...)`; counter, level and flag unchanged; when a completed goal goes, the counter ends strictly above the real completed count |
| `HomePage.Home.HandleCompleteGoal` | app/page.tsx:60-67 | goals become `MarkedCompleted(...)`; counter = completed count of the new list, level by the formula; flag unchanged |
| `HomePage.Home.HandleUpdateProgress` | app/page.tsx:70-73 | goals become `ProgressUpdated(...)`; counter, level and flag unchanged |
| `UserProfile.LevelProgress` | components/ui/user-profile.tsx:16 | level progress is 20·(completed mod 5), within [0,80], and 0 exactly when completed is a multiple of 5 |
| `UserProfile.Badges` | components/ui/user-profile.tsx:46-71 | "First Goal" iff the flag, "Goal Achiever" iff completed ≥ 1, "Dedicated" iff level ≥ 2 |
| `UserProfile.View` | components/ui/user-profile.tsx:13-41 | the card shows the level, next level = level + 1, the counter completed mod 5 and the bar `LevelProgress(completed)`, 20% per counted goal, and the badges |
| `UserProfile.DedicatedUnderPageLevel` | components/ui/user-profile.tsx:64 | under the page's level formula, "Dedicated" iff completed ≥ 5, and "Dedicated" implies "Goal Achiever" |
| `UserProfile.CounterAgreesWithLevel` | components/ui/user-profile.tsx:37-38 | under the page's level formula, 5·(level−1) + counter recovers the completed count |
| `AiService.RequestBody` | lib/ai-service.ts:19-28 | the payload carries the six plan fields, userGoals and userLevel unmodified (the plan is recovered from it) |
| `AiService.Delivered` | lib/ai-service.ts:31-37 | the success path: a response arrived, it is ok, and its body parsed to a value whose `advice` can be read |
| `AiService.FallbackAdvice` | lib/ai-service.ts:42-46 | the surplus message iff gap ≥ 0, otherwise the deficit message; both quote \|gap\| |
| `AiService.FallbackQuotesGap` | lib/ai-service.ts:43-45 | the gap can be read back from the canned message: nothing but its sign and size is used |
| `AiService.GetAIFinancialAdvice` | lib/ai-service.ts:8-48 | the advice is the service's `advice` member unchanged exactly when the response is ok and parses; otherwise, never an error, it is the canned message for the plan's gap |
| `AiService.NotOkFallsBack` | lib/ai-service.ts:31-33 | a response that is not ok always ends in the fallback, whatever its body |
| `AiService.FallbackDependsOnlyOnGap` | lib/ai-service.ts:42-46 | two failed requests whose plans have the same gap give the same answer, whatever the other fields, goal count, level or kind of failure |
| `GoalHistory.ActionsFor` | components/goal-history.tsx:78-108 | update and complete are offered iff the goal is not completed; delete always |
| `GoalHistory.CompletedGoalOffersOnlyDelete` | components/goal-history.tsx:78-99 | after the page completes a goal, its card offers only delete |
| `GoalHistory.ProgressRoundTrip` | components/goal-history.tsx:166-194 | for a positive goal amount, percentage → savings → percentage returns the same percentage |
| `GoalHistory.SavingsRoundTrip` | components/goal-history.tsx:166-194 | for a positive goal amount, savings → percentage → savings returns the same savings |
| `GoalHistory.ProgressDialog.constructor` | components/goal-history.tsx:23-26 | closed, nothing selected, both fields 0 |
| `GoalHistory.ProgressDialog.OpenProgressDialog` | components/goal-history.tsx:28-33 | selects the goal, copies its progress and savings, opens |
| `GoalHistory.ProgressDialog.SetDialogOpen` | components/goal-history.tsx:152-204 | Cancel or the dialog's own close only changes the open flag |
| `GoalHistory.ProgressDialog.OnSavingsInput` | components/goal-history.tsx:166-173 | stores the savings; the percentage follows, unclamped, only for a positive goal amount, and then the two fields are in step |
| `GoalHistory.ProgressDialog.OnProgressInput` | components/goal-history.tsx:190-195 | stores the percentage; the savings follow as p/100·goal; for a positive goal amount the two fields are in step |
| `GoalHistory.ProgressDialog.HandleUpdateProgress` | components/goal-history.tsx:35-40 | with a goal selected, emits (id, progress, savings) and closes; with none, emits nothing and changes nothing |
| `ResultsSection.IsPositiveGap` | components/results-section.tsx:23 | a gap of zero or more counts as a surplus |
| `ResultsSection.ChartData` | components/results-section.tsx:25-34 | two bars: "Current Savings" with the savings, then "Remaining", never negative |
| `ResultsSection.Remaining` | components/results-section.tsx:32 | the remaining bar is never negative; savings + remaining = goal when savings ≤ goal, else remaining = 0 |
| `ResultsSection.ChartReachesGoal` | components/results-section.tsx:25-34 | the chart is the savings bar then a non-negative remaining bar, stacking to the larger of goal and savings |
| `ResultsSection.GapTileFor` | components/results-section.tsx:71-82 | the tile shows \|gap\| under "Monthly Surplus" iff gap ≥ 0, else "Monthly Deficit" |
| `ResultsSection.GapTileAgreesWithFallback` | components/results-section.tsx:75-80 | the tile and the canned advice agree on side and amount |
| `ResultsSection.RecommendationShown` | components/results-section.tsx:105-119 | spinner iff loading; when not loading, a stored non-empty advice is shown as that text and a stored canned message as it is; a text is shown only when it is the stored non-empty advice; any other message is the inline one chosen by the gap |
| `ResultsSection.ShownAfterFetch` | components/results-section.tsx:113-117 | after a fetch for a plan, a delivered non-empty advice is the text shown; a text is shown only if delivered; otherwise the card shows the canned message for that plan's gap |
| `ResultsSection.ResultsPanel.constructor` | components/results-section.tsx:18-19 | no advice, not loading |
| `ResultsSection.ResultsPanel.BeginFetch` | components/results-section.tsx:39 | the loading flag goes up before the request; the advice is kept |
| `ResultsSection.ResultsPanel.FinishFetch` | components/results-section.tsx:41-47 | the advice is stored and the loading flag comes down |
| `ResultsSection.ResultsPanel.FetchAdvice` | components/results-section.tsx:38-48 | one run of the effect ends with the flag down and the advice of `GetAIFinancialAdvice` stored, whatever the outcome |

## Left out

- Persistence: the browser storage read and write and the JSON round trip are I/O. `Home.LoadSavedGoals` takes the already parsed list, `None` for an empty slot. The unguarded parse of a corrupt slot, and the date coming back as a string, are not modelled.
- Id and date generation: the timestamp id and `new Date()` are clock reads. They become the `freshId` and `now` parameters. The code does not guarantee that the id is fresh, so only `HomePage.SaveThenDelete` assumes it.
- Number parsing and floating point: `parseFloat`, NaN, Infinity, rounding and `toFixed` formatting are not modelled. Amounts are exact reals.
- FinancialGoalForm.Calculate: requires a non-zero goal amount and a non-zero duration in months. Without them the code produces Infinity or NaN, which the real-number model cannot represent.
- FinancialGoalForm.NewGoal: requires a non-zero goal amount, for the same reason.
- Message wording: the two canned texts are the `FallbackMessage` values `Surplus(amount)` and `Deficit(amount)`, not formatted strings. The inline text in the results card uses the same two templates as the advice service, so both are modelled by `AiService.FallbackAdvice`.
- Transport: `fetch`, `response.json()`, the status text in the thrown error and the console logging are replaced by the `send` outcome parameter. A JSON `advice` member that is not a string is not modelled. Such a member is either a string or absent. A body that parses to JSON `null` is `Unparsable`, because reading `advice` from it throws; a number, string or boolean body is `Json(None)`, because its `advice` reads as undefined.
- The advice route and its prompt (app/api/financial-advice/route.ts) are not part of this model. They are a string template around a foreign text-generation library.
- Asynchrony in the results card: the effect is modelled as one uninterrupted `ResultsPanel.FetchAdvice` run. Out-of-order responses, re-runs when props change and the effect's `catch` branch are not modelled. That branch is unreachable because `GetAIFinancialAdvice` never throws.
- The props' defaults `userGoals = 0` and `userLevel = 1` (components/results-section.tsx:17) are not modelled: the page always passes both (app/page.tsx:89).
- The card treats `null`, `undefined` and `""` the same way. `ResultsPanel.aiAdvice` is `None` for the initial null. An absent `advice` member is `FromService(None)`.
- UserProfile.LevelProgress: takes the completed count as a natural number. The page only passes counts, so the truncating `%` on negative numbers is not modelled.
- The unused `goalsForNextLevel` (components/ui/user-profile.tsx:15) is left out.
- Rendering, theming, the chart widget, scroll areas, progress bars, the form-field resets and the Save button's enabled state are UI.
- The layout and the demo planner (financial-planner.tsx) are left out. The planner returns a constant string after a timer.
