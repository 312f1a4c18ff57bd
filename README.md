# MyPocket ledger core in Dafny

MyPocket is a personal-finance app. Its user records income, expenses, debts in both directions, credit spending and savings towards goals. The records can be split over payment accounts and checked against monthly budgets. Commands can also be typed in free text, and a language model turns them into records. This project models the app's ledger engine and the input handling around it:

- **Ledger store** (`AppState.Store`): the state slices of the app and the handlers that replace them.
  - Adding a record spreads the submitted data over the defaults.
  - Deleting a record, adding or removing accounts and custom categories.
  - Setting a budget, restoring a backup, flipping a feature.
  - Dispatching a model command, including the goal-completion check.
- **Derived values** (`Ledger`): everything computed from a snapshot of the state.
  - Account balances and the total balance.
  - The month view.
  - Budget progress.
  - Goal progress and the goal-reached trigger.
  - The category list and the due debts.
- **Charts** (`Stats`): spending grouped by category, and the income, expense and saving totals.
- **Model calls** (`Advisor`), without the model itself:
  - The guard and reply cleanup of the command parser.
  - The monthly summary of the advice request, with its top three categories.
- **Screens**:
  - The PIN lock (`Lock`).
  - The settings forms (`Settings`).
  - The add-transaction form (`TxForm`).
  - The command box (`Command`).
- **Helpers**:
  - `Seqs`: filter, map, sum, find, dedup, join.
  - `Sorting`: the stable descending sort.
  - `Text`: trim, lower case, includes, replace, string order.
  - `Calendar`: YYYY-MM-DD dates compared as strings.

Transactions are dated by a `Stamp`: the time used to sort them, plus the local month and year used to group them. Amounts are exact reals. Whatever comes from outside is a parameter:

- "now" and fresh ids;
- the model's reply and JSON parsing;
- the parsed backup file;
- the Notification API's state.

## Model

| member | source | states |
|---|---|---|
| Ledger.BalanceSplit | App.tsx:294-301 | The balance of an account is the sum of its INCOME and DEBT_OWED_BY_ME amounts minus the sum of its EXPENSE, DEBT_OWED_TO_ME, SAVING and CREDIT_SPEND amounts. A missing or empty account id counts as 'cash'. Other types count for nothing. |
| Ledger.BalancePermutation | App.tsx:294-301 | The balance is the same for any reordering of the transactions. |
| Ledger.TotalBalanceCounts | App.tsx:332-334 | When the account ids are distinct, the total balance sums each transaction once if it is charged to 'cash' or to a non-default account, and never otherwise. |
| Ledger.FilteredSpec | App.tsx:287-292 | The month view holds exactly the transactions of the viewed month and year, each as often as in the ledger. It is ordered newest first, and records with equal dates keep their ledger order. |
| Sorting.SortDescFacts | App.tsx:291 | The sort puts larger keys first and returns a permutation of its input. |
| Sorting.SortDescStable | App.tsx:291 | The sort is stable: the elements with any one key keep their relative order. |
| Ledger.Percentage | App.tsx:328 | A budget percentage never exceeds 100. For a positive limit it is 100 exactly when the spending reaches the limit, and otherwise spent/limit*100. It is not negative when the spending is not negative. |
| Ledger.BudgetProgressSpec | App.tsx:323-330 | There is one entry per budget, fullest first. Each entry's spent is the sum of the month's EXPENSE and CREDIT_SPEND amounts in its category, and no percentage exceeds 100. |
| Ledger.UpdatedGoals | App.tsx:313-320 | Each goal is kept except for its current amount, which becomes the sum of the SAVING amounts carrying its id. |
| Ledger.SavedForPrepend | App.tsx:313-320 | Adding a record raises a goal's saved amount by the record's amount if it is a SAVING for that goal, and by nothing otherwise. |
| Ledger.ReachedGoal | App.tsx:364-373 | The completion signal fires exactly when the first goal with the id has current < target <= current + added. The goal it names is that first goal with the id. |
| Ledger.ReachedOnce | App.tsx:348-373 | Once a non-negative saving has completed a goal and is recorded, the next check for that goal, whatever its amount, does not fire. Later negative savings or deletions can bring the goal below its target again, and this lemma says nothing about checks after those. |
| Ledger.UniqueCategoriesSpec | App.tsx:307-311 | The category list has no repeats. It holds exactly the non-empty transaction categories, the defaults and the custom categories. |
| Ledger.UpsertSpec | App.tsx:274-278 | After a budget is set, exactly one budget has the category, and it carries the new limit. The other budgets are the same, in the same order. |
| Ledger.UpsertIdempotent | App.tsx:274-278 | Setting the same budget twice is the same as setting it once. |
| Ledger.DueDebtsSpec | App.tsx:303-305 | The overdue count counts exactly the unpaid DEBT_OWED_BY_ME records with a reminder date on or before today, each as often as it occurs. |
| Ledger.DueByCalendar | App.tsx:303-305 | With YYYY-MM-DD dates, the string test "reminder <= today" holds exactly when the reminder falls on or before today on the calendar. |
| Calendar.IsoOrder | App.tsx:339 | Two valid dates in YYYY-MM-DD form compare as strings exactly as they compare on the calendar. |
| Calendar.Iso | App.tsx:338 | The date string has ten characters: dashes at positions 4 and 7, digits everywhere else. |
| Ledger.ReminderCount | App.tsx:336-346 | A reminder is raised exactly when notifications are supported and granted and some debt is due. It announces the number of due debts. |
| AppState.NewRecord | App.tsx:349-354 | The new record keeps the submitted amount, category, description, type, goal and reminder date; an absent `isPaid` is false. A submitted id or date replaces the fresh one. The record is charged to the submitted account when that is given and non-empty, and to 'cash' otherwise. |
| AppState.CheckedSavingCounts | App.tsx:357 | The guard `type === SAVING && goalId` runs the goal check exactly for the records that count toward a goal: the new record moves a goal's saved amount by its amount when the check runs for that goal, and by nothing otherwise. |
| AppState.Celebrated | App.tsx:364-373 | A goal is celebrated exactly when the completion signal fires on the goals as currently derived. |
| AppState.Store.constructor | App.tsx:88-124 | On a first start the ledger is empty, there is only the default cash account, and every feature is on. |
| AppState.Store.CheckGoalCompletion | App.tsx:364-374 | The goal is celebrated and announced only when the signal fires. Nothing else changes. |
| AppState.Store.AddTransaction | App.tsx:348-362 | The new record goes first and the rest stay in place. A SAVING for a goal is checked against the snapshot before the append. The view jumps to the current month. Nothing else changes. |
| AppState.Store.DeleteTransaction | App.tsx:412-415 | Every record with the id goes and the others keep their order. An unknown id changes nothing. The details view closes. |
| AppState.Store.AddAccount | App.tsx:208-216 | Without premium, at two accounts or more, nothing is added and the subscription screen opens. Otherwise exactly one BANK account is appended. At the limit, the settings screen replaces its add form with a banner that opens the subscription screen, on the same guard `AtAccountLimit`. |
| AppState.Store.DeleteAccount | App.tsx:218-220 | Only the accounts with the id are removed. |
| AppState.Store.AddCategory | App.tsx:222-226 | A category is appended only if absent, so a list without repeats stays without repeats. |
| AppState.Store.RemoveCategory | App.tsx:228-230 | The category is gone and the others are kept in order. |
| AppState.Store.SetBudget | App.tsx:274-280 | The budgets become the upsert of the category, and the banner announces it. |
| AppState.Store.ImportData | App.tsx:251-272 | A backup that does not parse changes nothing. Otherwise each field present in the backup replaces its slice, the rest are kept, and the settings close. |
| AppState.Store.ToggleFeature | App.tsx:423 | Exactly the one flag is flipped. |
| AppState.ToggledTwice | App.tsx:423 | Flipping a flag inverts it and leaves every other flag as it was, so flipping it twice restores the features. |
| AppState.Store.AddFromCommand | App.tsx:381-386 | The record goes on 'cash' whatever account the command named. A goal that the record completes is celebrated twice, both times against the snapshot taken before the append. Nothing else changes. |
| AppState.Store.HandleCommand | App.tsx:376-393 | A reply without `data` throws at the first read of `data.description`, and nothing changes. Otherwise the exchange is logged. A TRANSACTION is added on 'cash', and its goal check runs twice on the same snapshot. A BUDGET is set only while budgets are on. Anything else changes no data. The banner ends on the model's message. |
| Stats.PieSpec | components/StatsChart.tsx:17-26 | The pie's keys are distinct, and they are exactly the categories of EXPENSE and CREDIT_SPEND records. Each value is the sum of that category's spending. |
| Stats.GroupLookup | components/StatsChart.tsx:18-21 | The accumulated value under a category is the sum of the amounts in that category. |
| Stats.PieTotal | components/StatsChart.tsx:18-29 | The pie's values add up to the total expense. |
| Stats.PieEmpty | components/StatsChart.tsx:17-26 | The pie is empty exactly when there is no EXPENSE or CREDIT_SPEND record. |
| Stats.TotalsPrepend | components/StatsChart.tsx:28-30 | One more record moves only its own total: income for INCOME, expense for EXPENSE and CREDIT_SPEND, savings for SAVING. Other types move none. |
| Stats.BarData | components/StatsChart.tsx:32-36 | There are exactly three bars: income, expense and saving, in that order, each carrying its total. |
| Text.TrimSpec | services/geminiService.ts:58 | `trim` returns a contiguous part of its input and drops only whitespace. The result neither starts nor ends with whitespace. |
| Text.RemoveAllFences | services/geminiService.ts:58 | After every "```" is removed, no "```" is left. |
| Advisor.CleanupSpec | services/geminiService.ts:58 | The cleaned reply contains no "```" and has no whitespace at either end. |
| Advisor.CleanupPlain | services/geminiService.ts:58 | A reply without any "```" loses only its surrounding whitespace. |
| Advisor.CleanupFenced | services/geminiService.ts:57-58 | A reply wrapped in a "```json" ... "```" block whose body holds no backtick becomes the body without its surrounding whitespace. |
| Advisor.GoalsTextEmpty | services/geminiService.ts:16 | The goal list is empty exactly when there are no goals. |
| Advisor.GoalsTextAppend | services/geminiService.ts:16 | The goal list of two runs of goals is their lists joined by ", ", so each goal appears once, in order. |
| Advisor.ParseAIInput | services/geminiService.ts:9-65 | With no key, no request is sent and the result is null. A failed request or an empty reply gives null. Otherwise the result is the parse of the cleaned reply. |
| Advisor.ExpensesByCategory | services/geminiService.ts:84-89 | The loop's keys are the spending categories of the month, in order of first occurrence. Each value is that category's total, as the chart groups it. |
| Advisor.TopCategoriesSpec | services/geminiService.ts:91-93 | At most three entries are kept (all of them when there are fewer), largest first, each drawn from the input. No entry left out is larger than one kept. |
| Advisor.SummariseMonthOnly | services/geminiService.ts:74-81 | The summary reads only the transactions of the current month and year. |
| Advisor.GetFinancialAdvice | services/geminiService.ts:67-122 | With no key it returns the fixed apology and asks nothing. Otherwise it asks with the month's summary and returns the reply, or one apology for an empty reply and another for a failed request. |
| Lock.Check | components/AppLock.tsx:17-29 | A match happens exactly when a present, non-empty stored PIN equals the entry. A mismatch happens exactly when the entry has the stored PIN's length but differs. With no stored PIN nothing is compared. |
| Lock.PinPad.constructor | components/AppLock.tsx:13-14 | The pad starts empty, with no error and not unlocked. |
| Lock.PinPad.Settle | components/AppLock.tsx:17-29 | The effect unlocks on a match. On a mismatch it sets the error and schedules one reset. Otherwise nothing changes. |
| Lock.PinPad.NumClick | components/AppLock.tsx:33-38 | Below four characters the digit is appended, the error is cleared, and the comparison runs. At four nothing changes, so the entry never exceeds four characters. |
| Lock.PinPad.Delete | components/AppLock.tsx:40-42 | The last character is dropped. An empty entry stays empty and nothing changes. |
| Lock.PinPad.TimerFires | components/AppLock.tsx:23-26 | A pending reset empties the entry and clears the error, without unlocking. |
| Lock.LongPinLocksOut | components/AppLock.tsx:18 | A stored PIN longer than the keypad's four-character cap is never matched. |
| Lock.Typed | components/AppLock.tsx:33-38 | Pressing keys types one character per key, each the key's digit. |
| Lock.Enter | components/AppLock.tsx:17-38 | Typing as many digits as the stored PIN unlocks exactly when they spell it. Otherwise the error shows and the reset leaves the pad empty and clear. |
| Settings.PinCheck | components/SettingsModal.tsx:69-71 | As written: a new PIN whose length is not 4 is refused. So is one that differs from its confirmation. Otherwise the new PIN is set, whatever its characters. |
| Settings.LetterPinLocksOut | components/SettingsModal.tsx:69-71 | The as-written check sets the PIN "abcd", and no sequence of keypad keys types it, so the lock never matches. |
| Settings.DigitPinCheck | components/SettingsModal.tsx:69-71 | The corrected check: a PIN is set exactly when it has four characters, all digits, and equals its confirmation. |
| Settings.AcceptedPinUnlocks | components/SettingsModal.tsx:69-72 | A PIN accepted by the corrected check fits the lock's keypad, and pressing its keys types it and matches. |
| Settings.Submitted | components/SettingsModal.tsx:53-67 | Whitespace-only input passes nothing on. Otherwise the input minus its surrounding whitespace is passed on, non-empty and unpadded. |
| Settings.SettingsForm.constructor | components/SettingsModal.tsx:41-45 | The account, category and both PIN fields start empty, and the PIN form starts closed. |
| Settings.SettingsForm.SubmitPin | components/SettingsModal.tsx:69-76 | The PIN is checked by the rule as written, `PinCheck`, so any four characters equal to the confirmation are accepted. A refusal changes nothing. An accepted PIN is passed on once, and the PIN form is cleared and closed. |
| Settings.SettingsForm.SubmitAccount | components/SettingsModal.tsx:53-59 | It passes on the trimmed name and clears the field, or ignores whitespace-only input. |
| Settings.SettingsForm.SubmitCategory | components/SettingsModal.tsx:61-67 | It passes on the trimmed category and clears the field, or ignores whitespace-only input. |
| TxForm.AllCategoriesSpec | components/AddTransactionModal.tsx:60 | The list has no repeats, holds exactly the default and existing categories, and starts with the defaults in their order. |
| TxForm.FilteredCategoriesSpec | components/AddTransactionModal.tsx:61 | The filter keeps exactly the categories containing the typed text, ignoring case. An empty query keeps them all. |
| TxForm.Suggestion | components/AddTransactionModal.tsx:63-76 | A blank description gives no suggestion. Otherwise the suggestion is the category of the first recent record whose non-empty lowercased description contains the trimmed, lowercased input, or none if there is no such record. |
| TxForm.Form.constructor | components/AddTransactionModal.tsx:25-36 | The form starts empty, with the requested type and the first account or 'cash'. |
| TxForm.Form.Open | components/AddTransactionModal.tsx:41-52 | Opening the form resets every field to empty. The type becomes the requested one, and the account becomes the first account's id, or 'cash' when it has none. |
| TxForm.Form.Suggest | components/AddTransactionModal.tsx:63-76 | Only the suggestion is recomputed. |
| TxForm.Form.Submit | components/AddTransactionModal.tsx:95-103 | The goal is sent only for a SAVING. An empty reminder is left undefined. The chosen account is always given. |
| Command.Dispatch | components/SmartInput.tsx:70-87 | A null result is a connection error. An UNKNOWN action is not understood. Any other action is run, with the result itself. |
| Command.CommandBox.constructor | components/SmartInput.tsx:25-26 | The box starts empty and not loading. |
| Command.CommandBox.Submit | components/SmartInput.tsx:62-66 | Whitespace-only input returns with nothing changed. Otherwise loading starts and the input is sent. |
| Command.CommandBox.Resolve | components/SmartInput.tsx:70-88 | A run command is dispatched once and the input is cleared. A null or UNKNOWN result raises its alert and keeps the input. Loading ends, except when `onCommand` throws on a reply without `data`: then the input is kept and the box stays loading. |
| Command.CommandBox.Handle | components/SmartInput.tsx:62-89 | Without a key, or when the request fails, nothing is dispatched. At most one command is dispatched per submission: the parse of the model's reply, and only when the input was not blank. The box stays loading exactly when that command lacks `data`, so `onCommand` throws. |

## Left out

- The language model is left out. The `generateContent` calls, the prompt wording and the model name are not modelled; the reply is a parameter, and JSON parsing is a parameter function. `as AICommandResult` validates nothing. The model lets `data` be missing, which makes `handleAICommand` throw.
- The browser is left out:
  - persistence (localStorage, sessionStorage) and the backup download;
  - `FileReader` and `JSON.parse` of a backup, which arrives already parsed as optional fields;
  - the Notification API, whose support and permission are parameters, and the notification it raises, which becomes the returned count;
  - `alert` and `confirm`: the command box's alerts are recorded in its `alerts` list, the PIN form's alerts are its returned `PinOutcome`, and the backup's success and error alerts are the `restored` result of `ImportData`. The `window.confirm` prompts before deleting an account or a category and before removing the lock are not modelled: the handlers run as if confirmed;
  - `window.open` ads, speech input and the install prompt.
- Timers are left out: the confetti timeouts and the form's closing animation. The lock's 500 ms reset is a pending counter plus an explicit firing step.
- Async steps: the command box's `await` splits its handler into two steps. The text input and the send button are disabled while loading, but the microphone button is not. A speech result arriving during the request replaces the input, so after a failed or UNKNOWN result the input can hold the transcript. The model keeps the typed input there and does not model speech input.
- JS `Date` is left out: parsing, `toISOString`, time zones and `setMonth` arithmetic. A transaction date is a `Stamp` of sort time, month and year. "today" is a string.
- Number formatting is left out: `toLocaleString`, and the `${cat}: ${amount}` text of the top categories.
- Ledger.Percentage: it does not model IEEE floats. For a zero limit it gives 100 when something was spent and 0 otherwise, where JavaScript gives NaN for 0/0 and -Infinity for negative spending. Amounts are exact reals, with no rounding, NaN or Infinity. `parseFloat` of the form's amount is a parameter.
- Text.LowerChar: it folds only ASCII letters. `toLowerCase` on other scripts is not modelled.
- Lengths count Unicode scalar values, where JavaScript counts UTF-16 units. This differs only for characters outside the Basic Multilingual Plane.
- Text.LexLe: it orders strings by Unicode scalar values, where JavaScript's `<` and `<=` compare UTF-16 code units. The two orders differ when a character outside the Basic Multilingual Plane meets one in U+E000 to U+FFFF. Only ASCII date strings are compared in the app.
- Advisor.ExpensesByCategory: object keys keep insertion order. JavaScript lists integer-like keys first, and inherited keys such as "constructor" are not modelled.
- Stats.PieData: the accumulator `{}` is modelled as an empty map that keeps its keys in insertion order. In JavaScript, integer-like categories such as "2024" are listed first. A category named like an inherited property ("constructor", "toString") starts from that function, so its value becomes a string. A "__proto__" category is never stored. None of this is modelled, so the four lemmas that follow describe the code only for categories that are not inherited property names.
- Stats.PieSpec: the distinct keys and per-category sums are stated for categories that are not inherited property names; for "constructor", "toString" or "__proto__" the code's value is not the sum, or the key is missing.
- Stats.GroupLookup: the value under a category is its sum only when the category is not an inherited property name.
- Stats.PieTotal: the values add up to the total expense only when no spending category is an inherited property name.
- Stats.PieEmpty: in the code, spending only in a "__proto__" category also gives an empty pie, which the model does not capture.
- AppState.Store.ImportData: a field that is present but falsy (an empty string, 0, false) counts as absent, as in the code. Fields of the wrong type are not modelled.
- Lock.PinPad.Settle: the effect also re-runs on every render of the parent, because `onUnlock` is a fresh closure each time. Those re-runs repeat a decision already taken; after a wrong entry they would schedule further resets, and those are not modelled.
- AppState.Store.HandleCommand: the GOAL action is a no-op in the code, and so it is here.
- AppState.Store.HandleCommand: a `data` object that is present is read as a complete `TxInput`. In the code, missing fields or values of other types flow into the record as they are; a string amount, for example, makes later sums concatenate. This is not modelled.
- Command.CommandBox.Resolve: when `onCommand` throws, the ad window has already opened and the rejection goes unhandled. Neither is modelled.
- The chat history timestamps and message ids are not modelled.
- Presentation is left out: theme, language, translations, charts' colours and devtools blocking.
- BudgetModal.tsx, the transaction card and details views, the subscription screen, the ad banner, the service worker, the Cloudflare worker and the build configuration are not part of this model.

## Findings

| source | as written | input that shows it | evidently intended | confidence | as-written member | corrected member |
|---|---|---|---|---|---|---|
| components/SettingsModal.tsx:69-71 | Any four characters are accepted as the new PIN. | New PIN and confirmation "abcd": the PIN is set, and the lock's keypad (components/AppLock.tsx:67-82) types only digits, so the app can no longer be unlocked. | Only four digits are accepted, as the refusal "PIN must be 4 digits" says. | not executed; high | Settings.LetterPinLocksOut | Settings.DigitPinCheck |
