# Finance pages: goals, budgets, transactions and the assistant

A Dafny model of the page logic of a personal-finance front end. Each
page keeps an in-memory list and rebuilds it on every click; the model
turns every handler into a pure function from the old list (and the
form or button arguments) to the new one, and proves what the pages
promise about those lists.

- `seqs.dfy` (`Seqs`): `Array.prototype.filter` and `reduce` as pure
  functions, and `FindIndex`, the search that `Array.prototype.find`
  performs. `Filter` states that it keeps, in order and with
  multiplicity, exactly the elements its predicate accepts.
- `text.dfy` (`Text`): `toLowerCase`, `includes`, `trim`, and numeric
  form fields. `Includes` is proved against a declarative substring
  predicate. The file also holds the certificates used to prove that a
  fixed text does or does not contain a word.
- `goals.dfy` (`Goals`): the savings-goal ledger. It covers creation from
  the form, deletion, "Mark Complete", contributions capped at the
  target, the progress percentage, days remaining, the active and
  completed sections, and the two summary totals.
- `budgets.dfy` (`Budgets`): the budget table. It covers the category
  picker, palette colour choice, creation, limit updates, deletion, the
  good/warning/over status, the bar width and the totals.
- `transactions.dfy` (`Transactions`): the signed-amount ledger. It
  covers the search box and the two selectors, creation (expenses stored
  negative, new entries in front), deletion, and the income and expense
  totals.
- `assistant.dfy` (`Assistant`): the canned-response matcher and the
  chat's message list. The matcher lower-cases the message and tries
  four keyword rules in order; the first rule that fires picks the
  reply. The module also covers the quick-action cards and the
  suggestion chips.

Money is `real`, so every percentage comparison is exact. Ids are
`length + 1` on every page, so they can repeat after a deletion. Every
delete therefore removes all records carrying the id, and nothing
assumes ids are unique.

The goal and transaction forms only check that the amount field is
filled in, not that it is positive (src/pages/Goals.tsx:96,
src/pages/Transactions.tsx:70). Only the budget form checks positivity
(src/pages/Budgets.tsx:69).

## Model

| member | source | states |
|---|---|---|
| `Seqs.Filter` | src/pages/Goals.tsx:185-186 | The filtered list holds, in order, exactly the elements the predicate accepts. Each one occurs as often as in the input, and the result is a subsequence of the input. |
| `Seqs.FindIndex` | src/pages/Budgets.tsx:65 | The search `find` performs: the first position whose element satisfies the test, or -1 exactly when no element does. `NextColor` takes the element at that position. |
| `Text.Includes` | src/pages/Transactions.tsx:61-62 | `includes` is true exactly when the needle occurs at some position of the haystack. |
| `Text.TrimEmptyIff` | src/pages/Assistant.tsx:97 | `!s.trim()` holds exactly when every character of `s` is ECMAScript white space or a line terminator. |
| `Goals.AddGoal` | src/pages/Goals.tsx:95-117 | A form missing its title, target amount or target date leaves the list unchanged. Otherwise exactly one goal is appended at the end: id `length + 1`, saved amount 0, status active, the other fields copied from the form. |
| `Goals.DeleteGoal` | src/pages/Goals.tsx:134-135 | Removes exactly the goals carrying the id. Every other goal keeps its multiplicity and the relative order is kept. |
| `Goals.MarkComplete` | src/pages/Goals.tsx:142-145 | Each goal carrying the id becomes completed with its saved amount set to its target; nothing else in it changes. Every other goal is untouched. |
| `Goals.Contribute` | src/pages/Goals.tsx:156-157 | The new saved amount is `min(current + amount, target)`, so it never exceeds the target. The status becomes completed exactly when `current + amount >= target`, or stays completed; otherwise the status is kept. No other field changes. |
| `Goals.AddContribution` | src/pages/Goals.tsx:152-159 | Only goals carrying the id receive the contribution; the length and the other goals are unchanged. |
| `Goals.ContributeAtTarget` | src/pages/Goals.tsx:156-157 | Once a goal is full, a further non-negative contribution changes nothing but its status. |
| `Goals.Progress` | src/pages/Goals.tsx:166 | The percentage is at most 100. For a positive target it is non-negative when the saved amount is, it is exactly 100 iff the saved amount reaches the target, and below the target it is `current / target * 100`. |
| `Goals.ProgressMonotone` | src/pages/Goals.tsx:166 | Progress never decreases as the saved amount grows. |
| `Goals.DaysRemaining` | src/pages/Goals.tsx:168-174 | The result is the ceiling of the millisecond gap divided by one day. It is positive ("N days left" rather than "Overdue") exactly when the target instant is still ahead. |
| `Goals.ActiveGoals` | src/pages/Goals.tsx:185 | The active section lists exactly the active goals, in order, each as often as it occurs in the list. |
| `Goals.CompletedGoals` | src/pages/Goals.tsx:186 | The completed section lists exactly the completed goals, in order, each as often as it occurs in the list. |
| `Goals.StatusPartition` | src/pages/Goals.tsx:185-186 | No goal appears in both sections. The active, completed and paused lists together account for every goal. |
| `Goals.SavedAtMostTarget` | src/pages/Goals.tsx:331-349 | While no goal has saved more than its target, "Total Saved" is at most "Target Amount". |
| `Goals.ContributionKeepsWithinTarget` | src/pages/Goals.tsx:152-159 | Contributions keep every goal's saved amount within its target. |
| `Goals.MarkCompleteKeepsWithinTarget` | src/pages/Goals.tsx:142-145 | Marking complete keeps every goal's saved amount within its target. |
| `Goals.AddGoalKeepsWithinTarget` | src/pages/Goals.tsx:105-117 | Creating a goal with a non-negative target keeps every saved amount within its target. |
| `Goals.AddGoalTotals` | src/pages/Goals.tsx:331-349 | A created goal raises "Target Amount" by its target and leaves "Total Saved" unchanged. |
| `Goals.DeleteUndoesAdd` | src/pages/Goals.tsx:105-135 | Deleting the id just handed out restores the old list exactly when no older goal already carried that id. |
| `Budgets.AvailableCategories` | src/pages/Budgets.tsx:54-56 | The picker offers exactly the fixed categories that no budget uses, in list order. |
| `Budgets.NextColor` | src/pages/Budgets.tsx:63-66 | Always a palette colour. It is the first colour no budget wears when one exists; once all are taken it is the first palette colour. |
| `Budgets.AddBudget` | src/pages/Budgets.tsx:68-87 | A form with no category or a limit `<= 0` leaves the table unchanged. Otherwise one budget is appended: id `length + 1`, the form's category, limit and period, spent 0, colour from the palette rule. |
| `Budgets.UpdateLimit` | src/pages/Budgets.tsx:101-104 | Only the limit of budgets carrying the id changes. Their other fields and all other budgets are unchanged. |
| `Budgets.DeleteBudget` | src/pages/Budgets.tsx:112-113 | Removes exactly the budgets carrying the id, keeping the rest in order and with their multiplicity. |
| `Budgets.Status` | src/pages/Budgets.tsx:120-125 | For a positive limit: over iff `spent >= limit`; warning iff `0.8 * limit <= spent < limit`; good iff `spent < 0.8 * limit`. |
| `Budgets.Percentage` | src/pages/Budgets.tsx:256 | The bar width is at most 100, and non-negative when spent is non-negative and the limit positive. For a positive limit and spending below it, the width is `spent / limit * 100`. |
| `Budgets.FullBarIffOver` | src/pages/Budgets.tsx:256-257 | The bar is full exactly when the status is over. |
| `Budgets.AddBudgetTotals` | src/pages/Budgets.tsx:127-128 | A created budget raises the total budget by its limit and leaves the total spent unchanged. |
| `Budgets.DeleteBudgetTotals` | src/pages/Budgets.tsx:127-128 | Deleting lowers each total by exactly the amounts of the removed budgets. |
| `Budgets.AddBudgetKeepsCategoriesUnique` | src/pages/Budgets.tsx:157-165 | Creating from a category the picker offers keeps categories unique. |
| `Budgets.UpdateLimitKeepsCategoriesUnique` | src/pages/Budgets.tsx:101-104 | Limit updates keep categories unique. |
| `Budgets.AddBudgetTakesCategory` | src/pages/Budgets.tsx:54-56 | After a creation, the picker offers what it offered before minus the category just used. |
| `Transactions.FilterTransactions` | src/pages/Transactions.tsx:60-67 | The shown list is a subsequence of the ledger and holds exactly the matching transactions, each as often as it occurs in the ledger. When a selector is not "all", each shown transaction has that category or type. |
| `Transactions.SearchIgnoresCase` | src/pages/Transactions.tsx:61-62 | A transaction matches iff the lower-cased term occurs in its lower-cased description or category. Lower-casing the term first changes nothing, and any literal occurrence is found. |
| `Transactions.NoFilterShowsAll` | src/pages/Transactions.tsx:60-67 | With an empty search and both selectors on "all", every transaction is shown. |
| `Transactions.AddTransaction` | src/pages/Transactions.tsx:69-88 | A form missing its description, amount or category leaves the ledger unchanged. Otherwise one transaction is put in front with id `length + 1`. An expense is stored as `-abs(amount)` and an income as entered. |
| `Transactions.DeleteTransaction` | src/pages/Transactions.tsx:104-105 | Removes exactly the transactions carrying the id, keeping the rest in order and with their multiplicity. |
| `Transactions.DeleteUndoesAdd` | src/pages/Transactions.tsx:79-105 | Deleting the id just handed out restores the old ledger exactly when no older transaction already carried that id. |
| `Transactions.TotalExpenses` | src/pages/Transactions.tsx:113 | "Total Expenses" is never negative. |
| `Transactions.AddTransactionKeepsSigns` | src/pages/Transactions.tsx:82 | Recording a transaction keeps every expense non-positive. |
| `Transactions.TotalExpensesIsNegatedSum` | src/pages/Transactions.tsx:113 | While every expense is non-positive, "Total Expenses" is the negated sum of the expense amounts. |
| `Transactions.AddTransactionTotals` | src/pages/Transactions.tsx:112-113 | An income raises "Total Income" by the entered amount. An expense raises "Total Expenses" by the entered magnitude. The other total is unchanged. |
| `Assistant.Classify` | src/pages/Assistant.tsx:74-94 | Each topic is chosen exactly when its rule is the first that fires on the lower-cased message. The "investment" test adds nothing to the "invest" test. The clarification reply is chosen iff none of the eight keywords occurs. |
| `Assistant.GenerateResponse` | src/pages/Assistant.tsx:74-94 | Always one of the five fixed replies. It is the clarification reply exactly when no keyword occurs. |
| `Assistant.InvestmentMentionsInvest` | src/pages/Assistant.tsx:85 | Any text containing "investment" contains "invest". |
| `Assistant.ClassifyIgnoresCase` | src/pages/Assistant.tsx:75 | Messages with the same lower-case form get the same reply. |
| `Assistant.ClassifyOfLower` | src/pages/Assistant.tsx:75 | Lower-casing a message first does not change its reply. |
| `Assistant.FirstMatch` | src/pages/Assistant.tsx:77-93 | An ordered rule table returns the topic of the first rule that fires, or clarification when none fires. |
| `Assistant.RuleTableAgrees` | src/pages/Assistant.tsx:77-93 | The four-rule table and the chain of tests agree on every message. |
| `Assistant.SpendingBeforeSavings` | src/pages/Assistant.tsx:77-83 | A message naming both "spending" and "save" gets the spending reply. |
| `Assistant.SpendingPromptTopic` | src/pages/Assistant.tsx:52-79 | The "Spending Analysis" prompt reaches the spending rule. |
| `Assistant.SavingsPromptTopic` | src/pages/Assistant.tsx:58-83 | The "Savings Tips" prompt reaches the savings rule. |
| `Assistant.InvestmentPromptTopic` | src/pages/Assistant.tsx:64-87 | The "Investment Advice" prompt reaches the investment rule. |
| `Assistant.BudgetPromptTopic` | src/pages/Assistant.tsx:70-91 | The "Budget Review" prompt reaches the budget rule. |
| `Assistant.SpendingSuggestionTopic` | src/pages/Assistant.tsx:36 | "Analyze my spending patterns" gets the spending reply. |
| `Assistant.BudgetSuggestionTopic` | src/pages/Assistant.tsx:37 | "Suggest budget improvements" gets the budget reply. |
| `Assistant.InvestmentSuggestionTopic` | src/pages/Assistant.tsx:38 | "Investment recommendations" gets the investment reply. |
| `Assistant.DebtSuggestionTopic` | src/pages/Assistant.tsx:39 | "Debt payoff strategies" mentions no keyword and falls through to the clarification reply. |
| `Assistant.Exchange` | src/pages/Assistant.tsx:99-123 | One exchange appends the user's message (id `length + 1`) and then the reply (id `length + 2`). The reply always carries the same four follow-up suggestions, and the earlier messages stay in place. |
| `Assistant.Send` | src/pages/Assistant.tsx:96-128 | A blank input changes nothing. Otherwise the earlier messages stay in place, two messages follow them (the user's input, then the assistant's reply to that input), and the box is cleared. |
| `Assistant.SendReplies` | src/pages/Assistant.tsx:111-123 | The appended reply is an assistant message, one of the fixed replies, with the follow-up suggestions. |
| `Assistant.SendCountsUserMessages` | src/pages/Assistant.tsx:97-106 | If the input has a visible character, exactly one user message is added. Input made only of white space changes nothing. |
| `Assistant.SendKeepsIdsPositional` | src/pages/Assistant.tsx:99-113 | If message ids are their 1-based positions, they still are after a send. |
| `Assistant.ClickSuggestion` | src/pages/Assistant.tsx:135-137 | A suggestion click fills the input box and leaves the messages alone. |
| `Assistant.QuickActionAsWritten` | src/pages/Assistant.tsx:130-133 | A quick-action click sends what the box held before the click. With a blank box it only leaves the prompt in the box. |
| `Assistant.QuickActionAsWrittenSendsNothing` | src/pages/Assistant.tsx:130-133 | From the opening screen, "Spending Analysis" as written appends no message. |
| `Assistant.SendQuickAction` | src/pages/Assistant.tsx:130-133 | The intended click sends a non-blank prompt and appends its reply, whatever the box held. |
| `Assistant.SendQuickActionAnswers` | src/pages/Assistant.tsx:130-133 | From the opening screen, the intended "Spending Analysis" click appends the prompt and the spending reply. |

## Left out

- React state, dialogs, selects, sliders and all rendering. Each handler is a pure function of the old list and its arguments; the reset of the form after a creation is not modelled.
- Toast notifications. They are messages to the user and change no list.
- The 1500 ms reply delay and the 100 ms quick-action delay. A send appends the user message and the reply in one step. Two sends within 1500 ms are not modelled: their replies would interleave, and both would take ids from the same stale length.
- Message timestamps and the clock. `Goals.DaysRemaining` takes the target and current instants in milliseconds as parameters; parsing the `YYYY-MM-DD` date is left to the caller.
- `Number(text)` for text that is not a number (NaN) and IEEE-754 rounding. A filled-in numeric field is an exact real.
- `toLocaleString` and `toFixed` formatting of the shown amounts.
- `Goals.Progress`: requires a non-zero target; JavaScript gives Infinity or NaN for a zero target, and that case is not modelled.
- `Budgets.Status`: requires a non-zero limit for the same reason; the creation form rejects limits `<= 0`, but the limit slider's range is not modelled.
- `Budgets.Percentage`: requires a non-zero limit for the same reason.
- `Budgets.AddBudget`: requires that the category is unused. Only the picker prevents duplicates; the handler does not check.
- `Text.Lower`: lower-cases the ASCII letters only; the full Unicode case mapping of `toLowerCase` is not modelled.
- The goal priority badge colour (`getPriorityColor`). It is a display mapping with no rule to verify.
- The "paused" goal status. Nothing in the page sets it; goals only carry it.
- The dashboard, settings and layout pages. They hold constant data, form toggles and markup only.

## Findings

| source | as written | input that shows it | evidently intended | confidence | as-written member | corrected member |
|---|---|---|---|---|---|---|
| src/pages/Assistant.tsx:130-133 | The quick-action handler stores the prompt in the input box and schedules `handleSendMessage`. The scheduled function belongs to the render that handled the click, so it reads the box as it was before the prompt was stored. | On the opening screen the box is empty. Clicking "Spending Analysis" sends nothing and leaves the prompt in the box. With earlier text in the box, that old text is sent instead of the prompt. | A quick-action click sends its prompt and shows the matching reply. | high; not executed | `Assistant.QuickActionAsWrittenSendsNothing` | `Assistant.SendQuickActionAnswers` |
