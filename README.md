# Expense tracker — a Dafny model of its data layer and pages

This project models the core of a personal-finance web application in
Dafny. Users sign in and record expenses and incomes. They set monthly or
yearly budgets per category and keep their own lists of expense and income
categories. They can share wallets with other users, and they earn
achievement badges for staying within budget and saving part of their
income.

The model follows the application's structure:

* `ExpenseStore` is the expense context. It holds the signed-in user's
  expenses, incomes, budgets and category lists, and the per-user
  category document.
* `AuthContext` is the authentication context. It covers signing up and
  in (with e-mail or Google), signing out, the "remember me" entry in
  local storage, and profile and password updates.
* `WalletLedger` is the shared-wallet collection. Each wallet keeps an
  expense array and a running `totalSpent`.
* The pages each have a module with a class. Its fields are the page's
  React state, and its methods are the page's event handlers:
  `BudgetPage`, `Dashboard`, `TransactionList`, `IncomeList`,
  `ExpenseFormPage`, `IncomeFormPage`, `AddExpenseDialog`,
  `CategoryManager`, `SharedWalletPage`, `SharedWalletExpensePanel`,
  `LoginPage`, `SignupPage`, `ProfilePage` and `Achievements`.
* The charts and statistics are pure computations over the record lists:
  `MonthlyStats`, `CategoryPieChart`, `CategorySpendingChart` and
  `ExpenseChart`. Their shared "group and total by key" loop lives in
  `Grouping`.
* `Common` and `Records` hold the values everything shares: dates,
  outcomes and errors, amount fields, transactions and budgets, sums,
  filters and string trimming.

Modelling choices:

* **Money.** Amounts are whole numbers of cents. An amount input is
  either blank or holds a number (`AmountField`).
* **Backend calls.** Every call to Firebase (Firestore or Auth) is a
  parameter of type `Outcome`. It either succeeds or fails with an error
  code and a message. The model then states what the application does in
  each case.
* **Loading guards.** A handler that awaits a call behind a loading flag
  is split in two: a `Begin…` method that sets the flag, and a
  `Complete…` method that receives the outcome.
* **The clock and ids.** "Today" and the ids that Firestore generates are
  also parameters.

## Model

| member | source | states |
|---|---|---|
| Common.DaysInMonth | src/components/achievements/AchievementSystem.jsx:107 | month lengths lie between 28 and 31 days, which is the calendar `isLastDayOfMonth` relies on |
| Common.OrdinalFollowsCalendar | src/components/Budget.jsx:131-133 | comparing two valid dates by their day number agrees with comparing them by year, then month, then day |
| Common.TrimEmptyIffAllSpace | src/components/CategoryManager.jsx:27-30 | `trim()` yields the empty string exactly when every character is white space, so a name of spaces counts as blank |
| Common.Trim | src/components/SharedWallet.jsx:98 | `trim()` never lengthens a string, and a non-empty result neither starts nor ends with white space |
| Common.TrimIsSlice | src/components/SharedWallet.jsx:98 | `trim()` returns the slice of the input after its leading white space, with only white space after that slice |
| Common.TrimUnique | src/components/SharedWallet.jsx:98 | any slice with only white space around it and none at its own ends is the trimmed string, so TrimIsSlice and Trim's ensures determine `trim()` completely |
| Common.ToLower | src/components/ExpenseList.jsx:107-109 | the lower-cased text used by the search has the same length, and each character is the lower-case form of the original |
| Common.CycledColours | src/components/CategoryPieChart.jsx:99 | picking `COLORS[index % COLORS.length]` from six distinct colours repeats every six slices, and any six consecutive slices get different colours |
| Records.DraftOf | src/context/ExpenseContext.jsx:150-155 | the record sent to Firestore carries the form's amount, category, description and date unchanged |
| Records.EmptyEntry | src/components/ExpenseForm.jsx:31-34 | the expense form, the income form and the add-expense dialog all open, and reset after a successful submit, to a form that is not filled in, has a blank amount and is dated today |
| Records.SumAmountsAppend | src/components/MonthlyStats.jsx:14-18 | the total of two record lists together is the sum of their totals |
| Records.SumAmountsNonNegative | src/components/Dashboard.jsx:130-137 | records with no negative amount have a non-negative total |
| Records.OfCategory | src/components/Budget.jsx:157-159 | a record is selected exactly when it is in the list and has the given category |
| Records.OfCategoryAppend | src/components/Budget.jsx:157-159 | selecting by category distributes over concatenation |
| Records.WithoutId | src/context/ExpenseContext.jsx:283 | after the local filter, a record remains exactly when it was there and has a different id |
| Records.WithoutIdKeepsOthers | src/context/ExpenseContext.jsx:283 | removing by id drops every copy with that id and keeps the multiplicity of every other record |
| Records.WithoutIdAppend | src/context/ExpenseContext.jsx:310-311 | removing by id distributes over concatenation |
| Records.BudgetsWithoutId | src/context/ExpenseContext.jsx:267 | a budget remains exactly when it was there and has a different id |
| Records.ReplaceBudget | src/context/ExpenseContext.jsx:247-251 | the list keeps its length, each budget with the edited id becomes the edited budget, and every other budget is unchanged |
| Grouping.Keys | src/components/CategoryPieChart.jsx:32-35 | the chart's names are the groups' keys, in the same order |
| Grouping.ItemKeys | src/components/CategoryPieChart.jsx:27-30 | the keys read off the items, in order |
| Grouping.GroupTotals | src/components/CategoryPieChart.jsx:26-35 | the dictionary-building loop yields one group per distinct key, in order of first appearance, each holding the sum of its items' amounts; all groups together hold the sum of all amounts |
| Grouping.BumpKeys | src/components/MonthlyStats.jsx:22-25 | adding an item to the running totals adds its key only if the key is new, at the end |
| Grouping.BumpTotals | src/components/MonthlyStats.jsx:22-25 | adding an item raises the total of all groups by exactly its amount |
| Grouping.BumpEntry | src/components/MonthlyStats.jsx:22-25 | after adding an item, an existing group grows by the amount only if it has the item's key, and a new group holds just that amount |
| Grouping.GroupedKeys | src/components/CategorySpendingChart.jsx:27-35 | the groups' keys are the first occurrences of the items' keys |
| Grouping.Grouped | src/components/CategorySpendingChart.jsx:27-35 | the totals object has no entries exactly when there are no items |
| Grouping.FirstOccurrencesDistinct | src/components/CategorySpendingChart.jsx:27-35 | the first occurrences of a key list hold no duplicates and exactly the keys of the list |
| Grouping.GroupedTotals | src/components/CategorySpendingChart.jsx:27-35 | grouping neither loses nor invents money: the group totals add up to the item total |
| Grouping.SumForAbsent | src/components/CategorySpendingChart.jsx:27-30 | a key that no item carries sums to zero |
| Grouping.GroupedEntries | src/components/CategorySpendingChart.jsx:27-35 | the keys are distinct, and each group's total is the sum of the amounts of the items with that key |
| Grouping.GroupedFacts | src/components/ExpenseChart.jsx:16-27 | all the grouping facts together, including that the keys are exactly the item keys and that there are no groups exactly when there are no items |
| Grouping.ItemsOf | src/components/ExpenseChart.jsx:18-20 | each record turns into one item carrying the record's key and amount, in order |
| Grouping.GroupedTransactions | src/components/ExpenseChart.jsx:16-27 | grouping records by a key gives distinct keys, namely those some record has; each total is the sum of the amounts of the records with that key; the totals add up to the records' sum |
| Grouping.SumForKeyed | src/components/ExpenseChart.jsx:16-27 | summing items by key equals summing the records with that key |
| Grouping.ItemsTotalIsSum | src/components/ExpenseChart.jsx:16-27 | the items' total is the records' total |
| ExpenseStore.DefaultExpenseCategories | src/context/ExpenseContext.jsx:90-106 | a new user's expense categories are fifteen names, the last of which is "Other" |
| ExpenseStore.DefaultIncomeCategories | src/context/ExpenseContext.jsx:108-120 | a new user's income categories are eleven names, the last of which is "Other" |
| ExpenseStore.WithoutName | src/context/ExpenseContext.jsx:365-367 | a category stays in the list exactly when it was there and has a different name |
| ExpenseStore.NewRecord | src/context/ExpenseContext.jsx:150-177 | the stored record carries exactly the draft's amount, category, description and date, with the user's id and the backend's id |
| ExpenseStore.NewBudget | src/context/ExpenseContext.jsx:218-226 | the stored budget carries exactly the draft's category, amount and period, with the user's id and the backend's id |
| ExpenseStore.AddThenRemoveRestores | src/context/ExpenseContext.jsx:139-190 | adding a record with a fresh id and then removing that id gives back the original list |
| ExpenseStore.WithoutIdOfAbsent | src/context/ExpenseContext.jsx:283 | removing an id that no record has changes nothing |
| ExpenseStore.ReplaceBudgetMembers | src/context/ExpenseContext.jsx:247-251 | after an update the budgets are exactly those with another id, plus the edited budget when a budget had its id |
| ExpenseStore.CategoryAddThenRemove | src/context/ExpenseContext.jsx:322-379 | adding a category appends it to the name list read from the user's document and leaves the records alone; removing it again leaves every other name present exactly when the document listed it |
| ExpenseStore.Store.constructor | src/context/ExpenseContext.jsx:24-30 | the store starts with no user and empty lists |
| ExpenseStore.Store.SignOut | src/context/ExpenseContext.jsx:32-41 | signing out clears the user and the three record lists and keeps the rest |
| ExpenseStore.Store.SignIn | src/context/ExpenseContext.jsx:43-137 | loading stops at the first failing query and keeps what was loaded before it; a missing category document is created with the defaults |
| ExpenseStore.Store.AddExpense | src/context/ExpenseContext.jsx:139-190 | with no user it fails with "User not authenticated"; a failed write changes nothing; a successful one appends exactly the new record with the user's id and the new id |
| ExpenseStore.Store.AddIncome | src/context/ExpenseContext.jsx:192-212 | the same three cases for the income list |
| ExpenseStore.Store.AddBudget | src/context/ExpenseContext.jsx:214-234 | the same three cases for the budget list |
| ExpenseStore.Store.UpdateBudget | src/context/ExpenseContext.jsx:236-257 | with no user or a failed write nothing changes; otherwise the budgets with the edited id are replaced in place |
| ExpenseStore.Store.RemoveExpense | src/context/ExpenseContext.jsx:275-289 | with no user or an empty id it fails with "Invalid expense deletion attempt"; otherwise a successful delete drops exactly the records with that id |
| ExpenseStore.Store.RemoveIncome | src/context/ExpenseContext.jsx:291-320 | the same for incomes, with "Invalid income deletion attempt" |
| ExpenseStore.Store.RemoveBudget | src/context/ExpenseContext.jsx:259-273 | the same for budgets, with "Invalid budget deletion attempt" |
| ExpenseStore.Store.AddExpenseCategory | src/context/ExpenseContext.jsx:322-353 | with no user it fails; a failed write changes nothing; a successful one stores the document's list plus the name, both in the document and in the shown list |
| ExpenseStore.Store.AddIncomeCategory | src/context/ExpenseContext.jsx:381-412 | the same for income categories |
| ExpenseStore.Store.RemoveExpenseCategory | src/context/ExpenseContext.jsx:355-379 | the same cases; a success stores the document's list without the name |
| ExpenseStore.Store.RemoveIncomeCategory | src/context/ExpenseContext.jsx:414-438 | the same for income categories |
| ExpenseStore.RemoveCategoryRemovesAll | src/context/ExpenseContext.jsx:365-367 | removing a category drops every copy of it and keeps the count of every other name, and "Other" itself can be removed |
| MonthlyStats.CurrentMonthExpenses | src/components/MonthlyStats.jsx:7-12 | a record is selected exactly when it has a date whose month is today's month, whatever the year |
| MonthlyStats.MonthlyTotal | src/components/MonthlyStats.jsx:14-18 | with no negative amounts, this month's total lies between 0 and the total of all expenses |
| MonthlyStats.MonthSumBounded | src/components/MonthlyStats.jsx:14-18 | the month's selection of non-negative expenses sums to no more than all of them |
| MonthlyStats.SameMonthOtherYearCounts | src/components/MonthlyStats.jsx:7-12 | a record from the same month of another year is counted in "this month" |
| MonthlyStats.FirstLargest | src/components/MonthlyStats.jsx:27-31 | the first entry of the descending sort is a group whose total is not below any other, and the earliest such group on a tie (the sort is stable); there is none exactly when there are no groups |
| MonthlyStats.MonthGroups | src/components/MonthlyStats.jsx:21-25 | the month has no groups exactly when it has no records, and each group total is the month's spending in that category |
| MonthlyStats.GetBiggestCategory | src/components/MonthlyStats.jsx:20-34 | there is no biggest category exactly when the month has no expenses; otherwise the result is the first category with the largest month total, and that total is what was spent in it |
| MonthlyStats.MonthKeys | src/components/MonthlyStats.jsx:21-25 | the grouped categories are exactly the categories used this month |
| MonthlyStats.CategoryTotalsAddUp | src/components/MonthlyStats.jsx:14-34 | the category totals add up to the monthly total shown, and no category appears twice |
| CategoryPieChart.GetCategoryData | src/components/CategoryPieChart.jsx:25-36 | one slice per category used, each slice's value is that category's spending, the slices add up to all spending, and there are no slices only when there are no expenses |
| CategoryPieChart.SliceColorsCycle | src/components/CategoryPieChart.jsx:16-23 | slice colours repeat every six slices and differ within any six consecutive slices |
| CategorySpendingChart.SpendingChart | src/components/CategorySpendingChart.jsx:27-53 | the "no spending data" message shows exactly when there are no expenses; otherwise the doughnut's data are the distinct categories with their spending, adding up to the total |
| CategorySpendingChart.CellColorsCycle | src/components/CategorySpendingChart.jsx:13-20 | cell colours repeat every six cells and differ within any six consecutive cells |
| ExpenseChart.GetDailyData | src/components/ExpenseChart.jsx:16-27 | one point per formatted day with expenses, each the day's spending, the points adding up to all spending |
| WalletLedger.SumSharedAppend | src/components/SharedWalletExpenses.jsx:70-73 | the amount of two expense lists together is the sum of their amounts |
| WalletLedger.ArrayUnion | src/components/SharedWalletExpenses.jsx:71 | `arrayUnion` adds the expense at the end only when an equal one is not already in the array |
| WalletLedger.ArrayRemove | src/components/SharedWalletExpenses.jsx:98 | `arrayRemove` drops every element equal to the expense and keeps all others |
| WalletLedger.AfterAdd | src/components/SharedWalletExpenses.jsx:70-73 | the stored list gains the expense and keeps everything it had; the total is the panel's copy's total plus the amount; every other field of the stored document is kept |
| WalletLedger.AfterDelete | src/components/SharedWalletExpenses.jsx:96-99 | the stored list loses every copy of the expense and keeps everything else; the total is the panel's copy's total minus the amount; every other field of the stored document is kept |
| WalletLedger.CountCons | src/components/SharedWalletExpenses.jsx:98 | counting copies of an expense, head first |
| WalletLedger.SumAfterRemove | src/components/SharedWalletExpenses.jsx:98 | `arrayRemove` lowers the array's amount by the expense's amount once per copy removed |
| WalletLedger.MultiplySucc | src/components/SharedWalletExpenses.jsx:98 | one more copy removed is one more amount subtracted |
| WalletLedger.AddKeepsBalance | src/components/SharedWalletExpenses.jsx:70-73 | adding an expense keeps `totalSpent` equal to the sum of the array exactly when the expense was not already there, or is zero |
| WalletLedger.DeleteKeepsBalance | src/components/SharedWalletExpenses.jsx:89-105 | deleting a listed expense keeps `totalSpent` equal to the sum of the array exactly when it was listed once, or is zero |
| WalletLedger.DeleteAbsentUnbalances | src/components/SharedWalletExpenses.jsx:89-105 | deleting an expense that is not listed leaves the array alone but still lowers `totalSpent`, so the two disagree |
| WalletLedger.StaleCopyLosesAmount | src/components/SharedWalletExpenses.jsx:70-73 | two adds computed from the same copy of the wallet lose the first expense's amount from `totalSpent` |
| WalletLedger.WalletCollection.constructor | src/components/SharedWallet.jsx:59-81 | the collection holds the given wallet documents |
| WalletLedger.WalletCollection.Create | src/components/SharedWallet.jsx:97-109 | creating a wallet stores the document, and a balanced new wallet keeps every wallet balanced |
| WalletLedger.WalletCollection.SetMembers | src/components/SharedWallet.jsx:131-134 | the members update succeeds exactly when the backend does and the wallet exists; it replaces only the members and keeps every wallet balanced |
| WalletLedger.WalletCollection.AddExpense | src/components/SharedWalletExpenses.jsx:70-73 | a successful add applies arrayUnion and the increment to the stored wallet; with a fresh copy and a new expense every wallet stays balanced |
| WalletLedger.WalletCollection.RemoveExpense | src/components/SharedWalletExpenses.jsx:96-100 | a successful delete applies arrayRemove and the decrement; with a fresh copy and a single copy of the expense every wallet stays balanced |
| WalletLedger.WalletCollection.Delete | src/components/SharedWallet.jsx:153 | a successful delete removes exactly that wallet, and balance is kept |
| Achievements.Badge | src/components/achievements/AchievementSystem.jsx:229-235 | an award carries the catalogue entry's id and points and today's date |
| Achievements.CatalogueIsWellFormed | src/components/achievements/AchievementSystem.jsx:29-75 | catalogue ids are distinct, and every badge is worth positive points, no more than the yearly badge |
| Achievements.TotalPointsAppend | src/components/achievements/AchievementSystem.jsx:97-103 | the points of two award logs together are the sum of their points |
| Achievements.TotalPoints | src/components/achievements/AchievementSystem.jsx:97-103 | a log whose entries carry no negative points has a non-negative total |
| Achievements.TotalPointsOfBadges | src/components/achievements/AchievementSystem.jsx:97-103 | the points total of a log of badges is never negative, and every new badge raises it |
| Achievements.HasAchievement | src/components/achievements/AchievementSystem.jsx:220-227 | true exactly when the log has an award with that id dated in the current year and month |
| Achievements.MonthlyMastersIn | src/components/achievements/AchievementSystem.jsx:188-192 | the number of this year's monthly-budget-master awards, never more than the log's length; the count itself is characterised by MonthlyMastersInAppend, MonthlyMastersInSnoc and MonthlyLogCountsMastery |
| Achievements.MonthlyMastersInAppend | src/components/achievements/AchievementSystem.jsx:188-192 | counting those awards distributes over concatenation |
| Achievements.MonthlyMastersInSnoc | src/components/achievements/AchievementSystem.jsx:188-192 | awarding one badge raises this year's monthly-master count by one if it is MONTHLY_BUDGET_MASTER and leaves it otherwise |
| Achievements.YearlyLog | src/components/achievements/AchievementSystem.jsx:179-197 | the yearly check only appends, at most one badge, and appends YEARLY_BUDGET_MASTER dated today exactly when the year holds twelve or more monthly-master awards |
| Achievements.MonthRecords | src/components/achievements/AchievementSystem.jsx:127-141 | a record is selected exactly when it is dated in the current month of the current year |
| Achievements.WithinAllBudgets | src/components/achievements/AchievementSystem.jsx:144-150 | true exactly when every budget's month spending in its category is at most its amount |
| Achievements.RateAtLeastIsRealComparison | src/components/achievements/AchievementSystem.jsx:156-167 | with income, the integer test agrees with the real savings-rate comparison `((income - expenses) / income) * 100 >= pct` |
| Achievements.RateAtLeast | src/components/achievements/AchievementSystem.jsx:156-167 | with a positive income, saving `pct`% means spending at most (100 - `pct`)% of it; a negative income flips the test; with no income only negative spending passes (the rate is +Infinity) |
| Achievements.PremiumImpliesStar | src/components/achievements/AchievementSystem.jsx:157-176 | saving 50% implies saving 20% |
| Achievements.ZeroIncomeNeverSaves | src/components/achievements/AchievementSystem.jsx:157-167 | with no income and non-negative spending no savings badge is earned |
| Achievements.AwardsForMembership | src/components/achievements/AchievementSystem.jsx:143-176 | the month's awards include each monthly badge exactly when its condition holds, the streak badge exactly when saving continues a streak of two or more, and never the yearly badge |
| Achievements.AwardsFor | src/components/achievements/AchievementSystem.jsx:143-176 | one check awards at most four badges, none twice, and never the yearly badge |
| Achievements.MonthlyVerdict | src/components/achievements/AchievementSystem.jsx:143-176 | saving half the income implies saving a fifth of it, and with no budgets the budget rule holds |
| Achievements.MonthlyAwards | src/components/achievements/AchievementSystem.jsx:143-176 | the month's badges hold no badge twice, and the 50% badge and the streak badge only come with the 20% badge |
| Achievements.MonthlyAwardsRules | src/components/achievements/AchievementSystem.jsx:122-177 | the same membership stated over budgets, expenses and incomes |
| Achievements.StreakAfterMonth | src/components/achievements/AchievementSystem.jsx:199-212 | the streak grows by one exactly when the month earned the 20% badge and is reset to 0 when it did not |
| Achievements.NoBudgetsIsMastery | src/components/achievements/AchievementSystem.jsx:144-150 | a user with no budgets is a monthly budget master |
| Achievements.QuarterSavedEarnsStarOnly | src/components/achievements/AchievementSystem.jsx:157-176 | spending 750 of 1000 earns the saving star but neither the premium nor the streak badge |
| Achievements.Stamp | src/components/achievements/AchievementSystem.jsx:229-235 | each awarded id becomes one badge dated today, in order |
| Achievements.MonthlyLogAppendsAwards | src/components/achievements/AchievementSystem.jsx:122-177 | the month-end check appends exactly the earned badges to the log |
| Achievements.MonthlyLog | src/components/achievements/AchievementSystem.jsx:122-177 | the monthly check only appends, at most four badges, all dated today |
| Achievements.MonthlyLogCountsMastery | src/components/achievements/AchievementSystem.jsx:143-153 | a month-end check raises this year's monthly-master count by one exactly when every budget was kept |
| Achievements.YearEndAwardsYearly | src/components/achievements/AchievementSystem.jsx:105-120 | at the year-end run the yearly badge is appended exactly when the earlier monthly-master badges of the year plus the one just earned reach twelve, and nothing is appended otherwise |
| Achievements.StampSnoc | src/components/achievements/AchievementSystem.jsx:229-235 | appending one more badge is stamping one more id |
| Achievements.StampAppend | src/components/achievements/AchievementSystem.jsx:229-235 | stamping distributes over concatenation |
| Achievements.AchievementSystem.constructor | src/components/achievements/AchievementSystem.jsx:78-95 | the log and the streak are loaded from storage, defaulting to none and zero |
| Achievements.AchievementSystem.AwardAchievement | src/components/achievements/AchievementSystem.jsx:229-243 | the badge is appended to the log, the points total grows by its points, it is shown, and the streak is untouched |
| Achievements.AchievementSystem.UpdateSavingStreak | src/components/achievements/AchievementSystem.jsx:199-212 | a saving month adds one to the streak, and reaching three awards the streak badge; otherwise the streak resets to zero |
| Achievements.AchievementSystem.CheckStreakAchievements | src/components/achievements/AchievementSystem.jsx:214-218 | a streak of three or more earns the streak badge unless it was already awarded this month; afterwards it is held |
| Achievements.AchievementSystem.CheckMonthlyAchievements | src/components/achievements/AchievementSystem.jsx:122-177 | the log gains exactly the month's earned badges, and the streak follows the saving verdict |
| Achievements.AchievementSystem.CheckYearlyAchievements | src/components/achievements/AchievementSystem.jsx:179-197 | the log becomes its yearly extension: the yearly badge is added exactly when the year holds twelve or more monthly-master awards; the streak is unchanged |
| Achievements.AchievementSystem.Evaluate | src/components/achievements/AchievementSystem.jsx:105-120 | away from month end only the streak check runs; at month end the log is the monthly check's log, then the yearly extension at the year-end instant, then the streak badge if the new streak is three or more and the badge is not yet held this month, and the streak follows the month; awards are only ever appended; a streak of three leaves the streak badge held |
| Achievements.YearEndIsMonthEnd | src/components/achievements/AchievementSystem.jsx:107-108 | the year-end instant lies on the last day of December, so the monthly check also runs then |
| BudgetPage.WindowStart | src/components/Budget.jsx:124-126 | the window starts on the first of the current month for a monthly budget and on the first of January otherwise, never after today |
| BudgetPage.CountsAgainst | src/components/Budget.jsx:128-135 | only a dated expense of the budget's category counts, and one dated today in that category always does |
| BudgetPage.RelevantExpenses | src/components/Budget.jsx:124-135 | an expense counts against a budget exactly when it has the budget's category and is dated on or after the first day of the current month (monthly budget) or year (otherwise), with no upper bound |
| BudgetPage.RelevantExpensesAppend | src/components/Budget.jsx:128-135 | selecting relevant expenses distributes over concatenation |
| BudgetPage.Progress | src/components/Budget.jsx:137-141 | for a non-zero budget the percentage times the budget is a hundred times the spending; for a zero budget it is +Infinity, -Infinity or NaN by the sign of the spending |
| BudgetPage.CalculateProgress | src/components/Budget.jsx:123-142 | a non-zero budget gets a finite percentage, and the budget shows as over exactly when the spending in its window passes a positive budget, falls under a negative one, or is positive against a zero budget |
| BudgetPage.IsOverBudget | src/components/Budget.jsx:255-256 | `progress > 100` with JavaScript comparisons: +Infinity is over, NaN and -Infinity are not, a finite percentage is over exactly above 100 |
| BudgetPage.OverBudgetIffOverspent | src/components/Budget.jsx:255-256 | "over budget" (`progress > 100`) holds exactly when spending passes a positive budget, falls under a negative one, or is positive against a zero budget |
| BudgetPage.OverHundredIffOverspent | src/components/Budget.jsx:141 | a finite percentage of a non-zero budget passes 100 exactly when the spending passes a positive budget or falls under a negative one |
| BudgetPage.BarValue | src/components/Budget.jsx:333 | the bar is the percentage capped at 100, and is full when over budget |
| BudgetPage.RemainingIsAmountMinusSpent | src/components/Budget.jsx:363-370 | the label says "Over budget" exactly when over budget, and otherwise shows the budget minus the spending |
| BudgetPage.RemainingLabel | src/components/Budget.jsx:363-370 | "Over Budget" exactly when over budget, "$NaN" exactly for a NaN or -Infinity percentage, and never a negative remainder under a positive budget |
| BudgetPage.ZeroBudgetLabel | src/components/Budget.jsx:363-370 | a zero budget shows "Over budget" when anything is spent and a NaN remainder otherwise |
| BudgetPage.ProgressMonotone | src/components/Budget.jsx:123-142 | a new non-negative relevant expense never lowers a positive budget's progress, and an irrelevant one leaves it unchanged |
| BudgetPage.ProgressGrows | src/components/Budget.jsx:137-141 | more spending never lowers the percentage of a positive budget |
| BudgetPage.CategoryExpenses | src/components/Budget.jsx:155-166 | the map has exactly the listed categories, each with the sum of its expenses |
| BudgetPage.UnusedCategoryIsZero | src/components/Budget.jsx:155-166 | a listed category with no expenses maps to zero |
| BudgetPage.FindSameSlot | src/components/Budget.jsx:78-82 | the search returns the first budget with the same category and period, and none exactly when there is no such budget |
| BudgetPage.GuardedAddKeepsSlotsUnique | src/components/Budget.jsx:84-88 | adding only after the search found nothing keeps at most one budget per category and period |
| BudgetPage.EditCanShareSlot | src/components/Budget.jsx:65-99 | an edit skips the duplicate search, so moving a budget onto a taken slot yields two budgets for one slot |
| BudgetPage.SaveError | src/components/Budget.jsx:96-97 | the shown error is never empty, and it is the backend's message when there is one |
| BudgetPage.BudgetDialog.constructor | src/components/Budget.jsx:42-55 | the dialog starts closed, with an empty form and no error |
| BudgetPage.BudgetDialog.HandleCloseDialog | src/components/Budget.jsx:112-121 | closing resets the form, the editing target and the error, and leaves the duplicate dialog alone |
| BudgetPage.BudgetDialog.OpenNewBudget | src/components/Budget.jsx:228-232 | "Add New Budget" opens the dialog with an empty form and no editing target |
| BudgetPage.BudgetDialog.HandleEditClick | src/components/Budget.jsx:309-313 | the edit icon opens the dialog on that budget, with a zero amount shown blank |
| BudgetPage.BudgetDialog.HandleEditExisting | src/components/Budget.jsx:101-110 | choosing to edit the duplicate makes it the editing target and closes the duplicate dialog |
| BudgetPage.BudgetDialog.CancelDuplicate | src/components/Budget.jsx:661 | Cancel closes only the duplicate dialog |
| BudgetPage.BudgetDialog.HandleAddBudget | src/components/Budget.jsx:65-99 | a missing field gives "Please fill in all fields" and no store call; a new budget for a taken slot opens the duplicate dialog instead of saving; otherwise a signed-in user and a successful write always save (the store changes only in its budgets: the edited budget replaced by id, or the new one appended) and close the dialog, while a missing user or a failed write leaves the store and form as they were and shows the error; the duplicate dialog and its budget are kept |
| Dashboard.BalanceMoves | src/components/Dashboard.jsx:130-138 | an expense lowers the balance and an income raises it by exactly its amount, and no records means a zero balance |
| Dashboard.ResetForm | src/components/Dashboard.jsx:91-96 | the reset form is blank apart from today's date and the first expense category, if there is one |
| Dashboard.Balance | src/components/Dashboard.jsx:130-138 | with no negative amounts the balance never exceeds the income total and never falls below minus the expense total |
| Dashboard.DashboardPage.constructor | src/components/Dashboard.jsx:53-62 | the page starts with the dialogs closed, on expenses, with a reset form |
| Dashboard.DashboardPage.CategoriesLoaded | src/components/Dashboard.jsx:67-74 | once categories load, an empty category choice becomes the first category, and a choice the user made is never overwritten |
| Dashboard.DashboardPage.SelectType | src/components/Dashboard.jsx:358-376 | the tab sets only the transaction type |
| Dashboard.DashboardPage.HandleAddTransaction | src/components/Dashboard.jsx:76-97 | the form goes to addExpense or addIncome by the selected type; on success the dialog closes and the form is reset; on failure nothing changes |
| Dashboard.DashboardPage.HandleAddCategory | src/components/Dashboard.jsx:99-111 | a non-blank trimmed name is added to the list of the selected type and the field is cleared; otherwise nothing changes |
| Dashboard.DashboardPage.HandleDeleteCategory | src/components/Dashboard.jsx:113-123 | the category is removed from the list of the selected type, after which it is no longer shown |
| TransactionList.Tag | src/components/ExpenseList.jsx:62-71 | each record is tagged with its kind, in order |
| TransactionList.AllTransactions | src/components/ExpenseList.jsx:62-71 | the merged list is the expenses, tagged, followed by the incomes, tagged |
| TransactionList.AllMonths | src/components/ExpenseList.jsx:74-80 | the month filter offers "01" to "12" |
| TransactionList.TypeFilterSelectsKind | src/components/ExpenseList.jsx:114-115 | a type filter lists a transaction exactly when the other filters do and it has that kind |
| TransactionList.Matches | src/components/ExpenseList.jsx:100-124 | an empty search keeps every transaction; a chosen category, date, month or type admits only transactions that have it, and a transaction without a date fails any month filter |
| TransactionList.Insert | src/components/ExpenseList.jsx:125 | inserting adds exactly one element |
| TransactionList.InsertKeepsOrder | src/components/ExpenseList.jsx:125 | inserting into a newest-first list keeps it newest first |
| TransactionList.SortNewestFirst | src/components/ExpenseList.jsx:125 | sorting is a permutation |
| TransactionList.SortedNewestFirst | src/components/ExpenseList.jsx:125 | the sorted list is newest first |
| TransactionList.FilteredIsSortedSelection | src/components/ExpenseList.jsx:99-125 | the shown list holds each matching transaction as often as the merged list does and nothing else, newest first |
| TransactionList.FilteredTransactions | src/components/ExpenseList.jsx:99-125 | the list shows exactly the matching transactions, newest first |
| TransactionList.ExportRows | src/components/ExpenseList.jsx:127-146 | the sheet has one row per listed transaction, in order, then a "Total" row whose date cell is the label and whose description, category and type cells are empty |
| TransactionList.RowOf | src/components/ExpenseList.jsx:129-136 | one sheet row: the record's date, description and category, "Expense" or "Income", and the amount in its kind's column with the other column empty, so the two cells add up to the amount |
| TransactionList.ColumnsAreKindSums | src/components/ExpenseList.jsx:129-146 | the income and expense columns add up to the listed incomes and the listed expenses |
| TransactionList.ExportTotals | src/components/ExpenseList.jsx:139-146 | the total row holds the listed income and expense sums |
| TransactionList.KindSumsOfMerged | src/components/ExpenseList.jsx:62-71 | over the merged list, the expense sum is the expenses' total and the income sum the incomes' total |
| TransactionList.TagSums | src/components/ExpenseList.jsx:62-71 | records tagged with one kind contribute all of their total to that kind and nothing to the other |
| TransactionList.AmountsOfAppend | src/components/ExpenseList.jsx:139-146 | kind sums distribute over concatenation |
| TransactionList.TransactionListPage.constructor | src/components/ExpenseList.jsx:48-56 | no dialog, no selection, no error and not loading |
| TransactionList.TransactionListPage.HandleDeleteClick | src/components/ExpenseList.jsx:176-179 | the clicked transaction is selected and the dialog opened |
| TransactionList.TransactionListPage.BeginDeleteConfirm | src/components/ExpenseList.jsx:181-187 | with nothing selected the dialog just closes; otherwise loading starts on the selection |
| TransactionList.TransactionListPage.CompleteDeleteConfirm | src/components/ExpenseList.jsx:188-202 | a successful delete removes the record from the list of its kind and closes the dialog; otherwise the error shows and everything else stays |
| TransactionList.TransactionListPage.HandleDeleteCancel | src/components/ExpenseList.jsx:204-209 | Cancel does nothing while loading, and otherwise closes and clears the dialog |
| IncomeList.IncomeListPage.constructor | src/components/IncomeList.jsx:25-28 | no dialog, no selection, no error and not loading |
| IncomeList.IncomeListPage.HandleDeleteClick | src/components/IncomeList.jsx:30-33 | the clicked income is selected and the dialog opened |
| IncomeList.IncomeListPage.BeginDeleteConfirm | src/components/IncomeList.jsx:35-41 | with nothing selected the dialog just closes; otherwise loading starts |
| IncomeList.IncomeListPage.CompleteDeleteConfirm | src/components/IncomeList.jsx:42-53 | a successful delete removes exactly the income's id and closes the dialog; otherwise the error shows |
| IncomeList.IncomeListPage.HandleDeleteCancel | src/components/IncomeList.jsx:55-60 | Cancel does nothing while loading, and otherwise closes and clears the dialog |
| ExpenseFormPage.MessageOr | src/components/ExpenseForm.jsx:78 | the backend's message is shown when it has one, and the fallback otherwise |
| ExpenseFormPage.ExpenseForm.constructor | src/components/ExpenseForm.jsx:31-39 | the form starts empty, with both dialogs closed |
| ExpenseFormPage.ExpenseForm.HandleSubmit | src/components/ExpenseForm.jsx:41-82 | an unfilled form gives "Please fill in all fields"; without a user or on failure the error shows; on success the expense is appended, the form emptied and the dialog closed |
| ExpenseFormPage.ExpenseForm.HandleAddCategory | src/components/ExpenseForm.jsx:84-94 | a blank name is ignored; a failure shows the fallback error; a success appends the trimmed name to the list, clears the field and closes the dialog |
| ExpenseFormPage.ExpenseForm.HandleDeleteCategory | src/components/ExpenseForm.jsx:96-105 | the category is removed, and a form that had it selected is reset to no category; a failure shows the fallback error |
| IncomeFormPage.DeleteIsLost | src/components/IncomeForm.jsx:72-74 | a category listed in the user's document would be removed by the intended call, so the call that throws loses a real deletion |
| IncomeFormPage.IncomeForm.constructor | src/components/IncomeForm.jsx:31-39 | the form starts empty, with the dialogs closed |
| IncomeFormPage.IncomeForm.HandleSubmit | src/components/IncomeForm.jsx:41-62 | an unfilled form, a missing user or a failure changes nothing; on success the income is appended and the form emptied |
| IncomeFormPage.IncomeForm.HandleAddCategory | src/components/IncomeForm.jsx:64-70 | a non-blank name closes the dialog and clears the field whether or not the unawaited call succeeds; the name is added only on success |
| IncomeFormPage.IncomeForm.HandleDeleteCategory | src/components/IncomeForm.jsx:72-74 | as written, the handler changes neither the form nor the store |
| IncomeFormPage.IncomeForm.HandleDeleteCategoryIntended | src/context/ExpenseContext.jsx:414-438 | the intended handler removes the category from the income list |
| AddExpenseDialog.ChangeSetsOneField | src/components/AddExpense.jsx:26-32 | a change sets only its own field: it is a no-op exactly when the field already holds that value, a later change to the same field wins, and changes to different fields commute |
| AddExpenseDialog.AddExpenseForm.constructor | src/components/AddExpense.jsx:17-24 | the dialog starts empty and not loading |
| AddExpenseDialog.AddExpenseForm.HandleChange | src/components/AddExpense.jsx:26-32 | typing changes only the form data |
| AddExpenseDialog.AddExpenseForm.BeginSubmit | src/components/AddExpense.jsx:34-42 | the submit starts exactly when the amount, category and description are filled, and otherwise shows the required-fields error |
| AddExpenseDialog.AddExpenseForm.CompleteSubmit | src/components/AddExpense.jsx:44-56 | on success the expense is appended and the dialog closes; otherwise the error shows and loading ends |
| AddExpenseDialog.AddExpenseForm.RequestClose | src/components/AddExpense.jsx:60 | the dialog cannot close while loading |
| AddExpenseDialog.SubmitOnce | src/components/AddExpense.jsx:34-57 | a whole submit adds at most one expense, and only a filled form with a signed-in user adds one |
| CategoryManager.ApplyKeepsListClean | src/components/CategoryManager.jsx:26-48 | the calls the dialog makes keep a list free of duplicates and never remove "Others" |
| CategoryManager.FilterKeepsDistinct | src/components/CategoryManager.jsx:42-48 | deleting by filter keeps a duplicate-free list free of duplicates |
| CategoryManager.ManagerDialog.constructor | src/components/CategoryManager.jsx:23-24 | the dialog starts with an empty field and no error |
| CategoryManager.ManagerDialog.Type | src/components/CategoryManager.jsx:72-75 | typing sets the field and clears the error |
| CategoryManager.ManagerDialog.HandleAddCategory | src/components/CategoryManager.jsx:26-40 | a blank name and a listed name are refused with their messages; otherwise the trimmed name, never empty and never listed, is added |
| CategoryManager.ManagerDialog.HandleDeleteCategory | src/components/CategoryManager.jsx:42-48 | "Others" is refused with its message, and any other name is deleted |
| SharedWalletPage.NewWalletIsBalanced | src/components/SharedWallet.jsx:97-105 | a new wallet has no expenses and a zero total, its only member is its creator, and only the creator is offered Delete |
| SharedWalletPage.NewWallet | src/components/SharedWallet.jsx:97-105 | the stored document has the trimmed name and description, the creator as creator and only member, the creation time, no expenses and a zero total |
| SharedWalletPage.InviteAppends | src/components/SharedWallet.jsx:131-134 | an invite appends the trimmed e-mail to the member list and keeps the earlier members in order |
| SharedWalletPage.WalletPage.constructor | src/components/SharedWallet.jsx:45-56 | the page starts with the dialogs closed and no messages |
| SharedWalletPage.WalletPage.OpenNewWallet | src/components/SharedWallet.jsx:183 | the button opens only the new-wallet dialog |
| SharedWalletPage.WalletPage.OpenInvite | src/components/SharedWallet.jsx:245-248 | the button selects the wallet and opens the invite dialog |
| SharedWalletPage.WalletPage.HandleCreateWallet | src/components/SharedWallet.jsx:83-119 | a blank name or no user is refused with its message; a success stores the new wallet; a failure shows the error |
| SharedWalletPage.WalletPage.HandleInviteMember | src/components/SharedWallet.jsx:121-142 | a blank e-mail or no wallet is refused; a success appends the trimmed e-mail to the stored members |
| SharedWalletPage.WalletPage.HandleDeleteWallet | src/components/SharedWallet.jsx:144-157 | nothing happens unless confirmed; a success removes exactly that wallet; a failure shows the error |
| SharedWalletExpensePanel.FreshForm | src/components/SharedWalletExpenses.jsx:33-38 | a fresh form is blank, paid by the user, in the "Other" category |
| SharedWalletExpensePanel.NewSharedExpense | src/components/SharedWalletExpenses.jsx:61-67 | the stored expense carries the form's fields, the new id and the time |
| SharedWalletExpensePanel.Deletable | src/components/SharedWalletExpenses.jsx:167-168 | Delete is offered on an expense exactly when the user paid it or created the wallet |
| SharedWalletExpensePanel.DeletePermission | src/components/SharedWalletExpenses.jsx:167-168 | the creator may delete everything, and anyone else exactly what they paid |
| SharedWalletExpensePanel.ExpensePanel.constructor | src/components/SharedWalletExpenses.jsx:32-40 | the panel starts closed with a fresh form |
| SharedWalletExpensePanel.ExpensePanel.Refresh | src/components/SharedWalletExpenses.jsx:83 | the response to the `onUpdate` prop (declared at line 30, called after a successful add at line 83 and a successful delete at line 101): the panel's wallet is re-read from the collection when it is still there, and nothing else changes |
| SharedWalletExpensePanel.ExpensePanel.HandleAddExpense | src/components/SharedWalletExpenses.jsx:51-87 | a missing amount or description is refused; a success adds the expense to the stored wallet as computed from the panel's copy |
| SharedWalletExpensePanel.ExpensePanel.HandleDeleteExpense | src/components/SharedWalletExpenses.jsx:89-105 | nothing happens unless confirmed; a success removes the expense from the stored wallet as computed from the panel's copy |
| AuthContext.Merge | src/context/AuthContext.jsx:104-126 | a profile update changes the display name only when one is given, never the uid or e-mail |
| AuthContext.Prefill | src/components/Login.jsx:36-43 | the login form is prefilled exactly when "remember me" is stored as true with a non-empty e-mail, and then with that e-mail |
| AuthContext.Remembered | src/context/AuthContext.jsx:61-69 | ticking remember-me stores "true" and the e-mail; not ticking it removes both keys; every other key is kept |
| AuthContext.RememberRoundTrip | src/context/AuthContext.jsx:58-74 | logging in with "remember me" makes the next visit prefill that e-mail; without it, nothing is prefilled; other keys are untouched |
| AuthContext.DisplayNameFound | src/context/AuthContext.jsx:140-153 | a name found belongs to a user document with that e-mail, and none is found when no document has it |
| AuthContext.FirstDisplayName | src/context/AuthContext.jsx:140-153 | a name returned is carried by a listed document with that e-mail, and none is returned when no listed document has it |
| AuthContext.GetUserDisplayName | src/context/AuthContext.jsx:140-153 | a name is returned only after a successful query and only when some listed document with that e-mail carries it; no name when no document has the e-mail |
| AuthContext.Auth.constructor | src/context/AuthContext.jsx:34-35 | no one is signed in |
| AuthContext.Auth.Signup | src/context/AuthContext.jsx:37-56 | the steps stop at the first failure, keeping the effects of those before it; a full success signs in and stores the user document |
| AuthContext.Auth.Login | src/context/AuthContext.jsx:58-74 | a success signs in and records or forgets the e-mail; a failure changes nothing |
| AuthContext.Auth.LoginWithGoogle | src/context/AuthContext.jsx:76-94 | a success signs in and stores the user document; a failed popup changes nothing |
| AuthContext.Auth.Logout | src/context/AuthContext.jsx:96-98 | a success signs out |
| AuthContext.Auth.UpdateUserProfile | src/context/AuthContext.jsx:104-126 | with no user it fails; each step's failure stops the rest; a success merges the update into the user and the document |
| AuthContext.Auth.UpdateUserPassword | src/context/AuthContext.jsx:128-137 | with no user it fails, and otherwise it reports the backend's outcome |
| LoginPage.LoginError | src/components/Login.jsx:54-58 | an invalid-credential code gives its own message, and every other error the generic one |
| LoginPage.Login.constructor | src/components/Login.jsx:21-43 | a remembered e-mail is prefilled with "remember me" ticked; otherwise the form is empty |
| LoginPage.Login.HandleSubmit | src/components/Login.jsx:45-62 | a success signs in, records the choice and navigates to the app; a failure shows the mapped message |
| LoginPage.Login.HandleGoogleSignIn | src/components/Login.jsx:64-75 | a success signs in and navigates; a failure shows the Google message |
| SignupPage.FirstProblem | src/components/Signup.jsx:48-58 | the form is accepted exactly when the passwords match, have six or more characters and the name is not blank; otherwise the first failing check names the error |
| SignupPage.FlagMeansMismatch | src/components/Signup.jsx:184-192 | the red confirm field means the submit will be refused for differing passwords |
| SignupPage.SignupError | src/components/Signup.jsx:66-70 | an e-mail-in-use code gives its own message, and every other error the generic one |
| SignupPage.TypingClearsFlag | src/components/Signup.jsx:36-42 | the confirm field is flagged exactly when it is non-empty and differs from the password |
| SignupPage.Signup.constructor | src/components/Signup.jsx:19-26 | the form starts empty, with no error |
| SignupPage.Signup.HandleChange | src/components/Signup.jsx:36-42 | typing changes only the given field |
| SignupPage.Signup.HandleSubmit | src/components/Signup.jsx:44-74 | a failed check shows its error and calls nothing; a full success signs in, writes the users document and navigates; a failed name or document step shows the mapped error and leaves the account signed in, without the name or without the document |
| SignupPage.Signup.HandleGoogleSignUp | src/components/Signup.jsx:76-87 | a success signs in and navigates; a failure shows the Google message |
| ProfilePage.ShortcutFor | src/components/Profile.jsx:81-100 | only Alt with n, e, p or h is a shortcut |
| ProfilePage.Profile.PasswordText | src/components/Profile.jsx:439 | the password shows masked unless revealed |
| ProfilePage.Profile.constructor | src/components/Profile.jsx:44-72 | the dialogs start closed, and the name field holds the current display name |
| ProfilePage.Profile.KeyPress | src/components/Profile.jsx:81-100 | each shortcut opens its dialog or the tour, and anything else changes nothing |
| ProfilePage.Profile.HandleNameUpdate | src/components/Profile.jsx:109-128 | a blank name is ignored; a success stores the trimmed name on the signed-in user and in its users document and closes the dialog; a failure shows the error and changes no auth state |
| ProfilePage.Profile.HandleEmailUpdate | src/components/Profile.jsx:130-148 | an e-mail update always ends in an error, because the called function does not exist |
| ProfilePage.Profile.HandlePasswordUpdate | src/components/Profile.jsx:150-171 | differing passwords are refused; a success closes the dialog and clears the fields; a failure shows the error |
| ProfilePage.Profile.HandlePasswordVisibility | src/components/Profile.jsx:178-184 | with no password known, the button asks for re-authentication; otherwise it toggles, and it never reveals an empty password |
| ProfilePage.Profile.HandleAuthSubmit | src/components/Profile.jsx:186-206 | a successful re-authentication reveals the entered password; a failure shows "wrong password" |

## Left out

- Dashboard.DashboardPage.HandleAddTransaction: requires an entered amount. The page has no required-field check, so a blank amount becomes NaN; NaN amounts are not modelled.
- Floating point: amounts are whole cents. `parseFloat`, `toFixed` and rounding in labels and exports are not modelled. Budget progress is a real ratio, with the JavaScript infinities and NaN written out.
- Time zones, locales and date formatting. The day key of the daily chart is a parameter.
- Unicode: lower-casing is ASCII only, and string lengths are counted in characters, not UTF-16 units.
- Sort stability, and the position of undated records in the newest-first sort. The model puts an undated record after every dated one. The source compares `new Date(b.date) - new Date(a.date)` (ExpenseList.jsx:125), which is NaN for an undated record. `sort` reads NaN as equal, so the engine decides where such a record lands.
- The integer-key ordering of `Object.entries`. Groups are kept in order of first appearance.
- Concurrency. Snapshot listeners (`onSnapshot`), overlapping awaits, and stale React closures in the achievement engine are replaced by one call after another. The stale wallet copy is modelled as an explicit `seen` parameter.
- Award display fields (names, descriptions, icons) other than id and points. Local-storage writes of the log and streak beyond the stored copies.
- `handleSetBudget` in the budget page, which no element calls.
- The "Others" category that the category manager protects. It is not among the store's defaults, which end in "Other". The manager is modelled against a given list, because no page renders it and its context members do not exist.
- The unused `budget` field of a shared wallet, and the records' `createdAt` timestamps (the wallet's `createdAt` is modelled).
- ExpenseFormPage.ExpenseForm.HandleSubmit, IncomeFormPage.IncomeForm.HandleSubmit, LoginPage.Login.HandleSubmit, LoginPage.Login.HandleGoogleSignIn, SignupPage.Signup.HandleSubmit, SignupPage.Signup.HandleGoogleSignUp, ProfilePage.Profile.HandleNameUpdate, ProfilePage.Profile.HandleEmailUpdate and ProfilePage.Profile.HandlePasswordUpdate: the `loading` flag (for example ExpenseForm.jsx:50 and 79-81, IncomeForm.jsx:45 and 59-61, Login.jsx:49 and 59-61). It is set only while the backend call is awaited and cleared on every path, so in a handler modelled as one step it is false before and after. The buttons it disables are not modelled.
- SharedWalletExpensePanel.ExpensePanel.HandleAddExpense and HandleDeleteExpense do not call the `onUpdate` prop (SharedWalletExpenses.jsx:83 and 101). What a parent does on that call is the separate `Refresh` step, which a caller runs afterwards. No component of the repository renders the panel, so no parent fixes that response.
- Browser validation of `required` fields.
- The profile page's guided tour, snackbars, skeletons and the show/hide toggles of its password fields.
- The internals of the re-authentication provider.
- The income form's unawaited add-category call. Its rejection is not surfaced to the user, and the model closes the dialog either way.
- Console logging, and error messages shown only in the console.
- ProfilePage.Profile.HandleEmailUpdate: `updateUserEmail` is not provided by the authentication context. The model shows the resulting error instead of an e-mail change, and the e-mail change itself is not modelled.

## Findings

| source | as written | input that shows it | evidently intended | confidence | as-written member | corrected member |
|---|---|---|---|---|---|---|
| src/components/IncomeForm.jsx:72-74 | the delete handler calls `deleteIncomeCategory`, which the expense context does not provide (line 29 destructures it as undefined), so the call throws and nothing is deleted | a signed-in user whose category document lists "Salary" deletes "Salary" from the income form | call `removeIncomeCategory`, which removes the name from the user's income categories | not executed | IncomeFormPage.IncomeForm.HandleDeleteCategory | IncomeFormPage.IncomeForm.HandleDeleteCategoryIntended |
