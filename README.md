# BudgetingApp budget logic in Dafny

BudgetingApp is a React Native budgeting app backed by Firestore. Users keep
a personal ledger and share group budgets. This project models the decisions
the app's screens make on their own, apart from the store.

It covers the personal ledger screen (`pages/MyBudget.js`):
- normalising the stored budget and marking the calendar;
- the remaining budget;
- the monthly savings;
- the start/end window over the entries and the per-category totals;
- validating a new entry;
- deleting a recurring expense.

It covers the group budget screen (`pages/GroupBudget.js`):
- its window filter;
- its validation;
- its two phases: setting a budget, then showing or editing the remaining figure.

It also covers:
- creating a group from the phone's contacts (`pages/CreateGroup.js`);
- the pie chart's data (`components/BudgetPieChart.js`);
- who may manage a group's members (`pages/GroupSettings.js`).

JavaScript objects are ordered association lists `Dict<V>`, kept in
`Object.entries` order (module `Js`). Property assignment keeps an existing
key in its place and appends a new one. JavaScript does this only for keys
that are not array indices: it lists index keys such as "2025" first, in
ascending order (see "## Left out"). Stored Firestore values are the
datatype `Raw`. Sums that can turn into `NaN` use `Number`. Dates are ISO
strings compared character by character, as the app compares them. Dafny
orders characters by code point and JavaScript by UTF-16 code unit; the two
orders agree on the ASCII characters of ISO dates. Amounts
are `real`.

The app reads several things from the store or the clock. The model takes
them as parameters instead:
- "today";
- the user's document;
- the expanded recurring list;
- the outcome of each store write.

Code that fills variables in loops is modelled as methods with loop
invariants. Each method is proved equal to a specification function, and
the properties are proved about those functions:
- normalisation;
- the manual total;
- the monthly totals;
- both window filters.

The two screens whose handlers change component state are modelled as
classes, `GroupBudgetScreen` and `GroupSettingsScreen`, with `modifies` on
their methods.

## Model

| member | source | states |
|---|---|---|
| Js.EntriesOf | budgetingapp/pages/MyBudget.js:94-97 | `Object.entries` throws exactly on null; an object gives its own fields; a number or boolean gives no entries |
| Js.Add | budgetingapp/pages/MyBudget.js:181 | `+` on amounts is NaN exactly when an operand is, and is otherwise the real sum |
| CategoryView.WindowEntriesLookup | budgetingapp/pages/MyBudget.js:316-324 | a filtered category has distinct names, exactly the names of the entries the window keeps, each mapped to that entry's amount, and no other name |
| CategoryView.WindowLedgerLookup | budgetingapp/pages/MyBudget.js:316-318 | every category of the ledger appears in the filtered map, even one left empty, and maps to its own filtered entries |
| CategoryView.WindowEntriesTotal | budgetingapp/pages/MyBudget.js:396-397 | the values of a filtered category add up to the amounts of the entries kept, in order |
| CategoryView.CategoryTotalsLookup | budgetingapp/pages/MyBudget.js:396-397 | the figure for a category is the sum of its filtered values, and there is no figure for a name that is not a category |
| CategoryView.CategoryTotalIsKeptTotal | budgetingapp/pages/GroupBudget.js:311-312 | for any window, the figure shown for a category is the total of its entries inside the window |
| CategoryView.LexLeTotal | budgetingapp/pages/MyBudget.js:320 | any two date strings are ordered one way or the other by the string comparison |
| CategoryView.LexLeTransitive | budgetingapp/pages/MyBudget.js:320 | the string comparison is transitive |
| CategoryView.WindowIsInterval | budgetingapp/pages/MyBudget.js:320 | a date lying between two dates a window admits is admitted too: a window is an interval of dates |
| BudgetNormalisation.LegacyEntryFields | budgetingapp/pages/MyBudget.js:101-103 | a bare-number entry becomes an object with that amount and the date '2025-01-01' |
| BudgetNormalisation.BudgetSource | budgetingapp/pages/MyBudget.js:94 | `data.budget \|\| {}` is never null |
| BudgetNormalisation.Normalise | budgetingapp/pages/MyBudget.js:94-107 | the nested loops produce the normalised ledger and the collected dates of the specification function, or fail where the loop throws |
| BudgetNormalisation.NormaliseEntries | budgetingapp/pages/MyBudget.js:97-104 | the inner loop over one category's entries yields exactly the kept entries and pushed dates of the specification function, or fails where an entry is `null` and `value.amount` throws |
| BudgetNormalisation.CategoryFails | budgetingapp/pages/MyBudget.js:97-104 | the entries of a category throw exactly when one of them is null |
| BudgetNormalisation.CategoriesFail | budgetingapp/pages/MyBudget.js:94-97 | the loop throws exactly when a category is null, or is an object or array holding a null entry |
| BudgetNormalisation.NormaliseFails | budgetingapp/pages/MyBudget.js:94-107 | the whole stored budget fails to load exactly when some category makes the loop throw |
| BudgetNormalisation.CategoryFailureSticks | budgetingapp/pages/MyBudget.js:97-104 | once an entry throws, the category fails whatever follows |
| BudgetNormalisation.CategoriesFailureSticks | budgetingapp/pages/MyBudget.js:94-107 | once a category throws, the loading fails whatever follows |
| BudgetNormalisation.CategoryShape | budgetingapp/pages/MyBudget.js:97-104 | in a category, an object entry with a numeric amount is kept unchanged, a bare number becomes `{amount, date: '2025-01-01'}`, and any other entry is dropped; names stay distinct; the pushed dates are those of the kept entries, in order |
| BudgetNormalisation.BudgetUniqueAndDated | budgetingapp/pages/MyBudget.js:94-107 | the normalised ledger has distinct keys at both levels and only stored category names, and the collected dates are its entries' dates in order |
| BudgetNormalisation.BudgetCategories | budgetingapp/pages/MyBudget.js:94-96 | every category whose stored value is an object appears with its normalised entries, even when all of them were dropped; every other category is absent |
| BudgetNormalisation.LedgerDatesMembers | budgetingapp/pages/MyBudget.js:100-103 | a date is collected exactly when some kept entry carries it, with the default standing in for a missing date |
| BudgetNormalisation.EntryDatesMembers | budgetingapp/pages/MyBudget.js:100-103 | within one category, a date is collected exactly when one of its kept entries carries it |
| BudgetNormalisation.CategoryAmountsNumeric | budgetingapp/pages/MyBudget.js:98-103 | every entry kept in a category has a numeric `amount` |
| BudgetNormalisation.NormalisedAmountsNumeric | budgetingapp/pages/MyBudget.js:94-107 | every entry of the normalised ledger has a numeric `amount` |
| BudgetNormalisation.MarkDates | budgetingapp/pages/MyBudget.js:109-112 | the marked values are exactly the collected dates |
| BudgetNormalisation.MarkedDatesAreEntryDates | budgetingapp/pages/MyBudget.js:94-112 | the calendar marks exactly the dates of the kept entries, with '2025-01-01' for a missing date, and nothing else |
| RemainingBudget.ManualExpenses | budgetingapp/pages/MyBudget.js:134-141 | on a ledger whose amounts are all numbers (as normalisation guarantees), the loop adds up the amounts of all its entries |
| RemainingBudget.CalculateRemainingBudget | budgetingapp/pages/MyBudget.js:132-148 | on the normalised ledger, the value set is the budget total (or 0), less the manual total, less the amounts of the expanded items of type 'expense' |
| RemainingBudget.ExpensesAppend | budgetingapp/pages/MyBudget.js:144-145 | the expense filter keeps order and distributes over concatenation |
| RemainingBudget.ExpensesAreExpenses | budgetingapp/pages/MyBudget.js:144-145 | an item is kept by the filter exactly when it is in the list and its type is 'expense' |
| RemainingBudget.SumAmountsAppend | budgetingapp/pages/MyBudget.js:146 | the reduce over a concatenation is the sum of the reduces |
| RemainingBudget.IncomeNeverCounts | budgetingapp/pages/MyBudget.js:143-148 | an item that is not an expense, wherever it stands, never changes the remaining budget |
| RemainingBudget.ExpenseLowersRemaining | budgetingapp/pages/MyBudget.js:143-148 | each expanded expense lowers the remaining budget by exactly its amount |
| RemainingBudget.ManualEntryLowersRemaining | budgetingapp/pages/MyBudget.js:134-148 | a manual entry lowers the remaining budget by its amount, whatever its date |
| RemainingBudget.ManualTotalAppend | budgetingapp/pages/MyBudget.js:134-141 | the manual total of two ledgers side by side is the sum of their totals |
| LedgerWindow.FilterBudget | budgetingapp/pages/MyBudget.js:315-324 | the nested loops build the filtered map of the specification function |
| LedgerWindow.OpenWindowKeepsAll | budgetingapp/pages/MyBudget.js:320 | with the start or the end unpicked, every entry is in the window |
| LedgerWindow.UndatedEntryUsesDefault | budgetingapp/pages/MyBudget.js:319-320 | with both bounds picked, an undated entry is in the window exactly when '2025-01-01' is |
| LedgerWindow.DatedEntryInWindow | budgetingapp/pages/MyBudget.js:319-320 | with both bounds picked, an entry with a string date is in the window exactly when start <= date <= end |
| LedgerWindow.FilteredBudgetShape | budgetingapp/pages/MyBudget.js:315-324 | the filtered map has the ledger's categories, and each maps an entry's name to its amount exactly when the entry is in the window |
| LedgerWindow.CategoryTotalsInWindow | budgetingapp/pages/MyBudget.js:396-397 | the figure for each category is the sum of its entries' amounts inside the window |
| LedgerWindow.OpenWindowTotal | budgetingapp/pages/MyBudget.js:320 | with no window, a category's figure is the total of all its entries, which is what the remaining budget subtracts |
| MonthlySavings.MonthOf | budgetingapp/pages/MyBudget.js:179 | the month is the first seven characters of the date, or the whole date when it is shorter |
| MonthlySavings.Addend | budgetingapp/pages/MyBudget.js:181 | a numeric amount adds its value; a missing amount adds NaN |
| MonthlySavings.Base | budgetingapp/pages/MyBudget.js:180 | a month's total starts at 0 when it has none, and is a number from then on |
| MonthlySavings.AddToMonth | budgetingapp/pages/MyBudget.js:180-181 | the two statements charge the amount to the month |
| MonthlySavings.ChargeCategory | budgetingapp/pages/MyBudget.js:177-182 | the loop over a category charges its entries in order, and fails exactly when an entry throws |
| MonthlySavings.ChargeRecurring | budgetingapp/pages/MyBudget.js:186-191 | the loop charges the recurring definitions of type 'expense' to the current month |
| MonthlySavings.CalculateMonthlySavings | budgetingapp/pages/MyBudget.js:170-198 | the method returns the records of the specification function, or fails where the first loop throws |
| MonthlySavings.ChargeAllAppend | budgetingapp/pages/MyBudget.js:176-191 | charging two lists one after the other is charging their concatenation |
| MonthlySavings.EntryFailureSticks | budgetingapp/pages/MyBudget.js:177-182 | once an entry throws, the whole category fails |
| MonthlySavings.BudgetFailureSticks | budgetingapp/pages/MyBudget.js:176-183 | once a category throws, the whole calculation fails |
| MonthlySavings.MonthKeys | budgetingapp/pages/MyBudget.js:174-191 | the month totals have distinct keys, exactly the months charged |
| MonthlySavings.MonthTotal | budgetingapp/pages/MyBudget.js:174-191 | when every amount charged is a number, a month's total is the sum of what was charged to it, and an uncharged month has no total |
| MonthlySavings.SpentInAppend | budgetingapp/pages/MyBudget.js:176-191 | what two lists charge to a month is the sum of what each charges |
| MonthlySavings.RecurringChargesMonth | budgetingapp/pages/MyBudget.js:186-191 | the recurring loop makes one charge per expense definition, each a number charged to the current month |
| MonthlySavings.RecurringSpent | budgetingapp/pages/MyBudget.js:186-191 | the recurring loop charges the current month the sum of the expense definitions' amounts |
| MonthlySavings.RecurringChargedOnce | budgetingapp/pages/MyBudget.js:185-191 | recurring expenses charge only the current month, which is charged exactly when there is one |
| MonthlySavings.LegacyEntryChargesNaN | budgetingapp/pages/MyBudget.js:176-181 | a bare-number entry has no `amount` and no `date`, so it charges NaN to the current month |
| MonthlySavings.SavingsOfRecords | budgetingapp/pages/MyBudget.js:193-196 | there is one record per month key with distinct months, each saving the budget total less that month's total |
| MonthlySavings.SavingsPerMonth | budgetingapp/pages/MyBudget.js:170-198 | when the first loop does not throw and every amount it charges is a number, the calculation succeeds; a month has a record exactly when it was charged (or it is the current month and there are recurring expenses); its savings are the budget total less the month's entries and, for the current month, the recurring expenses |
| MonthlySavings.ChargeableEntries | budgetingapp/pages/MyBudget.js:177-179 | a category whose entries are all objects with a numeric `amount` and a string or falsy `date` charges one number per entry, without throwing |
| MonthlySavings.ChargeableBudgetCharges | budgetingapp/pages/MyBudget.js:176-183 | when every stored category is such an object, the first loop does not throw and every amount it charges is a number, which is what SavingsPerMonth requires |
| MonthlySavings.NumericDateRejects | budgetingapp/pages/MyBudget.js:178-179 | a numeric amount alone is not enough: an entry whose `date` is a number has no `slice`, and the calculation rejects |
| LedgerActions.AddField | budgetingapp/pages/MyBudget.js:233-277 | the form is refused exactly when the name is empty or the amount is NaN or not positive; otherwise the call carries the category, the name and the amount |
| LedgerActions.AddFieldGuards | budgetingapp/pages/MyBudget.js:235-238 | nothing is written for an empty name, a NaN or a non-positive amount; a written amount is positive |
| LedgerActions.AddFieldDates | budgetingapp/pages/MyBudget.js:240-266 | a recurring entry starts today with no end and type 'expense'; a one-off entry is dated on the selected day, or today when none was picked |
| LedgerActions.RemoveAtSlices | budgetingapp/pages/MyBudget.js:464 | `filter((_, i) => i !== index)` drops exactly that position and keeps the rest in order, and drops nothing for an index out of range |
| LedgerActions.DeleteShownAsWrittenRemovesIncome | budgetingapp/pages/MyBudget.js:451-466 | as written, with an income stored before the only expense, pressing that expense's delete button removes the income, and the list shown is unchanged |
| LedgerActions.StoredPosition | budgetingapp/pages/MyBudget.js:451-453 | the k-th item shown sits at a stored position holding an expense |
| LedgerActions.StoredPositionSplits | budgetingapp/pages/MyBudget.js:451-453 | exactly k expenses precede that stored position |
| LedgerActions.DeleteShownRemovesPressed | budgetingapp/pages/MyBudget.js:451-466 | the corrected deletion removes exactly the expense pressed from the list shown and leaves every non-expense definition in place |
| LedgerActions.DeleteShownOutOfRange | budgetingapp/pages/MyBudget.js:451-466 | a press past the list shown changes nothing |
| GroupBudget.FilterGroupBudget | budgetingapp/pages/GroupBudget.js:162-170 | the nested `forEach` loops build the group's filtered map of the specification function |
| GroupBudget.UndatedGroupEntryExcluded | budgetingapp/pages/GroupBudget.js:166 | with both bounds picked, a group entry without a date is never in the window |
| GroupBudget.OpenWindowKeepsGroupBudget | budgetingapp/pages/GroupBudget.js:162-170 | with no window, every category and every entry appears, mapped to its amount |
| GroupBudget.SetWindowKeepsDatedInside | budgetingapp/pages/GroupBudget.js:162-170 | with both bounds picked, an entry appears exactly when it has a date with start <= date <= end |
| GroupBudget.GroupCategoryTotals | budgetingapp/pages/GroupBudget.js:311-312 | each category's figure is the total of its entries inside the window |
| GroupBudget.OverrideRequest | budgetingapp/pages/GroupBudget.js:50-56 | the remaining budget is written exactly when the value is a number >= 0, and the value written is that number |
| GroupBudget.InitialRequest | budgetingapp/pages/GroupBudget.js:69-75 | the initial budget is written exactly when the value is a number > 0, and the value written is that number |
| GroupBudget.FieldRequest | budgetingapp/pages/GroupBudget.js:85-92 | an accepted group field carries the parsed amount and the selected date |
| GroupBudget.OverrideAndInitial | budgetingapp/pages/GroupBudget.js:50-75 | the override accepts 0 where the initial budget refuses it; every accepted initial budget is an accepted override; neither accepts a negative value or NaN |
| GroupBudget.FieldRuleMatchesPersonal | budgetingapp/pages/GroupBudget.js:86-90 | a group field is refused exactly when the personal form would refuse the same name and amount |
| GroupBudget.GroupBudgetScreen.constructor | budgetingapp/pages/GroupBudget.js:23-27 | the screen holds the `remainingBudget` of the document read, and the override form starts closed (`isEditingRemaining` is `false`) |
| GroupBudget.GroupBudgetScreen.Panel | budgetingapp/pages/GroupBudget.js:194-238 | the set-budget form is shown exactly while `remainingBudget` is undefined; the override form exactly when there is a figure and it is being edited; otherwise the figure itself |
| GroupBudget.GroupBudgetScreen.BeginEdit | budgetingapp/pages/GroupBudget.js:230-236 | the pencil opens the override form and keeps the figure |
| GroupBudget.GroupBudgetScreen.CancelEdit | budgetingapp/pages/GroupBudget.js:221-224 | Cancel closes the override form and keeps the figure |
| GroupBudget.GroupBudgetScreen.SaveRemaining | budgetingapp/pages/GroupBudget.js:49-65 | a refused value or a failed write leaves the screen as it was; a successful write closes the form and shows the document read back |
| GroupBudget.GroupBudgetScreen.SetInitialBudget | budgetingapp/pages/GroupBudget.js:68-82 | a refused value or a failed write leaves the screen as it was; a successful write shows the document read back |
| Contacts.Digits | budgetingapp/pages/CreateGroup.js:39 | the replace leaves only digits, and never lengthens the number |
| Contacts.DigitsMembers | budgetingapp/pages/CreateGroup.js:39 | a character is in the result exactly when it is a digit of the number |
| Contacts.DigitsAppend | budgetingapp/pages/CreateGroup.js:39 | the digits of a joined string are the digits of each part, in order: every digit is kept where it stood |
| Contacts.NormalizePhone | budgetingapp/pages/CreateGroup.js:37-44 | a missing or empty number gives ""; the result is all digits; a leading '0' is replaced by "358" |
| Contacts.NormalizeIdempotent | budgetingapp/pages/CreateGroup.js:37-44 | a normalised number never starts with '0', so normalising it again changes nothing |
| Contacts.UsersFromDb | budgetingapp/pages/CreateGroup.js:52-55 | there is one user per document, with the phone normalised and the name as stored |
| Contacts.FindUserFirst | budgetingapp/pages/CreateGroup.js:60 | `find` gives the first user with that phone, and gives nothing exactly when no user has it |
| Contacts.MatchContactsAppend | budgetingapp/pages/CreateGroup.js:58-70 | matching keeps the contacts' order |
| Contacts.MatchContactsMembers | budgetingapp/pages/CreateGroup.js:58-70 | there are no more matches than contacts, and the matches are exactly the contacts that match |
| Contacts.MatchContactMeaning | budgetingapp/pages/CreateGroup.js:59-69 | a contact matches exactly when a user has its normalised first number; the match carries the contact's id and name, that phone and the first such user's name |
| Contacts.NumberlessContactMatchesPhonelessUser | budgetingapp/pages/CreateGroup.js:37-38 | a contact without a number matches a registered user without a phone, on "" |
| Contacts.Without | budgetingapp/pages/CreateGroup.js:77 | the filter removes every copy of the user and keeps every other element |
| Contacts.ToggleSelectionMeaning | budgetingapp/pages/CreateGroup.js:75-79 | a selected user is taken out, an unselected one is appended, and toggling an unselected user twice restores the selection |
| Contacts.WithoutAppend | budgetingapp/pages/CreateGroup.js:77 | the filter keeps order |
| Contacts.CreateGroup | budgetingapp/pages/CreateGroup.js:82-88 | nothing is written exactly when the name is empty; otherwise the members are the selected users' phones, in selection order |
| PieChart.PositiveAppend | budgetingapp/components/BudgetPieChart.js:8-9 | the slices keep the entries' order |
| PieChart.PositiveMembers | budgetingapp/components/BudgetPieChart.js:8-9 | an entry becomes a slice exactly when its value is a number > 0 |
| PieChart.ChartDataSlices | budgetingapp/components/BudgetPieChart.js:8-16 | there is one slice per kept entry, in order: the `i`-th slice is the `i`-th kept entry, named by its key, sized by its positive number, and coloured `colors[i % 7]` by that position |
| PieChart.ColorsCycle | budgetingapp/components/BudgetPieChart.js:37-48 | colours repeat with period 7, and any seven consecutive slices have different colours |
| PieChart.NoDataWhenNothingPositive | budgetingapp/components/BudgetPieChart.js:8-24 | the "No budget data to show." notice appears exactly when no value is a positive number |
| PieChart.ScreenChartAsWrittenIsEmpty | budgetingapp/pages/MyBudget.js:394 | as written, the screens pass category -> entries objects, so the chart is always the notice |
| PieChart.ScreenChartSlices | budgetingapp/pages/GroupBudget.js:308-312 | charting the category totals gives a slice for a category exactly when its total is positive, sized by that total, and the notice exactly when no total is positive |
| GroupSettings.ControlsFollowOwnership | budgetingapp/pages/GroupSettings.js:80-92 | the owner's own row never has a remove control; a viewer who is not the owner sees no remove control and no add link; the owner sees both on every other row |
| GroupSettings.OwnershipBeforeAndAfterLoad | budgetingapp/pages/GroupSettings.js:17-22 | under strict equality, nobody owns the group before it is loaded; a signed-out viewer owns a group loaded without an `ownerId` |
| GroupSettings.WithoutUidAppend | budgetingapp/pages/GroupSettings.js:54 | removing a uid keeps the other rows in order |
| GroupSettings.WithoutUidMembers | budgetingapp/pages/GroupSettings.js:54 | exactly the rows with that uid are removed; a list without it is unchanged |
| GroupSettings.GroupSettingsScreen.RemoveControls | budgetingapp/pages/GroupSettings.js:77-87 | a row shows the trash icon exactly when the viewer owns the group and the row is not the owner's |
| GroupSettings.GroupSettingsScreen.constructor | budgetingapp/pages/GroupSettings.js:16-22 | the screen starts with no members and a `null` owner, so no viewer, signed in or not, owns the group before it is read |
| GroupSettings.GroupSettingsScreen.Load | budgetingapp/pages/GroupSettings.js:22-37 | a successful read replaces the members and the owner, after which the viewer owns the group exactly when the uids are strictly equal (a signed-out viewer owns a group stored without an `ownerId`); a failed one changes nothing |
| GroupSettings.GroupSettingsScreen.RemoveMember | budgetingapp/pages/GroupSettings.js:52-57 | after a confirmed removal the list drops exactly that uid; after a failure it is unchanged; the owner never changes |

## Left out

- Reading and writing Firestore are not modelled. This covers `getDoc`, `updateDoc`, `addDoc` and `getDocs`, and the store functions whose bodies are not part of this model: `addBudgetField`, `deleteBudgetField`, `addRecurringEntry`, `getExpandedBudget`, `setGroupBudget`, `addGroupBudgetField`, `deleteGroupBudgetField`, `getUserByGroupId`, `removeMemberFromGroup`, `addMemberToGroup` and `matchContactsToUsers`. Their results are parameters. In particular, the expanded recurring list is an input, not a projection of the definitions.
- `parseFloat`, `Number`, `String` and `toFixed` are not modelled: the handlers take the parsed value as a `Number` (a finite real or NaN). Amounts are exact reals, not IEEE doubles.
- `new Date()` and `toISOString()` are not modelled: "today" is a parameter, assumed to be a `YYYY-MM-DD` string.
- async sequencing, React state hooks and effects, Alerts, modals and the chart library's drawing are not modelled. A handler's awaited calls become parameters, and its `set...` calls become assignments to the modelled state.
- Js.Put: keys that are array indices (such as "2025") are kept in assignment order. JavaScript lists them first, in ascending order. Lookups are unaffected; only the order of `Object.entries` differs.
- MonthlySavings.SavingsOf: because of that order, records for a month key that is an array index come in assignment order. A date such as "2025", whose month key is "2025", would be listed first by JavaScript and is not listed first here. The same holds for category and entry names that are array indices, in the ledgers and in the pie chart's slice order and colours.
- BudgetNormalisation.MarkDates: non-string dates are not converted to strings. The marks are the stored date values themselves, whereas JavaScript keys `marked` by `String(date)`. So an array date `["2025-01-01"]` marks 2025-01-01 in JavaScript but not here, and `5` and `"5"` are one mark in JavaScript but two here. For string dates the two agree. BudgetNormalisation.MarkedDatesAreEntryDates inherits this.
- RemainingBudget.Recurring: recurring amounts are assumed to be finite numbers. components/BudgetSettingsScreen.js:27 stores `Number(recurringAmount)` unchecked, which is NaN for text that is not a number. A NaN amount would make the remaining budget (pages/MyBudget.js:143-148) and the current month's savings (pages/MyBudget.js:186-190) NaN, and this model does not capture that.
- LedgerWindow.InWindow: a stored date that is not a string is treated as lying outside a set window. JavaScript would coerce it before comparing.
- MonthlySavings.EntryCharge: a stored date that is an array, or an object without `slice`, is treated as throwing.
- MonthlySavings.Addend: a string or object amount is treated as NaN. The concatenation JavaScript's `+=` would perform is not modelled.
- GroupBudget.GroupEntry: group entries are typed, so the amount is a number and the date an optional string. Malformed group documents are not modelled.
- RemainingBudget.TotalOrZero: `budgetTotal` is an optional number. A stored string total is not modelled.
- Contacts.ToggleSelection: `includes` and `!==` compare objects by reference. The model compares them as values, so two equal matches from different renders are the same here.
- The `recurringItems` state is assumed to equal the stored `recurringEntries` list at the moment a delete button is pressed.
- Contacts.NormalizePhone: a phone number that is not a string (which would make `replace` throw) is not modelled.
- The calendar's selected-date overlay, the `budgetTotal` text input and the copies of the contact logic inside `AddMembersModal` and `CreateGroupModal` are not part of this model.
- Deleting a group field, and the remaining balance it restores, happen in the store and are not modelled.

## Findings

| source | as written | input that shows it | evidently intended | confidence | as-written member | corrected member |
|---|---|---|---|---|---|---|
| budgetingapp/pages/MyBudget.js:451-466 | the delete button of the item at position `index` of the expense-only view removes position `index` of the whole stored `recurringEntries` list | stored `[income 3000, expense 800]`, press the delete button of the only expense shown: the income is removed and the expense stays | remove the stored definition shown at that position | high, not executed | LedgerActions.DeleteShownAsWrittenRemovesIncome | LedgerActions.DeleteShownRemovesPressed |
| budgetingapp/components/BudgetPieChart.js:9 | the chart keeps only values that are positive numbers, but both screens pass category -> {name: amount} objects (pages/MyBudget.js:394, pages/GroupBudget.js:308) | any ledger, e.g. `{food: {bread: 3}}`: the value is an object, so the chart shows "No budget data to show." | chart each category by the total shown beside it | high, not executed | PieChart.ScreenChartAsWrittenIsEmpty | PieChart.ScreenChartSlices |
