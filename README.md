# MyFinTrack core, modelled in Dafny

MyFinTrack is a personal-finance web client. Users record income and expense
transactions with categories and receipts, set monthly budgets, track savings
goals, and see a dashboard and analytics. The client is a thin layer over a
hosted backend. Under the network calls and the JSX, though, sits a
deterministic core, and that core is what this project models and proves
things about:

- **Amount text.** Typed amounts are sanitised to digits and one point, with
  at most two decimals and thousands commas, and read back as numbers
  (`src/utils/amountInput.ts`). The settings page has a second comma
  formatter with different rules (`src/components/settings/Settings.tsx`).
- **The category catalogue.** Rows are de-duplicated by (type, trimmed
  lower-case name). Default categories come first, in table order. Each
  type's list is capped, and the store keeps a per-user cache, seeds the
  missing defaults and picks a fallback category
  (`src/services/categoryService.ts`).
- **Validation.** Password rules and the register step machine; the positive
  and non-negative amount checks of the transaction, budget, savings and
  settings forms.
- **List operations and folds.** Transaction add (re-sorted by date), edit
  by id, delete by id and search. Income and expense totals and the red-line
  flag. Per-category grouping, descending sort and top-N cut. Month bucketing
  over `YYYY-MM-DD` date strings, which compare chronologically because of
  their fixed-width `full-date` format (section 5.6 of RFC 3339). Savings-goal
  progress.
- **Small state machines.** The toast queue with its preference gating. The
  mobile header's scroll rule. The settings upsert ladder (full payload, then
  named columns dropped, then minimal payload) with its cache.
- **Service payloads.** The transaction and budget patch bodies, null
  defaulting, and the receipt-extension allow-list.

Every backend call is a parameter: a query is given as its result (rows or
an error) and a write as its outcome. Each page's component state is a
`class` whose handlers are `method`s with `modifies this`. The validation
and payload that a handler builds are pure functions (`PrepareCreate`,
`PrepareEdit`, …) proved on their own. Where the source updates a
collection with a loop, the model is a method with loop invariants, proved
equal to a reference function. This covers the category de-duplication, the
in-place sort of the requested defaults, and the per-category grouping.

Amounts are `real`. `Number(text)` and `parseFloat(text)` are modelled as
`Num = Finite(real) | NaN` over the decimal grammar `[+-]? digits [. digits]`
with ASCII white-space trimming. Strings are `seq<char>`, and JavaScript's
`<` on strings is code-unit lexicographic order (`Ordering.LexLess`).

Modules and files:

| module | file | models |
|---|---|---|
| `AmountInput` | amount_input.dfy | `src/utils/amountInput.ts` |
| `Grouping` | grouping.dfy | the thousands-comma regex and its digit-group form |
| `SettingsPage` | settings.dfy | `src/components/settings/Settings.tsx` |
| `Prefs` | prefs.dfy | the stored preference document and property access |
| `Notifications` | notifications.dfy | `src/contexts/NotificationContext.tsx` |
| `Register` | register.dfy | `src/components/auth/Register.tsx` |
| `Layout` | layout.dfy | `src/components/layout/Layout.tsx` |
| `UserSettingsService` | user_settings_service.dfy | `src/services/userSettingsService.ts` |
| `CategoryService` | category_service.dfy | `src/services/categoryService.ts` |
| `Sorting` | sorting.dfy | the in-place sort used by `getTop5` |
| `TransactionService` | transaction_service.dfy | `src/services/transactionService.ts` |
| `BudgetService` | budget_service.dfy | `src/services/budgetService.ts` |
| `TransactionList` | transactions.dfy | `src/components/transactions/TransactionList.tsx` |
| `CategoryTotals` | by_category.dfy | the group-by-category-name fold shared by the dashboard and analytics |
| `Dashboard` | dashboard.dfy | `src/components/dashboard/Dashboard.tsx` |
| `Analytics` | analytics.dfy | `src/components/analytics/Analytics.tsx` |
| `SavingsGoals` | savings.dfy | `src/components/savings/SavingsGoals.tsx` |
| `Budgets` | budgets.dfy | `src/components/budgets/Budgets.tsx` |
| `Text`, `JsNum`, `Collections`, `Ordering`, `Wrappers`, `Patch`, `TransactionType` | text.dfy, numbers.dfy, collections.dfy, ordering.dfy, wrappers.dfy, patch.dfy, transaction_type.dfy | JavaScript string and number built-ins, sequence folds and sorts, `Result`/`Option`, patch-field values |

## Model

| member | source | states |
|---|---|---|
| AmountInput.KeepAmountChars | src/utils/amountInput.ts:8 | stripping every character but digits and `.` leaves only digits and points, and never lengthens the text |
| AmountInput.IntAndDecimals | src/utils/amountInput.ts:9-11 | the whole and decimal parts split off a sanitised amount are both pure digit strings |
| AmountInput.KeepAmountCharsOfGroups | src/utils/amountInput.ts:8-12 | stripping a comma-grouped digit string gives back its digits |
| AmountInput.FirstDotOnlyShape | src/utils/amountInput.ts:36-40 | keeping only the first `.` leaves at most one point and only amount characters |
| AmountInput.GroupDigitsShape | src/utils/amountInput.ts:12 | a grouped integer part holds only digits and commas, never a point |
| AmountInput.RemoveCommasOfGroups | src/utils/amountInput.ts:12 | removing the commas from a grouped integer part gives back its digits |
| AmountInput.RenderShape | src/utils/amountInput.ts:12-14 | every rendered amount (integer part grouped, at most two decimals) is a well-formed display amount, and removing its commas gives the plain amount |
| AmountInput.RenderShapeWhole | src/utils/amountInput.ts:12-14 | the same for an amount without decimals |
| AmountInput.RenderShapeDecimal | src/utils/amountInput.ts:12-14 | the same for an amount with one or two decimals |
| AmountInput.DecimalDisplay | src/utils/amountInput.ts:13-14 | grouped digits, one point and one or two digits form a display amount |
| AmountInput.FormatOfParts | src/utils/amountInput.ts:5-15 | `formatAmountForDisplay` of digits, optionally followed by a point and decimals, renders the grouped digits with the decimals cut to two |
| AmountInput.FormatOfWhole | src/utils/amountInput.ts:5-15 | `formatAmountForDisplay` of plain digits is their grouped form |
| AmountInput.FormatOfDecimal | src/utils/amountInput.ts:5-15 | `formatAmountForDisplay` of digits, a point and decimals is the grouped digits, a point and the first two decimals |
| AmountInput.FormatIsRender | src/utils/amountInput.ts:5-15 | for every input, `formatAmountForDisplay` is the rendering of some digit string and at most two decimals |
| AmountInput.FormatOutputShape | src/utils/amountInput.ts:8-14 | `formatAmountForDisplay` output has only digits, commas and at most one point, with at most two digits after it |
| AmountInput.FormatGroupsDigits | src/utils/amountInput.ts:8-12 | for plain digits, commas separate groups of three from the right, and removing them gives back the digits |
| AmountInput.FormatTrailingDot | src/utils/amountInput.ts:11-13 | a trailing point with no decimals is dropped, and decimals beyond the second are cut |
| AmountInput.HandleIsRender | src/utils/amountInput.ts:31-45 | for every input, `handleAmountInputChange` returns the rendering of some digit string and at most two decimals |
| AmountInput.HandleOutputShape | src/utils/amountInput.ts:34-44 | `handleAmountInputChange` output contains only digits, commas and at most one point, with at most two digits after it |
| AmountInput.HandleLoneDot | src/utils/amountInput.ts:44 | a lone `.` becomes `"0"` |
| AmountInput.HandleRender | src/utils/amountInput.ts:31-45 | a rendered amount is a fixed point of `handleAmountInputChange` |
| AmountInput.HandleRenderWhole | src/utils/amountInput.ts:31-45 | the same for an amount without decimals |
| AmountInput.HandleRenderDecimal | src/utils/amountInput.ts:31-45 | the same for an amount with one or two decimals |
| AmountInput.HandleIdempotent | src/utils/amountInput.ts:34-44 | `handleAmountInputChange` applied to its own output returns it unchanged |
| AmountInput.HandleEmpty | src/utils/amountInput.ts:31-45 | an empty field stays empty |
| AmountInput.ParseBlank | src/utils/amountInput.ts:21-22 | empty or white-space-only text parses to 0 |
| AmountInput.ParseUnreadable | src/utils/amountInput.ts:20-25 | text whose trimmed, comma-free form does not start with a number (no digit, nor point and digit, after an optional sign) parses to 0 |
| AmountInput.ParseReadable | src/utils/amountInput.ts:20-25 | non-blank text whose trimmed, comma-free form does start with a number parses to what `parseFloat` reads there |
| AmountInput.ParsePlain | src/utils/amountInput.ts:20-25 | a plain digit amount is already trimmed and `parseFloat` reads its decimal value |
| AmountInput.RenderNotBlank | src/utils/amountInput.ts:12-14 | the rendering of a non-empty amount is not blank |
| AmountInput.ParseRender | src/utils/amountInput.ts:20-25 | parsing a rendered amount gives the value of its digits and decimals |
| AmountInput.ParseFormatRoundTrip | src/utils/amountInput.ts:5-24 | for digits with an optional point and at most two decimals, `parseAmountFromDisplay(formatAmountForDisplay(s))` is the numeric value of `s` |
| AmountInput.HandleParseNonNegative | src/utils/amountInput.ts:20-45 | whatever is typed, the sanitised field never parses to a negative amount |
| AmountInput.AmountFieldAsWrittenIgnoresTyping | src/components/transactions/TransactionList.tsx:377-379 | as wired, the amount field's `onChange` passes only the current text, so an empty field stays empty and a formatted field keeps its text whatever is typed |
| AmountInput.AmountFieldReadsBack | src/utils/amountInput.ts:31-45 | with the typed text passed, typing an amount shows its display form, which reads back as the typed value |
| Grouping.InsertCommasGroups | src/utils/amountInput.ts:12 | the comma regex applied to a digit string is the same as grouping the digits in threes from the right |
| Grouping.GroupDigitsCommas | src/utils/amountInput.ts:12 | in a grouped digit string, position k holds a comma exactly when k > 0 and k is a multiple of four counted from the end; every other position holds a digit |
| Grouping.CommaAtDigits | src/utils/amountInput.ts:12 | within a digit string, the regex puts a comma before position i exactly when i > 0 and the digits from i to the end are a multiple of three |
| Grouping.RemoveCommasInsert | src/components/settings/Settings.tsx:28-32 | removing commas after the comma regex gives the same text as removing them before it |
| SettingsPage.ParseCommas | src/components/settings/Settings.tsx:32 | `parseCommas` leaves no comma |
| SettingsPage.KeepFieldChars | src/components/settings/Settings.tsx:252-254 | the settings field keeps only digits, points and commas |
| SettingsPage.FormatKeepsText | src/components/settings/Settings.tsx:22-32 | `formatWithCommas` only adds or removes commas |
| SettingsPage.GroupedWholeKeepsText | src/components/settings/Settings.tsx:28-29 | a text with no point, once grouped, reads back without its commas |
| SettingsPage.GroupedDecimalKeepsText | src/components/settings/Settings.tsx:28-29 | a text with one point, grouped before the point, reads back without its commas |
| SettingsPage.GroupedPairKeepsText | src/components/settings/Settings.tsx:28-29 | grouping the whole part and keeping the decimals changes nothing but commas |
| SettingsPage.ParseFormatRoundTrip | src/components/settings/Settings.tsx:22-32 | for any comma-free text, `parseCommas(formatWithCommas(s)) == s` |
| SettingsPage.FormatEmpty | src/components/settings/Settings.tsx:23 | `formatWithCommas("")` is `""`, and an empty field saves as null |
| SettingsPage.FormatManyPoints | src/components/settings/Settings.tsx:26-27 | a text with more than one point (after comma removal) is returned exactly as given |
| SettingsPage.FormatKeepsDecimals | src/components/settings/Settings.tsx:28-29 | the decimal part passes through unchanged and is not truncated |
| SettingsPage.FormatGroupsDigits | src/components/settings/Settings.tsx:28-29 | a digit string is grouped in threes from the right |
| SettingsPage.FormatIdempotent | src/components/settings/Settings.tsx:22-30 | `formatWithCommas` applied to its own output returns it unchanged |
| SettingsPage.FormattersAgree | src/components/settings/Settings.tsx:22-30 | on digits, and on digits with one or two decimals, the settings formatter and `formatAmountForDisplay` agree |
| SettingsPage.FormattersDiffer | src/components/settings/Settings.tsx:22-30 | the two formatters differ on a trailing point and on more than two decimals: the settings one keeps both |
| SettingsPage.FormatNoNewChars | src/components/settings/Settings.tsx:22-30 | `formatWithCommas` introduces no character other than commas |
| SettingsPage.TypedNeverNegative | src/components/settings/Settings.tsx:252-254 | a value typed into a settings field never reads as negative |
| SettingsPage.SaveError | src/components/settings/Settings.tsx:135-144 | save is refused exactly when a field reads as negative; gross income is checked first, and each check has its own message |
| SettingsPage.SettingsForm.constructor | src/components/settings/Settings.tsx:37-57 | the form starts empty, in USD, with the default preferences |
| SettingsPage.SettingsForm.OnGrossIncomeChange | src/components/settings/Settings.tsx:252-254 | the gross-income field shows the filtered and formatted text; nothing else changes |
| SettingsPage.SettingsForm.OnRedLineChange | src/components/settings/Settings.tsx:267-269 | the red-line field shows the filtered and formatted text; nothing else changes |
| SettingsPage.SettingsForm.HandleSave | src/components/settings/Settings.tsx:126-164 | when not signed in, nothing happens. A negative field sets its error and sends nothing. Otherwise it sends the fields (empty becomes null), and on success stores the saved row and the saved message, or on failure stores the error |
| SettingsPage.SettingsForm.Load | src/components/settings/Settings.tsx:59-97 | a load error is shown; an existing row fills the currency and the comma-formatted amounts (empty when null), and comma-free stored text reads back unchanged; after a successful read each preference follows the stored document (the two texts when truthy, the two flags when boolean), malformed or absent storage leaves all four, and a load error leaves them |
| SettingsPage.SettingsForm.LoadPreferences | src/components/settings/Settings.tsx:80-86 | a stored preference overrides its default only when present and truthy (the two booleans only when actually boolean); malformed or missing storage leaves the defaults |
| Prefs.Property | src/components/settings/Settings.tsx:80-86 | reading a property throws exactly when the stored text is malformed or parses to `null`, and otherwise yields the document's field when it is present |
| Notifications.WithoutId | src/contexts/NotificationContext.tsx:118-120 | removal keeps exactly the entries whose id differs |
| Notifications.SuccessDroppedExactly | src/contexts/NotificationContext.tsx:88-106 | a success notification is dropped exactly when the stored `enableNotifications` is literally `false` |
| Notifications.MissingPrefsEnable | src/contexts/NotificationContext.tsx:88-110 | missing, unparsable or non-object preferences count as enabled |
| Notifications.WithoutIdAppend | src/contexts/NotificationContext.tsx:118-120 | removing an id distributes over concatenation, so order is kept |
| Notifications.WithoutUnknownId | src/contexts/NotificationContext.tsx:118-120 | removing an unknown id is a no-op |
| Notifications.NotificationCenter.constructor | src/contexts/NotificationContext.tsx:83 | the queue starts empty |
| Notifications.NotificationCenter.Add | src/contexts/NotificationContext.tsx:85-115 | when the kind is shown, exactly one entry is appended at the end; otherwise the queue is unchanged |
| Notifications.NotificationCenter.Remove | src/contexts/NotificationContext.tsx:118-120 | the queue becomes the old queue without the given id |
| Notifications.NotificationCenter.ShowSuccess | src/contexts/NotificationContext.tsx:122-125 | appends a success entry unless success toasts are disabled |
| Notifications.NotificationCenter.ShowError | src/contexts/NotificationContext.tsx:127-130 | always appends an error entry |
| Register.FailedFacts | src/components/auth/Register.tsx:24-31 | the rule messages of a password: at most four, each a known message, each present exactly when its rule fails, and in rule order |
| Register.FailedShape | src/components/auth/Register.tsx:24-31 | the failed rules are at most as many as the rules checked, and each is a known message |
| Register.FailedExactly | src/components/auth/Register.tsx:26-29 | each message is present exactly when the password is non-empty and its rule fails |
| Register.FailedOrdered | src/components/auth/Register.tsx:26-29 | messages appear in the order length, capital, number, symbol |
| Register.PasswordErrors | src/components/auth/Register.tsx:15-31 | `passwordErrors("")` is empty; for a non-empty password the list is empty exactly when `isStrongPassword` holds, and each message is present exactly when its rule fails, in rule order |
| Register.RegisterForm.constructor | src/components/auth/Register.tsx:37-43 | the form starts on the details step with empty fields |
| Register.RegisterForm.HandleSubmit | src/components/auth/Register.tsx:45-89 | on details, a weak password is refused before any sign-up call; sign-up with a session navigates to the dashboard, without one moves to the verify step, and an error stays on details. On verify, a code whose length is not 6 is refused without a call; verification success navigates and failure shows its error |
| Layout.LocalPart | src/components/layout/Layout.tsx:28-42 | the part before the first `@` contains no `@` |
| Layout.GetInitial | src/components/layout/Layout.tsx:28-35 | `"U"` for a missing input or an empty part before `@`; otherwise the upper-cased first one or two characters of that part |
| Layout.GetDisplayNameFromEmail | src/components/layout/Layout.tsx:37-42 | `"User"` for a missing email or empty local part; otherwise the local part with only its first character upper-cased |
| Layout.DisplayName | src/components/layout/Layout.tsx:78-80 | the trimmed profile name when non-blank, else the name derived from the email |
| Layout.DisplayNameNonEmpty | src/components/layout/Layout.tsx:78-91 | the display name is never empty, and the header initial is the initial of the display name |
| Layout.InitialOfName | src/components/layout/Layout.tsx:28-35 | a non-empty name without `@` has its upper-cased first two characters as initial |
| Layout.HeaderScroll.constructor | src/components/layout/Layout.tsx:55-56 | the header starts shown at position 0 |
| Layout.HeaderScroll.OnScroll | src/components/layout/Layout.tsx:63-73 | a position of at most 20 shows the header; scrolling down past 50 hides it; scrolling up shows it; anything else leaves it; the last position becomes the new one |
| Layout.MenuShowsHeader | src/components/layout/Layout.tsx:170 | with the mobile menu open, the header is visible whatever the scroll state |
| UserSettingsService.FullPayload | src/services/userSettingsService.ts:36-42 | the first attempt sends exactly `user_id`, `gross_income`, `red_line_amount`, `currency`, `theme` |
| UserSettingsService.MinimalPayload | src/services/userSettingsService.ts:45-49 | the last resort sends only `user_id`, `gross_income` and `currency`, with the same values as the full payload |
| UserSettingsService.Ladder | src/services/userSettingsService.ts:58-77 | at most three attempts, the first with the full payload. A non-missing-column error is returned with no retry. A missing-column error (`column` and later `does not exist` on one line, or `unknown column`, in any letter case) retries with the named columns dropped, and a failed retry sends the minimal payload, whose outcome is final |
| UserSettingsService.MissingColumnPostgres | src/services/userSettingsService.ts:63 | `column … does not exist` is recognised whatever its letter case |
| UserSettingsService.MissingColumnMysql | src/services/userSettingsService.ts:63 | `unknown column` is recognised whatever its letter case |
| UserSettingsService.MissingColumnOneLine | src/services/userSettingsService.ts:63 | `column` and `does not exist` separated by a line break do not match, as `.` spans no line terminator |
| UserSettingsService.RetryPayloadKeys | src/services/userSettingsService.ts:64-70 | the retry drops `red_line_amount` and `theme` exactly when the error message names them, keeps the other keys, and keeps their values |
| UserSettingsService.SettingsStore.constructor | src/services/userSettingsService.ts:12 | the cache starts empty |
| UserSettingsService.SettingsStore.GetForUser | src/services/userSettingsService.ts:15-28 | a cache hit is returned without a query; otherwise the query's result is returned, and only a non-null row is cached |
| UserSettingsService.SettingsStore.Upsert | src/services/userSettingsService.ts:30-87 | follows the ladder; whichever attempt succeeds, its row is cached under the user and returned; on failure the cache is untouched |
| CategoryService.DedupRows | src/services/categoryService.ts:46-52 | the de-duplication loop computes `Dedup` |
| CategoryService.DedupKeepsFirst | src/services/categoryService.ts:47-52 | de-duplication keeps the first row of each (type, trimmed lower-case name) key, every input key is represented, and no two results share a key |
| CategoryService.DefaultNames | src/services/categoryService.ts:56-58 | one normalised name per default of the type |
| CategoryService.IncomeDefaultCount | src/services/categoryService.ts:15-29 | the table has 5 income defaults |
| CategoryService.ExpenseDefaultCount | src/services/categoryService.ts:15-29 | the table has 6 expense defaults |
| CategoryService.IndexIn | src/services/categoryService.ts:63-67 | the rank of a name is its position in the default names, or their count when absent |
| CategoryService.RequestedRanksDistinct | src/services/categoryService.ts:59-62 | the default-named categories of a type have distinct ranks below the number of defaults |
| CategoryService.RequestedSortedStrict | src/services/categoryService.ts:63-67 | sorted by rank, they are strictly in default-table order |
| CategoryService.SortedRequested | src/services/categoryService.ts:59-67 | the sorted default-named categories are no more than the defaults, and each carries a default name |
| CategoryService.TopParts | src/services/categoryService.ts:54-70 | a type's list is the default-named categories in table order followed by the others in input order, at most `max(5, defaults)` long |
| CategoryService.TopMembers | src/services/categoryService.ts:54-70 | every entry of a type's list is an input category of that type |
| CategoryService.TopKeepsDefaults | src/services/categoryService.ts:54-70 | every default-named category of the type survives the cap |
| CategoryService.TopKeysDistinct | src/services/categoryService.ts:54-70 | a type's list has no repeated key |
| CategoryService.CatalogueSplit | src/services/categoryService.ts:72-75 | the listed catalogue is the income list followed by the expense list |
| CategoryService.TopCap | src/services/categoryService.ts:69 | a type's list has at most `max(5, defaults of that type)` entries |
| CategoryService.TopFromRows | src/services/categoryService.ts:54-70 | every entry of a type's list is one of the fetched rows |
| CategoryService.CatalogueFromRows | src/services/categoryService.ts:72-75 | every catalogue entry is one of the fetched rows |
| CategoryService.CatalogueKinds | src/services/categoryService.ts:72-75 | all income categories come before all expense categories, within the caps |
| CategoryService.CatalogueKeysDistinct | src/services/categoryService.ts:46-75 | no two catalogue entries share a key |
| CategoryService.CatalogueCaps | src/services/categoryService.ts:56-69 | at most 5 income and 6 expense categories |
| CategoryService.ToInsert | src/services/categoryService.ts:84-92 | the rows to seed are exactly the missing defaults, stamped with the user id |
| CategoryService.MissingIff | src/services/categoryService.ts:84-92 | a default is missing exactly when no existing category has its (type, normalised name) |
| CategoryService.TopInCatalogue | src/services/categoryService.ts:72-75 | a type's list is part of the catalogue |
| CategoryService.CatalogueHasDefault | src/services/categoryService.ts:46-75 | a default that some fetched row matches is present in the listed catalogue |
| CategoryService.DedupKeeps | src/services/categoryService.ts:47-52 | every fetched row's key has a representative after de-duplication |
| CategoryService.CatalogueLacksDefault | src/services/categoryService.ts:46-75 | a default that no fetched row matches is absent from the catalogue |
| CategoryService.MissingExactly | src/services/categoryService.ts:80-92 | after listing, a default is seeded exactly when no fetched row matches it |
| CategoryService.NothingMissingAfterInsert | src/services/categoryService.ts:94-105 | once the missing defaults are inserted, relisting finds none missing |
| CategoryService.FirstMainExpense | src/services/categoryService.ts:111 | the position of the first expense named like "Housing" |
| CategoryService.FirstExpense | src/services/categoryService.ts:112 | the position of the first expense |
| CategoryService.PickUncategorized | src/services/categoryService.ts:111-112 | picks the first expense whose name contains "Housing", else the first expense, else the first category, else `""` |
| CategoryService.PickAfterDefaults | src/services/categoryService.ts:108-113 | once no default is missing, the pick is an expense category |
| CategoryService.HousingIsExpense | src/services/categoryService.ts:15-29 | "Housing" is an expense default |
| CategoryService.EnsuredListFailed | src/services/categoryService.ts:80-83 | a failed list is returned and nothing is inserted |
| CategoryService.EnsuredNothingToInsert | src/services/categoryService.ts:84-93 | with nothing missing, the listed catalogue is returned unchanged and nothing is inserted |
| CategoryService.EnsuredInsertFailed | src/services/categoryService.ts:94-100 | a failed insert is returned |
| CategoryService.EnsuredRelisted | src/services/categoryService.ts:94-105 | after a successful insert, the user's cache entry is dropped and the relisted catalogue is returned |
| CategoryService.DropAfterList | src/services/categoryService.ts:35-76 | listing touches no other user's cache entry |
| CategoryService.ListedUncached | src/services/categoryService.ts:35-76 | a list without a cache hit does not depend on the rest of the cache |
| CategoryService.CategoryStore.constructor | src/services/categoryService.ts:15-31 | the store holds the default table and an empty cache |
| CategoryService.CategoryStore.SelectTop | src/services/categoryService.ts:54-70 | the in-place selection, sort and cut compute a type's list |
| CategoryService.CategoryStore.List | src/services/categoryService.ts:34-78 | a cache hit is returned unchanged; otherwise the computed catalogue (or the query error) is returned, and a success is cached under the user |
| CategoryService.CategoryStore.EnsureDefaults | src/services/categoryService.ts:80-106 | lists, inserts exactly the missing defaults, drops the cache entry and relists; each error is returned as it arises |
| CategoryService.CategoryStore.GetUncategorizedId | src/services/categoryService.ts:108-113 | the fallback pick over the ensured catalogue, or the error that stopped it |
| Sorting.SortArray | src/services/categoryService.ts:63-67 | the in-place sort leaves the array sorted by rank and a permutation of its old contents |
| Sorting.InsertionSortSorted | src/services/categoryService.ts:63-67 | the reference sort is sorted by rank |
| Sorting.StrictlySortedUnique | src/services/categoryService.ts:63-67 | two strictly sorted permutations of the same elements are equal, so with distinct ranks the sort's result is determined |
| TransactionService.CreateRow | src/services/transactionService.ts:59-73 | the inserted row copies the input and stores a missing description or receipt as null |
| TransactionService.FromRow | src/services/transactionService.ts:37-46 | a listed row keeps its fields and maps a missing description, receipt or category to null |
| TransactionService.ListRows | src/services/transactionService.ts:36-47 | one transaction per returned row, in order; no data gives an empty list |
| TransactionService.List | src/services/transactionService.ts:25-48 | a query error is thrown; otherwise the mapped rows are returned |
| TransactionService.UpdateBody | src/services/transactionService.ts:87-93 | `amount`, `type`, `category_id` and `date` are sent only when given; `description` and `receipt_url` whenever not undefined, so an explicit null clears them; no other key |
| TransactionService.Extension | src/services/transactionService.ts:110-111 | the extension contains no point |
| TransactionService.ExtensionAfterLastDot | src/services/transactionService.ts:110-111 | the extension is the lower-cased text after the last point |
| TransactionService.ExtensionOfDotless | src/services/transactionService.ts:110-111 | a name without a point is its own extension |
| TransactionService.UploadReceipt | src/services/transactionService.ts:109-138 | a disallowed extension is refused before any upload; otherwise the file goes to `user/time-name`, and the public URL is returned or the upload error is thrown, with the missing-bucket message replaced |
| TransactionService.UploadIffAllowed | src/services/transactionService.ts:110-119 | an upload happens exactly when the extension after the last point, lower-cased, is png, jpg, jpeg or pdf |
| TransactionService.UploadDotless | src/services/transactionService.ts:110-119 | for a name without a point, the same holds for the whole name |
| BudgetService.List | src/services/budgetService.ts:15-23 | a query error is thrown; no data gives an empty list; otherwise the rows are returned |
| BudgetService.DescriptionOrNull | src/services/budgetService.ts:43 | a missing or empty description becomes null; any other is kept |
| BudgetService.CreateRow | src/services/budgetService.ts:36-44 | the inserted row copies the other fields unchanged and nulls a missing or empty description |
| BudgetService.UpdateBody | src/services/budgetService.ts:52-57 | `category_id`, `amount`, `start_date` and `end_date` are sent only when given; `description` whenever not undefined; no other key |
| Patch.TextOrNull | src/services/transactionService.ts:92-93 | an explicit null is sent as null, a string as itself |
| Wrappers.OrNull | src/services/transactionService.ts:68-69 | a value given in the input is kept; a missing or null one becomes null |
| TransactionList.FromListed | src/components/transactions/TransactionList.tsx:111-122 | a listed transaction keeps its fields; without a category, it shows "Uncategorized" with an empty id |
| TransactionList.FromListedAll | src/components/transactions/TransactionList.tsx:111-122 | the page list is the listed transactions, one for one, in order |
| TransactionList.ComputeTotals | src/components/transactions/TransactionList.tsx:58-76 | expense and income totals are the sums of their kinds; remaining = (gross income or 0) + income − expenses; the red-line flag holds exactly when a red line is set and remaining is at or below it |
| TransactionList.TotalsCoverAll | src/components/transactions/TransactionList.tsx:58-66 | income and expense totals together are the sum of all amounts |
| TransactionList.KindTotalPermutation | src/components/transactions/TransactionList.tsx:58-66 | the totals do not depend on the order of the list |
| TransactionList.SearchExactly | src/components/transactions/TransactionList.tsx:78-86 | search keeps exactly the transactions whose lower-cased description or category name contains the lower-cased query |
| TransactionList.SearchEmpty | src/components/transactions/TransactionList.tsx:78-86 | an empty query keeps the whole list |
| TransactionList.SyncCategory | src/components/transactions/TransactionList.tsx:132-149 | the add form keeps its category when it belongs to the type, else takes the first category of the type, else keeps it |
| TransactionList.SyncCategorySettles | src/components/transactions/TransactionList.tsx:132-149 | when the type has a category, the chosen one belongs to it and a second pass changes nothing |
| TransactionList.EditCategory | src/components/transactions/TransactionList.tsx:251-253 | the edit category is kept when it belongs to the edit type, else the first category of that type, else the transaction's original category |
| TransactionList.CategoryNameOf | src/components/transactions/TransactionList.tsx:189-199 | the name of the category with the id, else "Uncategorized" |
| TransactionList.LoadedCategory | src/components/transactions/TransactionList.tsx:105-110 | after a load, an unset category becomes the uncategorised expense, else the first category |
| TransactionList.NewerFirstIsStrict | src/components/transactions/TransactionList.tsx:203-207 | ordering by date descending is a strict order |
| TransactionList.WithAddedFacts | src/components/transactions/TransactionList.tsx:203-207 | after an add, the list is the new transaction plus every previous one, sorted by date descending, with totals grown by the new amount |
| TransactionList.Apply | src/components/transactions/TransactionList.tsx:273-288 | an edit keeps the id and replaces every other field |
| TransactionList.ReplaceById | src/components/transactions/TransactionList.tsx:273-288 | edit changes only the rows with the edited id; the length and every other row are unchanged |
| TransactionList.ReplaceByIdIds | src/components/transactions/TransactionList.tsx:273-288 | ids are preserved, and an unknown id changes nothing |
| TransactionList.WithoutIdExactly | src/components/transactions/TransactionList.tsx:301 | delete keeps exactly the rows whose id differs |
| TransactionList.WithoutUnknownId | src/components/transactions/TransactionList.tsx:301 | deleting an unknown id changes nothing |
| TransactionList.PrepareAdd | src/components/transactions/TransactionList.tsx:159-188 | a zero, negative or unreadable amount is refused; otherwise it uses the chosen category, or the fallback category, or an error. A receipt must upload. The amount is the parsed display amount, and the date defaults to today |
| TransactionList.AddedTransaction | src/components/transactions/TransactionList.tsx:180-201 | the new row carries the inserted id, the input's fields and the category's name |
| TransactionList.PrepareEdit | src/components/transactions/TransactionList.tsx:237-272 | succeeds exactly when the amount is positive and any chosen receipt uploads. A non-positive amount gives the amount error and a failed upload its message. Otherwise every field is sent, a blank description as null, and the receipt is the new upload's URL or the one kept |
| TransactionList.TransactionPage.constructor | src/components/transactions/TransactionList.tsx:32-56 | the page starts empty, in USD, on an expense form |
| TransactionList.TransactionPage.Totals | src/components/transactions/TransactionList.tsx:58-76 | the page's totals are those of its list and settings |
| TransactionList.TransactionPage.Load | src/components/transactions/TransactionList.tsx:89-130 | a load error is shown and nothing else changes; otherwise the categories, the mapped transactions, the settings and the loaded category are taken |
| TransactionList.TransactionPage.SyncAddCategory | src/components/transactions/TransactionList.tsx:132-149 | the add category follows the type |
| TransactionList.TransactionPage.SyncEditCategory | src/components/transactions/TransactionList.tsx:151-157 | while editing, the edit category follows the edit type |
| TransactionList.TransactionPage.TypeAmount | src/components/transactions/TransactionList.tsx:377-379 | as wired, the add amount is re-sanitised from its own text and the typed text is dropped: an empty field stays empty and the field always holds a fixed point of the handler; the list and the rest of the form are unchanged |
| TransactionList.TransactionPage.TypeAmountIntended | src/components/transactions/TransactionList.tsx:377-379 | with the typed text passed on, the add amount is the sanitised typed text, which never parses to a negative amount |
| TransactionList.TransactionPage.TypeEditAmount | src/components/transactions/TransactionList.tsx:584-588 | as wired, the edit amount is re-sanitised from its own text and the typed text is dropped: an empty field stays empty and the field always holds a fixed point of the handler; the list, the add amount and the rest of the dialog are unchanged |
| TransactionList.TransactionPage.TypeEditAmountIntended | src/components/transactions/TransactionList.tsx:584-588 | with the typed text passed on, the edit amount is the sanitised typed text, which never parses to a negative amount |
| TransactionList.TransactionPage.HandleAdd | src/components/transactions/TransactionList.tsx:159-217 | a refused form shows its error and changes no list; a sent one is completed |
| TransactionList.TransactionPage.CompleteAdd | src/components/transactions/TransactionList.tsx:180-216 | an insert error is shown and the list is unchanged; a success adds the new transaction in date order, clears the form and notifies |
| TransactionList.TransactionPage.OpenEdit | src/components/transactions/TransactionList.tsx:221-235 | the edit form is filled from the transaction |
| TransactionList.TransactionPage.HandleEdit | src/components/transactions/TransactionList.tsx:237-295 | without a transaction being edited, nothing changes. A refused edit shows its error and sends nothing. A sent edit, once saved, replaces the row with that id and closes the form; a failed save shows its error and leaves the list |
| TransactionList.TransactionPage.HandleDelete | src/components/transactions/TransactionList.tsx:297-306 | a successful delete removes exactly the rows with the target id; a failed one shows its error and keeps the list |
| CategoryTotals.TotalsPartition | src/components/dashboard/Dashboard.tsx:80-93 | income and expense totals together are the sum of all amounts |
| CategoryTotals.GroupedDistinct | src/components/dashboard/Dashboard.tsx:95-103 | grouping gives one entry per category name |
| CategoryTotals.GroupedNames | src/components/dashboard/Dashboard.tsx:95-103 | a name has an entry exactly when some transaction carries it (a missing category counts as "Uncategorized") |
| CategoryTotals.GroupedValues | src/components/dashboard/Dashboard.tsx:95-103 | each entry's value is the sum of its name's amounts |
| CategoryTotals.GroupedSum | src/components/dashboard/Dashboard.tsx:80-105 | the entries' values sum to the total of the amounts |
| CategoryTotals.Entries | src/components/dashboard/Dashboard.tsx:101-102 | the record's entries are read in key order, one entry per key |
| CategoryTotals.AddToRecord | src/components/dashboard/Dashboard.tsx:100-101 | one step of the fold: a known name grows by the amount, a new one is appended |
| CategoryTotals.GroupByName | src/components/dashboard/Dashboard.tsx:97-102 | the fold over the transactions computes the grouped entries |
| CategoryTotals.LargerFirstIsStrict | src/components/dashboard/Dashboard.tsx:104 | ordering by value descending is a strict order |
| CategoryTotals.RankedFacts | src/components/dashboard/Dashboard.tsx:95-105 | the ranked entries are sorted by value descending, one per name, each the sum of its name's amounts, and they sum to the total |
| CategoryTotals.RankedNames | src/components/dashboard/Dashboard.tsx:95-105 | a name is ranked exactly when some transaction carries it |
| Dashboard.InMonthExactly | src/components/dashboard/Dashboard.tsx:76-79 | the month filter keeps exactly the transactions with start ≤ date ≤ end, compared as strings |
| Dashboard.InMonthInclusive | src/components/dashboard/Dashboard.tsx:76-79 | both ends of the month are included |
| Dashboard.SpendingByCategory | src/components/dashboard/Dashboard.tsx:95-105 | the chart is the month's expenses grouped by name and ranked |
| Dashboard.SpendingByCategoryFacts | src/components/dashboard/Dashboard.tsx:80-105 | the chart's values sum to the month's expense total, one entry per expense name, sorted descending |
| Dashboard.MonthRow | src/components/dashboard/Dashboard.tsx:110-128 | a month's row carries its title and the income and expense totals of its transactions |
| Dashboard.MonthRowCovers | src/components/dashboard/Dashboard.tsx:110-128 | a month's income and expenses together are the sum of its amounts |
| Dashboard.MonthlyOverview | src/components/dashboard/Dashboard.tsx:107-130 | exactly 6 rows, oldest month first |
| Dashboard.Round | src/components/dashboard/Dashboard.tsx:135 | `Math.round`: the nearest integer, halves rounded up |
| Dashboard.SavingsRate | src/components/dashboard/Dashboard.tsx:135 | 0 whenever gross ≤ 0; otherwise the rounded percentage of gross left after expenses |
| Dashboard.SavingsRateRange | src/components/dashboard/Dashboard.tsx:135 | no expenses gives 100; expenses within gross give 0 to 100; expenses well above gross give a negative rate |
| Dashboard.Summarize | src/components/dashboard/Dashboard.tsx:80-137 | month totals, balance = gross + month income − month expenses, and the savings rate |
| Dashboard.BalanceIsSignedSum | src/components/dashboard/Dashboard.tsx:134 | the balance is gross plus the sum of the month's amounts, less twice its expenses |
| Dashboard.RecentTx | src/components/dashboard/Dashboard.tsx:139-142 | the first min(5, n) transactions of the list |
| Dashboard.DashboardPage.constructor | src/components/dashboard/Dashboard.tsx:52-56 | the page starts empty, in USD |
| Dashboard.DashboardPage.Load | src/components/dashboard/Dashboard.tsx:58-73 | on success, the transactions, the gross income and a non-empty currency are taken; an error changes nothing |
| Analytics.TopCategories | src/components/analytics/Analytics.tsx:55-95 | the grouping loop, sort and cut compute the top-N list of a kind |
| Analytics.SpendingByCategory | src/components/analytics/Analytics.tsx:55-66 | all expenses grouped by name, sorted descending, cut to 10 |
| Analytics.IncomeByCategory | src/components/analytics/Analytics.tsx:84-95 | all income grouped by name, sorted descending, cut to 8 |
| Analytics.TopFacts | src/components/analytics/Analytics.tsx:55-95 | at most N entries, sorted descending, one per name, each its name's sum; when there are at most N names, all of them |
| Analytics.TopNamesOccur | src/components/analytics/Analytics.tsx:55-95 | every listed name carries some transaction of the kind |
| Analytics.TopLeavesOutSmaller | src/components/analytics/Analytics.tsx:55-95 | a name left out means the list is full and every listed value is at least as large |
| Analytics.MonthlyData | src/components/analytics/Analytics.tsx:68-82 | 12 entries, oldest first, each with its month's income, expenses and balance = income − expenses |
| Analytics.MonthPointAgreesWithDashboard | src/components/analytics/Analytics.tsx:71-79 | a month's point has the same income and expenses as the dashboard's row for that month |
| Analytics.ShortName | src/components/analytics/Analytics.tsx:100 | a name longer than 12 characters becomes its first 12 plus `…`; shorter names are unchanged |
| Analytics.GoalPct | src/components/analytics/Analytics.tsx:103 | 0 when target ≤ 0, else the rounded percentage of the target reached |
| Analytics.GoalPctAgreesWithList | src/components/analytics/Analytics.tsx:103 | below the target, the analytics percentage is the rounded list percentage, between 0 and 100; at or above it, at least 100 against the list's capped 100 |
| Analytics.SavingsProgress | src/components/analytics/Analytics.tsx:97-106 | one bar per goal, in goal order, with the short name, amounts and percentage |
| Analytics.Summarize | src/components/analytics/Analytics.tsx:108-119 | income and expense totals, net = income − expenses, and the budget total |
| Analytics.SummaryCovers | src/components/analytics/Analytics.tsx:55-119 | the two totals add up to all amounts, and when nothing is cut, the spending chart sums to the expense total |
| Analytics.AnalyticsPage.constructor | src/components/analytics/Analytics.tsx:27-30 | the page starts empty, in USD |
| Analytics.AnalyticsPage.Load | src/components/analytics/Analytics.tsx:33-53 | on success, the lists and a non-empty currency are taken; an error changes nothing |
| SavingsGoals.ProgressColor | src/components/savings/SavingsGoals.tsx:118-123 | ≥ 100 green-500, ≥ 66 green-400, ≥ 33 amber-500, otherwise red-500 |
| SavingsGoals.ProgressColorMonotone | src/components/savings/SavingsGoals.tsx:118-123 | more progress never turns a green-500 bar another colour or a non-red bar red |
| SavingsGoals.ListPct | src/components/savings/SavingsGoals.tsx:257 | min(100, current/target·100) when target > 0, else 0; it never exceeds 100 and is 100 exactly when the target is reached |
| SavingsGoals.FilteredGoalsExactly | src/components/savings/SavingsGoals.tsx:161 | search keeps exactly the goals whose lower-cased name contains the lower-cased query |
| SavingsGoals.FilteredGoalsEmpty | src/components/savings/SavingsGoals.tsx:161 | an empty query keeps every goal |
| SavingsGoals.PrepareCreate | src/components/savings/SavingsGoals.tsx:49-76 | a zero, negative or non-numeric target is refused; a blank name becomes "New goal"; the deadline is null when empty |
| SavingsGoals.PrepareEdit | src/components/savings/SavingsGoals.tsx:87-116 | a target ≤ 0 or current < 0 is refused before any update; a blank name keeps the old name |
| SavingsGoals.PrepareAddition | src/components/savings/SavingsGoals.tsx:137-148 | a non-positive amount is refused; otherwise new current = old current + amount |
| SavingsGoals.SavingsPage.constructor | src/components/savings/SavingsGoals.tsx:12-31 | the page starts empty, in USD |
| SavingsGoals.SavingsPage.Load | src/components/savings/SavingsGoals.tsx:33-43 | on success, the goals and a non-empty currency are taken; an error changes nothing |
| SavingsGoals.SavingsPage.HandleSubmit | src/components/savings/SavingsGoals.tsx:49-76 | a refused form shows its error and sends nothing; a created goal closes and resets the form; a failed create shows its error |
| SavingsGoals.SavingsPage.OpenDetail | src/components/savings/SavingsGoals.tsx:78-85 | the detail view is filled from the goal |
| SavingsGoals.SavingsPage.HandleEdit | src/components/savings/SavingsGoals.tsx:87-116 | without a selection nothing happens; a refused edit shows its error; a saved edit updates the selection; a failed one shows its error |
| SavingsGoals.SavingsPage.HandleDelete | src/components/savings/SavingsGoals.tsx:125-135 | a successful delete clears the target and the selection; a failed one shows its error and keeps them |
| SavingsGoals.SavingsPage.TypeAddAmount | src/components/savings/SavingsGoals.tsx:396-398 | as wired, the add-to-goal amount is re-sanitised from its own text and the typed text is dropped: an empty field stays empty and the field always holds a fixed point of the handler; goals, selection and error are unchanged |
| SavingsGoals.SavingsPage.TypeAddAmountIntended | src/components/savings/SavingsGoals.tsx:396-398 | with the typed text passed on, the add-to-goal amount is the sanitised typed text, which never parses to a negative amount |
| SavingsGoals.SavingsPage.HandleAddToGoal | src/components/savings/SavingsGoals.tsx:137-160 | a non-positive amount is refused; after a saved addition, the selected goal's current amount is the new one and its other fields are unchanged |
| Budgets.ExpenseCategoriesExactly | src/components/budgets/Budgets.tsx:52 | only expense categories are offered, all of them |
| Budgets.Preselected | src/components/budgets/Budgets.tsx:54 | a chosen category is kept; with none chosen, the first expense category, else none |
| Budgets.PrepareCreate | src/components/budgets/Budgets.tsx:65-67 | a zero, negative or non-numeric amount is refused before any call; the category falls back to the first offered one, else an empty id |
| Budgets.PrepareEdit | src/components/budgets/Budgets.tsx:91-93 | a non-positive amount is refused before any update; otherwise the edited fields are sent |
| Budgets.TotalBudgetBounds | src/components/budgets/Budgets.tsx:110 | with positive amounts, the total is 0 for no budgets, positive otherwise, and at least each budget |
| Budgets.TotalBudgetOfList | src/components/budgets/Budgets.tsx:110 | the total is the sum of the amounts, whatever their order |
| Budgets.BudgetsPage.constructor | src/components/budgets/Budgets.tsx:23-41 | the page starts empty, in USD, dated to the current month |
| Budgets.BudgetsPage.Load | src/components/budgets/Budgets.tsx:43-56 | on success, the budgets, the expense categories and the preselected category are taken; an error changes nothing |
| Budgets.BudgetsPage.HandleSubmit | src/components/budgets/Budgets.tsx:59-74 | a refused form shows its error and sends nothing; a created budget closes the form and reloads; a failed one shows its error |
| Budgets.BudgetsPage.OpenDetail | src/components/budgets/Budgets.tsx:76-83 | the detail view is filled from the budget |
| Budgets.BudgetsPage.HandleEdit | src/components/budgets/Budgets.tsx:85-98 | without a selection nothing happens; a refused edit shows its error and keeps the selection; a saved edit closes it and reloads |
| Budgets.BudgetsPage.HandleDelete | src/components/budgets/Budgets.tsx:100-108 | a successful delete clears the target and the selection and reloads; a failed one shows its error |

## Left out

- Backend calls (queries, inserts, updates, deletes, storage uploads and
  auth) are not modelled as behaviour. Each is a parameter: the rows it
  returns or its success/error outcome.
- `src/services/savingsService.ts` and `src/services/supabase.ts` are not
  part of this model. The savings page takes their results as parameters.
- Login, the auth context, the theme toggle, `AuthCard` and `main.tsx` are
  wrappers over the auth SDK or presentation only.
- Rendering: JSX, charts and animation.
- Dates and clocks are parameters. This covers `new Date()`,
  `toISOString`, time zones, month titles and the month ranges
  (`Dashboard.MonthRange` values are given per month), the days left in the
  month, and the `Date.now()` in the receipt path.
- Timers: the toast auto-close and the message-clearing timeouts.
- `Math.random` notification ids are passed in.
- Floating point: amounts are exact reals. IEEE rounding of sums and
  divisions is not modelled.
- `Number(text)` and `parseFloat(text)` cover only the decimal grammar with
  an optional sign. Exponents, hexadecimal, `Infinity` and Unicode white
  space are not modelled.
- Case mapping and trimming are ASCII only. Lengths count characters, not
  UTF-16 code units.
- Analytics.ShortName: counts characters, not UTF-16 code units, so a name
  containing characters outside the basic plane is cut at a different place.
- CategoryTotals.Entries: uses insertion order. `Object.entries` lists
  integer-like keys first, in numeric order, so a category named like
  "2024" would move to the front before the sort. Entries of equal value may
  then be ordered differently; the sums, the set of names and the
  descending order are unaffected.
- `localStorage` and `JSON.parse` are abstracted. The stored document is
  absent, malformed, or a parsed JSON value (`Prefs.Stored`).
- Concurrency: `Promise.all` loads and overlapping async handlers are not
  coordinated in the source and are not modelled. A load takes one combined
  result.
- Loading and saving flags, modal open/close state beyond what a handler
  sets, and console logging.
- The display-name part of the settings load effect
  (src/components/settings/Settings.tsx:76-79), and the settings page's
  delete-data and clear-data dialogs.
- SettingsPage.SettingsForm.Load: the texts `String(gross_income)` and
  `String(red_line_amount)` are parameters (`grossText`, `redText`), not
  computed from the row's numbers. The row's currency is always present, so
  the `?? 'USD'` fallback is not modelled.
- TransactionList.NewerFirst: `localeCompare` is modelled as code-unit
  order. The two agree on the fixed-width `YYYY-MM-DD` dates the page
  stores; on other text a locale may order differently.
- TransactionList.WithAddedFacts: the date-descending order it states is the
  code-unit order of `TransactionList.NewerFirst`, not locale order.
- CategoryTotals.GroupByName: the source groups into a plain `{}` object, so
  a category named after an `Object.prototype` member (`__proto__`,
  `constructor`, `toString`, ...) is mishandled there. The model groups every
  name alike.
- CategoryTotals.AddToRecord: the same plain-object difference as
  `CategoryTotals.GroupByName`.
- Error messages: a failed call is shown by its error's message. The page
  fallbacks for a thrown value that is not an `Error` (`Failed to load
  settings.` and the like) are not modelled.
- The `void load()` reload after a savings or budget write is modelled as
  a reload outcome parameter. Its ordering against the state updates is not
  modelled.

## Findings

| source | as written | input that shows it | evidently intended | confidence | as-written member | corrected member |
|---|---|---|---|---|---|---|
| src/utils/amountInput.ts:31-33 with src/components/transactions/TransactionList.tsx:378 (also :586 and src/components/savings/SavingsGoals.tsx:396) | the amount fields call `handleAmountInputChange(current, e.target.value)`, but the function takes one parameter, so the typed text is ignored and the field is re-sanitised from its own current text | an empty field, with `5` typed: the field stays `""` | the typed text is sanitised and shown, e.g. `5` shows `5` and `1234.5` shows `1,234.5` | not executed | AmountInput.AmountFieldAsWrittenIgnoresTyping | AmountInput.AmountFieldReadsBack |
| src/components/transactions/TransactionList.tsx:377-379 | the add form's amount field passes only its current text to the handler | an empty add amount, with `5` typed: the field stays `""`, so no add gets past the amount check | the field shows the sanitised typed text | not executed | TransactionList.TransactionPage.TypeAmount | TransactionList.TransactionPage.TypeAmountIntended |
| src/components/transactions/TransactionList.tsx:584-588 | the edit dialog's amount field passes only its current text to the handler | an edit amount of `12`, with `125` typed: the field stays `12` | the field shows the sanitised typed text | not executed | TransactionList.TransactionPage.TypeEditAmount | TransactionList.TransactionPage.TypeEditAmountIntended |
| src/components/savings/SavingsGoals.tsx:396-398 | the add-to-goal field passes only its current text to the handler | an empty add-to-goal amount, with `5` typed: the field stays `""` | the field shows the sanitised typed text | not executed | SavingsGoals.SavingsPage.TypeAddAmount | SavingsGoals.SavingsPage.TypeAddAmountIntended |
