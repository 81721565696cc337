# Masrafly: a Dafny model of its client-side logic

Masrafly is a personal expense tracker: React views over a hosted database, reached
through thin server actions. Its logic, apart from the database and auth calls, is a
set of small sequential pieces. This project models those pieces and proves what they
promise:

- **Month navigator** (`DateChanger`): the (month, year) state that the arrow buttons step
  back and forth, with a year rollover at December and January. Each step pushes the new
  state into the URL, and the component reads the URL back when it mounts.
- **Period window** (`ExpenseActions`): turns the optional month and year arguments into
  the half-open `[from, to)` pair of `YYYY-MM-01` strings added to the expenses query. The
  same module has the `updates` object built from updateExpenseAction's optional arguments.
  Every caller of getExpensesAction in the code passes no arguments, so the window branches
  never run there, and the month in the date changer's URL never reaches them.
- **Filter selection** (`ExpenseFilters`): the checked category and source ids (check
  appends, uncheck removes every occurrence, reset empties both), and the `Math.min` and
  `Math.max` amount bounds given to the range slider.
- **Form schemas** (`CategoryForm`, `ExpenseForm`, `SourceForm`, `AddSourceForm`): the zod
  schemas as functions from form values to the list of issues they report. Also modelled:
  the forms' default values, and the `error`/`success` flags set by the source forms'
  submit handlers.
- **Category actions** (`CategoryActions`): the rows inserted for the default categories,
  and the truthiness-guarded `updates` object of updateCategoryAction.
- **Preferences** (`PreferencesContext`): the `{...prev, ...updates}` merge, applied only
  after the server call succeeds.

Helper modules: `Js` holds the JavaScript built-ins the pieces rely on: `String(n)`,
`parseInt`, `padStart`, `split`, `URLSearchParams.get` and `err.message || fallback`.
`Records` holds the database records. `Validation` holds a zod issue and a numeric field
value that may be NaN.

How JavaScript semantics are rendered:

- `undefined` and `null` are `Option`. A nullable optional argument is `Option<Option<_>>`.
- Truthiness is explicit: a number argument counts only when it is not 0, and a string only
  when it is not empty.
- A thrown error appears as a `Completion` parameter, saying how the awaited work of a
  `try` block ended.
  Clock readings (`new Date()`) are parameters too.
- zod objects collect the issues of every field in schema order. A field that fails its
  type check (a NaN number, a missing string or date) aborts the object, and then the
  object's `.refine` does not run. A failed `.positive()` or `.min()` does not abort it.

The code has no filter, sort or aggregation engine. The expense list is rendered as
fetched, ordering is left to the database, and category totals come from a server-side
procedure. `Math.min`/`Math.max` of an empty list give +Infinity/-Infinity, and the model
returns the infinities.

## Model

| member | source | states |
|---|---|---|
| `Js.ParseIntOfIntToString` | components/date-changer.tsx:17-18 | parseInt reads back every integer that template-literal conversion wrote, negative ones included |
| `Js.IntToString` | components/date-changer.tsx:40 | `String(i)` in a template literal: non-empty, made of digits and '-' only |
| `Js.ParseInt` | components/date-changer.tsx:17-18 | `parseInt` in base 10: optional sign, then the longest digit run; none (NaN) when no digit follows; read back by `Js.ParseIntOfIntToString` |
| `Js.SearchParamsGet` | components/date-changer.tsx:14-15 | `URLSearchParams.get`: the value of the first pair with the name, or none; what it reads from the pushed query is `DateChanger.PushedQueryParams` |
| `Js.PadStart2` | actions/expense-actions.ts:36-37 | `padStart(2, '0')`: a string of length 2 or more is returned as is, a shorter one is filled with leading '0' to length 2 and ends with the original |
| `Js.MessageOr` | forms/source-form.tsx:76 | `err.message || fallback`: the message when it is a non-empty string, the fallback otherwise; used in both forms' OnSubmit contracts |
| `DateChanger.StepFollowsCalendar` | components/date-changer.tsx:22-39 | from a month in 1..12, a step stays in 1..12 and lands on the next or previous calendar month (month index ±1) |
| `DateChanger.Step` | components/date-changer.tsx:25-38 | from a month in 1..12 the result is again in 1..12 and is the calendar month one after (next) or one before (prev) |
| `DateChanger.PushedQuery` | components/date-changer.tsx:40 | the query string pushed after a step; what it carries is `DateChanger.PushedQueryParams` |
| `DateChanger.InitialValue` | components/date-changer.tsx:14-18 | the mount-time value: parseInt of a non-empty parameter, the clock value otherwise; `DateChanger.PushedQueryRestoresState` reads the pushed query back |
| `DateChanger.NextFromDecember` | components/date-changer.tsx:25-28 | next from December is January of the following year |
| `DateChanger.NextWithinYear` | components/date-changer.tsx:29-31 | next from a month below 12 adds one and keeps the year |
| `DateChanger.PrevFromJanuary` | components/date-changer.tsx:33-35 | prev from January is December of the preceding year |
| `DateChanger.PrevWithinYear` | components/date-changer.tsx:36-38 | prev from a month above 1 subtracts one and keeps the year |
| `DateChanger.StepsUndo` | components/date-changer.tsx:22-39 | next then prev returns to the start exactly when the month is not 0; prev then next exactly when it is not 13 |
| `DateChanger.PushedQueryParams` | components/date-changer.tsx:40 | the pushed query's `month` and `year` parameters are exactly the new state values as decimal text |
| `DateChanger.PushedQueryPieces` | components/date-changer.tsx:40 | the pushed query starts with '?' and the rest splits at '&' into exactly the `month=` and `year=` pairs |
| `DateChanger.PushedQueryRestoresState` | components/date-changer.tsx:14-21 | mounting on the pushed URL restores the same month and year, whatever the clock says |
| `DateChanger.MonthNavigator.constructor` | components/date-changer.tsx:20-21 | the state cells start at the initial month and year |
| `DateChanger.MonthNavigator.ChangeMonth` | components/date-changer.tsx:22-43 | the new state is one step of the old one, the pushed query is built from the new state, and months in 1..12 stay in 1..12 |
| `ExpenseActions.DateWindowOf` | actions/expense-actions.ts:31-48 | no date constraint exactly when neither month nor year is truthy |
| `ExpenseActions.MonthAndYearWindow` | actions/expense-actions.ts:31-37 | with both given, the window runs from the month's first day to the first day of the month the date changer's next arrow leads to |
| `ExpenseActions.DecemberWindow` | actions/expense-actions.ts:32-33 | for December the upper bound is January 1st of the next year |
| `ExpenseActions.WithinYearWindow` | actions/expense-actions.ts:32-37 | for other months the upper bound is the next month of the same year |
| `ExpenseActions.MonthOnlyWindow` | actions/expense-actions.ts:38-45 | with only a month, the window is that month of the current year |
| `ExpenseActions.TwoDigitMonth` | actions/expense-actions.ts:36-37 | for months 1..12 the month field is two digits that read back as the month, with a leading '0' exactly for 1..9 |
| `ExpenseActions.YearOnlyWindow` | actions/expense-actions.ts:46-47 | with only a year, the window is [Y-01-01, (Y+1)-01-01) |
| `ExpenseActions.ZeroIsAbsent` | actions/expense-actions.ts:31-46 | a month or year of 0 gives the same window as an absent one; with neither there is no window |
| `ExpenseActions.ExpenseUpdates` | actions/expense-actions.ts:103-109 | a key is present exactly when its argument is not undefined, `null` is kept as null, the keys are renamed to `category_id`/`source_id`, and no other key appears |
| `ExpenseActions.ExpenseUpdatesRoundTrip` | actions/expense-actions.ts:103-109 | every argument, null included, is recovered from the updates object |
| `ExpenseFilters.WithId` | components/expense-filters.tsx:32-38 | checking appends the id after the previous list, growing it by exactly one |
| `ExpenseFilters.WithoutId` | components/expense-filters.tsx:39-49 | unchecking keeps exactly the ids different from the unchecked one |
| `ExpenseFilters.WithoutIdCounts` | components/expense-filters.tsx:39-49 | every other id keeps its number of occurrences and the unchecked id has none |
| `ExpenseFilters.WithoutIdConcat` | components/expense-filters.tsx:42 | removal works piecewise over concatenation, so the remaining ids keep their order |
| `ExpenseFilters.WithoutAbsentId` | components/expense-filters.tsx:42 | unchecking an id that is not in the list leaves the list unchanged |
| `ExpenseFilters.CheckThenUncheck` | components/expense-filters.tsx:32-44 | checking then unchecking an id leaves the list with no trace of that id |
| `ExpenseFilters.FilterState.SetCategoryFilter` | components/expense-filters.tsx:22-24 | replaces the category list and leaves the source list as it was |
| `ExpenseFilters.FilterState.constructor` | components/expense-filters.tsx:15 | the filter cell starts with the given category and source lists |
| `ExpenseFilters.FilterState.SetSourceFilter` | components/expense-filters.tsx:26-28 | replaces the source list and leaves the category list as it was |
| `ExpenseFilters.FilterState.HandleItemChange` | components/expense-filters.tsx:30-53 | a category change appends or removes on the category list only (a missing list read as []), a source change likewise on the source list, and an unchecked id is absent afterwards |
| `ExpenseFilters.FilterState.Reset` | components/expense-filters.tsx:150 | both lists become empty |
| `ExpenseFilters.Amounts` | components/expense-filters.tsx:19-20 | the amounts of the expenses, one per expense, in order |
| `ExpenseFilters.MathMin` | components/expense-filters.tsx:19 | +Infinity for no numbers; otherwise a value at most every number and equal to one of them |
| `ExpenseFilters.MathMax` | components/expense-filters.tsx:20 | -Infinity for no numbers; otherwise a value at least every number and equal to one of them |
| `ExpenseFilters.MinAmount` | components/expense-filters.tsx:19 | `Math.min(...expenses.map(e => e.amount))`; its bounds are `ExpenseFilters.AmountBounds` |
| `ExpenseFilters.MaxAmount` | components/expense-filters.tsx:20 | `Math.max(...expenses.map(e => e.amount))`; its bounds are `ExpenseFilters.AmountBounds` |
| `ExpenseFilters.AmountBounds` | components/expense-filters.tsx:19-20 | for a non-empty list minAmount ≤ every amount ≤ maxAmount and both are attained; for an empty list they are +Infinity and -Infinity |
| `CategoryForm.HexRunMeaning` | forms/category-form.tsx:13 | `[0-9A-Fa-f]{n}$` matches exactly the strings of n hex characters |
| `CategoryForm.HexColorPattern` | forms/category-form.tsx:13 | the colour pattern accepts exactly '#' followed by six hex characters |
| `CategoryForm.HexColorRejects` | forms/category-form.tsx:13 | '#FFF', 'FFFFFF' and '#FFFFFFF' are refused and mixed-case '#a1B2c3' accepted |
| `CategoryForm.CategoryAccepted` | forms/category-form.tsx:11-14 | accepted exactly when the name is non-empty and the colour a hex colour; 'Category name is required' is reported exactly for an empty name and 'Invalid hex color code' exactly for a colour that is not hex |
| `CategoryForm.CategoryIssues` | forms/category-form.tsx:11-14 | `categorySchema` as the list of issues it reports, name before colour; its meaning is `CategoryForm.CategoryAccepted` |
| `CategoryForm.CategoryDefaults` | forms/category-form.tsx:48-51 | the default values; the fresh ones are `CategoryForm.NewCategoryFormFailsOnName` |
| `CategoryForm.PresetColorsValid` | forms/category-form.tsx:24-37 | every preset colour and the default '#000000' satisfy the colour rule |
| `CategoryForm.PresetColorsAreHex` | forms/category-form.tsx:24-37 | every preset colour and the default are '#' followed by six hexadecimal digits |
| `CategoryForm.NewCategoryFormFailsOnName` | forms/category-form.tsx:48-51 | a fresh form is refused only for its empty name |
| `CategoryForm.OnColorInput` | forms/category-form.tsx:63-111 | one colour change: typing sets both colours, a picker choice only the submitted one, leaving the text field copies the submitted colour into the validated one |
| `CategoryForm.OnColorInputs` | forms/category-form.tsx:97-129 | a sequence of colour changes, including preset clicks, applied in order; its laws are `CategoryForm.SubmittedColorIsHex` and `CategoryForm.LeavingTextSyncsColor` |
| `CategoryForm.SubmittedColorIsHex` | forms/category-form.tsx:54-73 | when both colours start equal and every picker or preset choice is a hex colour, a form whose validated colour passes also submits a hex colour |
| `CategoryForm.ChoiceBypassesSchema` | forms/category-form.tsx:97-129 | after typing 'xyz' and leaving the text field, a chosen preset changes only the submitted colour: the schema still refuses 'xyz' although the submitted colour is a hex colour |
| `CategoryForm.LeavingTextSyncsColor` | forms/category-form.tsx:103-111 | once the text field has lost focus, the validated colour is the colour the form submits |
| `ExpenseForm.ExpenseAccepted` | forms/expense-form.tsx:49-70 | accepted exactly when the amount is a positive number, a date and a category are chosen and, when sources are tracked, a non-empty source id |
| `ExpenseForm.ExpenseIssues` | forms/expense-form.tsx:49-70 | `expenseSchema` as the list of issues, with the refinement skipped after an aborted field; its meaning is `ExpenseForm.ExpenseAccepted` |
| `ExpenseForm.AmountRule` | forms/expense-form.tsx:51 | a numeric amount draws 'Amount must be a positive number' exactly when it is ≤ 0 |
| `ExpenseForm.CategoryRule` | forms/expense-form.tsx:56 | 'Select a category' is reported exactly when no category is chosen |
| `ExpenseForm.SourceRuleWhenTracking` | forms/expense-form.tsx:59-69 | with sources tracked and no aborted field, 'Select a source' at path sourceId is reported exactly when the source id is missing or empty |
| `ExpenseForm.SourceOptionalWhenNotTracking` | forms/expense-form.tsx:57-64 | without tracking no source issue arises and leaving the source out changes nothing |
| `ExpenseForm.DescriptionIrrelevant` | forms/expense-form.tsx:52 | the description never changes the issues |
| `ExpenseForm.NewExpenseFormRejected` | forms/expense-form.tsx:75-81 | an untouched new form is refused for its 0 amount and its missing category |
| `ExpenseForm.EditDefaultsAccepted` | forms/expense-form.tsx:75-81 | an edited expense with a positive amount, a category and, if tracked, a source passes as loaded |
| `ExpenseForm.ExpenseDefaults` | forms/expense-form.tsx:75-81 | the default values, new or loaded from the edited expense; see the two lemmas above |
| `SourceForm.SourceAccepted` | forms/source-form.tsx:14-17 | accepted exactly when the name is non-empty and the balance a number ≥ 0; an empty name gets 'Source name is required' and a negative balance the balance message |
| `SourceForm.SourceIssues` | forms/source-form.tsx:14-17 | `sourceSchema` as the list of issues; its meaning is `SourceForm.SourceAccepted` |
| `SourceForm.SourceDefaults` | forms/source-form.tsx:47 | `editingSource || { name: '', balance: 0 }` |
| `SourceForm.NewSourceFormFailsOnName` | forms/source-form.tsx:47 | the default {name: '', balance: 0} is refused only for its name |
| `SourceForm.SourceFormState.constructor` | forms/source-form.tsx:32-33 | the flags start as error = null, success = false |
| `SourceForm.SourceFormState.OnSubmit` | forms/source-form.tsx:50-82 | both flags are cleared; update is called when editing an existing source, add otherwise; success ends with error = null and success = true, failure with success = false and the message or 'Failed to process the request' |
| `SourceForm.SourceFormState.Submit` | forms/source-form.tsx:85 | the handler runs exactly when the schema accepts the form; otherwise the flags are unchanged. An accepted form sends UpdateSource with the edited source's id when editing an existing source and AddSource otherwise, with the form's name and balance, and ends with error = null and success = true, or on failure with success = false and the message or 'Failed to process the request' |
| `AddSourceForm.SameAsSourceForm` | forms/add-source-form.tsx:14-17 | the duplicated schema reports the same issues as the source form's for every input |
| `AddSourceForm.AddSourceIssues` | forms/add-source-form.tsx:14-17 | the schema as the add-source form writes it; `AddSourceForm.SameAsSourceForm` shows it equal to the source form's |
| `AddSourceForm.UntouchedFormRejected` | forms/add-source-form.tsx:28-35 | with no default values an untouched form is refused on both its empty name and its NaN balance |
| `AddSourceForm.AddSourceFormState.constructor` | forms/add-source-form.tsx:22-23 | the flags start as error = null, success = false |
| `AddSourceForm.AddSourceFormState.OnSubmit` | forms/add-source-form.tsx:37-58 | both flags are cleared, addSourceAction is called; success ends with error = null and success = true, failure with success = false and the message or 'Failed to add source' |
| `AddSourceForm.AddSourceFormState.Submit` | forms/add-source-form.tsx:61 | the handler runs exactly when the schema accepts the form; otherwise the flags are unchanged. An accepted form calls addSourceAction with its name and balance and ends with error = null and success = true, or on failure with success = false and the message or 'Failed to add source' |
| `CategoryActions.RowsFor` | actions/category-actions.ts:18-22 | one row per template, same order, same name and colour at each index, every row with the given user id |
| `CategoryActions.DefaultCategoryRows` | actions/category-actions.ts:18-22 | the default categories mapped to rows of one user; their shape is `CategoryActions.DefaultCategoryRowsShape` |
| `CategoryActions.DefaultCategoryRowsShape` | actions/category-actions.ts:7-22 | four rows in the order of the defaults, all of one user, each passing the category form's schema |
| `CategoryActions.DefaultCategoriesValid` | actions/category-actions.ts:7-12 | each default category has a non-empty name and a six-digit hexadecimal colour |
| `CategoryActions.CategoryUpdates` | actions/category-actions.ts:104-106 | `name` and `color` are present exactly when their argument is a non-empty string, carry that argument, and nothing else appears; both absent or empty give {} |
| `PreferencesContext.Merge` | context/preferences-context.tsx:39 | the spread `{ ...prev, ...updates }`; its laws are the three lemmas below |
| `PreferencesContext.MergeComposes` | context/preferences-context.tsx:36-44 | two successive updates leave the same preferences as one update carrying both, the later one winning on shared fields |
| `PreferencesContext.MergeEmpty` | context/preferences-context.tsx:39 | an empty update leaves the preferences unchanged |
| `PreferencesContext.MergeIdempotent` | context/preferences-context.tsx:39 | applying the same update twice equals applying it once |
| `PreferencesContext.PreferencesStore.constructor` | context/preferences-context.tsx:21 | the state starts at the initial preferences |
| `PreferencesContext.PreferencesStore.UpdatePreferences` | context/preferences-context.tsx:36-44 | after a successful call the state is the merge of the old one with the update; after a failed one it is unchanged and the same error is thrown again |

## Left out

- Every database and auth-provider call (`createClient`, `.from/.select/.insert/.update/.delete`, the `get_category_expenses` procedure, getUserAction, sign-in and sign-out): foreign I/O. Only the values computed before the call are modelled, and how the call ends is a parameter.
- getCategoryExpensesAction's parameter object (actions/expense-actions.ts:151-161): it only feeds the server-side totals procedure, which is out of the model.
- React rendering, dialogs, toasts, `reset()` of the form library, `refreshSources`, `closeDialog`, the router itself, the preferences fetch on mount, and the refetch plumbing of the context providers: UI and async I/O.
- Clock readings (`new Date()`, `getFullYear()`, `getMonth()`): they are the parameters `now`, `currentYear` and `today`.
- JavaScript numbers are unbounded integers (months, years) or reals (amounts, balances). There is no floating-point rounding, and no fractional month or year. NaN appears only where a form field can deliver it.
- DateChanger.MonthNavigator.constructor: takes integer months and years, so the NaN state a non-numeric URL parameter would give (`InitialValue` returns None for it) is not held by the class.
- Js.ParseInt: does not model parseInt's skipping of leading whitespace or its reading of a "0x" prefix as hexadecimal, because the query values it reads back are plain decimal text.
- Js.SearchParamsGet: does not model percent-decoding or '+' as a space, because the pushed values contain only digits and '-'.
- ExpenseForm.ExpenseIssues: a date is present or absent; an invalid `Date` object, which `z.date()` also refuses, is not modelled.
- PreferencesContext.Merge: a key explicitly set to `undefined` in the update is treated as absent, although the spread would copy the `undefined`.
- handleItemChange reads `currentFilters` from the last render, not from the updater's `prev`. Several changes batched into one render could therefore lose one. React's batching is not modelled: each change sees the state the previous one left.
- The category form submits its separate `color` state rather than the validated `data.color` (forms/category-form.tsx:68-73). Only the text field (lines 108-111) updates both. The colour picker (lines 97-99) and the preset swatches (line 129) call only `setColor`, so those choices bypass the validated value until the text field next loses focus: the field keeps `register('color')`'s `onBlur` (line 106), which copies the colour it shows into the validated value. This is modelled by `CategoryForm.OnColorInputs`; the form library's own state beyond the two colours is not.
- `Math.min`/`Math.max` over a list containing NaN: amounts are reals, so never NaN here.
- ExpenseFilters.FilterState: supplies the `currentFilters` cell the component assumes (components/expense-filters.tsx:15). The expense context's type and value (context/expense-context.tsx:14-34, 110-118) have no `currentFilters` or `setCurrentFilters`. As written, every check, uncheck and reset therefore calls an undefined function and throws a TypeError (lines 23, 27, 150). The class models the behaviour the handlers are written for, not that failure.
- SourceForm.SourceFormState.OnSubmit: `outcome` is how the `try` block's awaited work ends. The calls it awaits are the source context's `updateSource` and `addSource` (forms/source-form.tsx:57, 64), and those catch and only log every server error (context/source-context.tsx:40-56). So a failed request ends with error = null, success = true and a success toast; the `Threw` case arises only when the toast or `reset` throw. The add-source form is different: it awaits addSourceAction directly (forms/add-source-form.tsx:42), and a server error reaches its `catch`.
- In both source forms, the calls after `setSuccess(true)` (the toast in the add-source form, `refreshSources`, `closeDialog`) are taken not to throw. A throw there would leave success = true together with an error message, a state the model does not produce.
