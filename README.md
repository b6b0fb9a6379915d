# Payments dashboard: a Dafny model of its client-side logic

This project models the logic of a payments dashboard written in TypeScript with React and Redux Toolkit. It does not model the page layout. The modelled parts are these:

- **Payments store.** The Redux slice holds the payment list, pagination, the selected payment, the loading flag and the error message. Each of its four requests runs *pending → fulfilled | rejected*, and it has three plain setters.
- **Search-filter panel.** It decides when each date range is required. It checks that a range spans at most 31 days, and it keeps one range message per date field.
- **Dashboard page.** It decides when a search may run. It normalises end dates to 23:59, resets the page on every filter change, builds the cancel request and maps rows for the spreadsheet export.
- **Declarative form engine.** This covers the field descriptors and their validation callbacks. It also covers the generic validate / change / blur / submit / reset transitions and the pre-filled reference of the cancel form.
- **Login form.** Its validators, its touched-gated transitions and its failed-submit branch.
- **Small total mappings.** Status code to chip label and colour, and error classification. Also the row actions and the pagination label of the table, and the token-expiry decision of the session guard.

The model is organised as follows:

- **One module per source file.** Each module takes the source's own form.
  - **The slice** is a class `PaymentsSlice.PaymentsStore` whose fields the action methods assign in place. Each method is proved equal to a pure reference reducer `PaymentsSlice.Reduce`. Lemmas about `Reduce` prove that every reachable state keeps the invariant "no error while loading".
  - **The filter panel** keeps its if-chain and local state in `PaymentFilters.CheckDateChange`. Its `dateErrors` state lives in the class `PaymentFilters.FilterPanel`.
  - **The dashboard page** is a class whose handlers drive the store and the panel.
  - **React state updaters** are pure transition functions on records: the form engine and the login form.
- **Input and output become parameters.**
  - The clock ("now") is a parameter.
  - `parseFloat` and `jwtDecode` are passed in as functions.
  - Each request's result reaches the store as an abstract payload, which may be missing ("fulfilled with undefined").
- **Dates** are a day number plus milliseconds since midnight (`Dates.DateTime`), with daylight saving ignored.
- **Number formatting.** Integers are printed in decimal, as JavaScript template literals print them (`Decimal`).

## Model

| member | source | states |
|---|---|---|
| PaymentsSlice.HandleError | src/app/redux/payments.slice.ts:22-30 | Axios error: the response's `responseMessage`, else the error's message, else the generic text; another `Error`: its message; anything else: the "unexpected" text |
| PaymentsSlice.Reduce | src/app/redux/payments.slice.ts:77-157 | setters change exactly their field; every pending sets loading, clears the error and keeps the data; every rejected clears loading, stores the handled message and keeps the data; search success, and a cancel success carrying a result page, show the returned page (content, totals, page number and size), or, without payload, change nothing but loading; a cancel success carrying the cancelled record (no page) throws in the reducer and leaves the whole store, loading included, as it was; count success sets only `totalPayments`, details success only `selectedPayment` |
| PaymentsSlice.InitialStateIsQuiet | src/app/redux/payments.slice.ts:10-20 | the initial store: empty list, not loading, no error, no selection, totals 0, page 0, page size 10 |
| PaymentsSlice.NoErrorWhileLoadingReachable | src/app/redux/payments.slice.ts:88-157 | every sequence of actions preserves "loading implies no error" |
| PaymentsSlice.ListChangesOnlyThroughPages | src/app/redux/payments.slice.ts:94-137 | the payment list and its total change only through a success that delivers a result page |
| PaymentsSlice.LoadingEndsOnlyWithAnOutcome | src/app/redux/payments.slice.ts:88-157 | once loading, the store stays loading until a rejection or a success whose reducer completes |
| PaymentsSlice.CancelledRecordLeavesSpinner | src/app/redux/payments.slice.ts:124-137 | a cancellation answered with the cancelled record leaves the store loading, without error, with its old data |
| PaymentsSlice.PendingThenEmptySuccess | src/app/redux/payments.slice.ts:90-152 | a request started and fulfilled without payload leaves the store as before, minus the error |
| PaymentsSlice.SearchRequest | src/app/redux/payments.slice.ts:32-37 | the search request is the filters plus the store's current page and page size |
| PaymentsSlice.PaymentsStore.constructor | src/app/redux/payments.slice.ts:10-20 | a new store holds the initial state |
| PaymentsSlice.PaymentsStore.ClearSelectedPayment | src/app/redux/payments.slice.ts:78-80 | new state is `Reduce` of the old one; invariant kept |
| PaymentsSlice.PaymentsStore.SetPage | src/app/redux/payments.slice.ts:81-83 | new state is `Reduce` of the old one; invariant kept |
| PaymentsSlice.PaymentsStore.SetPageSize | src/app/redux/payments.slice.ts:84-86 | new state is `Reduce` of the old one; invariant kept |
| PaymentsSlice.PaymentsStore.Pending | src/app/redux/payments.slice.ts:90-93 | any request's pending case, as `Reduce`; invariant kept |
| PaymentsSlice.PaymentsStore.Rejected | src/app/redux/payments.slice.ts:104-108 | any request's rejected case, as `Reduce`; invariant kept |
| PaymentsSlice.PaymentsStore.SearchFulfilled | src/app/redux/payments.slice.ts:94-103 | search success, as `Reduce`; invariant kept |
| PaymentsSlice.PaymentsStore.CancelFulfilled | src/app/redux/payments.slice.ts:128-137 | cancel-and-refresh success, as `Reduce` (a result page is shown; the cancelled record changes nothing); invariant kept |
| PaymentsSlice.PaymentsStore.CountFulfilled | src/app/redux/payments.slice.ts:113-118 | count success, as `Reduce`; invariant kept |
| PaymentsSlice.PaymentsStore.DetailsFulfilled | src/app/redux/payments.slice.ts:147-152 | details success, as `Reduce`; invariant kept |
| PaymentsSlice.PaymentsStore.ShowPage | src/app/redux/payments.slice.ts:97-101 | the five assignments of a delivered page, nothing else |
| PaymentFilters.RequirednessRules | src/app/components/PaymentFilters.tsx:16-20 | the two requiredness rules mirror each other; without a status some range is required; once one range is begun the other is required iff begun; with a status and no dates neither is |
| PaymentFilters.ValidateDateRange | src/app/components/PaymentFilters.tsx:22-28 | a missing end accepts; otherwise accepted iff the full-day difference is at most 31; a reversed range is accepted |
| PaymentFilters.RangeLimitInCalendarDays | src/app/components/PaymentFilters.tsx:22-28 | up to 31 calendar days apart passes, 32 passes only if the end's time of day is earlier, 33 or more never |
| PaymentFilters.Partner | src/app/components/PaymentFilters.tsx:34-54 | each date field's partner is the other end (start against end) of the same range (creation against creation) |
| PaymentFilters.PartnerIsInvolution | src/app/components/PaymentFilters.tsx:34-54 | the partner of a field's partner is the field itself |
| PaymentFilters.ClearingOrUnpairedAlwaysAccepted | src/app/components/PaymentFilters.tsx:34-54 | clearing a date, or changing one whose partner is empty, is always accepted |
| PaymentFilters.CheckDateChange | src/app/components/PaymentFilters.tsx:30-54 | the if-chain accepts exactly when the range the change produces is valid; its message is empty when accepted, the range message otherwise |
| PaymentFilters.FilterPanel.constructor | src/app/components/PaymentFilters.tsx:9-14 | all four range messages start empty |
| PaymentFilters.FilterPanel.HandleDateChange | src/app/components/PaymentFilters.tsx:56-61 | only the changed field's message moves: cleared when accepted, the range message when rejected |
| PaymentFilters.FilterPanel.HelperText | src/app/components/PaymentFilters.tsx:90 | a range message wins; otherwise "Campo requerido" exactly when the range is required and the date missing, and the empty text when neither applies |
| PaymentFilters.FilterPanel.InError | src/app/components/PaymentFilters.tsx:89 | the picker is drawn in error exactly when it shows a helper text |
| Dashboard.SearchNeedsACompleteRequiredRange | src/app/dashboard/page.tsx:36-45 | the initial filters do not allow a search; whenever one may run, some range the panel requires is complete |
| Dashboard.SearchRunsBesideAMissingRequiredDate | src/app/dashboard/page.tsx:36-45 | a search may run while the panel still marks a half-filled payment range as required |
| Dashboard.NormaliseDate | src/app/dashboard/page.tsx:80-86 | a set end date moves to 23:59:00.000 of the same day; a start date or a null is kept |
| Dashboard.NormaliseDateIdempotent | src/app/dashboard/page.tsx:80-86 | normalising twice equals normalising once |
| Dashboard.ApplyFilterChange | src/app/dashboard/page.tsx:88-91 | only the changed key moves (normalised); every other filter field is kept |
| Dashboard.ApplyFilterChangeIdempotent | src/app/dashboard/page.tsx:79-91 | repeating a filter change changes nothing more |
| Dashboard.CancelRequestFor | src/app/dashboard/page.tsx:71-74 | the request carries the form values with `status` set to "03", and the current filters |
| Dashboard.ExportStatus | src/app/dashboard/page.tsx:102 | a known code's `STATUS_MAP` label, else the raw code |
| Dashboard.ExportStatusMatchesChip | src/app/dashboard/page.tsx:102 | the exported status equals the chip's label for every code |
| Dashboard.ExportRowOf | src/app/dashboard/page.tsx:96-105 | fields copied; status mapped; an empty cancel description becomes "N/A" |
| Dashboard.ExportRows | src/app/dashboard/page.tsx:96 | one export row per payment, in order |
| Dashboard.ExportDisabledUntilAPageArrives | src/app/dashboard/page.tsx:172 | from the initial store, export stays disabled until some step delivers a result page |
| Dashboard.DashboardPage.constructor | src/app/dashboard/page.tsx:20-32 | empty filters, cancel form closed, store in its initial state, panel shown with no messages |
| Dashboard.DashboardPage.HandleFilterChange | src/app/dashboard/page.tsx:79-93 | filters become `ApplyFilterChange` of the old ones, and the store takes `setPage(0)` |
| Dashboard.DashboardPage.SearchEffect | src/app/dashboard/page.tsx:47-51 | a search is dispatched (pending, with the store's paging) iff `hasValidFilters`, and the spinner replaces the panel, which comes back freshly mounted with no messages; otherwise the store and panel are untouched |
| Dashboard.AfterFilterChange | src/app/dashboard/page.tsx:47-93 | after a filter change the store is on page 0 with its page size and list kept; it is loading with no error exactly when a search starts, and otherwise nothing else changes |
| Dashboard.DashboardPage.FilterChanged | src/app/dashboard/page.tsx:47-93 | after a filter change, the search that follows, if any, asks for page 0 with the new filters; the store ends as after `setPage(0)`, followed by the search's pending step exactly when a search starts |
| Dashboard.DashboardPage.DatePicked | src/app/components/PaymentFilters.tsx:56-61 | only while the panel is shown; an accepted date reaches the page's filters and leaves the store as after `setPage(0)` and, if a search starts, its pending step; a rejected one leaves filters and store unchanged; without a search only that field's message moves; with one the panel is remounted with no messages |
| Dashboard.DashboardPage.StatusSelected | src/app/components/PaymentFilters.tsx:150 | only while the panel is shown; a chosen status is stored unchanged; the store ends as after `setPage(0)` and, if a search starts, its pending step; a search remounts the panel with no messages |
| Dashboard.DashboardPage.RowsPerPageChanged | src/app/dashboard/page.tsx:222-225 | page size set, then page 0; nothing else changes |
| Dashboard.DashboardPage.PageChanged | src/app/dashboard/page.tsx:221 | only the current page changes |
| Dashboard.DashboardPage.HandleCancelSubmit | src/app/dashboard/page.tsx:71-77 | returns the cancel request, starts the request (the spinner replaces the panel, which comes back with no messages), closes the cancel form |
| Fields.AmountError | src/app/types/fields.types.ts:16-21 | empty: required message; otherwise accepted iff the parsed number is greater than 0, else the invalid message |
| Fields.DueDateError | src/app/types/fields.types.ts:28-32 | missing: required message; accepted iff not strictly before now |
| Fields.LengthError | src/app/types/fields.types.ts:42-47 | required, too-short and too-long messages in that order; '' inside the bounds |
| Fields.DescriptionError | src/app/types/fields.types.ts:42-47 | accepted iff 3 to 255 characters |
| Fields.UpdateDescriptionError | src/app/types/fields.types.ts:65-70 | accepted iff 10 to 500 characters |
| Fields.Names | src/app/types/fields.types.ts:3-72 | the names of a descriptor list, in order |
| Fields.FieldListsShape | src/app/types/fields.types.ts:3-72 | payment fields are externalId, amount, dueDate, description; cancel fields are reference, updateDescription; exactly externalId and reference are disabled |
| Fields.CallbacksMatchLengthBounds | src/app/types/fields.types.ts:40-47 | each length-checked callback accepts exactly the lengths between its descriptor's `minLength` and `maxLength` |
| Fields.DescriptionLimitIs255 | src/app/types/fields.types.ts:45 | descriptions of 201 to 255 characters are accepted although the message says 200 |
| DynamicForm.InitialValues | src/app/components/DynamicForm.tsx:12-15 | one key per field; date fields start null, all others '' |
| DynamicForm.InitialState | src/app/components/DynamicForm.tsx:11-29 | initial and reset state: blank values, no errors, nothing touched |
| DynamicForm.ValidateField | src/app/components/DynamicForm.tsx:31-39 | required and falsy: "<label> es requerido"; else the callback's result; else '' |
| DynamicForm.AnyNonEmpty | src/app/components/DynamicForm.tsx:72 | `some(error !== '')` holds iff some entry is non-empty |
| DynamicForm.AllErrors | src/app/components/DynamicForm.tsx:71 | one validation result per field, in order |
| DynamicForm.IsFormValid | src/app/components/DynamicForm.tsx:70-73 | valid iff every field validates to '' |
| DynamicForm.ChangedValue | src/app/components/DynamicForm.tsx:45 | a date field takes exactly the picker's date (null when there is none), any other field exactly the event's text |
| DynamicForm.HandleChange | src/app/components/DynamicForm.tsx:41-57 | stores the value; the field's error is its validation if touched, else ''; other values and errors kept |
| DynamicForm.HandleBlur | src/app/components/DynamicForm.tsx:59-68 | marks the field touched and sets its error from the stored value; values kept |
| DynamicForm.InitialStateInSync | src/app/components/DynamicForm.tsx:11-29 | the initial state shows no message |
| DynamicForm.ChangeKeepsErrorsInSync | src/app/components/DynamicForm.tsx:41-57 | a change keeps "touched fields show their validation, untouched show ''" |
| DynamicForm.BlurKeepsErrorsInSync | src/app/components/DynamicForm.tsx:59-68 | a blur keeps the same invariant |
| DynamicForm.ValidIffNoMessageShown | src/app/components/DynamicForm.tsx:70-73 | with all fields touched, the form is valid iff no field shows a message |
| DynamicForm.DisabledFieldsAlwaysValid | src/app/types/fields.types.ts:4-8 | the disabled descriptors always validate to '' |
| DynamicForm.CallbackRequiredMessagesUnreachable | src/app/components/DynamicForm.tsx:32-37 | a falsy value in a validated field yields the generic required message, never the callback's own |
| DynamicForm.AmountAcceptedIffPositive | src/app/types/fields.types.ts:16-21 | a filled amount validates iff it parses to a number greater than 0 |
| DynamicForm.DueDateAcceptedIffNotPast | src/app/types/fields.types.ts:28-32 | a due date validates iff it is not before now |
| DynamicForm.HandleSubmit | src/app/components/DynamicForm.tsx:75-89 | no handler: only closes; success: submits the values, resets and closes; failure: keeps values, sets the general error, stays open |
| DynamicForm.FailedSubmitKeepsErrorsInSync | src/app/components/DynamicForm.tsx:83-88 | a failed submit keeps every field's message in sync |
| DynamicForm.CloseEffect | src/app/components/DynamicForm.tsx:134-138 | a closed form is reset; an open one kept |
| DynamicForm.PrefillReference | src/app/components/DynamicForm.tsx:140-147 | an open cancel form with a selected row's reference pre-fills `reference` only |
| DynamicForm.PrefillKeepsErrorsInSync | src/app/components/DynamicForm.tsx:140-147 | pre-filling keeps every message in sync |
| Login.ValidateUsername | src/app/login/page.tsx:42-53 | required, too short, too long in that order; accepted iff 3 to 20 characters |
| Login.ValidatePassword | src/app/login/page.tsx:55-63 | required, then too short; accepted iff at least 12 characters |
| Login.HandleChange | src/app/login/page.tsx:65-78 | stores the value; recomputes that field's error only if touched, otherwise leaves it |
| Login.HandleBlur | src/app/login/page.tsx:80-91 | marks the field touched and sets its error from its current value |
| Login.IsFormValid | src/app/login/page.tsx:93-103 | valid iff a 3-to-20-character username and a password of at least 12 |
| Login.SubmitFailed | src/app/login/page.tsx:110-116 | the classified message becomes the general error; all else kept |
| Login.TransitionsKeepErrorsInSync | src/app/login/page.tsx:65-116 | the initial state and every change, blur and failed login keep the messages in sync with the values |
| Login.ValidIffNoMessageShown | src/app/login/page.tsx:93-103 | with both fields touched, the form is valid iff neither shows a message |
| ComponentsTypes.WithDate | src/app/types/components.types.ts:43-51 | replaces one date of a `Filters` record and keeps the rest |
| ComponentsTypes.StatusLabel | src/app/types/components.types.ts:63-68 | a label exactly for the four known codes, never empty |
| ComponentsTypes.StatusTablesAgree | src/app/types/components.types.ts:63-76 | `STATUS_MAP` has keys 01 to 04; the options start with the '' placeholder, then the codes in order with the same labels |
| ChipStatus.GetStatusDetails | src/app/components/ChipStatus.tsx:5-14 | 01 Creado/info, 02 Pagado/success, 03 Cancelado/error, 04 Expirado/warning; any other string shows itself in the default colour, which only unknown codes get |
| ChipStatus.KnownCodesDistinct | src/app/components/ChipStatus.tsx:5-10 | known codes have pairwise distinct labels and colours |
| ChipStatus.ChipLabelsMatchStatusMap | src/app/components/ChipStatus.tsx:5-10 | the chip's label is the `STATUS_MAP` label of every known code |
| PaymentsTable.LayoutConstants | src/app/components/PaymentsTable.tsx:30-84 | colSpan 7 equals the number of headers; page size options 10, 50, 100 include the store's initial page size |
| PaymentsTable.ActionsFor | src/app/components/PaymentsTable.tsx:66-73 | details are always offered; cancelling iff the status is "01" |
| PaymentsTable.CancelOfferedIffChipShowsCreated | src/app/components/PaymentsTable.tsx:63-73 | cancelling is offered iff the row's chip reads Creado in the info colour |
| PaymentsTable.RowOf | src/app/components/PaymentsTable.tsx:57-74 | a row shows the payment's cells, its status chip and its actions |
| PaymentsTable.CeilDiv | src/app/components/PaymentsTable.tsx:91 | `Math.ceil(a / b)` for a non-zero divisor, as the bounds that define it |
| PaymentsTable.PageWithinPageCount | src/app/components/PaymentsTable.tsx:90-92 | a page holding some of the items has a one-based number no greater than the page count |
| PaymentsTable.PaginationLabelReadsBack | src/app/components/PaymentsTable.tsx:90-92 | on a non-empty page the label is "Página", the decimal page + 1, "de", and the decimal page count, and both numbers read back |
| PaymentsTable.Render | src/app/components/PaymentsTable.tsx:20-107 | empty data draws only the no-data message; otherwise the seven headers, one row per payment in order, and the footer with the label |
| ErrorHandler.Handle | src/app/api/utils/errorHandler.ts:10-30 | with a response: its message and code or the defaults, and its status; sent without answer: network error, status 0; never sent: setup error with the error's message or the default, status 0 |
| ErrorHandler.StatusZeroWithoutResponse | src/app/api/utils/errorHandler.ts:18-29 | status 0 marks exactly the errors without a response, provided no server answers with status 0 |
| Redirect.IsTokenExpired | src/app/hooks/useRedirect.ts:6-18 | a failed decode, or a missing or zero exp, is expired; otherwise expired iff exp is before the current whole second |
| Redirect.ExpiryBoundaryIsLive | src/app/hooks/useRedirect.ts:12-13 | an exp equal to the current second is not expired |
| Redirect.ShouldRedirect | src/app/hooks/useRedirect.ts:22-26 | redirect iff the stored token is absent or expired |
| Dates.DifferenceInDays | src/app/components/PaymentFilters.tsx:24 | the full days between two instants, truncated toward zero, for both orders |
| Dates.DifferenceInDaysAntisymmetric | src/app/components/PaymentFilters.tsx:24 | swapping the arguments flips the sign |
| Dates.DifferenceInDaysSameTime | src/app/components/PaymentFilters.tsx:24 | at equal times of day the difference is the difference of the day numbers |
| Dates.EndOfDay | src/app/dashboard/page.tsx:83-84 | same day, at 23:59:00.000 |
| Dates.EndOfDayIdempotent | src/app/dashboard/page.tsx:83-84 | idempotent, and never before the start of its own day |
| Decimal.NatToString | src/app/components/PaymentsTable.tsx:91 | non-empty, all digits, no leading zero |
| Decimal.NatToStringRoundTrip | src/app/components/PaymentsTable.tsx:91 | reading the printed digits back gives the number |
| Decimal.IntToString | src/app/components/PaymentsTable.tsx:91 | a minus sign before the digits of a negative number |
| Wrappers.OrElse | src/app/api/utils/errorHandler.ts:14-15 | JavaScript's `or` fallback on a possibly missing string: the fallback for a missing or empty string |

## Left out

- HTTP, storage and routing are not modelled: axios, fetch, localStorage, `router.replace`, `window.location` and the toasts. Each request's outcome reaches the store as an abstract payload. The service functions `PaymentsService.searchPayments` and `countPaymentsForStats` are called by the slice but defined nowhere, so their behaviour is not invented.
- Async ordering is not modelled. Each action is one atomic transition, so "the last response wins" between overlapping requests is not captured.
- The slice exports no `setSelectedPayment` action, although the page imports one to open the cancel form and the details dialog. The row-click handlers that call it are not modelled, and no such action is invented.
- The payment-creation handler is not modelled: its body mapping, moment formatting, the fixed callback URL and its `console.log` on failure. It never rethrows, so `DynamicForm.HandleSubmit` sees it as a handler that resolves.
- Spreadsheet writing (XLSX), column widths and file names are not modelled, nor date formatting with moment or date-fns, nor the search text box (its value is never used).
- `parseFloat`'s prefix parsing and floating point are not modelled. The parser is a parameter returning not-a-number, a finite real or an infinity. `new Date()` is a parameter too.
- Invalid Date values, time zones and daylight saving are not modelled. Every day has 86 400 000 ms.
- Dates.DifferenceInDays: date-fns counts calendar-day steps and then adjusts. That agrees with full 24-hour days only because daylight saving is not modelled.
- String lengths count Dafny characters, where JavaScript counts UTF-16 code units. Texts outside the Basic Multilingual Plane would differ.
- Decimal.IntToString: prints integers only. JavaScript's exponent notation for very large numbers, and `-0`, are not modelled.
- PaymentsTable.PageCountText returns NaN, Infinity or -Infinity for a zero page size, as JavaScript does. The quotient `totalItems / rowsPerPage` is often not an integer (15 / 10), but only its ceiling is printed, and that is computed with integer division.
- Map lookups ignore JavaScript's inherited property names. For example, `STATUS_MAP["constructor"]` is not modelled.
- ErrorHandler.Handle: a null response body (`error.response.data` being `null`) would throw in the source; the model takes the body as an object with optional fields.
- The login request itself is not modelled, and neither is the redirect after success. Only the error branch of its submit handler is modelled.
- Layout, styling, the theme, the statistics page, the chart, the details dialog with its PDF export, the copy block, the lazy-loading wrappers and the static pages are not modelled.
- While the store is loading, or holds a non-empty error (the page tests the message's truthiness, so an empty one keeps the page), the page draws only the spinner or the error text; neither screen is modelled. `Dashboard.DashboardPage.PanelShown` states when the panel is on screen, the panel's events require it, and a panel mounted afresh replaces the old one whenever a request starts. The cancel and payment forms are unmounted too; that reset is not modelled for them.
- The status select's own error flag (`!filters.status`) is presentation only and is not modelled.

## Notes on the source

- The description callback's message says "más de 200 caracteres", but the callback rejects only texts longer than 255, matching the descriptor's `maxLength` (`Fields.DescriptionLimitIs255`).
- Three of the login messages contain the characters U+CE58 (one message) and U+CE68 (two messages) where "á" and "ñ" were meant. The model keeps them as written.
- Page changes alone never dispatch a search. The search effect depends on the filters only, so `PageChanged` and `RowsPerPageChanged` change the store's paging without a new request.
- The filter panel marks a half-filled range as required even when the other range is complete, but the page's `hasValidFilters` lets the search run anyway (`Dashboard.SearchRunsBesideAMissingRequiredDate`).
- The typed response of the cancel request carries no `data.content` or `data.page`. The reducer reads `data.page.totalElements` anyway, which throws for that body. The throwing step is discarded, so `loading` stays true and the page keeps showing its spinner (`PaymentsSlice.CancelledRecordLeavesSpinner`, `PaymentsSlice.LoadingEndsOnlyWithAnOutcome`). The model's cancel payload is either such a record or a result page.
