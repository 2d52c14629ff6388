# BudgetMeApp core in Dafny

This project models the core of BudgetMeApp, an iOS client for a banking API. It covers three
parts:

- **The transactions screen** (`TransactionsViewModel`). It computes the weekly window with
  `calculateNextWeek` and `updateDateRange`. It splits a transaction feed into an Income
  section and an Expenses section with `makeTransactionSectionData`. It turns request
  outcomes into its published state: the `dataSource` relay and the `isLoading`,
  `errorPublisher` and `dateRange` subjects.
- **The accounts screen** (`AccountsViewModel`). `fetchAllAccounts` joins every account with
  its balance and identifiers. The zip-per-account, `merge` and `toArray` pipeline becomes a
  function over the per-account request results and the order in which they arrive.
  `refreshData` drives the screen's state from the outcome.
- **The account endpoint table** (`STAccountService`): path, method, task, headers,
  authorisation and status-code validation for each request.

Layout, one module per file:

| file | module | contents |
|---|---|---|
| `wrappers.dfy` | `Wrappers` | `Option`, `Result` and the opaque `Error` |
| `reactive.dfy` | `Reactive` | Rx events and the `subscribe` handlers shared by both view models |
| `calendar.dfy` | `Calendar` | the `DateFormatter` patterns `yyyy-MM-dd'T'HH:mm:ss.SSS'Z'` and `dd/MM`, and Gregorian day arithmetic |
| `sections.dfy` | `Sections` | feed items and `makeTransactionSectionData` |
| `transactions.dfy` | `Transactions` | `calculateNextWeek`, `updateDateRange` and class `TransactionsViewModel` |
| `aggregation.dfy` | `Aggregation` | account records and the `fetchAllAccounts` join |
| `accounts.dfy` | `Accounts` | class `AccountsViewModel` |
| `account_service.dfy` | `AccountService` | the `STAccountService` routing table |

Publish subjects keep nothing, so each one (`isLoading`, `errorPublisher`, `dateRange`) is a
field holding the log of everything emitted on it, oldest first. The behaviour relay
`dataSource` is a field holding its current value. Each network request is a `Result`
parameter of the method that would issue it. The order in which merged per-account results
arrive is also a parameter: a sequence with the same elements as the per-account results, in
any order.

Day arithmetic is checked against an independent reference: `Calendar.DayNumber`, a count of
days since 1 January of year 0. The wire format is checked by round trips between parsing and
formatting.

## Model

| member | source | states |
|---|---|---|
| `Calendar.Format` | BudgetMeApp/ViewModel/TransactionsViewModel.swift:122-125 | rendering a pattern (the wire pattern and `dd/MM`); `ParseOfFormat` and `FormatOfParse` state that it and `ParseFields` are inverse on fields that fit their widths |
| `Calendar.ParseFields` | BudgetMeApp/ViewModel/TransactionsViewModel.swift:104-107 | a successful strict parse yields one value per field of the pattern; `ParseOfFormat` and `FormatOfParse` state the round trips with `Format` |
| `Calendar.ParseTimestamp` | BudgetMeApp/ViewModel/TransactionsViewModel.swift:104-107 | a start string is accepted only when it names an existing calendar date and a valid time of day |
| `Calendar.PaddedFixedWidth` | BudgetMeApp/ViewModel/TransactionsViewModel.swift:105 | a numeric field whose value fits its width is written with exactly that many digits, and those digits read back as the value |
| `Calendar.ParseOfFormat` | BudgetMeApp/ViewModel/TransactionsViewModel.swift:105-110 | for any well-formed pattern, parsing what was formatted gives back every field value |
| `Calendar.FormatOfParse` | BudgetMeApp/ViewModel/TransactionsViewModel.swift:105-110 | the strict parse accepts only the canonical rendering: formatting the parsed fields gives back the input string |
| `Calendar.FormatTimestampFields` | BudgetMeApp/ViewModel/TransactionsViewModel.swift:105 | the wire rendering is the year in at least 4 digits, month, day, hour, minute and second in at least 2, then the milliseconds in at least 3, with the separators `- - T : : .` and a literal `Z` |
| `Calendar.FormatTimestamp` | BudgetMeApp/ViewModel/TransactionsViewModel.swift:110 | the wire rendering of a timestamp; `FormatTimestampFields` gives it field by field and `ParseOfFormatTimestamp` / `FormatOfParseTimestamp` the round trips with `ParseTimestamp` |
| `Calendar.ParseOfFormatTimestamp` | BudgetMeApp/ViewModel/TransactionsViewModel.swift:105-110 | every valid timestamp with a year below 10000 survives formatting and parsing unchanged |
| `Calendar.FormatOfParseTimestamp` | BudgetMeApp/ViewModel/TransactionsViewModel.swift:105-110 | every string that parses is the rendering of the timestamp it parses to |
| `Calendar.DaysInMonth` | BudgetMeApp/ViewModel/TransactionsViewModel.swift:108 | every month has between 28 and 31 days |
| `Calendar.NextDay` | BudgetMeApp/ViewModel/TransactionsViewModel.swift:108 | the day after a valid date is a valid date, rolling over month and year ends |
| `Calendar.AddDays` | BudgetMeApp/ViewModel/TransactionsViewModel.swift:108 | `Calendar.date(byAdding: .day)`; `AddDaysNumber` states that the result is a valid date exactly n day numbers later at the same time of day, and `AddDaysYearBound` that a week moves the year by at most one |
| `Calendar.AddDaysNumber` | BudgetMeApp/ViewModel/TransactionsViewModel.swift:108 | adding n days gives a valid date exactly n day numbers later, at the same time of day |
| `Calendar.DayNumberInjective` | BudgetMeApp/ViewModel/TransactionsViewModel.swift:108 | two valid dates with the same day number are the same date |
| `Calendar.AddDaysYearBound` | BudgetMeApp/ViewModel/TransactionsViewModel.swift:108 | adding at most 365 days crosses at most one year boundary |
| `Transactions.CalculateNextWeek` | BudgetMeApp/ViewModel/TransactionsViewModel.swift:103-113 | the result is absent exactly when the start date does not parse |
| `Transactions.NextWeekIsSevenDaysLater` | BudgetMeApp/ViewModel/TransactionsViewModel.swift:103-113 | when the end date's year is below 10000, the result parses back to a timestamp exactly seven day numbers later at the same time of day |
| `Transactions.NextWeekIsUnique` | BudgetMeApp/ViewModel/TransactionsViewModel.swift:103-113 | the result is the rendering of the only valid timestamp seven days after the start at the same time of day |
| `Transactions.NextWeekOfRendered` | BudgetMeApp/ViewModel/TransactionsViewModel.swift:103-128 | for a rendered valid timestamp, the end date and the range text are computed from that same timestamp plus seven days |
| `Transactions.NextWeekLeapFebruary` | BudgetMeApp/ViewModel/TransactionsViewModel.swift:103-113 | `2020-02-26T10:15:30.123Z` gives `2020-03-04T10:15:30.123Z`, because 2020 has a 29 February |
| `Transactions.NextWeekFirstOfMarch` | BudgetMeApp/ViewModel/TransactionsViewModel.swift:103-113 | `2020-03-01T00:00:00.000Z` gives `2020-03-08T00:00:00.000Z` |
| `Transactions.DateRangeText` | BudgetMeApp/ViewModel/TransactionsViewModel.swift:115-128 | a range text exists exactly when the start parses |
| `Transactions.DateRangeMatchesWindow` | BudgetMeApp/ViewModel/TransactionsViewModel.swift:115-128 | when the end date's year is below 10000, the text is 13 characters `dd/MM - dd/MM`; its first part reads back as the start's day and month, its last part as the day and month of the end date `calculateNextWeek` returns |
| `Transactions.DayMonthRoundTrip` | BudgetMeApp/ViewModel/TransactionsViewModel.swift:122-125 | `dd/MM` renders a valid date in 5 characters that read back as its day and month |
| `Transactions.DateRangeFirstOfMarch` | BudgetMeApp/ViewModel/TransactionsViewModel.swift:115-128 | the window starting `2020-03-01T00:00:00.000Z` is shown as `01/03 - 08/03` |
| `Transactions.Classified` | BudgetMeApp/ViewModel/TransactionsViewModel.swift:54-56 | `.map(makeTransactionSectionData)` on a request outcome: a success carries the two sections of `MakeTransactionSectionData`, a failure its error unchanged |
| `Transactions.TransactionsViewModel.constructor` | BudgetMeApp/ViewModel/TransactionsViewModel.swift:21-39 | a new view model has an empty data source and has emitted nothing on any output |
| `Transactions.TransactionsViewModel.HandleFeedEvent` | BudgetMeApp/ViewModel/TransactionsViewModel.swift:57-66 | next replaces the data source, error publishes the error, completed emits `false`, and the event's emission is appended to the ordered log; the date range is untouched |
| `Transactions.TransactionsViewModel.UpdateDataSource` | BudgetMeApp/ViewModel/TransactionsViewModel.swift:41-68 | `true` on subscription, then the outputs are those of running the handler over the classified request seen as an observable: success replaces the data source with the two sections and emits `false`; failure publishes the error, keeps the data source and emits no `false`; the ordered log is `true` followed by those emissions |
| `Transactions.TransactionsViewModel.UpdateDateRange` | BudgetMeApp/ViewModel/TransactionsViewModel.swift:115-128 | emits the range text once, on the range output and in the ordered log, when the start parses and nothing otherwise; nothing else changes |
| `Transactions.TransactionsViewModel.RefreshDataWith` | BudgetMeApp/ViewModel/TransactionsViewModel.swift:70-74 | needs a parsable start; returns the week's end date; the ordered log gains the range text, then `true`, then the emissions of the feed's outcome, and the data source, busy log and error log change as in `updateDataSource` |
| `Transactions.TransactionsViewModel.HandleRefreshEvent` | BudgetMeApp/ViewModel/TransactionsViewModel.swift:85-97 | success replaces the data source, failure publishes the error; both emit `false`, after the value or the error in the ordered log |
| `Transactions.TransactionsViewModel.RefreshData` | BudgetMeApp/ViewModel/TransactionsViewModel.swift:76-99 | `true` then exactly one `false` whatever the outcome; failure keeps the data source and publishes exactly one error; the ordered log is `true`, the sections or the error, then `false` |
| `Reactive.OnEvent` | BudgetMeApp/ViewModel/TransactionsViewModel.swift:57-66 | the shared `subscribe` handler on one event; the view-model methods `HandleFeedEvent` and `HandleEvent` are stated as this step |
| `Reactive.Run` | BudgetMeApp/ViewModel/TransactionsViewModel.swift:54-67 | the handler folded over a stream; `RunStream` and `RunSingle` state its outcome, and `UpdateDataSource` and the accounts `RefreshData` are stated as this run |
| `Reactive.OnSingleEvent` | BudgetMeApp/ViewModel/TransactionsViewModel.swift:85-97 | one `false` is emitted; the data source changes only on success; an error is published only on failure |
| `Reactive.ObservableOf` | BudgetMeApp/ViewModel/TransactionsViewModel.swift:50 | a single request seen as an observable is a well-formed stream that completes exactly when the request succeeded |
| `Reactive.RunStream` | BudgetMeApp/ViewModel/TransactionsViewModel.swift:57-66 | over a whole stream the data source ends at the last element delivered; `false` is emitted once exactly when the stream completed; an error is published once exactly when it failed |
| `Reactive.RunSingle` | BudgetMeApp/ViewModel/TransactionsViewModel.swift:50-66 | running the handler over a single request seen as an observable replaces the data source only on success, emits `false` only on success, and publishes the error only on failure |
| `Sections.Capitalized` | BudgetMeApp/ViewModel/TransactionsViewModel.swift:133-136 | the header has the raw value's length; each position holds the same letter up to case (or the same non-letter, unchanged); a letter at the start of the text or after a non-letter (space, tab, line break, punctuation, digit) is upper case and every other letter is lower case |
| `Sections.CapitalizedWordBreaks` | BudgetMeApp/ViewModel/TransactionsViewModel.swift:133-136 | a tab, a hyphen and a digit all start a new word: `a\tb`, `a-b` and `1st` give `A\tB`, `A-B` and `1St` |
| `Sections.IncomeHeader` | BudgetMeApp/ViewModel/TransactionsViewModel.swift:133-134 | the raw value `income` capitalizes to the header `Income` |
| `Sections.ExpensesHeader` | BudgetMeApp/ViewModel/TransactionsViewModel.swift:136 | the raw value `expenses` capitalizes to the header `Expenses` |
| `Sections.Filter` | BudgetMeApp/ViewModel/TransactionsViewModel.swift:134-137 | `filter` by direction; `FilterMembers` states which items are kept and `FilterIsStableSelection` that they keep input order |
| `Sections.FilterMembers` | BudgetMeApp/ViewModel/TransactionsViewModel.swift:134-137 | an item is in the filtered list exactly when it is in the input and has the given direction |
| `Sections.Positions` | BudgetMeApp/ViewModel/TransactionsViewModel.swift:134-137 | the positions are increasing, in range, and hold exactly the input positions whose direction is the given one |
| `Sections.FilterIsStableSelection` | BudgetMeApp/ViewModel/TransactionsViewModel.swift:134-137 | the k-th filtered item is the input item at the k-th matching position, so input order is kept |
| `Sections.PositionsCover` | BudgetMeApp/Model/Transaction/TransactionFeed/STTransactionFeed.swift:16-43 | every item has exactly one of the directions IN, OUT or none |
| `Sections.MakeTransactionSectionData` | BudgetMeApp/ViewModel/TransactionsViewModel.swift:132-143 | exactly two sections, "Income" then "Expenses"; an item is in Income exactly when its direction is IN and in Expenses exactly when it is OUT |
| `Sections.SectionsPartitionFeed` | BudgetMeApp/ViewModel/TransactionsViewModel.swift:132-143 | each section keeps its items in input order, no item is in both, and together they hold every item except those without a direction |
| `Sections.ClassifyExample` | BudgetMeApp/ViewModel/TransactionsViewModel.swift:132-143 | directions IN, OUT, IN, OUT, OUT give Income = items 1 and 3 and Expenses = items 2, 4 and 5 |
| `Aggregation.Requests` | BudgetMeApp/ViewModel/AccountsViewModel.swift:53-62 | `account.map(request)`: one composite fetch per account, in account order, the reference against which every arrival order is measured |
| `Aggregation.FetchAllAccounts` | BudgetMeApp/ViewModel/AccountsViewModel.swift:52-67 | `merge` then `toArray` over any arrival order of the per-account requests; `FetchAllSucceedsIff`, `FetchAllIsPermutation`, `FetchAllPairsEachAccount` and `FetchAllFailureIsSubRequestError` state its outcome |
| `Aggregation.FetchComposite` | BudgetMeApp/ViewModel/AccountsViewModel.swift:53-60 | a composite exists exactly when both the balance and the identifiers requests succeed; it pairs the account with those two answers; a failure carries one of the failed requests' errors |
| `Aggregation.MergeToArray` | BudgetMeApp/ViewModel/AccountsViewModel.swift:64-66 | succeeds exactly when every arrival succeeded, with the values in arrival order; otherwise fails with the first error to arrive |
| `Aggregation.FetchAllSucceedsIff` | BudgetMeApp/ViewModel/AccountsViewModel.swift:52-67 | in any arrival order, the join succeeds exactly when every balance and every identifiers request succeeds |
| `Aggregation.FetchAllIsPermutation` | BudgetMeApp/ViewModel/AccountsViewModel.swift:62-65 | a successful join has one composite per account and is a permutation of the composites in account order |
| `Aggregation.FetchAllPairsEachAccount` | BudgetMeApp/ViewModel/AccountsViewModel.swift:53-59 | each composite pairs an account of the list with the balance and identifiers fetched for that account's id |
| `Aggregation.FetchAllFailureIsSubRequestError` | BudgetMeApp/ViewModel/AccountsViewModel.swift:52-67 | a failed join reports the error of a failed balance or identifiers request of some account, and produces no partial array |
| `Aggregation.FetchAllOfNoAccounts` | BudgetMeApp/ViewModel/AccountsViewModel.swift:62-65 | an empty account list joins to an empty array |
| `Aggregation.FetchAllInAccountOrder` | BudgetMeApp/ViewModel/AccountsViewModel.swift:62-65 | when all requests succeed and the results arrive in account order, the array is exactly the composites in account order |
| `Accounts.AccountsViewModel.constructor` | BudgetMeApp/ViewModel/AccountsViewModel.swift:25-31 | a new view model's data source is `[]` and nothing has been emitted on any output |
| `Accounts.AccountsViewModel.HandleEvent` | BudgetMeApp/ViewModel/AccountsViewModel.swift:39-48 | next replaces the data source, error publishes the error, completed emits `false`, and the event's emission is appended to the ordered log |
| `Accounts.AccountsViewModel.RefreshData` | BudgetMeApp/ViewModel/AccountsViewModel.swift:33-50 | a failed account list publishes its error and sets nothing else; otherwise `true` is emitted when the list arrives, then success replaces the data source and emits `false`, and failure publishes the join's error and keeps the data source; the outputs after `true` are those of running the handler over the join seen as an observable, and the ordered log is the error alone or `true` followed by those emissions |
| `Accounts.RefreshSucceeds` | BudgetMeApp/ViewModel/AccountsViewModel.swift:33-67 | when every request succeeds, the data source ends with one composite per account (a permutation of the account-order composites), `isLoading` shows `true, false`, no error is published, and the ordered log is `true`, the array, `false` |
| `Accounts.RefreshFails` | BudgetMeApp/ViewModel/AccountsViewModel.swift:33-67 | when any sub-request fails, exactly one error is published (a sub-request's error), the previous data source stays, `isLoading` stays at `true`, and the ordered log is `true` then that error |
| `AccountService.NeedsAuth` | BudgetMeApp/Networking/Accounts/STAccountService.swift:25-27 | every request needs authorisation; stated by `EveryRequestIsAuthorisedGet` |
| `AccountService.Method` | BudgetMeApp/Networking/Accounts/STAccountService.swift:57-59 | every request is a GET; stated by `EveryRequestIsAuthorisedGet` |
| `AccountService.Validation` | BudgetMeApp/Networking/Accounts/STAccountService.swift:102-104 | every request accepts success and redirect codes; stated by `EveryRequestIsAuthorisedGet` |
| `AccountService.Path` | BudgetMeApp/Networking/Accounts/STAccountService.swift:36-55 | every path begins with `/accounts`, and it is exactly `/accounts` for the account-list request and for no other |
| `AccountService.PathOfAccountRequest` | BudgetMeApp/Networking/Accounts/STAccountService.swift:38-50 | apart from the date-range downloads, the path is `/accounts/{accountId}` followed by the endpoint name, and monthly PDF and CSV downloads share `/accounts/{accountId}/statement/download` |
| `AccountService.DateRangePathQuirk` | BudgetMeApp/Networking/Accounts/STAccountService.swift:51-53 | the date-range paths start with `/accounts/` and end with `/statement/downloadForDateRange`, but are longer than, and differ from, the path with the account id in the middle |
| `AccountService.DateRangePathExample` | BudgetMeApp/Networking/Accounts/STAccountService.swift:51-53 | account `a` from `s` to `e` is routed through the segment `(accountId: "a", start: "s", end: "e")` instead of `a` |
| `AccountService.IntendedPath` | BudgetMeApp/Networking/Accounts/STAccountService.swift:36-55 | corrected path: `/accounts` for the list, else `/accounts/{accountId}` followed by the endpoint name, the date-range downloads included |
| `AccountService.TaskOf` | BudgetMeApp/Networking/Accounts/STAccountService.swift:65-85 | a request carries download parameters exactly when it is a statement download |
| `AccountService.DownloadParametersOf` | BudgetMeApp/Networking/Accounts/STAccountService.swift:65-85 | monthly downloads carry exactly `yearMonth`, date-range downloads exactly `start` and `end`, each with the request's own value |
| `AccountService.Headers` | BudgetMeApp/Networking/Accounts/STAccountService.swift:87-100 | every request sends exactly `Accept` and `User-agent`, the latter always `Christian Ray Leovido` |
| `AccountService.AcceptNamesFormat` | BudgetMeApp/Networking/Accounts/STAccountService.swift:87-100 | `Accept` is `application/pdf` exactly for the PDF downloads, `text/csv` exactly for the CSV downloads, and `application/json` exactly for the rest |
| `AccountService.EveryRequestIsAuthorisedGet` | BudgetMeApp/Networking/Accounts/STAccountService.swift:24-104 | every request is a GET that needs authorisation and accepts success and redirect status codes |
| `AccountService.IntendedRequestIsDetermined` | BudgetMeApp/Networking/Accounts/STAccountService.swift:36-100 | with the corrected paths, two requests with the same path, headers and task are the same request |
| `AccountService.RequestIsDetermined` | BudgetMeApp/Networking/Accounts/STAccountService.swift:36-100 | with the paths as written, the same holds for every request except the date-range downloads |

## Left out

- Moya and RxMoya request plumbing (`makeTransactionRequest`, `getAllAccounts`, `getBalance`, `getIdentifiers` and the other request wrappers): each request's outcome is a `Result` parameter. Status-code filtering and JSON decoding are part of that outcome.
- `share(replay: 1, scope: .whileConnected)`: replay to late subscribers is library behaviour; each model method stands for one subscription.
- Timing and concurrency of `zip` and `merge`: only the outcome is modelled, plus the arrival order as an input. Disposal of the requests still in flight after a failure is not modelled.
- Aggregation.FetchComposite: when both the balance and the identifiers requests fail, the zip reports whichever error arrives first; the model reports the balance error, and its contract promises only "one of the failed requests' errors".
- `getStatementPeriods`, `getConfirmationOfFunds` and the four statement downloads of `AccountsViewModel`: they are request wrappers with no logic. Their endpoints are modelled in `AccountService`.
- `DefaultDownloadDestination`, `baseURL`, `sampleData`, the URL encoding of download parameters, and the provider each view model holds: file-system and transport details.
- The session's account id, the hard-coded category id, and the `Date()` used as `changesSince` by `refreshData()`: they only shape the request, whose outcome is a parameter.
- Calendar.AddDays: models `Calendar.current` as the proleptic Gregorian calendar in one fixed zone without daylight saving or eras. Foundation's Gregorian calendar switches to Julian rules before 15 October 1582, so there `1500-02-29` parses and `1582-10-01` plus seven days is `1582-10-18`; the model rejects the first and gives `1582-10-08` for the second; a date-time in a daylight-saving gap and years before 1 are not modelled. `Calendar.date(byAdding:)` never returns nil here.
- Calendar.ParseTimestamp: accepts only the fixed-width rendering (exactly 4, 2 or 3 digits per field). A lenient ICU parse may also accept shorter numeric fields.
- Transactions.NextWeekIsSevenDaysLater: holds when the end date's year is below 10000, which covers every start before 9999-12-25. From 9999-12-25 on, the end date has a 5-digit year, which the 4-digit wire pattern does not read back.
- `TransactionType` is not part of this model. Its raw values are taken to be `income` and `expenses`, which capitalise to the section headers `Income` and `Expenses`.
- Sections.Capitalized: handles ASCII letters only; Unicode case mapping is not modelled. Every non-letter ends a word, so a letter after an apostrophe is upper case (`don't` gives `Don'T`), whereas Foundation treats the apostrophe as case-ignorable and keeps it inside the word (`Don't`).
- Feed item fields other than the uid, category, direction, transaction time, counterparty name and reference: they are decoded payload with no behaviour here.
- AccountService.Path: the tuple description escapes only quotes and backslashes in the strings. Swift's other escapes (control characters, non-printable scalars) are not modelled.
- UIKit presentation (alerts, activity indicator) and `setupAccountComposite`, which the view model does not define.

## Findings

| source | as written | input that shows it | evidently intended | confidence | as-written member | corrected member |
|---|---|---|---|---|---|---|
| BudgetMeApp/Networking/Accounts/STAccountService.swift:51-53 | `case .downloadStatementPDFForDateRange(let accountId), .downloadStatementCSVForDateRange(let accountId)` binds the whole associated tuple `(accountId, start, end)`, so the path's middle segment is the tuple's description | `downloadStatementPDFForDateRange(accountId: "a", start: "s", end: "e")` is routed to `/accounts/(accountId: "a", start: "s", end: "e")/statement/downloadForDateRange` | `/accounts/a/statement/downloadForDateRange`, as the other account endpoints do | medium (Swift's tuple-binding rule; not executed) | `AccountService.DateRangePathQuirk`, `AccountService.DateRangePathExample` | `AccountService.IntendedPath` (with `AccountService.IntendedRequestIsDetermined`) |
