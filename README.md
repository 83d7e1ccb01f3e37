# Maintenance decree calculator — a verified model

This project models the core of a tool for computing maintenance decrees. It covers four parts.

- **The calculation engine** (`calculator.dfy`, module `Calculator`).
  - `CalculateDecree` takes a validated case record and walks each recipient's claim period. The walk runs in segments that end on the day before an anniversary.
  - The monthly rate rises once a year. A progressive increase compounds; a fixed increase adds a share of the base amount.
  - When the decree was partly satisfied, the rate is first fast-forwarded through the anniversaries that passed before the satisfaction date.
  - Each segment is charged its rate times its inclusive day count, counted in average months of 30.4375 days.
  - The engine then filters and sums the other amounts and the payments, and builds the summary block.
  - The two loops (`FastForwardRate`, `WalkSegments`) and the recipient loop are methods. Each is proved equal to a pure specification: `Escalated`, `Schedule`/`Breakdown`/`FinalRate` and `Decree`. The lemmas state what those specifications promise.
- **The case-record schema** (`validators.dfy`, module `Validators`).
  - This is the `reportSchema` of the form, with the zod rules it relies on. A missing or mistyped field aborts the record. A too-short text or a too-small amount only marks it dirty.
  - Issues are collected in schema order, and the three date refinements run unless some field aborted.
  - `Parse` is proved to accept exactly the records `Accepts` describes, and to return `RecordOf` them.
  - Every accepted record gives every recipient a non-empty breakdown.
- **The saved reports** (`reports.dfy`, module `Reports`). The class `ReportList` holds the report list as a `seq` field that add, update, delete and import reassign. A look-up returns the first report with the identifier.
- **The PIN session** (`auth.dfy`, module `Auth`). The class `AuthSession` holds the user profile, the signed-in flag and the loading flag. Each of its methods is proved to follow a pure transition function.

`types.dfy` holds the records the parts share, and `wrappers.dfy` the `Option` and `Result` types.

Dates are day numbers. The calendar step "one year later" of date-fns is a function parameter `addYear`; the model assumes only that it moves strictly forward (`Advances`). Adding days is addition, and the difference in days is subtraction. Money is `real`.

The model follows the code in these places, where a reader might expect otherwise:

- **Segment anchoring.** Each segment ends the day before the anniversary of that segment's own start. After a partial satisfaction the first segment therefore starts at the effective start, and the anniversaries follow from there (calculator.ts:68).
- **Segment durations.** A segment's duration is its inclusive day count over the uniform 30.4375-day month, whatever the calendar months it spans (calculator.ts:77).
- **One-day segment.** When the effective start equals the end date, the walk makes one one-day segment. The breakdown is empty only when the end date is before the effective start (calculator.ts:63).
- **Fixed escalation.** A fixed increase adds `base * p / 100` each year to the rate, so after `k` increases the rate is `base * (1 + k * p / 100)` (calculator.ts:98).
- **Outstanding amount.** The outstanding amount is the maintenance total plus the other amounts minus the payments, with no floor at zero, so payments above the total make it negative (calculator.ts:124).

## Model

| member | source | states |
|---|---|---|
| Calculator.NatToStringDigits | src/lib/calculator.ts:11 | a whole number prints as decimal digits without a leading zero that read back as the number |
| Calculator.SplitSixteenthsDivides | src/lib/calculator.ts:8-10 | taking months of 487/16 days off one at a time is integer division, with the rest rounded half up to days |
| Calculator.SplitDaysBounds | src/lib/calculator.ts:8-10 | the months are the floor of the day count over 30.4375, the days are the leftover rounded to nearest (Math.round), and at most 30 |
| Calculator.PeriodDuration | src/lib/calculator.ts:6-12 | a reversed span has zero months and days; otherwise months and days bound the inclusive day count as floor and rounding do |
| Calculator.PeriodDisplay | src/lib/calculator.ts:6-12 | getPeriodDisplay renders `PeriodDuration`; the fixed text for a reversed span is the rendering of zero months and zero days |
| Calculator.RenderDurationReadsBack | src/lib/calculator.ts:11 | the display is the months' digits, the month word, the days' digits and the day word, and both numbers read back |
| Calculator.ProgressiveEscalation | src/lib/calculator.ts:93-100 | `k` progressive increases multiply the rate by `(1 + p/100)^k` |
| Calculator.FixedEscalation | src/lib/calculator.ts:93-100 | `k` fixed increases add `k * base * p/100` |
| Calculator.EscalatedAdd | src/lib/calculator.ts:40-100 | escalating `a` times and then `b` times is escalating `a + b` times, so the fast-forward and the walk compose |
| Calculator.AnniversaryShift | src/lib/calculator.ts:46 | the `k+1`-th anniversary of a date is the `k`-th anniversary of its first anniversary |
| Calculator.WholeAnniversariesExact | src/lib/calculator.ts:45-57 | the number of whole anniversaries counted is exact: the first `n` fall on or before the date and the next one after it |
| Calculator.FastForwardRate | src/lib/calculator.ts:40-58 | the fast-forward loop returns the base escalated once per whole anniversary of the start up to the satisfaction date |
| Calculator.ScheduleStep | src/lib/calculator.ts:63-101 | proof step of `WalkSegments`: one turn of the walk: a segment to the day before the next anniversary or to the end, then the escalated rest |
| Calculator.BreakdownSnoc | src/lib/calculator.ts:80-88 | proof step of `WalkSegments`: pushing a segment's entry numbers it one past the entries already pushed |
| Calculator.WalkStep | src/lib/calculator.ts:61-101 | proof step of `WalkSegments`: each turn of the segment loop keeps the walked segments a prefix of the whole schedule and keeps the final rate |
| Calculator.SumPeriodsSnoc | src/lib/calculator.ts:90 | proof step of `WalkSegments`: adding an entry's subtotal adds it to the recipient's total |
| Calculator.WalkSegments | src/lib/calculator.ts:61-101 | the segment loop returns the schedule's breakdown, the sum of its subtotals and the final rate |
| Calculator.ScheduleEmpty | src/lib/calculator.ts:63 | the walk yields no segment exactly when it starts after the end date |
| Calculator.ScheduleEnds | src/lib/calculator.ts:61-74 | a non-empty walk starts at its start and its last segment ends exactly at the end date |
| Calculator.ScheduleBounds | src/lib/calculator.ts:68-74 | every segment lies in the period and ends the day before its own start's anniversary, or at the end date |
| Calculator.ScheduleContiguous | src/lib/calculator.ts:91 | each segment starts the day after the previous one ends |
| Calculator.ScheduleRates | src/lib/calculator.ts:93-100 | segment `k` is charged the starting rate escalated `k` times |
| Calculator.FinalRateIsLastRate | src/lib/calculator.ts:94 | the rate left in force is the last segment's rate (no increase after the last segment), or the starting rate when there is none |
| Calculator.BreakdownEntries | src/lib/calculator.ts:76-88 | entry `k` is labelled `k+1`, covers segment `k`, records the base and charges its rate times its days over 30.4375 |
| Calculator.EffectiveStart | src/lib/calculator.ts:27-29 | the effective start is the day after the satisfaction date exactly when partly satisfied with a date after the start; otherwise the start |
| Calculator.ValidOtherAmounts | src/lib/calculator.ts:117 | the other-amounts filter keeps at most the input, and keeps the input unchanged when it drops nothing |
| Calculator.ValidPayments | src/lib/calculator.ts:120 | the payments filter keeps at most the input, and keeps the input unchanged when it drops nothing |
| Calculator.ValidOtherAmountsKeeps | src/lib/calculator.ts:117 | the kept other amounts are exactly the counted ones, none invented, and none are kept exactly when none counts |
| Calculator.ValidPaymentsKeeps | src/lib/calculator.ts:120 | the kept payments are exactly the counted ones, none invented, and none are kept exactly when none counts |
| Calculator.ValidOtherAmountsConcat | src/lib/calculator.ts:117 | the filter keeps order and multiplicity: filtering a concatenation concatenates the filtered parts |
| Calculator.ValidPaymentsConcat | src/lib/calculator.ts:120 | the filter keeps order and multiplicity: filtering a concatenation concatenates the filtered parts |
| Calculator.SumOtherAmountsAppend | src/lib/calculator.ts:118 | the reduce over other amounts splits over a concatenation |
| Calculator.SumPaymentsAppend | src/lib/calculator.ts:121 | the reduce over payments splits over a concatenation |
| Calculator.ValidOtherAmountsTotal | src/lib/calculator.ts:117-118 | the total of the kept other amounts is the sum of the amounts of the input's counted entries, each as often as it occurs |
| Calculator.ValidPaymentsTotal | src/lib/calculator.ts:120-121 | the total of the kept payments is the sum of the amounts of the input's counted entries, each as often as it occurs |
| Calculator.SumValidOtherAmountsNonNegative | src/lib/calculator.ts:117-118 | the total of kept other amounts is never negative, and positive when any is kept |
| Calculator.SumValidPaymentsNonNegative | src/lib/calculator.ts:120-121 | the total of kept payments is never negative, and positive when any is kept |
| Calculator.SummaryOf | src/lib/calculator.ts:123-124 | total before payments is maintenance plus other amounts; outstanding is that less the payments |
| Calculator.GrandTotalSnoc | src/lib/calculator.ts:114 | proof step of `CalculateDecree`: adding a recipient's result adds its total to the maintenance total |
| Calculator.CalculateRecipient | src/lib/calculator.ts:34-112 | the body of the recipient loop computes `RecipientResult`: fast-forward, then the walk from the effective start |
| Calculator.CalculateDecree | src/lib/calculator.ts:14-160 | calculateDecree returns `Decree`: one result per recipient, the filtered totals and the summary |
| Calculator.AssembleSummary | src/lib/calculator.ts:117-157 | the report keeps exactly the counted other amounts and payments of the input in order; its totals are the counted totals of the input (never negative); outstanding is maintenance plus others less payments, unclamped; with nothing counted both totals are 0, and with no entries outstanding equals maintenance |
| Calculator.DecreeTotals | src/lib/calculator.ts:103-114 | one result per recipient in input order; each total is the sum of its subtotals; the maintenance total is their sum |
| Calculator.RecipientResultsPointwise | src/lib/calculator.ts:34-115 | result `i` is the result for recipient `i` |
| Calculator.RecipientSpan | src/lib/calculator.ts:61-112 | a breakdown is empty exactly when the end is before the effective start (total 0, starting rate kept); otherwise it spans effective start to end and the current amount is the last rate |
| Calculator.RecipientContiguous | src/lib/calculator.ts:91 | the entries of a recipient's breakdown are contiguous: each starts the day after the previous one ends |
| Calculator.RecipientSegments | src/lib/calculator.ts:63-74 | each entry of a recipient's breakdown lies in the period from the effective start and ends the day before its own start's anniversary or at the end date |
| Calculator.RecipientEntries | src/lib/calculator.ts:80-88 | entry `k` is labelled `k+1`, records the base amount and charges its rate for its days over 30.4375 |
| Calculator.RecipientRates | src/lib/calculator.ts:93-100 | entry `k` is charged the starting rate escalated `k` times |
| Calculator.EntryRateClosedForm | src/lib/calculator.ts:40-100 | counting `m` anniversaries before the walk, entry `k`'s rate is `base(1+p/100)^(m+k)` (progressive) or `base + (m+k)·base·p/100` (fixed) |
| Validators.Both | src/lib/validators.ts:5-34 | two consecutive fields: clean iff both are, a value iff neither aborted, and their issues in order |
| Validators.RequiredText | src/lib/validators.ts:3 | requiredString: clean iff given text of length at least 1; empty text is kept but reported; missing or mistyped aborts |
| Validators.PlainText | src/lib/validators.ts:15 | z.string(): clean iff given; missing or mistyped aborts |
| Validators.Optional | src/lib/validators.ts:11 | an optional field: absent parses as absent; a mistyped value aborts, and only that fails |
| Validators.Required | src/lib/validators.ts:12-13 | a required date or flag: clean iff given; a missing one reports exactly the field's own required message (the dates pass their "choose a date" message, the flag zod's `ZodRequired`), a mistyped one exactly zod's invalid-type message |
| Validators.Amount | src/lib/validators.ts:18 | a recipient's amount: clean iff a number of at least 1; a smaller one is kept but reported |
| Validators.YearlyIncrease | src/lib/validators.ts:20 | the yearly increase defaults to 0 when absent; a mistyped value aborts, and only that fails |
| Validators.Choice | src/lib/validators.ts:10 | z.enum: clean iff one of the listed names, aborts otherwise, and the value is the named choice |
| Validators.OptionalChoice | src/lib/validators.ts:31 | an optional z.enum: clean iff absent or a listed name, and aborts otherwise |
| Validators.ParseEach | src/lib/validators.ts:14-17 | an array parses element by element: clean iff every element is, aborts iff some element aborts, values pointwise |
| Validators.Recipients | src/lib/validators.ts:14-19 | clean iff at least one recipient and every recipient acceptable; the parsed list is `RecipientsOf` the input |
| Validators.OtherAmounts | src/lib/validators.ts:22-26 | clean iff absent or every entry acceptable, and aborts otherwise; the value is the entries, pointwise |
| Validators.Payments | src/lib/validators.ts:27-32 | clean iff absent or every entry acceptable, and aborts otherwise; the value is the entries, pointwise |
| Validators.ParseRecipient | src/lib/validators.ts:14-19 | a recipient is clean iff it has an id, a non-empty name and relationship and an amount of at least 1 |
| Validators.ParseOtherAmount | src/lib/validators.ts:22-26 | an other amount is clean iff it has an id and a description and its optional amount is a number |
| Validators.ParsePayment | src/lib/validators.ts:27-32 | a payment is clean iff it has an id and its optional date, amount and receiver are well typed |
| Validators.RecipientsOf | src/lib/validators.ts:14-19 | the parsed recipients correspond one to one with the input entries |
| Validators.OtherAmountsOf | src/lib/validators.ts:22-26 | the parsed other amounts correspond one to one with the input entries |
| Validators.PaymentsOf | src/lib/validators.ts:27-32 | the parsed payments correspond one to one with the input entries |
| Validators.ParseCase | src/lib/validators.ts:6-11 | the case fields are clean iff the four texts are non-empty, the generator is known and the counsel name is text if given |
| Validators.ParseTerms | src/lib/validators.ts:12-21 | the terms are clean iff both dates, at least one acceptable recipient, a numeric increase if given and a known increase type |
| Validators.ParseSettlement | src/lib/validators.ts:22-34 | the settlement fields are clean iff the lists are absent or acceptable, the flag is given and the date is a date if given |
| Validators.RefinementIssues | src/lib/validators.ts:35-56 | the three refinements report nothing exactly when end is after start and a partly satisfied decree has a date strictly between |
| Validators.Fields | src/lib/validators.ts:5-34 | all fields together are clean exactly when each group is |
| Validators.Parse | src/lib/validators.ts:5-56 | a rejection always carries at least one issue |
| Validators.CaseAborts | src/lib/validators.ts:6-11 | the case fields abort exactly when a text is missing or mistyped, the generator is not a listed name, or the counsel name is mistyped |
| Validators.TermsAborts | src/lib/validators.ts:12-21 | the terms abort exactly when a date, the recipients or a recipient field is missing or mistyped, the increase is mistyped, or the increase type is not a listed name |
| Validators.SettlementAborts | src/lib/validators.ts:22-34 | the settlement fields abort exactly when a list entry is unacceptable, the flag is missing or mistyped, or the date is mistyped |
| Validators.FieldsAbort | src/lib/validators.ts:5-34 | the record aborts, so the refinements are skipped, exactly when some field is missing or mistyped (`FieldsTyped`); acceptable fields never abort |
| Validators.ParseCleanFields | src/lib/validators.ts:35-56 | with clean fields, the result is the record when the refinements hold, and otherwise exactly the refinement issues |
| Validators.ParseDirtyFields | src/lib/validators.ts:5-34 | a record with any failing field is rejected |
| Validators.RefinementsOnRaw | src/lib/validators.ts:35-56 | the refinements on the parsed record are the date conditions on the raw input |
| Validators.ParseDecides | src/lib/validators.ts:5-56 | the schema accepts exactly the records `Accepts` describes, and returns `RecordOf` them |
| Validators.AcceptedRecord | src/lib/validators.ts:5-56 | an accepted record has non-empty case texts, start before end, a satisfaction date strictly between when partly satisfied, and at least one recipient, each with a name, a relationship and an amount of at least 1 |
| Validators.RefinedRecordStartsInRange | src/lib/validators.ts:35-56 | a record meeting the refinements never has its effective start after its end date |
| Validators.RefinedRecordIsWalked | src/lib/validators.ts:35-56 | every recipient of such a record gets a breakdown from the effective start to the end date |
| Validators.AcceptedRecordIsWalked | src/lib/validators.ts:5-56 | every accepted record has at least one recipient, and each recipient's breakdown runs from the effective start to the end date |
| Validators.ReversedDatesReported | src/lib/validators.ts:35-38 | reversed dates are reported at endDate whenever every field has its type (`FieldsTyped`), even beside other failed length or minimum checks |
| Reports.FindFirst | src/hooks/use-reports.ts:65-67 | find gives nothing exactly when no report has the id, and otherwise the first report that has it |
| Reports.Replaced | src/hooks/use-reports.ts:50-53 | the map keeps the length and replaces exactly the reports with the id |
| Reports.WithoutKeeps | src/hooks/use-reports.ts:59-60 | the filter keeps exactly the reports with another id, and the length drops iff the id was there |
| Reports.WithoutConcat | src/hooks/use-reports.ts:59-60 | the filter keeps the order of what it keeps |
| Reports.ReportList.Load | src/hooks/use-reports.ts:15-27 | a parsed stored list replaces the reports; nothing stored or an unreadable text keeps them; loading ends |
| Reports.ReportList.AddReport | src/hooks/use-reports.ts:38-48 | addReport puts the new report, with the given id and time, ahead of the others and returns it |
| Reports.ReportList.UpdateReport | src/hooks/use-reports.ts:50-57 | updateReport replaces the reports with the updated id and returns the update |
| Reports.ReportList.DeleteReport | src/hooks/use-reports.ts:59-63 | deleteReport removes every report with the id |
| Reports.ReportList.GetReportById | src/hooks/use-reports.ts:65-67 | getReportById gives nothing iff no report has the id, and otherwise the first one that has it |
| Reports.ReportList.ImportReport | src/hooks/use-reports.ts:69-87 | importReport answers true iff id, partyA and partyB are present; then it replaces the report with the id or puts the new one first; otherwise nothing changes |
| Reports.FindAfterAdd | src/hooks/use-reports.ts:38-48 | after adding, the new report is found by its id and other look-ups are unchanged |
| Reports.ReplacedAbsent | src/hooks/use-reports.ts:50-53 | updating an id that no report has leaves the list unchanged |
| Reports.FindAfterUpdate | src/hooks/use-reports.ts:50-57 | after an update the report is found as updated; updating an absent id changes nothing; other look-ups are unchanged |
| Reports.FindAfterDelete | src/hooks/use-reports.ts:59-63 | after a delete the id is not found and other look-ups are unchanged |
| Reports.DeleteIdempotent | src/hooks/use-reports.ts:59-63 | deleting twice is deleting once; deleting an absent id changes nothing |
| Reports.ImportOutcome | src/hooks/use-reports.ts:72-83 | an import keeps the length when the id is there and adds one report first when not; the imported report is found afterwards |
| Reports.ImportIdempotent | src/hooks/use-reports.ts:72-83 | importing the same report twice is importing it once |
| Reports.DeleteAfterAdd | src/hooks/use-reports.ts:38-63 | deleting a just-added report gives what deleting from the old list gives |
| Auth.Loaded | src/hooks/use-auth.ts:23-38 | loading ends; a stored profile becomes the user; an open session flag signs in unless the profile read failed |
| Auth.SetUp | src/hooks/use-auth.ts:40-52 | setup answers true iff both writes succeed; a saved profile becomes the user; a saved session flag signs in |
| Auth.Updated | src/hooks/use-auth.ts:54-64 | an update answers whether the profile was saved, replaces the user only then, and never touches the session |
| Auth.PinChecked | src/hooks/use-auth.ts:66-73 | a PIN check answers true iff there is a user with that PIN, signs in only then, and changes nothing otherwise |
| Auth.LoggedOut | src/hooks/use-auth.ts:75-78 | logout signs out and keeps the user |
| Auth.AuthSession.Load | src/hooks/use-auth.ts:23-38 | the load effect moves the state as `Loaded` says |
| Auth.AuthSession.SetupUser | src/hooks/use-auth.ts:40-52 | setupUser moves the state and answers as `SetUp` says |
| Auth.AuthSession.UpdateUser | src/hooks/use-auth.ts:54-64 | updateUser moves the state and answers as `Updated` says |
| Auth.AuthSession.CheckPin | src/hooks/use-auth.ts:66-73 | checkPin moves the state and answers as `PinChecked` says |
| Auth.AuthSession.Logout | src/hooks/use-auth.ts:75-78 | logout moves the state as `LoggedOut` says |
| Auth.TransitionsKeepUser | src/hooks/use-auth.ts:40-78 | setup, update, PIN checks and logout never leave a session signed in without a user |
| Auth.LoadSignsInWithoutUser | src/hooks/use-auth.ts:23-38 | loading can sign in with no stored profile when the session flag is open |
| Auth.LogoutThenPin | src/hooks/use-auth.ts:66-78 | after logout only the current user's PIN signs in again |
| Auth.FailedPinIsStable | src/hooks/use-auth.ts:66-73 | a failed PIN check changes nothing and fails again |
| Auth.LoadFromStart | src/hooks/use-auth.ts:19-38 | from the initial state, loading signs in exactly when the profile is readable and the session flag is open |
| Auth.RunKeepsUser | src/hooks/use-auth.ts:40-78 | any sequence of calls keeps a known user and keeps signed-in sessions backed by a user |
| Auth.FailedPinsAfterLogout | src/hooks/use-auth.ts:66-78 | after logout, a run of wrong PINs leaves the session signed out with the same user |

## Left out

- Calendar arithmetic of date-fns: `addYears` is an abstract forward step. Clamping of 29 February, time zones and times of day are not modelled; days are whole numbers.
- Floating point: amounts are exact reals. Rounding in the subtotal division and the rate multiplications, and the formatting of numbers elsewhere in the page, are not modelled. The duration display is exact in binary floating point too, since 30.4375 is 487/16.
- The `createdAt` time and a new report's `uuid` identifier are parameters (`now`, `id`, `createdAt`).
- Storage.
  - Writes to `localStorage` and `sessionStorage` are not modelled.
  - What a read returns is a parameter of the load methods (`Stored`): nothing stored, an unreadable text (the JSON parse throws), or a parsed value.
  - A stored JSON `null` is not distinguished from a parsed value.
  - A parsed stored report list is trusted to be a list of reports, as the code does.
- Auth.AuthSession.CheckPin and Auth.AuthSession.Logout: the session-flag write is assumed to succeed. In the code a throwing write there escapes the call.
- Auth.AuthSession.SetupUser and Auth.AuthSession.UpdateUser: the `userProfileSchema` check always succeeds, since the profile's four fields are text by type. Whether each storage write succeeded is a parameter.
- Validators: zod's default messages are the constructors `ZodRequired`, `ZodInvalidType` and `ZodInvalidEnum`, without their issue codes or their expected and received types; an issue carries a `Message` constructor, not its text. An invalid date or NaN counts as mistyped. Unknown keys are dropped, as zod does, and are not modelled.
- Validators: an array element is given field by field (`RawRecipient`, `RawOtherAmount`, `RawPayment`), so an element that is not an object at all, such as a `null` inside `recipients`, cannot be written down. zod reports one invalid-type issue at that element's index; the nearest model input, every field mistyped, reports one issue per field. Acceptance is the same in both.
- Reports.ReportList.ImportReport: the imported payload is a `Report`, and an absent `id`, `partyA` or `partyB` arrives as the empty text. The model does not cover a payload of another shape, nor non-text truthy values.
- React state capture: in the code each callback of `useReports` and `useAuth` reads the state captured at the last render, so two calls in one render do not see each other's update. The methods of `ReportList` and `AuthSession`, and `Auth.Run`, model each call as seeing the previous call's result, which is what happens when the calls come from separate renders.
- The report page, the forms, the CNIC input mask and the PDF export are user interface and are not part of this model.
