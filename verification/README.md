# ConstructEye core logic in Dafny

This project models the computational core of ConstructEye, a construction
project management web application: the table rows and section rules of its
five PDF reports (teams, budget approval, schedule, general, financial), the
status summary and search filter of the team directory, and the small
validators and parsers of the project and service forms. Every operation is a
pure function over immutable datatypes. Money is `real`, so sums and the 1.2 and
1.1 factors are exact. Dates are local day numbers plus a `MM/yyyy` bucket.
Rows built with `reduce` into `{}` followed by `Object.entries` are
association lists in first-seen key order.

Modules, one per file:

- `Wrappers`: `Option` and `Result`.
- `Grouping`: the generic "reduce into an object, then `Object.entries`" fold
  (`Tally`), an independent reference definition (distinct keys in first-seen
  order, each with its members), and the proofs that the two agree and that
  the groups partition the keyed records.
- `Text`: the digit filter `/\D/g`, `Number`, `parseFloat`, `parseInt` and
  `String(n / 100)` on the values the forms produce, `split('T')[0]`,
  `toLowerCase` and `includes`.
- `Domain`: projects, services, teams, materials, updates and payments.
- `TeamsReport`, `ApprovalReport`, `ScheduleReport`, `GeneralReport`,
  `FinancialReport`: one module per report.
- `TeamDirectory`: the team directory page.
- `WorkspaceForms`, `ServiceForms`: the create and edit modals.

Wall-clock reads (`new Date()`, `startOfToday()`) are parameters: `today` is
a day number, `nowIso` and `now` ISO texts. Number printing (`String(orcamento)`) is
also a parameter (`budgetText`).

## Model

| member | source | states |
|---|---|---|
| Grouping.TallyShape | src/lib/reports/index.ts:39-59 | The reduce-then-`Object.entries` fold yields the distinct keys in first-seen order, each once, each with at least one record, and each value is the fold of exactly that key's records |
| Grouping.GroupSumsPartition | src/lib/reports/index.ts:539-545 | Summing a weight group by group over the distinct keys gives the sum over all keyed records: each keyed record is in exactly one group |
| TeamsReport.StatsOfServices | src/lib/reports/index.ts:39-57 | A team's running totals are its service count, its count of CONCLUIDO services, and the sums of its budgets and of its progress |
| TeamsReport.TeamRows | src/lib/reports/index.ts:39-65 | One row per team in first-seen order, services without a team skipped; each row has at least one service, a completed count no larger than that, the team's budget sum and its mean progress |
| TeamsReport.Report | src/lib/reports/index.ts:39-65 | Fails with a TypeError exactly when the project has no service list (`Object.entries(undefined)`); an empty list gives no rows, and there are never more rows than services |
| TeamsReport.TeamRowsPartitionServices | src/lib/reports/index.ts:39-57 | The row counts add up to the number of services that have a team, and the row budgets to those services' total budget |
| TeamsReport.AverageProgressInRange | src/lib/reports/index.ts:59-63 | When every service's progress lies in [0, 100], so does every team's mean progress |
| ApprovalReport.ExecutiveSummary | src/lib/reports/index.ts:125-137 | Spend is the sum of service budgets (0 without services); overrun is spend minus budget; the overrun percentage is `OverrunPercent`, positive exactly when spend exceeds a positive budget; the request is 1.2·spend; the proposed increase is (request − budget)/budget·100 (unguarded division, so the summary needs a non-zero budget) |
| ApprovalReport.OverrunPercent | src/lib/reports/index.ts:126-129 | For any budget: 0 when the budget is 0 or negative; otherwise percent·budget = (spend − budget)·100, positive exactly when spend exceeds the budget |
| ApprovalReport.ProposedIncreasePercent | src/lib/reports/index.ts:136-137 | percent·budget = (1.2·spend − budget)·100, a division by the budget without a guard |
| ApprovalReport.CostLineOf | src/lib/reports/index.ts:170-175 | A service's cost line keeps its name, or "Sem nome" when the name is empty, and carries its budget, its progress and its status's enum name |
| ApprovalReport.CostLines | src/lib/reports/index.ts:170-180 | One line per service in input order, or exactly one "no data" line when the project has no services |
| ApprovalReport.HeaderOf | src/lib/reports/index.ts:108-116 | The title is the project name or "Sem nome"; the code is the id's digits (reading back as the id) or "N/A" exactly when the id is 0; location and manager are kept, or "N/A" when empty |
| ApprovalReport.Report | src/lib/reports/index.ts:84-235 | A missing project is a failure with the generic message; otherwise the document's requested budget is 1.2·spend and the signature line is non-empty |
| ApprovalReport.MissingServicesSpendNothing | src/lib/reports/index.ts:125-180 | A project without a service list has spend 0, a request of 0 and only the "no data" cost line |
| ScheduleReport.DeadlineLabel | src/lib/reports/index.ts:258-263 | "ATRASADO" exactly when the remaining days are negative, "NO PRAZO" exactly otherwise |
| ScheduleReport.ServiceLines | src/lib/reports/index.ts:276-282 | One line per service in input order with its name, dates and progress; no service list gives no lines |
| ScheduleReport.Report | src/lib/reports/index.ts:258-282 | The deadline is "ATRASADO" exactly when the end day is before today; remaining days plus today is the end day; one service line per service |
| GeneralReport.Finance | src/lib/reports/index.ts:351-356 | Spend is the sum of service budgets; variation is spend minus budget; percent used times budget is spend·100 (unguarded division) |
| GeneralReport.ServiceLineOf | src/lib/reports/index.ts:370-376 | The team column shows the team's name, or "-" when there is no team or its name is empty |
| GeneralReport.ServiceLines | src/lib/reports/index.ts:370-376 | One line per service in input order, with no placeholder line for an empty table |
| GeneralReport.ScheduleOf | src/lib/reports/index.ts:390-395 | Elapsed days are today − start, remaining days are end − today, status "ATRASADO" exactly when the end is before today |
| GeneralReport.MaterialsSection | src/lib/reports/index.ts:406-425 | The materials section exists exactly when the list exists and is non-empty, and then has one line per material in order |
| GeneralReport.UpdatesSection | src/lib/reports/index.ts:427-446 | The updates section exists exactly when the list exists and is non-empty, and then holds the last min(5, n) updates in stored order |
| GeneralReport.Report | src/lib/reports/index.ts:302-446 | The document has the materials section exactly when there are materials, the updates section exactly when there are updates, and one service line per service |
| FinancialReport.FinancialStatus | src/lib/reports/index.ts:521 | "EXCEDIDO" exactly when spend exceeds the budget, "DENTRO DO PREVISTO" exactly otherwise |
| FinancialReport.ExecutiveSummary | src/lib/reports/index.ts:515-522 | Spend, variation, percent used (unguarded division by the budget), the status above, and the forecast 1.1·spend |
| FinancialReport.CategoryKey | src/lib/reports/index.ts:540 | A missing or empty category is filed under "Outros" |
| FinancialReport.CategoryTotals | src/lib/reports/index.ts:539-543 | The per-category totals: distinct categories in first-seen order, each the budget sum of its services |
| FinancialReport.CategoryLines | src/lib/reports/index.ts:539-549 | One line per category in first-seen order with its total and its share of the spend, share·spend = total·100 (unguarded division by the spend) |
| FinancialReport.CategoriesPartitionSpend | src/lib/reports/index.ts:515-543 | The category totals add up to the spend, the sum of all service budgets |
| FinancialReport.CategorySharesSumTo100 | src/lib/reports/index.ts:545-549 | With at least one service, the category shares add up to exactly 100 |
| FinancialReport.CashFlowLines | src/lib/reports/index.ts:564-574 | One line per month in first-seen order, with the month's payment total and its difference from a twelfth of the budget; no payment list gives no lines |
| FinancialReport.CashFlowPartitionPayments | src/lib/reports/index.ts:564-574 | The monthly totals add up to the total of all payments |
| FinancialReport.FoldCostOfServices | src/lib/reports/index.ts:588-599 | A team's running cost record holds its budget sum, its service count, and the mean recomputed after each service equals sum/count |
| FinancialReport.TeamCostLines | src/lib/reports/index.ts:588-606 | One line per team in first-seen order, services without a team skipped; each line counts at least one service, its total is the team's budget sum and its mean is total/count |
| FinancialReport.TeamCostsAgreeWithTeamRows | src/lib/reports/index.ts:588-606 | The team cost table lists the same teams in the same order as the teams report, with the same service counts and budget totals |
| FinancialReport.IndicatorsOf | src/lib/reports/index.ts:620-625 | Cost per day · elapsed days = spend; projection · progress = spend·100; projected variation = projection − budget; CPI · spend · 100 = budget · progress (all four divisions unguarded) |
| FinancialReport.RecommendationsSection | src/lib/reports/index.ts:635-652 | The five recommendations are emitted exactly when spend exceeds the budget |
| FinancialReport.Report | src/lib/reports/index.ts:487-652 | The recommendations section is present exactly when the status reads "EXCEDIDO" |
| TeamDirectory.ServiceCount | src/app/dashboard/equipes/page.tsx:201 | The service count is the list's length, 0 when the team has no list |
| TeamDirectory.StatusSummary | src/app/dashboard/equipes/page.tsx:46-51 | One entry per status that occurs, distinct, in first-seen order, holding the number of services with that status (at least 1) |
| TeamDirectory.SummaryReadsCounts | src/app/dashboard/equipes/page.tsx:46-51 | Reading a status off the summary gives its service count when positive, and nothing when no service has it |
| TeamDirectory.SummaryCountsAllServices | src/app/dashboard/equipes/page.tsx:46-51 | The counts over all entries add up to the number of services |
| TeamDirectory.BadgesOf | src/app/dashboard/equipes/page.tsx:204-223 | Every badge is for a status other than paused, and shows that status's count from the summary, which is positive |
| TeamDirectory.BadgeShownIff | src/app/dashboard/equipes/page.tsx:204-223 | A status other than paused gets a badge exactly when its summary count is positive |
| TeamDirectory.Badges | src/app/dashboard/equipes/page.tsx:189-223 | No badge is ever shown for paused services |
| TeamDirectory.BadgesShowCounts | src/app/dashboard/equipes/page.tsx:204-223 | For every other status, a badge is shown exactly when some service has that status, and it shows how many do |
| TeamDirectory.TeamWithoutServices | src/app/dashboard/equipes/page.tsx:189-201 | A team without a service list shows zero services, an empty summary and no badges |
| TeamDirectory.FilterKeepsMatches | src/app/dashboard/equipes/page.tsx:96-99 | A team is kept exactly when the lower-cased query occurs in its lower-cased name or representative |
| TeamDirectory.FilterPreservesOrder | src/app/dashboard/equipes/page.tsx:96-99 | The kept teams are a subsequence of the input, in input order |
| TeamDirectory.EmptyQueryKeepsAll | src/app/dashboard/equipes/page.tsx:96-99 | An empty query keeps every team |
| Text.ShowCentsRoundTrip | src/components/modals/create-workspace-modal.tsx:235-237 | The text stored for a cents amount reads back, by `parseFloat` and by `Number`, as exactly that amount divided by 100 |
| Text.DigitsOnly | src/components/modals/create-workspace-modal.tsx:235 | The filtered text holds digits only and is no longer than the input; one character is kept exactly when it is a digit |
| Text.DigitsOnlyAppend | src/components/modals/create-workspace-modal.tsx:235 | Filtering a concatenation filters each part and concatenates: with the one-character case this fixes the filter on every input |
| Text.DigitsOnlyKeepsDigits | src/components/modals/create-workspace-modal.tsx:235 | A text of digits passes the filter unchanged |
| Text.BeforeFirst | src/components/modals/edit-workspace-modal.tsx:34-35 | The result is a prefix without the separator, followed in the input by the separator or by nothing |
| Text.ParseInt | src/components/modals/edit-service-modal.tsx:96 | `parseInt` gives NaN exactly when the text is empty or does not start with a digit, and otherwise the value of its leading digits |
| Text.ParseIntReadsNatToString | src/components/modals/edit-service-modal.tsx:42-96 | `parseInt` of a number's decimal text, followed by anything that does not start with a digit, gives the number back |
| WorkspaceForms.WorkspaceBudgetText | src/components/modals/create-workspace-modal.tsx:234-238 | The project budget input (create and edit modals alike) stores the empty text exactly when the input has no digit |
| WorkspaceForms.WorkspaceBudgetReadsBack | src/components/modals/create-workspace-modal.tsx:234-238 | The stored text reads back as the typed digits divided by 100, and as 0 when there were none |
| WorkspaceForms.InitialCreateForm | src/components/modals/create-workspace-modal.tsx:55-65 | The initial and reset form has empty text fields, priority "media" and both dates today |
| WorkspaceForms.SchemaErrors | src/components/modals/create-workspace-modal.tsx:32-42 | The schema reports a field exactly when it fails its rule: empty text, or an Invalid Date |
| WorkspaceForms.ErrorMessages | src/components/modals/create-workspace-modal.tsx:69-81 | One toast per reported field, with that field's message |
| WorkspaceForms.ValidateForm | src/components/modals/create-workspace-modal.tsx:69-81 | The form validates exactly when all seven text fields are non-empty and both dates are valid |
| WorkspaceForms.ResetFormIsRejected | src/components/modals/create-workspace-modal.tsx:113-124 | The reset form is rejected, for exactly its six empty text fields |
| WorkspaceForms.Submit | src/components/modals/create-workspace-modal.tsx:83-101 | A request is built exactly when the form validates, with the budget converted by `Number` and the dates as chosen |
| WorkspaceForms.TypedBudgetIsSent | src/components/modals/create-workspace-modal.tsx:91-101 | A budget typed into the input is sent as the typed digits divided by 100 |
| WorkspaceForms.ValidateDates | src/components/modals/create-workspace-modal.tsx:139-156 | A start before today is refused first with its message; otherwise an end before the start is refused with the other message; otherwise the dates pass and the error is cleared; Invalid Dates compare false |
| WorkspaceForms.SameDayIsAccepted | src/components/modals/create-workspace-modal.tsx:149-155 | Starting and ending today is accepted |
| WorkspaceForms.ValidateDatesAsWritten | src/components/modals/create-workspace-modal.tsx:139-147 | As written, the start is refused exactly when its UTC midnight falls before local midnight of today |
| WorkspaceForms.TodayRefusedWestOfUtc | src/components/modals/create-workspace-modal.tsx:140-147 | Three hours west of UTC, a project starting today is refused as starting before today |
| WorkspaceForms.AsWrittenAgreesEastOfUtc | src/components/modals/create-workspace-modal.tsx:139-156 | At UTC or east of it (by less than a day) the code as written agrees with the intended rule on every input |
| WorkspaceForms.SubmitIgnoresDateRule | src/components/modals/create-workspace-modal.tsx:83-86 | Submission does not apply the date rule: a form that starts yesterday is still sent |
| WorkspaceForms.InitialEditForm | src/components/modals/edit-workspace-modal.tsx:29-36 | The edit form copies name, location and manager, takes `String(orcamento)` as budget, and keeps the date part of each ISO timestamp |
| WorkspaceForms.DatePrefixOfTimestamp | src/components/modals/edit-workspace-modal.tsx:34-35 | An ISO timestamp `date` + "T" + `time` yields exactly `date` |
| WorkspaceForms.OnChange | src/components/modals/edit-workspace-modal.tsx:70-123 | Each input replaces its own field (the budget through the parser) and leaves every other field unchanged |
| ServiceForms.ServiceBudgetText | src/components/modals/create-service-modal.tsx:142-154 | The service budget input (create and edit modals alike) stores "0" when the input has no digit, never the empty text |
| ServiceForms.ServiceBudgetReadsBack | src/components/modals/create-service-modal.tsx:142-154 | The stored text reads back by `parseFloat` as the typed digits divided by 100 |
| ServiceForms.BudgetInputsAgree | src/components/modals/create-service-modal.tsx:147 | The project and service budget inputs store the same text exactly when the input has a digit |
| ServiceForms.InitialCreateForm | src/components/modals/create-service-modal.tsx:32-42 | Initial budget "0", progress "0", status "EM_ANDAMENTO", other fields empty; the start is the whole date part of now: a T-free prefix of the ISO text that ends where the text ends or at its `T` |
| ServiceForms.ResetDiffersOnlyInBudget | src/components/modals/create-service-modal.tsx:123-133 | The reset state differs from the initial state, and only in the budget ("" instead of "0") |
| ServiceForms.OverBudgetWarning | src/components/modals/create-service-modal.tsx:70-90 | A warning exactly when the typed budget parses and current spend plus it exceeds the project budget; the reported excess is then positive and equals spend + new − budget |
| ServiceForms.NoServicesSpendNothing | src/components/modals/create-service-modal.tsx:71-74 | Without services the current spend is 0: the warning fires exactly when the new budget alone exceeds the project's |
| ServiceForms.Submit | src/components/modals/create-service-modal.tsx:92-110 | The request parses the budget with `parseFloat` and progress and team with `parseInt` (NaN as none), sends each date through `new Date` (null exactly when the field is empty), stamps the submission time and copies the text fields |
| ServiceForms.SentDate | src/components/modals/create-service-modal.tsx:102-103 | An empty date field is sent as null; a date is sent as an instant whose text starts with the date followed by `T` |
| ServiceForms.SentDateRoundTrip | src/components/modals/edit-service-modal.tsx:44-92 | The date part of the instant sent for a T-free date is that date |
| ServiceForms.UntouchedEndIsNull | src/components/modals/create-service-modal.tsx:39-103 | Submitting the untouched creation form sends the end date as null |
| ServiceForms.WarningDoesNotBlock | src/components/modals/create-service-modal.tsx:74-92 | The request sent does not depend on the project's budget or spend, so a warning never stops it |
| ServiceForms.TypedBudgetIsSent | src/components/modals/create-service-modal.tsx:72-100 | A typed budget is sent as digits/100, and the warning fires exactly when spend plus that amount exceeds the budget |
| ServiceForms.TeamIdText | src/components/modals/edit-service-modal.tsx:42 | The team field is empty exactly when there is no team or it is team 0, and digits otherwise |
| ServiceForms.InitialEditForm | src/components/modals/edit-service-modal.tsx:39-51 | The edit form copies the service, keeps the date part of each ISO timestamp, turns absent notes into "" and starts the three technical text fields empty |
| ServiceForms.EditTeamId | src/components/modals/edit-service-modal.tsx:96 | An empty team field sends no team; a field starting with a digit sends a number |
| ServiceForms.EditTeamIdIsParseInt | src/components/modals/edit-service-modal.tsx:96 | The explicit empty check sends the same as a plain `parseInt` would |
| ServiceForms.TeamIdRoundTrip | src/components/modals/edit-service-modal.tsx:42-96 | Saving the team field unchanged sends the service's team back, except that team 0 becomes no team |
| ServiceForms.SubmitEdit | src/components/modals/edit-service-modal.tsx:87-100 | The PATCH body parses the budget with `parseFloat` and the team with `parseInt`, sends each date through `new Date`, stamps the submission time, and copies name, category, status, notes and the three technical text fields |
| ServiceForms.UnchangedEditKeepsTeam | src/components/modals/edit-service-modal.tsx:39-96 | Opening and saving a service unchanged sends its team (0 becoming none) and its notes (absent becoming empty) |
| ServiceForms.UnchangedEditKeepsDates | src/components/modals/edit-service-modal.tsx:44-99 | Saving a service unchanged sends each date as an instant with the service's own date part (null when it has none) and the technical text fields empty |

## Left out

- PDF drawing: jsPDF layout, `autoTable` styling, images, file names and footers. It is an external renderer, so the reports are modelled as the rows and sections they would draw.
- Formatting: `formatCurrency`, `toFixed`, and `date-fns` `format`. These are foreign library calls, so rows carry the raw `real` or day values.
- `differenceInDays` and `Date` parsing: dates are already day numbers, and the time-of-day truncation is not modelled.
- Floating point: amounts are exact reals. IEEE rounding, `Number` losing precision above 2^53, and exponent notation when printing very large amounts are not modelled.
- Text.ParseFloat: covers only the shapes the forms produce, unsigned `digits[.digits]`. Signs, leading whitespace, exponents, `Infinity` and a leading `.` are not modelled.
- Text.ParseInt: covers only unsigned decimal prefixes. Signs, whitespace and radix prefixes are not modelled.
- Text.Lower: covers only Basic Latin and Latin-1 capitals, not full Unicode case mapping.
- Grouping.Tally: `Object.entries` lists integer-like keys (a team or category named "1" or "2024") first, in ascending numeric order. The model keeps plain first-seen order for every key. Months (`MM/yyyy`) and statuses are never integer-like, but team names and categories are free text, so the teams, category and team-cost tables differ from the source for such names.
- Grouping.Tally: keys that name members of `Object.prototype` ("constructor", "toString", "valueOf", "__proto__" and the like) are plain keys in the model. In the source they read the inherited member, and each report reacts differently, as the next lines say.
- TeamsReport.TeamRows: a team named after a prototype member never becomes an own key, because `!acc[name]` is false, so the source drops it from the teams report; the model lists it.
- FinancialReport.CategoryLines: for a category named after a prototype method, `acc[c] || 0` is the method, and `+` joins text instead of adding amounts; the model adds amounts.
- FinancialReport.TeamCostsAgreeWithTeamRows: holds in the model only. For a team named after a prototype member, the source's cost table keeps the team (it assigns `acc[name]` outright) while its teams report drops it.
- `|| 0` on numbers that are already present: budgets and progress are typed as numbers, so NaN or absent amounts are not modelled.
- Persistence and networking: the `fetch`/`axios` calls, the API routes and the workspace context. The fetched project is a parameter, and a failed request is not modelled.
- The report-kind dispatch in the report modal: it is thin glue over the report functions.
- The edit workspace modal's submission: it sends the form unchanged, so there is nothing to compute.
- ServiceForms.SentDate: assumes a non-empty date field holds a well-formed `yyyy-MM-dd` date, as a date input delivers. Other text would also be an Invalid Date, sent as null.
- The `if (formData.dataFim)` guards around `validateDates`: a `Date` object is always truthy, so the rule always runs.
- Authentication, registration, the landing page and other UI-only components.

## Findings

| source | as written | input that shows it | evidently intended | confidence | as-written member | corrected member |
|---|---|---|---|---|---|---|
| src/components/modals/create-workspace-modal.tsx:140-147 | `new Date("yyyy-MM-dd")` is midnight UTC, but it is compared with `startOfToday()`, which is local midnight | In a zone three hours behind UTC (Brazil), choosing today as the start date gives "A data de início não pode ser anterior a hoje" | Compare calendar days, so a start date of today is accepted in every time zone | not executed | WorkspaceForms.ValidateDatesAsWritten (counterexample: WorkspaceForms.TodayRefusedWestOfUtc) | WorkspaceForms.ValidateDates (proved: WorkspaceForms.SameDayIsAccepted, WorkspaceForms.AsWrittenAgreesEastOfUtc) |

## Notes on the code

- The general report's updates section keeps the last five updates in stored order (`slice(-5)`) and does not sort them.
- The general report's services table has no placeholder row: an empty service list draws an empty table.
- In the financial report, the column headed "% do Orçamento" is a category's share of the total spend, not of the budget.
