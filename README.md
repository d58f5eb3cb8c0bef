# Einstein dealership dashboard: a verified model of its logic

Einstein tracks a car dealership's deals from the sale through bank funding. This project models the logic of the dashboard and its server, with the results proved about that model:

- **Deal analytics** (`insights.dfy`, `portfolio.dfy`). Deal scoring, funding predictions, risk findings, optimisation suggestions and monthly trends.
- **Audit trail** (`audit.dfy`). A log derived from each deal's creation, update and funding, sorted newest first and narrowed by filters, plus the rollback confirmation.
- **Notification centre** (`notifications.dfy`):
  - notifications generated from the deals, merged by id;
  - marking read, marking all read and removal;
  - the unread and high-priority counts;
  - the toast.
- **Deal templates** (`templates.dfy`):
  - the template list, with seeding, save, delete and duplicate;
  - the comma-separated shortcut field;
  - the Ctrl-key lookup.
- **Dashboard charts** (`dashboard.dfy`). Headline metrics, per-salesperson, per-month and per-bank tallies, and the status pie.
- **Deal entry grid** (`deal_entry.dfy`). The change set an inline row edit sends.
- **Spreadsheet import** (`seed.dfy`):
  - `getFirst`, `toNumber`, `toDate` and `normType`;
  - the rule that skips a row;
  - the row-to-record mapping;
  - the loop that caches the salespeople and finance managers it creates.
- **Server request builders** (`server.dfy`):
  - the `where` object of `GET /api/deals`;
  - the `data` object of `PATCH /api/deals/:id`;
  - `daysOut` of `GET /api/funding/unfunded`.

These files are shared by the modules above:

- `wrappers.dfy`: Option.
- `js.dfy`: JS values, truthiness, `===`, `Math.round`, `Math.min` and `Math.max`.
- `seqs.dfy` and `sorting.dfy`: filter, dedupe and a stable sort by key.
- `strings.dfy`: trim, lower case, split and join, decimal form, string order.
- `calendar.dfy`: day numbers and months.
- `tally.dfy`: the `reduce` into `acc[key]` accumulators that the dashboard and the analytics run, as a loop, with its properties.
- `deals.dfy`: the deal record and funded rates.

Conventions:

- Dates are integer day numbers, with day 0 = 1970-01-01. The server's `daysOut` is the exception: it uses milliseconds.
- The clock ("now", "today", `Date.now()`) is always a parameter.
- Absent values are `Option`s.

Edge cases of the code that the model keeps:

- The deal score is never rounded (client/src/components/AIFeatures.jsx:80-130), so it is a `real`.
- The funding prediction does not check for a deal date. `new Date(null)` is the epoch, so an undated deal counts as very old: see `Insights.UndatedDealCountsAsOld`.
- The average days-to-fund per bank counts an undated funded deal from the epoch, as the code does.

## Model

| member | source | states |
|---|---|---|
| Insights.ScoreDeal | client/src/components/AIFeatures.jsx:78-139 | the running score and factor list of one deal are its record: score in [0, 100], risk tier from the score, recommendation from the tier |
| Insights.AddCustomerHistory | client/src/components/AIFeatures.jsx:82-89 | the score grows by the customer-history term (a repeat customer only) and that factor is noted |
| Insights.AddBankPerformance | client/src/components/AIFeatures.jsx:92-99 | the score grows by 15 x the bank's funded rate when the deal has a bank, and that factor is noted |
| Insights.AddSalespersonPerformance | client/src/components/AIFeatures.jsx:102-109 | the score grows by 10 x the salesperson's funded rate when the deal has a salesperson, and that factor is noted |
| Insights.AddDealAge | client/src/components/AIFeatures.jsx:112-121 | the score loses the age penalty and the note records it |
| Insights.AddStockNumber | client/src/components/AIFeatures.jsx:124-127 | the score gains 5 for a stock number of six or more characters |
| Insights.TermsRules | client/src/components/AIFeatures.jsx:82-127 | each factor applies exactly under its condition; customer history needs more than one deal of that customer; the age penalty is -10 past 14 days, -5 past 7, none otherwise |
| Insights.TermShapes | client/src/components/AIFeatures.jsx:86-125 | each factor contributes at most once, within its weight (20, 15, 10, -10, 5) |
| Insights.TermsOrder | client/src/components/AIFeatures.jsx:82-127 | the factors are listed in computation order, each at most once |
| Insights.ScoreBounds | client/src/components/AIFeatures.jsx:78-129 | before clamping, the score lies between 40 and 100 |
| Insights.NeverHighRisk | client/src/components/AIFeatures.jsx:129-137 | clamping never changes the score and no deal is ever in the high-risk tier |
| Insights.ScoreRecords | client/src/components/AIFeatures.jsx:77 | one record per deal, in list order, each scored against the whole list |
| Insights.GenerateDealScoring | client/src/components/AIFeatures.jsx:76-141 | the result is the scored list sorted by score, highest first |
| Insights.DealScoringSpec | client/src/components/AIFeatures.jsx:77-140 | one record per deal, every deal's record present, highest score first, every score in [0, 100] with its tier |
| Insights.AgeMultiplier | client/src/components/AIFeatures.jsx:152-154 | the age factor lies in (0, 1] |
| Insights.BankMultiplier | client/src/components/AIFeatures.jsx:157-163 | the bank factor is a funded rate in [0, 1] |
| Insights.Probability | client/src/components/AIFeatures.jsx:149-163 | the probability lies in [0, 0.8] |
| Insights.PredictionsOf | client/src/components/AIFeatures.jsx:147-173 | one prediction per given deal, in list order |
| Insights.FundingPredictionsSpec | client/src/components/AIFeatures.jsx:145-174 | exactly one prediction per unfunded deal and none for another, in ascending rounded percentage |
| Insights.PredictionRules | client/src/components/AIFeatures.jsx:170-172 | the percentage is in [0, 80]; urgency is high iff the unrounded probability is below 0.3 and medium iff it is in [0.3, 0.6); a shown percentage below 30 is always high urgency |
| Insights.UrgencyBeforeRounding | client/src/components/AIFeatures.jsx:170-172 | any probability shown as 30% lies in [0.295, 0.305) and is high urgency below 0.3, medium from 0.3: urgency is decided before rounding |
| Insights.UndatedDealCountsAsOld | client/src/components/AIFeatures.jsx:148-152 | a deal without a deal date gets the three-week factor 0.3 |
| Portfolio.GenerateRiskAnalysis | client/src/components/AIFeatures.jsx:178-235 | the pushes produce the findings of the high-value, old and concentration lists |
| Portfolio.FindingsShape | client/src/components/AIFeatures.jsx:183-232 | at most three findings, in the order high-value, old, concentration; each appears iff its list is non-empty and carries that list |
| Portfolio.RiskRules | client/src/components/AIFeatures.jsx:182-200 | a high-value finding iff some unfunded deal has amount > 50000; an old finding iff some unfunded dated deal is more than 21 days old |
| Portfolio.PendingLists | client/src/components/AIFeatures.jsx:182-200 | the deals a finding lists are exactly the qualifying deals |
| Portfolio.BankConcentrationRule | client/src/components/AIFeatures.jsx:213-222 | a bank is flagged, with its count, iff it is named and holds strictly more than 30% of all deals |
| Portfolio.BankObsStat | client/src/components/AIFeatures.jsx:260-273 | a bank's accumulator counts exactly that bank's deals, funded deals and funded days |
| Portfolio.BankObsNoEmpty | client/src/components/AIFeatures.jsx:214 | a deal without a bank is never tallied |
| Portfolio.Perfs | client/src/components/AIFeatures.jsx:242-245 | one performance record per salesperson, in list order |
| Portfolio.GenerateOptimizationSuggestions | client/src/components/AIFeatures.jsx:238-291 | the training suggestion, then one review per weak bank in first-appearance order |
| Portfolio.PushBankReviews | client/src/components/AIFeatures.jsx:275-288 | the loop appends exactly the reviews of the weak banks |
| Portfolio.LowPerformerRule | client/src/components/AIFeatures.jsx:242-248 | a salesperson is a low performer iff they have more than 5 deals and a funded rate below 0.6; the list runs from the lowest rate up |
| Portfolio.LowPerformersQualify | client/src/components/AIFeatures.jsx:248 | every low performer is a listed salesperson who qualifies |
| Portfolio.BankReviewRule | client/src/components/AIFeatures.jsx:260-287 | a bank is reviewed iff it has deals and a funded rate below 0.7; the review carries that rate and the average days over its funded deals only (0 if none) |
| Portfolio.MonthObs | client/src/components/AIFeatures.jsx:295-311 | only dated deals are bucketed by month |
| Portfolio.Rows | client/src/components/AIFeatures.jsx:313-318 | one trend row per month group, in group order |
| Portfolio.GenerateTrends | client/src/components/AIFeatures.jsx:294-320 | the reducer run as a loop gives the trend rows |
| Portfolio.MonthObsCounts | client/src/components/AIFeatures.jsx:296-307 | one observation per dated deal; the funded observations are the funded dated deals |
| Portfolio.TrendSums | client/src/components/AIFeatures.jsx:295-319 | across the months, `fundedDeals` adds up to the funded deals with a deal date, and `totalDeals` to the dated deals |
| Portfolio.TrendRows | client/src/components/AIFeatures.jsx:313-319 | the months run in calendar order; each row counts exactly its month's deals (at least one) and funded deals |
| Portfolio.MonthObsStat | client/src/components/AIFeatures.jsx:296-309 | a month's accumulator holds the number of deals dated in that month, how many of them are funded, and their total days-to-fund |
| Portfolio.TrendRowSpec | client/src/components/AIFeatures.jsx:312-319 | each row, in terms of its month's dated deals: their count (at least one), the funded count, the rate funded/total x 100, and the rounded mean days-to-fund over the funded deals, or 0 |
| Audit.UserOr | client/src/components/AuditTrail.jsx:75 | the user is the given name when there is one, otherwise 'System', and never empty |
| Audit.DealEntriesRules | client/src/components/AuditTrail.jsx:66-110 | a created entry iff `createdAt` is set; an updated entry iff `updatedAt` is set and differs from it; a funded entry iff `fundedDate` is set; so at most three; each entry's user is its actor or 'System' |
| Audit.PushDealEntries | client/src/components/AuditTrail.jsx:67-109 | one deal's pushes append exactly its entries |
| Audit.CollectEntries | client/src/components/AuditTrail.jsx:66-110 | the `forEach` loop collects every deal's entries in deal order |
| Audit.GenerateAuditLog | client/src/components/AuditTrail.jsx:63-116 | the log is all deals' entries, sorted newest first |
| Audit.SortedNewestFirst | client/src/components/AuditTrail.jsx:114 | sorted by the key means newest first in timestamp |
| Audit.AuditLogSpec | client/src/components/AuditTrail.jsx:63-114 | the log is a permutation of the collected entries, newest first |
| Audit.LogEntriesMember | client/src/components/AuditTrail.jsx:66-110 | an entry is in the log iff it is one of some deal's entries |
| Audit.ApplyFieldFilters | client/src/components/AuditTrail.jsx:120-132 | the action, deal id and user stages give the filter of their conjunction |
| Audit.ApplyFilters | client/src/components/AuditTrail.jsx:119-143 | the stage-by-stage reassignment equals one filter on all active conditions, with the date stages corrected to whole-day bounds (see Findings) |
| Audit.FilteredMember | client/src/components/AuditTrail.jsx:120-142 | an entry is kept iff it is in the log and passes every active filter; the deal id filter is a substring match; with the corrected date stages, the bounds are the chosen days, inclusive (see Findings) |
| Audit.DefaultFiltersKeepAll | client/src/components/AuditTrail.jsx:48-60 | with every filter at its default, the filtered log is the log |
| Audit.FilteredNewestFirst | client/src/components/AuditTrail.jsx:114-142 | the filtered log stays newest first |
| Audit.DealIdMatches | client/src/components/AuditTrail.jsx:127 | an entry always matches a filter on its own deal id |
| Audit.Users | client/src/components/AuditTrail.jsx:194 | the users of the log, entry by entry |
| Audit.Actions | client/src/components/AuditTrail.jsx:199 | the actions of the log, entry by entry |
| Audit.UniqueChoices | client/src/components/AuditTrail.jsx:193-201 | unique users and actions are strictly sorted (so without repeats) and hold exactly the values in the log |
| Audit.DateTextIsNaN | client/src/components/AuditTrail.jsx:271-273 | the text of a date input, "YYYY-MM-DD", is not a number: `Number` of it is NaN |
| Audit.DateFromEmptiesLog | client/src/components/AuditTrail.jsx:134-140 | as written, any set Date From (or Date To) keeps no entry at all, since comparing a date with the input's text is always false |
| Audit.DateFromDiscrepancy | client/src/components/AuditTrail.jsx:134-136 | every entry on or after the chosen day is kept by the intended filter and dropped by the filter as written |
| Audit.AuditTrail.constructor | client/src/components/AuditTrail.jsx:48-60 | empty log, default filters, nothing selected, dialogs closed |
| Audit.AuditTrail.LoadDeals | client/src/components/AuditTrail.jsx:63-143 | the log is rebuilt from the deals and the filtered log follows, with the corrected date stages; filters, selection and dialogs are unchanged |
| Audit.AuditTrail.SetFilters | client/src/components/AuditTrail.jsx:119-147 | new filters, the filtered log re-derived with the corrected date stages, nothing else changed |
| Audit.AuditTrail.ViewDetails | client/src/components/AuditTrail.jsx:171-173 | selects the entry and changes nothing else |
| Audit.AuditTrail.Compare | client/src/components/AuditTrail.jsx:175-178 | selects the entry and opens the comparison |
| Audit.AuditTrail.HandleRollback | client/src/components/AuditTrail.jsx:180-183 | selects the entry and opens the confirmation |
| Audit.AuditTrail.ConfirmRollback | client/src/components/AuditTrail.jsx:185-191 | with a selected entry and a callback, the entry is handed over once, the dialog closes and the selection clears; otherwise nothing changes |
| Notifications.RunCheck | client/src/components/NotificationSystem.jsx:40-95 | one `forEach` loop appends exactly that check's notifications |
| Notifications.GenerateNotifications | client/src/components/NotificationSystem.jsx:36-95 | the three loops give the pending, funded-today and high-value notifications, in that order |
| Notifications.CheckNotesMember | client/src/components/NotificationSystem.jsx:40-95 | a check's notifications are exactly those of the deals it fires on |
| Notifications.GeneratedMember | client/src/components/NotificationSystem.jsx:40-95 | every deal a check fires on has its notification generated |
| Notifications.GenerationRules | client/src/components/NotificationSystem.jsx:41-94 | pending for an unfunded deal more than 7 days old (high priority past 14, else medium); funded-today for a deal funded today; high-value iff amount > 50000 and unfunded |
| Notifications.GeneratedSource | client/src/components/NotificationSystem.jsx:40-95 | every notification comes from a deal its check fires on, unread and stamped today; only pending ones can be high priority |
| Notifications.Ids | client/src/components/NotificationSystem.jsx:98 | the ids of the list, entry by entry |
| Notifications.MergeSpec | client/src/components/NotificationSystem.jsx:97-101 | the previous list is kept unchanged, in order, as a prefix; what follows is exactly the new notifications whose id is not already present |
| Notifications.MergeKnown | client/src/components/NotificationSystem.jsx:97-101 | merging only known ids changes nothing |
| Notifications.MergeDistinct | client/src/components/NotificationSystem.jsx:97-101 | distinct ids stay distinct through a merge |
| Notifications.MarkReadSpec | client/src/components/NotificationSystem.jsx:112-115 | only entries with that id become read, every other field and entry is unchanged, length and ids are kept, and it is idempotent |
| Notifications.RemoveSpec | client/src/components/NotificationSystem.jsx:125-127 | no entry with that id is left, every other entry is kept, and removing an unknown id changes nothing |
| Notifications.CountBounds | client/src/components/NotificationSystem.jsx:121-149 | high-priority count <= unread count <= length; after mark-all-read the unread count is 0 and length and ids are unchanged |
| Notifications.ToastRule | client/src/components/NotificationSystem.jsx:152-161 | the toast opens exactly when some unread high-priority notification exists, with the first one's message and type; otherwise it is left as it was |
| Notifications.NotificationCenter.constructor | client/src/components/NotificationSystem.jsx:28-32 | no notifications, toast closed |
| Notifications.NotificationCenter.Refresh | client/src/components/NotificationSystem.jsx:35-102 | the list becomes the merge of the old list with the notifications generated today; the toast effect then runs |
| Notifications.NotificationCenter.MarkAsRead | client/src/components/NotificationSystem.jsx:112-119 | marks the id read and reports it to the callback when there is one |
| Notifications.NotificationCenter.MarkAllAsRead | client/src/components/NotificationSystem.jsx:121-123 | every entry read, unread count 0, length unchanged |
| Notifications.NotificationCenter.RemoveNotification | client/src/components/NotificationSystem.jsx:125-127 | the list loses every entry with that id |
| Templates.ClockId | client/src/components/DealTemplates.jsx:145 | a clock-derived id never equals a default template's id |
| Templates.ReplaceByIdSpec | client/src/components/DealTemplates.jsx:136-140 | saving in edit mode replaces only the templates with that id, keeps their id, and keeps length and every other template |
| Templates.Created | client/src/components/DealTemplates.jsx:143-147 | a new template is the form with a clock id and `isDefault` false |
| Templates.Duplicate | client/src/components/DealTemplates.jsx:161-167 | a copy with a clock id, name + " (Copy)", `isDefault` false, and otherwise equal to the original |
| Templates.DeleteByIdSpec | client/src/components/DealTemplates.jsx:153-155 | no template with that id remains and every other one is kept |
| Templates.Seeded | client/src/components/DealTemplates.jsx:72-100 | an empty list becomes the two defaults; any other list is kept; the result is never empty |
| Templates.TrimAll | client/src/components/DealTemplates.jsx:359 | every piece trimmed, in order |
| Templates.ParseShortcutsClean | client/src/components/DealTemplates.jsx:359 | parsed shortcuts are never empty, have no leading or trailing white space and hold no comma |
| Templates.SplitJoined | client/src/components/DealTemplates.jsx:356-359 | splitting the field's joined text at commas gives the shortcuts, those after the first with the blank `join(', ')` put before them |
| Templates.EmptyField | client/src/components/DealTemplates.jsx:359 | an empty field means no shortcuts |
| Templates.ShortcutsRoundTrip | client/src/components/DealTemplates.jsx:356-359 | showing clean shortcuts joined by ', ' and parsing the text back gives the same shortcuts |
| Templates.FindByShortcut | client/src/components/DealTemplates.jsx:174-176 | without Ctrl there is no match; with Ctrl it is the first template listing `Ctrl+<key>` |
| Templates.FindByShortcutRule | client/src/components/DealTemplates.jsx:174-177 | a match holds `Ctrl+<key>` and no earlier template does; no match means Ctrl is up or no template lists it |
| Templates.TemplateManager.constructor | client/src/components/DealTemplates.jsx:45-100 | after mounting, the list holds the two defaults and the form is empty |
| Templates.TemplateManager.OpenDialog | client/src/components/DealTemplates.jsx:102-119 | edit a copy of the template, or start from the empty form; the dialog opens |
| Templates.TemplateManager.CloseDialog | client/src/components/DealTemplates.jsx:121-133 | the dialog closes, editing stops and the form is reset |
| Templates.TemplateManager.SetShortcutText | client/src/components/DealTemplates.jsx:357-360 | only the form's shortcuts change, to the parsed text |
| Templates.TemplateManager.SaveTemplate | client/src/components/DealTemplates.jsx:135-151 | edit mode replaces by id; create mode appends exactly one new template; the form is then reset |
| Templates.TemplateManager.DeleteTemplate | client/src/components/DealTemplates.jsx:153-155 | the templates with that id are removed, and an emptied list is seeded again |
| Templates.TemplateManager.DuplicateTemplate | client/src/components/DealTemplates.jsx:161-169 | appends exactly the copy |
| Templates.TemplateManager.KeyDown | client/src/components/DealTemplates.jsx:172-182 | with Ctrl held, the first template listing `Ctrl+<key>` is applied; otherwise nothing is |
| Dashboard.MetricsSpec | client/src/components/DashboardCharts.jsx:39-103 | unfunded = total - funded; the two status slices add up to the total; the rate is a percentage, 0 without deals, 100 iff every deal is funded |
| Dashboard.RoundedAverage | client/src/components/DashboardCharts.jsx:46-51 | a rounded average of values in [lo, hi] stays in [lo, hi] |
| Dashboard.AvgDaysSpec | client/src/components/DashboardCharts.jsx:45-52 | the average is over the deals with both dates, 0 when there are none, otherwise between the fewest and the most days |
| Dashboard.SalesRowOf | client/src/components/DashboardCharts.jsx:56-63 | funded <= total and a rate in [0, 100] |
| Dashboard.SalesRows | client/src/components/DashboardCharts.jsx:55-63 | one row per salesperson, in list order |
| Dashboard.SalesPerformanceRows | client/src/components/DashboardCharts.jsx:55-64 | the table is a reordering of the salespeople's rows, one per salesperson |
| Dashboard.SalesPerformanceFunded | client/src/components/DashboardCharts.jsx:57-61 | every row has funded <= total |
| Dashboard.SalesPerformanceSorted | client/src/components/DashboardCharts.jsx:64 | sorted by total, largest first |
| Dashboard.FundedMonthObs | client/src/components/DashboardCharts.jsx:67-73 | only funded deals are counted, by the month of `fundedDate` |
| Dashboard.MonthRows | client/src/components/DashboardCharts.jsx:75-77 | one row per month group, with its count |
| Dashboard.TakeLast | client/src/components/DashboardCharts.jsx:78 | `slice(-n)`: the last n elements, or all of them |
| Dashboard.FundedMonthCount | client/src/components/DashboardCharts.jsx:68-70 | a month's count is the number of deals funded in it |
| Dashboard.MonthlyTrendsSpec | client/src/components/DashboardCharts.jsx:67-78 | min(6, number of month groups) rows: exactly the last six month groups in first-appearance order (all of them when fewer), each with the number of deals funded in it (at least one) |
| Dashboard.MonthlyTrendsDistinct | client/src/components/DashboardCharts.jsx:67-78 | no month appears twice |
| Dashboard.BankRows | client/src/components/DashboardCharts.jsx:92-96 | one row per bank group, in group order |
| Dashboard.Take | client/src/components/DashboardCharts.jsx:97 | `slice(0, n)`: the first n elements, or all of them |
| Dashboard.BankDataSorted | client/src/components/DashboardCharts.jsx:81-97 | at most 5 banks, sorted by total, largest first |
| Dashboard.BankDataLargest | client/src/components/DashboardCharts.jsx:81-97 | the five largest banks are kept: a named bank with deals is either an entry, or five entries were kept and each has at least as many deals |
| Dashboard.BankDataRow | client/src/components/DashboardCharts.jsx:81-97 | each entry is a named bank with 1 <= total, funded <= total, and exactly its deals' counts |
| Dashboard.ComputeView | client/src/components/DashboardCharts.jsx:38-103 | the component body, with both reducers run as loops, gives the view of the deals |
| DealEntry.ToDateOrNull | client/src/pages/DealEntry.jsx:46-51 | falsy to null; a string of 10 or more characters to its first 10; anything else unchanged |
| DealEntry.LookupOption | client/src/pages/DealEntry.jsx:57-64 | null iff no option's label or value equals the name; otherwise the id of the first option that does |
| DealEntry.SetIfChanged | client/src/pages/DealEntry.jsx:52-65 | one conditional assignment of the change set |
| DealEntry.ProcessRowUpdate | client/src/pages/DealEntry.jsx:44-69 | sends the row id with the change set, and returns `newRow` unchanged |
| DealEntry.StepSpec | client/src/pages/DealEntry.jsx:52-65 | a step adds its own field iff that cell changed, and leaves every other key alone |
| DealEntry.ChangeSetAt | client/src/pages/DealEntry.jsx:52-65 | a field is in the change set iff its cell changed, and then holds its new value |
| DealEntry.ChangeSetSpec | client/src/pages/DealEntry.jsx:52-65 | a key exists only where the cells differ under `!==`; dates are normalised; names become the matching option's id or null; other cells are sent as edited |
| DealEntry.UnchangedRow | client/src/pages/DealEntry.jsx:52-65 | identical rows give an empty change set |
| Seed.GetFirst | server/prisma/seed.js:62-70 | never returns '' |
| Seed.GetFirstSpec | server/prisma/seed.js:62-70 | undefined iff no listed header is present, defined and not ''; otherwise the cell of the first such header, a present null included |
| Seed.ReadFirst | server/prisma/seed.js:62-70 | the loop with its early return computes `getFirst` |
| Seed.StripMoney | server/prisma/seed.js:16 | no ',' and no '$' are left |
| Seed.ToNumberNonText | server/prisma/seed.js:12-22 | a number passes through unchanged; null, undefined and other non-text cells give null |
| Seed.ToNumberText | server/prisma/seed.js:15-20 | text reaches `Number` only stripped of ',' and '$', trimmed and non-empty; an empty result gives null |
| Seed.SeparatorIgnored | server/prisma/seed.js:16 | a ',' or '$' anywhere in text makes no difference to its number |
| Seed.ToDateSpec | server/prisma/seed.js:24-32 | serial n is 1899-12-30 plus n days (0 the base date, 25569 the Unix epoch); a Date cell is kept; a falsy non-zero cell gives null |
| Seed.TypeNameKey | server/prisma/seed.js:43-51 | the lower case of each type name is its exact-map key, which maps back to that name |
| Seed.TypeNameTrimmed | server/prisma/seed.js:42 | a type name has no white space at either end |
| Seed.NormTypeRange | server/prisma/seed.js:40-60 | null iff the cell is falsy; otherwise one of the six type names or the cell unchanged |
| Seed.NormTypeIdempotent | server/prisma/seed.js:40-60 | normalising a normalised type changes nothing |
| Seed.NormTypeOfName | server/prisma/seed.js:43-51 | a type name normalises to itself |
| Seed.NormTypeExact | server/prisma/seed.js:42-51 | the exact map is matched whatever the case and surrounding white space |
| Seed.NormTypeNewBmw | server/prisma/seed.js:51-53 | text that is no exact spelling but contains "new" and "bmw" is New BMW, whatever else it contains (the heuristics run in order) |
| Seed.RecordAmounts | server/prisma/seed.js:145-161 | one amount per money column, each from `toNumber` of its `getFirst` |
| Seed.RecordFlags | server/prisma/seed.js:162-170 | every check-list flag is true for a truthy cell and null otherwise, never false |
| Seed.RecordFields | server/prisma/seed.js:135-144 | stock number, customer and bank are set iff their cell is truthy; the age is the rounded number; the vehicle type is already normalised |
| Seed.Imported | server/prisma/seed.js:89-178 | no more records than rows |
| Seed.ImportedSpec | server/prisma/seed.js:103 | every inserted record has a deal date, a stock number or a customer name; every row with one of them is inserted; a skipped row could be removed without changing the result |
| Seed.NamedKeysStep | server/prisma/seed.js:105-133 | one more row adds its person to the distinct names iff it is kept and names someone new |
| Seed.ImportedStep | server/prisma/seed.js:103-177 | one more row adds its record unless it is skipped |
| Seed.Resolve | server/prisma/seed.js:105-118 | the id is the database's id for the trimmed name (null without a name); the cache stays exact; the name is upserted only when new |
| Seed.ImportRow | server/prisma/seed.js:90-177 | a skipped row changes nothing; a kept row appends its record and adds its salesperson and finance manager if new |
| Seed.ImportNext | server/prisma/seed.js:89-178 | the loop invariant moves from row i to row i + 1, and the insert count grows by one iff the row is kept |
| Seed.Import | server/prisma/seed.js:84-178 | one record per kept row, in row order; `inserted` counts them; each salesperson and finance manager is upserted once, in order of first mention |
| Server.DigitRun | server/index.js:44 | the length of the leading run of digits |
| Server.ParseIntDecimal | server/index.js:44 | `parseInt` reads back the decimal form of a number, whatever non-digit text follows |
| Server.ParseIntNegative | server/index.js:44 | `parseInt` reads back a minus sign and the decimal form of a number |
| Server.MinusSign | server/index.js:44 | a leading minus negates the digits that follow |
| Server.RecentDaysSpec | server/index.js:44 | `parseInt(recentDays) \|\| 90`: never 0; 90 for NaN and for 0; any other number taken as given |
| Server.SearchClausesSpec | server/index.js:56-64 | five case-insensitive contains clauses on the search term, over exactly the five columns, each once |
| Server.BuildWhere | server/index.js:36-64 | from or to gives the range and recentDays is then ignored; otherwise recentDays bounds the date from below; funded 'true'/'false' requires set/null, any other value nothing; a search term adds the five clauses |
| Server.PutSpec | server/index.js:89-96 | a step sets its own field iff the body defines it, and leaves every other key alone |
| Server.DataSpec | server/index.js:88-96 | `data` holds exactly the fields the body defines, each assigned from the body's value |
| Server.AssignSpec | server/index.js:89-96 | null exactly for a falsy date or id; truthy dates are parsed; everything else copied verbatim |
| Server.PutIfDefined | server/index.js:89-96 | one conditional assignment of `data` |
| Server.PatchDeal | server/index.js:81-96 | the update carries the parsed id and the `data` of the body |
| Server.FieldOfName | server/index.js:83-86 | each field's body key names that field back |
| Server.ChangesReachData | server/index.js:88-96 | a grid change set reaches the database as exactly its defined fields, each assigned from its value |
| Server.DaysOut | server/index.js:115-120 | null iff there is no deal date; otherwise the floor of the elapsed time in whole days |
| Server.DaysOutWholeDays | server/index.js:118 | at the same time of day, `daysOut` is the number of calendar days between them |
| Server.AddDaysOut | server/index.js:114-127 | one row per deal, in order, each keeping its deal |
| Server.AddDaysOutSpec | server/index.js:114-127 | `daysOut` is null exactly for an undated deal, otherwise the whole days since; each name is sent as null when empty or missing, and otherwise as the person's name |
| Tally.TallyLoop | client/src/components/DashboardCharts.jsx:81-90 | the reducer loop computes the group-by |
| Tally.TallyOrder | client/src/components/DashboardCharts.jsx:92 | the groups are keyed by the distinct keys, in first-appearance order (`Object.entries` order) |
| Tally.TallyStats | client/src/components/DashboardCharts.jsx:83-87 | each group holds the counts of exactly its key's deals |
| Tally.TallySums | client/src/components/AIFeatures.jsx:295-311 | the totals add up to the number of deals, the funded counts to the funded ones |
| Tally.TallyBounds | client/src/components/DashboardCharts.jsx:83-87 | every group counts at least one deal, and no more funded deals than deals |
| Tally.TallyKeys | client/src/components/DashboardCharts.jsx:83 | a key has a group iff some deal carries it, and keys are distinct |
| Deals.FundedRate | client/src/components/AIFeatures.jsx:85 | a rate in [0, 1]; 0 for no deals; 1 iff every deal is funded; 0 iff none is |
| Deals.DaysSince | client/src/components/AIFeatures.jsx:113 | whole days since the deal date, absent iff the deal date is |
| Deals.OwnGroups | client/src/components/AIFeatures.jsx:83-103 | a deal belongs to its own customer's, bank's and salesperson's groups |
| Strings.Trim | server/prisma/seed.js:16 | `trim()`: no white space at either end, empty iff the text is all white space, a slice of the text |
| Strings.ToLower | server/prisma/seed.js:42 | `toLowerCase()` letter by letter |
| Strings.Split | client/src/components/DealTemplates.jsx:359 | at least one piece, none holding the separator |
| Strings.JoinSplit | client/src/components/DealTemplates.jsx:356-359 | joining the pieces of a split rebuilds the text |
| Strings.UniqueSorted | client/src/components/AuditTrail.jsx:194 | `[...new Set(xs)].sort()`: strictly sorted, holding exactly the strings of xs |
| Sorting.SortBy | client/src/components/AuditTrail.jsx:114 | the sort by key: a permutation, ascending in the key |
| Sorting.SortByStable | client/src/components/AuditTrail.jsx:114 | the sort is stable: the elements with any one key keep their input order, as `Array.prototype.sort` does |
| Calendar.ExcelEpochValue | server/prisma/seed.js:29 | Excel's day zero, 1899-12-30, is day -25569 |
| Js.Round | client/src/components/AIFeatures.jsx:170 | `Math.round`: the nearest integer, halves upwards |

## Left out

- Rendering: all JSX, the MUI and Recharts components, colours, icons and chart layout. Display strings (descriptions, factor labels, notification titles and messages, `toFixed` formatting) are not formatted: the model keeps the numbers they are formatted from.
- `estimatedFundingDate` of a funding prediction. It divides by a probability that can be 0, and the record in the model leaves it out.
- The simulated 2-second delay and React effect scheduling. Each effect is a method or function run when its inputs change.
- Date parsing, `toLocaleDateString` month labels, `toDateString` and time zones. Dates are whole days, months are (year, month) pairs, and month order is calendar order.
- `Audit.DealEntriesRules`: because timestamps are whole days, a deal updated on the day it was created gets no "updated" entry. The source compares full timestamps and gives one.
- `Date.now()` and `new Date()`. The clock is a parameter, so an update entry's id carries the clock value and a template id is the clock's decimal text.
- NaN is not a value of the model. Every date difference the analytics take is either guarded by a test for the deal date or starts from `new Date(null)`, the epoch. `parseInt` giving NaN is `None`, and so is `Number` of a text in `Audit.TextToNumber`.
- `Audit.TextToNumber`: reads only signed decimal integers and blank text. Decimal fractions, exponents, hexadecimal and `Infinity` give None here, though JS reads them as numbers. A date input's text is none of these forms.
- `Audit.AuditTrail.LoadDeals`: re-filters the rebuilt log with the corrected date stages, on or after the Date From day. The component as written keeps no entry once a Date From is set: see `Audit.DateFromEmptiesLog` and the Findings table.
- `Audit.AuditTrail.SetFilters`: re-filters the log with the corrected date stages, on or after the Date From day. The component as written keeps no entry once a Date From is set: see `Audit.DateFromEmptiesLog` and the Findings table.
- `Audit.ApplyFilters`: applies the corrected date stages, on or after the Date From day. The component as written keeps no entry once a Date From is set: see `Audit.DateFromEmptiesLog` and the Findings table.
- The Date To filter has no control in the panel, so in the component it stays null. The model keeps the field and its filter stage.
- `Insights.ScoreDeal`: the score is summed in exact reals, not IEEE-754 doubles. At a tier boundary the source's rounding can flip the result: 50 + 20/3 + 10 + 10/3 - 10 is 59.999999999999986 in doubles, so 'medium', while the model gets exactly 60 and Low.
- `Insights.Probability`: the probability is multiplied in exact reals, not doubles. 0.8 x 0.7 x 15/28 is 0.29999999999999993 in doubles, so 'high' urgency, while the model gets exactly 0.3 and Medium.
- `Insights.PredictionRules`: its urgency thresholds hold of the exact-real probability, so they share the boundary caveat of `Insights.Probability`.
- `Insights.DealScoringSpec`: the tiers and the descending order are those of the exact-real scores, with the boundary caveat of `Insights.ScoreDeal`.
- `Strings.ToLower`: lower-cases ASCII letters only. Any other character is unchanged.
- `Strings.UniqueSorted`: compares by character code, as `sort()` does only for characters inside the Basic Multilingual Plane.
- `Tally.TallyOrder`: the reducers' key order follows insertion order, as `Object.entries` does for non-numeric keys. Bank names that look like array indices would come first in JS.
- `generateOptimizationSuggestions` receives the finance managers and never uses them. The model does not take them.
- `localStorage` loading and saving of templates, `document` key listeners and `preventDefault`. The templates applied are recorded in a sequence instead.
- The `onMarkAsRead` and `onRollback` callbacks are recorded in sequences (`reported`, `rollbacks`), not called.
- Network and database calls. This covers the React Query fetches and the mutation, Prisma's `findMany`, `update` and `upsert`, `take: 500`, and ordering. The model builds the `where` and `data` objects but does not evaluate them. An upsert is the function `Env.salespersonId` / `Env.financeManagerId`, name to id.
- Spreadsheet reading (`xlsx`), sheet selection, console output and process exit in the seed script.
- `Seed.ToNumber`: JS `Number` of a trimmed string is the parameter `Env.parseNumber`.
- `Seed.ToDate`: `new Date(text)` is the parameter `Env.parseDate`. The fraction of an Excel serial beyond midnight is dropped, because dates are whole days.
- `Seed.Text`: `String(v)` of a non-text cell is the parameter `Env.show`.
- `Seed.NormType`: a lower-cased key such as "constructor" that names an `Object.prototype` member is not treated as a map hit.
- The other server routes (salespeople, finance managers, mark-funded, health) and `todayISO`.
- `Server.ParseInt`: reads unbounded integers. JS loses precision beyond 2^53.
- `Server.BuildWhere`: models the lower bound of `recentDays` as "`days` calendar days before now" (`setDate`), not as a timestamp.
- `SearchAndFilters`, `MobileLayout`, `App`, `main` and `Funding`: view composition and routing with no logic of their own.

## Findings

| source | as written | input that shows it | evidently intended | confidence | as-written member | corrected member |
|---|---|---|---|---|---|---|
| client/src/components/AuditTrail.jsx:134-136 | `new Date(entry.timestamp) >= filters.dateFrom` compares a date with the date input's raw text. `Number` of "YYYY-MM-DD" is NaN, so the comparison is false for every entry | any log with Date From set to "2024-01-15": the filtered list is empty | keep the entries on or after the chosen day | high; not executed | Audit.DateFromEmptiesLog | Audit.FilteredMember |
