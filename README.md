# Billing and clinic dashboards — a Dafny model of their data shaping

This project models the logic that shapes data in two Next.js dashboards
backed by Supabase and n8n webhooks:

- **The billing-automation dashboard.** It has these screens:
  - the overview page, with KPI cards and charts;
  - invoices, leads, e-mails and transactions;
  - two API routes, one that creates an invoice and one that triggers the
    e-mail workflow.
- **The WhatsApp doctor-appointment dashboard.** It has:
  - the appointment calendar and the recent-appointments card;
  - the analytics, appointments and patients API routes;
  - the appointments and patients pages.

The model covers status counts, revenue sums, per-source, per-month and
per-day groupings, running totals, the seven-point moving average, the
success rate, the filters and searches, bulk-lead parsing and e-mail
validation, the CSV export, the list updates each screen makes, the month
calendar grid, pagination arithmetic, and the request and response decision
tables of the routes.

Rows are Dafny datatypes. Each screen whose React state changes step by
step is a class with one field per piece of state. Its handlers are
methods with `modifies` frames, proved against specification functions,
and the properties the screens promise are lemmas about those functions.

The layout follows the source files. Each page, component and clinic
route has a module of its own (`Dashboard`, `Invoices`, `Leads`, `Emails`,
`Transactions`, `Calendar`, `Analytics`, `AppointmentsApi`, `PatientsApi`,
`AppointmentList`, `PatientList`), with three exceptions:

- `Routes` models both billing routes, `api/invoices/route.ts` and
  `api/send-email/route.ts`.
- `Clinic` holds the clinic's row types and the badge switches that
  `recent-appointments.tsx` and the appointments page both contain.
- The shared modules below hold what several files use.

| module | holds |
|---|---|
| `Rows` | the list algebra: filter, map, count, sum, dedup, tallies |
| `Text` | ASCII lower-casing, `includes`, JavaScript whitespace and `trim`, `split`/`join`, decimal text |
| `StringOrder` | JavaScript's default string `sort` |
| `Billing` | the billing row types and their counts |
| `Arith` | arithmetic facts |
| `ClinicApi` | what the appointments and patients routes share: query-string defaults, query conditions and ILIKE patterns, page windows, the page count |

Several things that depend on the outside world are parameters of the
model:

- **The clock:** `now`, `nowMs`, `nowIso`, `today`.
- **Locale formatting and number reading:** `monthName`, `dayKey`,
  `dayLabel`, `toIso`, `msOf`, `amountText`, `dateText`, and
  `amountValue`, what `Number` reads from the invoice form's amount.
- **JSON parsing:** the request body of each billing route, read as its
  record or as the error reading it throws (`Routes.Parsed`), and
  `parse`, `JSON.parse` of the invoice webhook's answer.
- **Every database or webhook answer:** a value, usually a `Fetch`, a
  `DbReply`, a `WebhookOutcome`, an `Analytics.Reply` per analytics
  query, or an `Option` standing for a row that is returned or not.

Other modelling choices:

- Money is a whole number of minor units. Averages are `real`.
- The e-mail success rate rounds the exact quotient half up,
  `(200·sent + total) div (2·total)`. The page rounds the floating-point
  product `(sent / total) * 100` instead (see Left out).
- Statuses are plain strings, so a row with an unexpected status can be
  modelled and the counting lemmas state when the counts add up exactly.

The appointments page (`dashboard/appointments/page.tsx:39-50`) holds a copy
of the status-to-badge switch from `recent-appointments.tsx:12-23`. Both are
modelled by `Clinic.StatusVariant`.

## Model

| member | source | states |
|---|---|---|
| Billing.SourceKey | ai-client-engagment-and-billing-automation/src/app/dashboard/page.tsx:140 | the group key is never empty; it is 'Unknown' exactly when the source is missing, empty or 'Unknown', and otherwise the source itself |
| Billing.AmountOf | ai-client-engagment-and-billing-automation/src/app/dashboard/page.tsx:67 | a missing amount counts as 0, a present one as itself |
| Billing.InvoiceStatusCounts | ai-client-engagment-and-billing-automation/src/app/invoices/page.tsx:107-111 | pending + paid + overdue never exceeds the number of invoices, and equals it when every status is one of the three |
| Billing.RevenueBounds | ai-client-engagment-and-billing-automation/src/app/invoices/page.tsx:103-106 | with non-negative amounts, 0 ≤ paid revenue ≤ total amount |
| Billing.RevenueAppend | ai-client-engagment-and-billing-automation/src/app/dashboard/page.tsx:65-67 | revenue distributes over concatenation, so it does not depend on how the list is split |
| Billing.EmailStatusCounts | ai-client-engagment-and-billing-automation/src/app/emails/page.tsx:54-57 | sent + pending + failed never exceeds the number of e-mails, and equals it when every status is one of the three |
| Dashboard.KpiData | ai-client-engagment-and-billing-automation/src/app/dashboard/page.tsx:62-79 | total leads is the list length; e-mails sent and pending invoices are the status counts; revenue is the sum over paid invoices (missing amount 0), between 0 and the total for non-negative amounts; the trend figures are the fixed constants whatever the data |
| Dashboard.InvoiceStatusData | ai-client-engagment-and-billing-automation/src/app/dashboard/page.tsx:132-135 | exactly three slices named pending, paid, overdue in that order, each holding its status count; the three add up to at most the list length, exactly when all statuses are known |
| Dashboard.LeadsSourceData | ai-client-engagment-and-billing-automation/src/app/dashboard/page.tsx:137-144 | one entry per distinct source key in first-occurrence order, each with a positive count equal to that key's number of leads, and the counts sum to the number of leads |
| Dashboard.MonthlyStatus | ai-client-engagment-and-billing-automation/src/app/dashboard/page.tsx:82-91 | one bucket per distinct month name in first-occurrence order (so the same month of different years merges), each holding the paid, pending and overdue counts of the invoices issued in that month |
| Dashboard.MonthTotal | ai-client-engagment-and-billing-automation/src/app/dashboard/page.tsx:84-89 | a month bucket's paid + pending + overdue is at most the number of invoices issued that month, and equal to it when every status is known |
| Dashboard.MonthBucketsAtMost | ai-client-engagment-and-billing-automation/src/app/dashboard/page.tsx:86 | there are never more buckets than month names the locale can produce |
| Dashboard.PaidDaysMembers | ai-client-engagment-and-billing-automation/src/app/dashboard/page.tsx:94-103 | the chart's days are exactly the days on which some paid invoice was issued |
| Dashboard.CumulativeRevenue | ai-client-engagment-and-billing-automation/src/app/dashboard/page.tsx:93-111 | the grouping-and-sorting steps build the cumulative series specified day by day |
| Dashboard.RunningPoints | ai-client-engagment-and-billing-automation/src/app/dashboard/page.tsx:104-109 | the `running` loop gives point j the day's revenue and, as cumulative, the sum of the revenues of days 0..j |
| Dashboard.CumulativeTelescopes | ai-client-engagment-and-billing-automation/src/app/dashboard/page.tsx:105-108 | cumulative[0] = revenue[0] and cumulative[i] = cumulative[i-1] + revenue[i] |
| Dashboard.CumulativeDays | ai-client-engagment-and-billing-automation/src/app/dashboard/page.tsx:103 | one point per distinct paid day, with the days strictly ascending |
| Dashboard.CumulativeEndsAtRevenue | ai-client-engagment-and-billing-automation/src/app/dashboard/page.tsx:93-111 | the last cumulative value equals the KPI revenue (and an empty chart means zero revenue) |
| Dashboard.MovingAverageWindow | ai-client-engagment-and-billing-automation/src/app/dashboard/page.tsx:124-128 | ma[i] is the mean of the last min(i+1, 7) values ending at i |
| Dashboard.MovingAverageFirst | ai-client-engagment-and-billing-automation/src/app/dashboard/page.tsx:125-127 | ma[0] equals the first value |
| Dashboard.MovingAverageSlide | ai-client-engagment-and-billing-automation/src/app/dashboard/page.tsx:124-128 | once the window is full, each step adds the new value and drops the one seven back, each divided by 7 |
| Dashboard.MovingAverageBounds | ai-client-engagment-and-billing-automation/src/app/dashboard/page.tsx:124-128 | every average lies within any bounds lo..hi that all the daily values lie within |
| Dashboard.EmailDaysMembers | ai-client-engagment-and-billing-automation/src/app/dashboard/page.tsx:114-120 | the chart's days are exactly the days on which some e-mail was created, whatever its status |
| Dashboard.DailyEmails | ai-client-engagment-and-billing-automation/src/app/dashboard/page.tsx:113-130 | the grouping loop builds the daily series specified by day, sent count and moving average |
| Dashboard.DailyDays | ai-client-engagment-and-billing-automation/src/app/dashboard/page.tsx:120-121 | one row per distinct creation day, days strictly ascending, and ma7 has the series' length |
| Dashboard.QuietDay | ai-client-engagment-and-billing-automation/src/app/dashboard/page.tsx:117-118 | a day whose e-mails are all pending or failed still appears, with sent = 0 |
| Dashboard.DailySentTotal | ai-client-engagment-and-billing-automation/src/app/dashboard/page.tsx:113-121 | the daily sent counts sum to the KPI's e-mails sent |
| Invoices.DisplayShort | ai-client-engagment-and-billing-automation/src/app/invoices/page.tsx:48-52 | '-' for a missing value, otherwise the prefix of length min(length, 8) |
| Invoices.StatsInvariants | ai-client-engagment-and-billing-automation/src/app/invoices/page.tsx:101-113 | total is the list length; paid + pending + overdue ≤ total, equal when statuses are known; with non-negative amounts 0 ≤ paidAmount ≤ totalAmount |
| Invoices.ComputeStats | ai-client-engagment-and-billing-automation/src/app/invoices/page.tsx:101-113 | the reducer loop, one invoice at a time, ends with the stats of the whole list |
| Invoices.FilteredInvoicesSpec | ai-client-engagment-and-billing-automation/src/app/invoices/page.tsx:139-144 | an order-preserving subsequence; an invoice is kept iff the filter is 'all' or its status, and the trimmed search is blank or occurs, ignoring case, in its id or lead id |
| Invoices.SearchAdmitsIff | ai-client-engagment-and-billing-automation/src/app/invoices/page.tsx:141-143 | the search predicate, stated without the lower-casing and trimming steps |
| Invoices.FilteredInvoicesAll | ai-client-engagment-and-billing-automation/src/app/invoices/page.tsx:140 | filter 'all' with a blank search keeps every invoice |
| Invoices.FilteredInvoicesBlankSearch | ai-client-engagment-and-billing-automation/src/app/invoices/page.tsx:141 | a whitespace-only search reduces to the status filter alone |
| Invoices.MarkPaidEffect | ai-client-engagment-and-billing-automation/src/app/invoices/page.tsx:155-157 | same length; rows with the id become 'paid' with paid_at = now and are otherwise unchanged; every other row is untouched |
| Invoices.MarkPaidIdempotent | ai-client-engagment-and-billing-automation/src/app/invoices/page.tsx:155-157 | marking the same id paid twice is the same as once |
| Invoices.MarkPaidCount | ai-client-engagment-and-billing-automation/src/app/invoices/page.tsx:155-157 | the paid count rises by exactly the rows with that id that were not already paid |
| Invoices.DeleteRowsSpec | ai-client-engagment-and-billing-automation/src/app/invoices/page.tsx:171 | an order-preserving subsequence holding exactly the rows with another id, shorter by the number of rows with that id |
| Invoices.CreateError | ai-client-engagment-and-billing-automation/src/app/invoices/page.tsx:190-199 | 'Please fill all required fields.' iff lead, amount text, currency or due date is missing; otherwise 'Amount must be a positive number.' iff the amount is NaN or ≤ 0; no error iff both guards pass |
| Invoices.PayloadOf | ai-client-engagment-and-billing-automation/src/app/invoices/page.tsx:204-211 | the request carries the form's lead, currency and parsed amount, status 'pending', the due date as an ISO timestamp, and issued_at as the typed date's ISO timestamp or, when blank, now |
| Invoices.FailureMessage | ai-client-engagment-and-billing-automation/src/app/invoices/page.tsx:219-230 | a non-empty message: the server's error or the thrown message when there is one, a fixed fallback otherwise |
| Invoices.InvoicesPage.constructor | ai-client-engagment-and-billing-automation/src/app/invoices/page.tsx:62-80 | the screen starts empty: no rows or leads, zero stats, filter 'all', dialogs closed, a blank form |
| Invoices.InvoicesPage.LoadInvoices | ai-client-engagment-and-billing-automation/src/app/invoices/page.tsx:83-119 | an error empties the list and zeroes every stat; otherwise the rows (none read as empty) and their stats; nothing else changes |
| Invoices.InvoicesPage.LoadLeads | ai-client-engagment-and-billing-automation/src/app/invoices/page.tsx:122-136 | the lead choices become the rows read, or empty on error; nothing else changes |
| Invoices.InvoicesPage.MarkAsPaid | ai-client-engagment-and-billing-automation/src/app/invoices/page.tsx:147-159 | a failed update changes nothing; a successful one marks the rows with that id paid; stats are not recomputed either way |
| Invoices.InvoicesPage.AskDelete | ai-client-engagment-and-billing-automation/src/app/invoices/page.tsx:424 | remembers the invoice and opens the confirmation, touching nothing else |
| Invoices.InvoicesPage.DeleteInvoice | ai-client-engagment-and-billing-automation/src/app/invoices/page.tsx:162-175 | with no invoice selected or a failed delete the list is unchanged; otherwise exactly the rows with that id are removed |
| Invoices.InvoicesPage.HandleCreate | ai-client-engagment-and-billing-automation/src/app/invoices/page.tsx:186-234 | a validation error is shown and no request is sent; otherwise the payload is sent, a created invoice is prepended and the dialog reset, and a refused or failed request shows its message |
| Leads.LeadStats | ai-client-engagment-and-billing-automation/src/app/leads/page.tsx:74-81 | total is the list length; one positive count per distinct source key ('Unknown' for a missing or empty source), in first-occurrence order, summing to total |
| Leads.OrEmpty | ai-client-engagment-and-billing-automation/src/app/leads/page.tsx:200 | a missing field reads as '' |
| Leads.ValidEmailIff | ai-client-engagment-and-billing-automation/src/app/leads/page.tsx:161 | the executable e-mail check accepts exactly the strings the regular expression `^[^\s@]+@[^\s@]+\.[^\s@]+$` matches |
| Leads.ValidEmailSound | ai-client-engagment-and-billing-automation/src/app/leads/page.tsx:161 | an accepted address matches the pattern |
| Leads.ValidEmailComplete | ai-client-engagment-and-billing-automation/src/app/leads/page.tsx:161 | an address matching the pattern is accepted |
| Leads.ParseLinesChain | ai-client-engagment-and-billing-automation/src/app/leads/page.tsx:155-159 | the parser is the source's chain: drop blank lines, map each to a lead, keep those with a name and an e-mail |
| Leads.ParseBulkRoundTrip | ai-client-engagment-and-billing-automation/src/app/leads/page.tsx:155-159 | well-formed name/e-mail/company entries joined by newlines parse back to the same leads, company defaulted and source 'bulk' |
| Leads.ParseBulkSkipsBlank | ai-client-engagment-and-billing-automation/src/app/leads/page.tsx:155 | a whitespace-only line contributes nothing |
| Leads.ParseBulkLength | ai-client-engagment-and-billing-automation/src/app/leads/page.tsx:155-159 | at most one lead per line |
| Leads.ParseBulkShape | ai-client-engagment-and-billing-automation/src/app/leads/page.tsx:157-159 | every parsed lead has a non-empty name and e-mail, a company and source 'bulk' |
| Leads.BulkOutcomeSplit | ai-client-engagment-and-billing-automation/src/app/leads/page.tsx:161-162 | valid + errors = parsed; every valid lead matches the pattern; the errors are 'Invalid email: ' plus each rejected address, in order |
| Leads.CsvLeadsSpec | ai-client-engagment-and-billing-automation/src/app/leads/page.tsx:118-124 | one lead per row with a name and an e-mail, and only those; company defaults to '', source to 'CSV', and a given source is kept |
| Leads.FilteredLeadsSpec | ai-client-engagment-and-billing-automation/src/app/leads/page.tsx:194-206 | an order-preserving subsequence holding exactly the leads matching the search (name, e-mail or company, ignoring case) and the company and source filters (substrings, ignoring case) |
| Leads.FilteredLeadsNoFilter | ai-client-engagment-and-billing-automation/src/app/leads/page.tsx:197-203 | empty search, company and source filters keep every lead |
| Leads.FilteredLeadsCaseBlind | ai-client-engagment-and-billing-automation/src/app/leads/page.tsx:196-203 | lower-casing the filter texts does not change the result |
| Leads.FilteredLeadsNarrow | ai-client-engagment-and-billing-automation/src/app/leads/page.tsx:202-203 | adding company or source filters only narrows the list |
| Leads.ReplaceByIdOne | ai-client-engagment-and-billing-automation/src/app/leads/page.tsx:405 | with unique ids, replacing by the id of row k changes row k only |
| Leads.ReplaceByIdSpec | ai-client-engagment-and-billing-automation/src/app/leads/page.tsx:405 | same length; rows with the id become the updated row, others are kept where they were |
| Leads.LeadsPage.constructor | ai-client-engagment-and-billing-automation/src/app/leads/page.tsx:37-59 | the screen starts with no leads, blank filters and form, and every dialog closed |
| Leads.LeadsPage.Load | ai-client-engagment-and-billing-automation/src/app/leads/page.tsx:62-67 | the list becomes the rows read, a missing answer reading as empty |
| Leads.LeadsPage.AddManually | ai-client-engagment-and-billing-automation/src/app/leads/page.tsx:84-107 | the typed lead is sent stamped with now; a stored row is prepended and the dialog closed and cleared; after an error nothing changes |
| Leads.LeadsPage.ImportCsv | ai-client-engagment-and-billing-automation/src/app/leads/page.tsx:110-151 | the usable CSV rows are sent; the stored rows are prepended in the order returned; nothing changes when there were none or the insert failed |
| Leads.LeadsPage.BulkAdd | ai-client-engagment-and-billing-automation/src/app/leads/page.tsx:154-191 | only the valid leads are sent; with none the banner reports 0 and the errors and no insert happens; a stored batch is prepended, the banner counts it and the text box is cleared; a failed insert changes nothing |
| Leads.LeadsPage.CloseBulk | ai-client-engagment-and-billing-automation/src/app/leads/page.tsx:536 | the paste dialog closes and the banner is cleared |
| Leads.LeadsPage.SendEmail | ai-client-engagment-and-billing-automation/src/app/leads/page.tsx:388-410 | when the store returns the updated row, exactly the leads with that id are replaced by it; otherwise the list is unchanged |
| Emails.SuccessRateRounds | ai-client-engagment-and-billing-automation/src/app/emails/page.tsx:58 | for a non-empty list the rate is within half a point of the exact 100·sent/total, a half rounding up |
| Emails.SuccessRateBounds | ai-client-engagment-and-billing-automation/src/app/emails/page.tsx:58 | the rate is at most 100, 0 when nothing was sent or the list is empty, 100 when everything was sent |
| Emails.StatsInvariants | ai-client-engagment-and-billing-automation/src/app/emails/page.tsx:53-61 | total is the length; sent + pending + failed ≤ total, equal when statuses are known; 0 ≤ successRate ≤ 100, 0 for an empty list |
| Emails.FilterEmails | ai-client-engagment-and-billing-automation/src/app/emails/page.tsx:64-81 | the two reassignments of `filtered` give the specified filtered list |
| Emails.FilteredEmailsSpec | ai-client-engagment-and-billing-automation/src/app/emails/page.tsx:64-81 | an order-preserving subsequence holding exactly the e-mails that pass both the status and the search filter |
| Emails.FilteredEmailsNoFilter | ai-client-engagment-and-billing-automation/src/app/emails/page.tsx:67-71 | status 'all' and an empty search keep every e-mail |
| Emails.FilteredEmailsStatus | ai-client-engagment-and-billing-automation/src/app/emails/page.tsx:67-69 | with no search and a status other than 'all', only exact status matches remain |
| Emails.NullLeadSearch | ai-client-engagment-and-billing-automation/src/app/emails/page.tsx:71-78 | an e-mail without a lead id matches a search only through its subject or body |
| Emails.RetryRows | ai-client-engagment-and-billing-automation/src/app/emails/page.tsx:116 | the retried list keeps its length |
| Emails.RetryEffect | ai-client-engagment-and-billing-automation/src/app/emails/page.tsx:116 | rows with the id get status 'pending' and nothing else changes; other rows are untouched |
| Emails.RetryCount | ai-client-engagment-and-billing-automation/src/app/emails/page.tsx:116 | the pending count rises by the rows with the id that were not pending, and retrying twice equals retrying once |
| Emails.EmailsPage.constructor | ai-client-engagment-and-billing-automation/src/app/emails/page.tsx:31-37 | no e-mails, search empty, status 'all', nothing being retried |
| Emails.EmailsPage.Load | ai-client-engagment-and-billing-automation/src/app/emails/page.tsx:39-50 | the list becomes the rows read, a missing answer reading as empty |
| Emails.EmailsPage.Retry | ai-client-engagment-and-billing-automation/src/app/emails/page.tsx:112-120 | unless the update throws, the rows with the id become pending whatever the store answered; the busy marker is cleared either way |
| Transactions.BuildQuery | ai-client-engagment-and-billing-automation/src/app/transactions/page.tsx:48-84 | the switch and ifs build the date conditions followed by the payment-method condition |
| Transactions.QueryMeaning | ai-client-engagment-and-billing-automation/src/app/transactions/page.tsx:52-84 | a row passes iff it is no older than now − N days for '7d', '30d', '90d', within the given custom bounds for 'custom', unbounded otherwise, and paid by the chosen method when one is chosen |
| Transactions.PresetBounds | ai-client-engagment-and-billing-automation/src/app/transactions/page.tsx:52-65 | '7d', '30d' and '90d' give one lower bound of now − N·86 400 000 ms; 'all' gives none |
| Transactions.StatsSpec | ai-client-engagment-and-billing-automation/src/app/transactions/page.tsx:99-108 | total is the length; average × count = total amount; an empty list has average 0 and total 0 |
| Transactions.StatsMeanBounds | ai-client-engagment-and-billing-automation/src/app/transactions/page.tsx:100-101 | the average lies between the least and greatest amount |
| Transactions.FilteredTransactionsSpec | ai-client-engagment-and-billing-automation/src/app/transactions/page.tsx:111-121 | an empty search returns the list itself; otherwise an order-preserving subsequence of exactly the rows whose id, invoice id, payment method or currency contains the search, ignoring case |
| Transactions.MethodText | ai-client-engagment-and-billing-automation/src/app/transactions/page.tsx:144 | a missing or empty payment method is written 'N/A' |
| Transactions.Cells | ai-client-engagment-and-billing-automation/src/app/transactions/page.tsx:139-146 | one cell per header |
| Transactions.Table | ai-client-engagment-and-billing-automation/src/app/transactions/page.tsx:138-148 | the header row followed by one row per transaction in list order |
| Transactions.LineRoundTrip | ai-client-engagment-and-billing-automation/src/app/transactions/page.tsx:149 | a line of quoted cells has no line break and reads back to its cells |
| Transactions.CsvRoundTrip | ai-client-engagment-and-billing-automation/src/app/transactions/page.tsx:137-150 | for cells free of quotes, commas and line breaks, the exported text reads back to the header row and one row per transaction |
| Transactions.TransactionsPage.constructor | ai-client-engagment-and-billing-automation/src/app/transactions/page.tsx:29-39 | no transactions, empty search and method, date range '30d', no custom bounds |
| Transactions.TransactionsPage.Query | ai-client-engagment-and-billing-automation/src/app/transactions/page.tsx:41-84 | the query sent is the one the current filters specify |
| Transactions.TransactionsPage.Receive | ai-client-engagment-and-billing-automation/src/app/transactions/page.tsx:86-90 | the list is replaced only by a successful answer with rows; otherwise it stays as it was |
| Routes.InvoicePayloadOf | ai-client-engagment-and-billing-automation/src/app/api/invoices/route.ts:28-35 | the payload carries exactly lead, amount, currency and due date from the request, issued_at defaulting to now and status to 'pending' |
| Routes.PostInvoiceTable | ai-client-engagment-and-billing-automation/src/app/api/invoices/route.ts:4-58 | an unreadable request body gives 500; a falsy required field (amount 0 included) gives 400 'Missing required fields' and no webhook call; a missing webhook URL gives 500 and no call; otherwise exactly the defaulted payload is sent; 200 with `{ invoice }` exactly when the webhook answered ok with a body that parses as JSON (the parsed value is the invoice); every other outcome is a 500 |
| Routes.PostInvoiceFailures | ai-client-engagment-and-billing-automation/src/app/api/invoices/route.ts:24-56 | each 500 says why: the request body's parse error, 'n8n webhook URL not configured' without a URL, the refusal with the webhook's text as details, the ok answer's JSON parse error, or the call's thrown message ('Unknown error' when a message is empty) |
| Routes.ScreenAcceptsRouteAccepts | ai-client-engagment-and-billing-automation/src/app/api/invoices/route.ts:24-26 | a request the invoices screen lets through is never refused by the route's required-field check, and the route forwards it with the same lead and status 'pending' |
| Routes.MessageOr | ai-client-engagment-and-billing-automation/src/app/api/invoices/route.ts:56 | an empty error message falls back to the default |
| Routes.PostSendEmailTable | ai-client-engagment-and-billing-automation/src/app/api/send-email/route.ts:4-40 | an unreadable request body gives 500 with its error ('Unknown error' when empty); a lead without id, e-mail or name gives 400 'Invalid lead payload'; no webhook gives `{ ok: true }`; an ok answer `{ ok: true }`, a refused one 500 'Failed to trigger webhook', a throw 500 with its message ('Webhook error' when empty); the lead is forwarded exactly when valid and a webhook is configured |
| Calendar.DaysInMonth | whatsapp-doctor-appointment-ai-system/src/components/dashboard/appointment-calendar.tsx:36-38 | between 28 and 31 days; February has 29 exactly in leap years |
| Calendar.Weekday | whatsapp-doctor-appointment-ai-system/src/components/dashboard/appointment-calendar.tsx:39 | a weekday index below 7 (0 = Sunday) |
| Calendar.LastDayIsDayZeroOfNext | whatsapp-doctor-appointment-ai-system/src/components/dashboard/appointment-calendar.tsx:36 | day 0 of the next month is the last day of this one, so `getDate` of it is the month's length |
| Calendar.FirstWeekdayStep | whatsapp-doctor-appointment-ai-system/src/components/dashboard/appointment-calendar.tsx:35-39 | the next month starts as many weekdays later as this month has days, modulo 7 |
| Calendar.MonthsMakeYear | whatsapp-doctor-appointment-ai-system/src/components/dashboard/appointment-calendar.tsx:36 | the twelve month lengths add up to the year's length |
| Calendar.GetCalendarDays | whatsapp-doctor-appointment-ai-system/src/components/dashboard/appointment-calendar.tsx:32-67 | the two push loops build the specified grid |
| Calendar.GridLayout | whatsapp-doctor-appointment-ai-system/src/components/dashboard/appointment-calendar.tsx:41-64 | length = first weekday + days in month (at most 37); the leading cells are empty ('' date, day 0, no appointments); then days 1..n in order |
| Calendar.DateStringDay | whatsapp-doctor-appointment-ai-system/src/components/dashboard/appointment-calendar.tsx:55 | the cell's date is year, '-', month and day each zero-padded to two digits |
| Calendar.DateStringInjective | whatsapp-doctor-appointment-ai-system/src/components/dashboard/appointment-calendar.tsx:55 | distinct days of a month have distinct date strings |
| Calendar.CellContents | whatsapp-doctor-appointment-ai-system/src/components/dashboard/appointment-calendar.tsx:54-63 | a day cell holds the appointments whose date is its string, in list order, and only those |
| Calendar.AtMostOneCell | whatsapp-doctor-appointment-ai-system/src/components/dashboard/appointment-calendar.tsx:56 | an appointment appears in at most one cell |
| Calendar.AppointmentPlaced | whatsapp-doctor-appointment-ai-system/src/components/dashboard/appointment-calendar.tsx:54-63 | an appointment dated on day d of the month is in the cell at offset + d − 1 |
| Calendar.Shown | whatsapp-doctor-appointment-ai-system/src/components/dashboard/appointment-calendar.tsx:118 | at most two appointments are shown, the first ones of the cell, all of them when there are at most two |
| Calendar.MoreCount | whatsapp-doctor-appointment-ai-system/src/components/dashboard/appointment-calendar.tsx:127-131 | '+n more' appears exactly when the cell holds more than two, with n = count − 2, so shown + n = count |
| Calendar.NextMonth | whatsapp-doctor-appointment-ai-system/src/components/dashboard/appointment-calendar.tsx:88 | one month later, rolling December over into January of the next year |
| Calendar.PrevMonth | whatsapp-doctor-appointment-ai-system/src/components/dashboard/appointment-calendar.tsx:79 | one month earlier, rolling January back into December of the previous year |
| Calendar.NavigationInverse | whatsapp-doctor-appointment-ai-system/src/components/dashboard/appointment-calendar.tsx:79-88 | next then previous, or previous then next, returns to the same month |
| Calendar.CalendarView.Prev | whatsapp-doctor-appointment-ai-system/src/components/dashboard/appointment-calendar.tsx:79 | the view moves one month back |
| Calendar.CalendarView.Next | whatsapp-doctor-appointment-ai-system/src/components/dashboard/appointment-calendar.tsx:88 | the view moves one month forward |
| Calendar.CalendarView.Load | whatsapp-doctor-appointment-ai-system/src/components/dashboard/appointment-calendar.tsx:22-30 | a finished fetch replaces the appointments (missing reads as empty); a failed one keeps the previous list |
| Clinic.StatusVariant | whatsapp-doctor-appointment-ai-system/src/components/dashboard/recent-appointments.tsx:12-23 | Confirmed ↦ default, Cancelled ↦ destructive, Completed ↦ secondary, each in both directions, and every other status ↦ outline |
| Clinic.PaymentVariant | whatsapp-doctor-appointment-ai-system/src/components/dashboard/recent-appointments.tsx:25-36 | Paid ↦ default, Refunded ↦ destructive, everything else (Pending included) ↦ outline; never secondary |
| Clinic.PatientName | whatsapp-doctor-appointment-ai-system/src/components/dashboard/recent-appointments.tsx:50 | the patient's name when present and non-empty, otherwise 'Unknown Patient'; never empty |
| ClinicApi.ParamOr | whatsapp-doctor-appointment-ai-system/src/app/api/appointments/route.ts:13-14 | a missing or empty parameter gives the default |
| ClinicApi.Param | whatsapp-doctor-appointment-ai-system/src/app/api/appointments/route.ts:9-10 | `get` answers the value exactly when the parameter is present |
| ClinicApi.IntParam | whatsapp-doctor-appointment-ai-system/src/app/api/appointments/route.ts:11-12 | a given numeric parameter is its decimal value, a missing or empty one the default |
| ClinicApi.WindowsContiguous | whatsapp-doctor-appointment-ai-system/src/app/api/appointments/route.ts:40-41 | each window spans `limit` positions and page p+1 starts right after page p ends |
| ClinicApi.WindowsDisjoint | whatsapp-doctor-appointment-ai-system/src/app/api/patients/route.ts:20-21 | with a positive limit, an earlier page's window ends before a later page's begins |
| ClinicApi.PageOfRow | whatsapp-doctor-appointment-ai-system/src/app/api/patients/route.ts:20-21 | every row position falls in the window of page ⌊i/limit⌋ + 1 |
| ClinicApi.PagesCover | whatsapp-doctor-appointment-ai-system/src/app/api/appointments/route.ts:40-43 | pages 1..k together return exactly the first limit·k rows, in order |
| ClinicApi.TotalPages | whatsapp-doctor-appointment-ai-system/src/app/api/appointments/route.ts:53 | ceil(count/limit): count ≤ limit·pages < count + limit, 0 pages exactly for 0 rows; no number (JavaScript's NaN or Infinity) for limit 0 |
| ClinicApi.AllPages | whatsapp-doctor-appointment-ai-system/src/app/api/patients/route.ts:30-35 | pages 1..totalPages return every row, in order |
| ClinicApi.SelectsAppend | whatsapp-doctor-appointment-ai-system/src/app/api/appointments/route.ts:32-38 | chaining filters on a query selects the rows passing both |
| AppointmentsApi.BuildQuery | whatsapp-doctor-appointment-ai-system/src/app/api/appointments/route.ts:16-41 | the reassignments of `query` give the specified ordering, conditions and range |
| AppointmentsApi.ConditionsMeaning | whatsapp-doctor-appointment-ai-system/src/app/api/appointments/route.ts:32-38 | a row is selected iff its date equals the given date (when one is given) and its status the given status (unless none or 'all') |
| AppointmentsApi.Get | whatsapp-doctor-appointment-ai-system/src/app/api/appointments/route.ts:4-68 | defaults page 1, limit 10, sort created_at descending; created_at sorts ascending iff 'asc', anything else by date then time descending; the window and page count; a store error gives 500 with its message, a throw 500 'Internal server error' with details |
| PatientsApi.BuildQuery | whatsapp-doctor-appointment-ai-system/src/app/api/patients/route.ts:11-21 | newest first, the optional search, and the page range |
| PatientsApi.ConditionsMeaning | whatsapp-doctor-appointment-ai-system/src/app/api/patients/route.ts:14-18 | a non-empty search selects exactly the patients whose name or number matches `%search%` under ILIKE, each `*` read as `%`; no search selects all |
| PatientsApi.PlainSearchMeaning | whatsapp-doctor-appointment-ai-system/src/app/api/patients/route.ts:14-18 | a search without `%`, `_`, `*` or a backslash selects exactly the patients whose name or number contains it, ignoring case |
| PatientsApi.UnderscoreIsWildcard | whatsapp-doctor-appointment-ai-system/src/app/api/patients/route.ts:17 | the search is not escaped: `_` selects every patient with a non-empty name, though no such name contains `_` |
| ClinicApi.IlikePrefix | whatsapp-doctor-appointment-ai-system/src/app/api/patients/route.ts:17 | for a plain text, `text%` matches exactly the values starting with it, ignoring case |
| ClinicApi.IlikeContains | whatsapp-doctor-appointment-ai-system/src/app/api/patients/route.ts:17 | for a plain text, `%text%` matches exactly the values containing it, ignoring case |
| ClinicApi.IlikePatternPlain | whatsapp-doctor-appointment-ai-system/src/app/api/patients/route.ts:17 | a plain search's filter pattern is a case-insensitive substring test |
| ClinicApi.IlikeAnyRest | whatsapp-doctor-appointment-ai-system/src/app/api/patients/route.ts:17 | a `%` matches every value |
| PatientsApi.Get | whatsapp-doctor-appointment-ai-system/src/app/api/patients/route.ts:4-39 | defaults page 1 and limit 10; rows, count (null as 0), pages and page on success; a store error gives 500 with its message, a throw 500 'Internal server error' |
| Analytics.StatusCountsBound | whatsapp-doctor-appointment-ai-system/src/app/api/analytics/route.ts:49-53 | Confirmed + Completed + Cancelled ≤ the number of status rows, equal when no other status occurs |
| Analytics.GenderCountsBound | whatsapp-doctor-appointment-ai-system/src/app/api/analytics/route.ts:62-65 | Male + Female ≤ the number of gender rows |
| Analytics.AnalyticsFailure | whatsapp-doctor-appointment-ai-system/src/app/api/analytics/route.ts:98-103 | the answer is 500 exactly when some query failed |
| Analytics.AnalyticsAnswers | whatsapp-doctor-appointment-ai-system/src/app/api/analytics/route.ts:11-96 | with no query failed, each figure comes from its own query's answer: the three counts as given (null as 0), revenue = 50 × the paid rows returned, the Confirmed, Completed, Cancelled entries counting the status rows and the Male, Female entries the gender rows, each list's sum bounded by its rows, the constant charts, and the same answer whatever `range` is |
| Analytics.CountColumn | whatsapp-doctor-appointment-ai-system/src/app/api/analytics/route.ts:43-65 | counting a value in a selected column counts the rows holding it |
| Analytics.AnalyticsReport | whatsapp-doctor-appointment-ai-system/src/app/api/analytics/route.ts:4-96 | when the six queries read one state of the tables with no row cap: the totals are the table sizes, today's count the confirmed appointments dated today, revenue = 50 × paid appointments, each status and gender entry the rows with that value, the status sum equal to the appointments when all statuses are known |
| Analytics.AnalyticsNulls | whatsapp-doctor-appointment-ai-system/src/app/api/analytics/route.ts:69-71 | a query answering null counts as 0 |
| AppointmentList.SearchMatches | whatsapp-doctor-appointment-ai-system/src/app/dashboard/appointments/page.tsx:33-34 | a row without a patient matches only through its WhatsApp number; an empty search matches everything |
| AppointmentList.FilteredAppointmentsSpec | whatsapp-doctor-appointment-ai-system/src/app/dashboard/appointments/page.tsx:32-37 | an order-preserving subsequence holding exactly the rows matching search and status ('all' admits any); empty search with 'all' keeps everything |
| PatientList.PatientMatches | whatsapp-doctor-appointment-ai-system/src/app/dashboard/patients/page.tsx:43-47 | an empty search matches; a number or id containing the search matches |
| PatientList.FilteredPatientsSpec | whatsapp-doctor-appointment-ai-system/src/app/dashboard/patients/page.tsx:43-47 | an order-preserving subsequence holding exactly the matching patients; an empty search keeps all |
| PatientList.ParseIntRoundTrip | whatsapp-doctor-appointment-ai-system/src/app/dashboard/patients/page.tsx:58 | `parseInt` of an integer's decimal text gives the integer back |
| PatientList.EditUnchanged | whatsapp-doctor-appointment-ai-system/src/app/dashboard/patients/page.tsx:96-123 | saving an edit without touching the form sends the patient's own name, age, gender and number |
| PatientList.PatientsPage.constructor | whatsapp-doctor-appointment-ai-system/src/app/dashboard/patients/page.tsx:11-23 | no patients, empty search, form hidden and blank, nobody being edited |
| PatientList.PatientsPage.Load | whatsapp-doctor-appointment-ai-system/src/app/dashboard/patients/page.tsx:29-41 | a successful fetch replaces the list (missing as empty); a failed one keeps it |
| PatientList.PatientsPage.OpenForm | whatsapp-doctor-appointment-ai-system/src/app/dashboard/patients/page.tsx:151 | the form is shown |
| PatientList.PatientsPage.StartEdit | whatsapp-doctor-appointment-ai-system/src/app/dashboard/patients/page.tsx:114-123 | remembers the patient, fills the form from it with the age in decimal, and shows the form |
| PatientList.PatientsPage.CancelForm | whatsapp-doctor-appointment-ai-system/src/app/dashboard/patients/page.tsx:125-129 | hides the form, forgets the patient and blanks every field |
| PatientList.PatientsPage.Submit | whatsapp-doctor-appointment-ai-system/src/app/dashboard/patients/page.tsx:49-112 | an edit of the remembered patient when there is one, an add otherwise; an accepted add blanks and hides the form; an accepted edit forgets the patient and blanks the form but leaves its visibility; a refused request changes nothing |
| StringOrder.SortedGroups | ai-client-engagment-and-billing-automation/src/app/dashboard/page.tsx:98-103 | the day keys come out deduplicated and in JavaScript's sort order, each with its accumulated amount |
| StringOrder.AscendingUnique | ai-client-engagment-and-billing-automation/src/app/dashboard/page.tsx:103 | two strictly ascending lists with the same members are equal, so the sorted key order is determined by the key set alone |
| Text.TrimSpec | ai-client-engagment-and-billing-automation/src/app/invoices/page.tsx:141 | `trim` removes exactly the leading and trailing JavaScript whitespace |
| Text.SplitJoin | ai-client-engagment-and-billing-automation/src/app/leads/page.tsx:155-157 | splitting a join of separator-free pieces gives the pieces back |
| Text.JoinSplit | ai-client-engagment-and-billing-automation/src/app/leads/page.tsx:155-157 | joining the pieces of a split restores the text, so no character of a line is lost |
| Text.Pad2Injective | whatsapp-doctor-appointment-ai-system/src/components/dashboard/appointment-calendar.tsx:55 | two-digit zero padding of numbers below 100 is injective |

## Left out

- Rendering, styling and React hooks. `useState` lists are class fields and `useMemo` values are functions of them; dialogs, icons, loading spinners and toasts are not modelled.
- Supabase and n8n I/O. Every query, insert, update and webhook call is an input to the operation (the rows, the error, the thrown message), not a call. The `Promise.all` fan-out of send-email requests after an import (leads/page.tsx) is left out, since its result is ignored.
- CSV reading with Papa.parse. Only the mapping after parsing is modelled.
- The clock and locale formatting (`new Date()`, `Date.now()`, `toISOString`, `toLocaleString`, date-fns `format`). They are parameters of the functions that use them.
- Floating point. Amounts are integers in minor units. Averages and the moving average are exact reals, and the `toFixed(2)` rounding of the moving average is dropped.
- Integer-like keys, which JavaScript objects enumerate first. Grouping keys are taken in first-occurrence order, which is what the source gets for the non-numeric keys it uses.
- Unicode case mapping. `toLowerCase` is modelled on ASCII letters only.
- `Date` with years 0–99. JavaScript maps such years to the 1900s; the calendar uses the proleptic Gregorian day count for every year.
- Malformed numeric query parameters. The clinic routes are modelled for absent or all-digit `page` and `limit`, so `parseInt` never yields NaN there.
- Dashboard.CumulativeRevenue: the sort of paid invoices by date before grouping is not modelled. Sums are independent of order and the day keys are sorted afterwards, so the chart is the same.
- Dashboard.MonthlyStatus: a status other than paid, pending or overdue adds an extra counter to its month's bucket in the source. The model keeps only the three named counters. A status of `month` is a special case (dashboard/page.tsx:87): the source overwrites the bucket's label with the label followed by 1 (`Jan` becomes `Jan1`), and the model keeps the label.
- Dashboard.LeadsSourceData: the source counts into a plain object (dashboard/page.tsx:138-143), whose lookups also find the properties inherited from `Object.prototype`. A lead whose source is `__proto__` is dropped: the assignment of the string `"[object Object]1"` to `__proto__` is ignored, so no entry appears. A source such as `constructor`, `toString`, `valueOf` or `hasOwnProperty` gets a string count (the function's text followed by 1), not a number. The model counts such sources like any other, so its `count == Tally` and its sum of counts equal to the number of leads hold only when no source names an `Object.prototype` property.
- Leads.LeadStats: `bySource` at leads/page.tsx:75-79 has the same `Object.prototype` gap as `Dashboard.LeadsSourceData`. A `__proto__` source is missing from it, and a `constructor`-like source has a string count. The model's per-source counts hold only for other source names. The CSV import (leads/page.tsx:155-162) keeps any source the file gives, so such names can occur.
- The clinic's mock-data analytics page, the sidebars, badges, stat cards, Supabase client and middleware plumbing, and the static landing page are not part of this model.
- Deleting a patient (patients/page.tsx) only sends a request and refetches, so it changes no local state beyond what `PatientsPage.Load` models.
- The calendar fetches `/api/appointments` with no parameters, which returns only the first ten rows. The model takes that list as given.
- Emails.SuccessRate: the model rounds the exact quotient half up, while the page applies `Math.round` to the floating-point product `(sent / total) * 100`. Where the exact value is a half that the product misses from below, the page shows one point less. For example, 23 of 40 gives 57 on the page and 58 in the model.
- PatientsApi.ConditionsMeaning: a search containing `,`, `(` or `)` breaks the syntax of the `.or(...)` filter, because the search is put into it unescaped. The store then rejects the query and the route answers 500 with the store's message. The model sees that only as the `reply` it is given, so the ILIKE meaning holds for searches without those characters.
- ConditionsMeaning: it states ILIKE matching for every search, with `%`, `_` and `*` as wildcards and the backslash as escape (`ClinicApi.Ilike`). The plain substring reading, given by `PatientsApi.PlainSearchMeaning`, holds only for searches without those characters.
- Analytics.AnalyticsGet: the six queries are separate requests, so they may read different states of the tables, and the three row selects are subject to the store's row cap. Each query's answer is a separate input (`Analytics.Replies`), so nothing ties them to one another.
- Analytics.AnalyticsReport: it holds only for replies read from one state of the tables with no row cap (`Analytics.FromTables`). The route itself guarantees neither.
- PostInvoiceTable: the 200 case requires the webhook's ok body to parse as JSON. `parse` stands for `JSON.parse`, a parameter, so which texts parse is not modelled.
- Routes: `createClientForServer()` runs first in both billing routes, and its result is unused. Its possible throw, which would give a 500 through the outer `catch`, is not modelled.
