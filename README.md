# RFP and order pipeline dashboard: a Dafny model

This project models the logic of a sales dashboard for requests for proposal (RFPs). Each RFP
record moves through submission, quotation, order and delivery. The dashboard works out
headline metrics, a stage funnel, team rollups and quote and delivery delays. It also
offers a filterable pipeline table, a team page with a rating for each team and the top
performer, and a CSV and JSON export with 31 fields for each record.

Around these views sit:

- a mock session store with a demo login, a one-shot sign-up record and the two
  browser-storage slots;
- the sign-up form's validation;
- a chat assistant that picks canned replies by ordered keyword rules;
- the route classifier that tells the assistant which page it is on.

Module layout, following the source files:

| module | file | models |
|---|---|---|
| `MockData` | `mockdata.dfy` | the record type, the eight sample records, `getMetrics`, `getStageData`, `getTeamPerformance`, `getDelayAnalysis` |
| `MetricsExport` | `export.dfy` | `generateRFPDataset`, the CSV text of `exportToCSV`, the document of `exportToJSON` |
| `Csv` | `csv.dfy` | the CSV escaping and joining the export uses, and a reader used as its inverse |
| `Pipeline` | `pipeline.dfy` | the filter, the summary cards and the '-' placeholders of the pipeline page |
| `Team` | `team.dfy` | the team/delay join, the rating bands, the top performer and revenue leader |
| `Dashboard` | `dashboard.dfy` | the dashboard's average quote and delivery times |
| `Auth` | `auth.dfy` | the session store, as a class over the user, the loading flag and a storage map |
| `Signup` | `signup.dfy` | the sign-up form's validation, field edits and submit sequence |
| `ChatBot` | `chatbot.dfy` | the welcome messages, the reply dispatcher and the conversation, as a class |
| `Layout` | `layout.dfy` | the route-to-context classifier |
| `Calendar`, `Numeric`, `Text`, `Seqs`, `Wrappers` | | dates and day numbers, `Math.round`/`Math.ceil`, strings, `filter`/`map`/`find`/`reduce`, `Option` |

Conventions of the model:

- **Dates.** Date fields are valid calendar dates (`Calendar.CalendarDate`). Their stored ISO
  text `YYYY-MM-DD` is `Calendar.ToIso`, which is proved inverse to `Calendar.ParseIso`. A
  date-only string is read as UTC midnight, so `Math.ceil(ms / day)` between two dates is
  the difference of their day numbers (`Calendar.DaysDeltaExact`).
- **Rounding.** `Math.round(p / q * 100)` is modelled as `Numeric.RoundPercent`, the exact
  percentage rounded to the nearest integer with halves up. The source rounds a
  floating-point product, which can land on the other side of a half (see "## Left out"). `Math.ceil` is `Numeric.CeilDiv`.
- **Falsy values.** JavaScript's `||` treats 0 and the empty string as missing, and the model
  keeps those cases: a day count of 0 exports as 'N/A', and a value of 0 shows as '-'.
- **NaN.** The NaN of `0 / 0` is modelled as `None`.
- **Clock.** Clock readings are parameters (`now`, `exportDate`).
- **Time.** Each asynchronous step (a simulated network wait, a reply timer) is one atomic
  method call.

The sample data has 5 records with an order date out of 8, so the headline conversion
rate it gives is 63% (`MockData.SampleMetrics`).

## Model

| member | source | states |
|---|---|---|
| MockData.StatusNameInjective | src/services/mockData.ts:10 | distinct statuses carry distinct status texts, so comparing the text compares the status |
| MockData.ConversionRate | src/services/mockData.ts:115 | the rate lies in 0..100; it is 0 with no records or no orders and 100 when every record has an order |
| MockData.ConversionRateIsRounded | src/services/mockData.ts:115 | a rate over a non-empty collection is part/whole*100 rounded to the nearest integer, halves up |
| MockData.GetMetrics | src/services/mockData.ts:102-117 | the counts are the sizes of the status, order and delivery filters; the total value counts a missing value as 0; the rate is in 0..100, 0 for an empty collection, and otherwise the rounded order share |
| MockData.GetStageData | src/services/mockData.ts:119-128 | exactly four stages in funnel order, with the named counts of submitted, quoted, ordered and delivered records |
| MockData.StagesAgreeWithMetrics | src/services/mockData.ts:119-125 | the funnel's submitted, ordered and delivered counts equal the headline metrics |
| MockData.TeamRollup | src/services/mockData.ts:133-143 | a team's rollup counts its own records and their orders (converted never exceeds total), sums their values, and its rate is 0 for a team with no records and otherwise the percentage of its records with an order, rounded |
| MockData.GetTeamPerformance | src/services/mockData.ts:130-145 | one rollup per team of the fixed list Sales_A, Sales_B, Sales_C, in that order |
| MockData.UnknownTeamsIgnored | src/services/mockData.ts:131-133 | records assigned to a team outside the list do not change any rollup |
| MockData.RollupCons | src/services/mockData.ts:133-135 | one more record changes only its own team's counts and value, by exactly its own contribution |
| MockData.RollupsPartition | src/services/mockData.ts:131-135 | when every record is on a known team, the three teams' totals, orders and values add up to those of the whole collection |
| MockData.TeamsPartitionMetrics | src/services/mockData.ts:130-145 | under the same condition, the team rollups add up to the headline metrics' totals, orders and value |
| MockData.DelayOf | src/services/mockData.ts:148-166 | an entry copies id, client and status; its quote delay is the day difference from submission to quotation; it has a delivery delay exactly when both order and delivery dates exist, and that delay is their day difference |
| MockData.GetDelayAnalysis | src/services/mockData.ts:147-170 | one entry for each quoted record, in the collection's order |
| MockData.DelaysMatchQuotationStage | src/services/mockData.ts:147-148 | the delay analysis has as many entries as the funnel's "Quotation Sent" stage counts |
| MockData.DelayIdsAreQuotedIds | src/services/mockData.ts:148-161 | the entries name the quoted records in order, and those are a subsequence of the collection |
| MockData.SampleQuoted | src/services/mockData.ts:15-100 | the quoted sample records are RFP001, 003, 004, 005, 006 and 008 |
| MockData.SamplePending | src/services/mockData.ts:15-100 | two sample records await a quotation |
| MockData.SampleOrders | src/services/mockData.ts:15-100 | five sample records have an order date |
| MockData.SampleDelivered | src/services/mockData.ts:15-100 | three sample records are delivered or fulfilled |
| MockData.SampleValue | src/services/mockData.ts:15-100 | the sample's values add up to 143000 |
| MockData.SampleMetrics | src/services/mockData.ts:102-117 | the sample's headline metrics are 8 records, 2 pending, 5 orders, 3 delivered, 143000 and 63% |
| MockData.SampleDelays | src/services/mockData.ts:147-170 | the sample's six delay entries, each quoted in 2 days, with delivery delays 6, 7 and 7 where present |
| MockData.SampleAssignedSalesA | src/services/mockData.ts:133 | Sales_A's sample records are RFP001, 003 and 006 |
| MockData.SampleAssignedSalesB | src/services/mockData.ts:133 | Sales_B's sample records are RFP002, 005 and 008 |
| MockData.SampleAssignedSalesC | src/services/mockData.ts:133 | Sales_C's sample records are RFP004 and 007 |
| MockData.SampleRollupSalesA | src/services/mockData.ts:133-143 | Sales_A converts 3 of 3 (100%) worth 82000 |
| MockData.SampleRollupSalesB | src/services/mockData.ts:133-143 | Sales_B converts 1 of 3 (33%) worth 26000 |
| MockData.SampleRollupSalesC | src/services/mockData.ts:133-143 | Sales_C converts 1 of 2 (50%) worth 35000 |
| MockData.SampleTeams | src/services/mockData.ts:130-145 | the sample's three team rollups, in team order |
| Numeric.CeilDivSpec | src/services/mockData.ts:151 | `Math.ceil(n / d)` is the least integer k with n <= k*d |
| Numeric.RoundDivSpec | src/services/mockData.ts:115 | `Math.round(p / q)` is the integer r with r - 1/2 <= p/q < r + 1/2 |
| Numeric.RoundPercentBounds | src/services/mockData.ts:115 | a rounded share of a part within its whole lies in 0..100, is 0 for no part and 100 for all of it |
| Calendar.DayNumberNextDay | src/services/mockData.ts:149-151 | day numbers count days: the next calendar day has the next day number, across month and year ends and leap days |
| Calendar.DaysDeltaExact | src/services/mockData.ts:151 | the ceiling of the millisecond difference of two midnights, in days, is their day-number difference |
| Calendar.ParsePrinted | src/components/RFPMetrics/MetricsExport.tsx:48-51 | reading a printed `YYYY-MM-DD` date gives the date back |
| Calendar.PrintParsed | src/components/RFPMetrics/MetricsExport.tsx:48-51 | a string that reads as a date is exactly that date's printed form |
| Csv.DoubleQuotes | src/components/RFPMetrics/MetricsExport.tsx:124 | doubling the quotes never shortens the text and adds or removes no line break |
| Csv.EscapeField | src/components/RFPMetrics/MetricsExport.tsx:121-126 | a string with ',' or '"' is written between quotes; any other string is written unchanged; line breaks are neither added nor removed |
| Csv.EncodeLines | src/components/RFPMetrics/MetricsExport.tsx:119-128 | one encoded line per record, in order |
| Csv.QuotedRoundTrip | src/components/RFPMetrics/MetricsExport.tsx:124 | a quoted field reads back as the original text, up to its closing quote |
| Csv.UnquotedRoundTrip | src/components/RFPMetrics/MetricsExport.tsx:126 | a field without ',' reads back unchanged up to the next ',' |
| Csv.FieldRoundTrip | src/components/RFPMetrics/MetricsExport.tsx:120-127 | every written field reads back as its value, leaving the rest of the line |
| Csv.LineRoundTrip | src/components/RFPMetrics/MetricsExport.tsx:118-127 | a written line reads back as its fields |
| Csv.EscapeAllAvoidsNewline | src/components/RFPMetrics/MetricsExport.tsx:123-124 | escaping introduces no line break |
| Csv.ParseLinesRoundTrip | src/components/RFPMetrics/MetricsExport.tsx:117-129 | each written line reads back as its record |
| Csv.DocumentRoundTrip | src/components/RFPMetrics/MetricsExport.tsx:117-129 | a header of plain names followed by records with no line break reads back as the header and the records |
| Csv.EscapeAllKeeps | src/components/RFPMetrics/MetricsExport.tsx:123 | fields that need no quoting are written unchanged |
| Csv.NewlineSplitsRecord | src/components/RFPMetrics/MetricsExport.tsx:123 | a value holding a line break is not quoted, so its record is read back as two lines |
| MetricsExport.DateOrNA | src/components/RFPMetrics/MetricsExport.tsx:49-51 | a missing date exports as 'N/A'; a present one exports as text that reads back as that date |
| MetricsExport.DaysBetween | src/components/RFPMetrics/MetricsExport.tsx:18-32 | a day count exists exactly when both dates do, and is their day-number difference |
| MetricsExport.SpeedCategory | src/components/RFPMetrics/MetricsExport.tsx:75-80 | 'N/A' exactly for a missing or zero count; otherwise 'Fast', 'Average' or 'Slow' exactly by the two thresholds |
| MetricsExport.OutcomeExclusive | src/components/RFPMetrics/MetricsExport.tsx:35-37 | every status is exactly one of won, lost and pending |
| MetricsExport.WinProbability | src/components/RFPMetrics/MetricsExport.tsx:67 | 100 for a won record, 0 for a lost one, 50 for a pending one |
| MetricsExport.QuarterOf | src/components/RFPMetrics/MetricsExport.tsx:83 | the quarter is in 1..4 and holds the month |
| MetricsExport.Quarter | src/components/RFPMetrics/MetricsExport.tsx:83 | the label splits at its space into 'Q' with the quarter number, and the year |
| MetricsExport.QuarterIdentifies | src/components/RFPMetrics/MetricsExport.tsx:83 | two dates get the same quarter label exactly when they lie in the same quarter of the same year |
| MetricsExport.MonthName | src/components/RFPMetrics/MetricsExport.tsx:84 | each month's name is a single nonempty word |
| MetricsExport.MonthNamesDistinct | src/components/RFPMetrics/MetricsExport.tsx:84 | two months have the same name exactly when they are the same month |
| MetricsExport.MonthLabel | src/components/RFPMetrics/MetricsExport.tsx:84 | the label splits at its space into the month's name and the year |
| MetricsExport.MonthLabelIdentifies | src/components/RFPMetrics/MetricsExport.tsx:84 | two dates get the same month label exactly when they lie in the same month of the same year |
| MetricsExport.WeekOfYear | src/components/RFPMetrics/MetricsExport.tsx:85 | the week number is the days since 1 January of the year `new Date(year, 0, 1)` reads (1900 + y for a year y below 100) divided by 7, rounded up |
| MetricsExport.WeekOfYearDays | src/components/RFPMetrics/MetricsExport.tsx:85 | for a year of at least 100, the week number is the day of the year (0 for 1 January) divided by 7, rounded up |
| MetricsExport.WonWithinWorkload | src/components/RFPMetrics/MetricsExport.tsx:88-91 | a team's won records never outnumber its records |
| MetricsExport.TeamSuccessRate | src/components/RFPMetrics/MetricsExport.tsx:89-92 | the rate is NaN exactly for a team with no records, and otherwise is the percentage of the team's records that are delivered or fulfilled, rounded, in 0..100 |
| MetricsExport.BuildRow | src/components/RFPMetrics/MetricsExport.tsx:11-97 | a row copies the record's id, client, product type, team and status; a date field is 'N/A' exactly when the date is missing and otherwise the date's ISO text; values count a missing value as 0 and only won records carry an actual value; the flags match the status and the dates; the total cycle time exists exactly when a delivery date exists on a different day from submission; quarter, month and week of year are those of the submission date; the workload counts the team's records and the success rate is the team's; the export date is the given clock reading and the version is "1.0" |
| MetricsExport.RowDays | src/components/RFPMetrics/MetricsExport.tsx:18-32 | each day count is present exactly when both of its dates are and the count is not 0, and is then the day difference |
| MetricsExport.RowCategories | src/components/RFPMetrics/MetricsExport.tsx:75-80 | the two categories read the row's own quote and delivery counts, with thresholds 2/5 and 7/14 |
| MetricsExport.RowOutcome | src/components/RFPMetrics/MetricsExport.tsx:35-67 | exactly one outcome flag is set, and the win probability follows it |
| MetricsExport.RowTeamFields | src/components/RFPMetrics/MetricsExport.tsx:88-92 | for a record of the collection, the team workload is at least 1 and the success rate is a number in 0..100 |
| MetricsExport.GenerateDataset | src/components/RFPMetrics/MetricsExport.tsx:10-101 | one row per record, in order, each built against the whole collection |
| MetricsExport.DatasetTeamFields | src/components/RFPMetrics/MetricsExport.tsx:88-92 | no row of a dataset has a NaN success rate or an empty workload |
| MetricsExport.Cells | src/components/RFPMetrics/MetricsExport.tsx:116-121 | a row has one value under each of the 31 keys |
| MetricsExport.CellFieldEscapes | src/components/RFPMetrics/MetricsExport.tsx:121-126 | escaping only string values is escaping every value's text, since numbers and booleans print without ',' or '"' |
| MetricsExport.FieldsAreEscapedTexts | src/components/RFPMetrics/MetricsExport.tsx:119-127 | a row's fields are the escaped texts of its values |
| MetricsExport.CsvContent | src/components/RFPMetrics/MetricsExport.tsx:106-129 | there is no CSV text exactly when the dataset is empty |
| MetricsExport.CsvIsDocument | src/components/RFPMetrics/MetricsExport.tsx:115-129 | the CSV text is the header line of the keys followed by one line per row |
| MetricsExport.KeysArePlain | src/components/RFPMetrics/MetricsExport.tsx:116-118 | no key needs quoting or holds a line break |
| MetricsExport.KeysMakeHeader | src/components/RFPMetrics/MetricsExport.tsx:116-118 | the keys make a nonempty header line that is written verbatim |
| MetricsExport.RowTextsMakeRecords | src/components/RFPMetrics/MetricsExport.tsx:119-128 | rows whose values have no line break give nonempty records free of line breaks |
| MetricsExport.CsvRoundTrip | src/components/RFPMetrics/MetricsExport.tsx:115-129 | when no value holds a line break, the CSV text reads back as the keys followed by each row's value texts |
| MetricsExport.AverageCycleTimeSpec | src/components/RFPMetrics/MetricsExport.tsx:168-172 | the average cycle time is 0 when no row has a numeric cycle time, and otherwise the mean over those rows rounded to the nearest integer |
| MetricsExport.SummaryCounts | src/components/RFPMetrics/MetricsExport.tsx:156-165 | the metadata and the summary count every row; won, lost and pending partition the rows |
| MetricsExport.SummaryAgreesWithMetrics | src/components/RFPMetrics/MetricsExport.tsx:161-167 | the won rows are the headline metrics' delivered records and the total value is the headline total |
| MetricsExport.WonValueWithinTotal | src/components/RFPMetrics/MetricsExport.tsx:166-167 | with non-negative values, the won value never exceeds the total value |
| Pipeline.FilteredRfps | src/pages/Pipeline.tsx:28-36 | the filtered list is never longer than the collection |
| Pipeline.FilteredExactly | src/pages/Pipeline.tsx:28-36 | the shown records keep the collection's order, and a record is shown exactly when search, status and team all accept it, as many times as it occurs in the collection |
| Pipeline.EmptySearchMatchesAll | src/pages/Pipeline.tsx:29-31 | the empty search term matches every record |
| Pipeline.NoFiltersShowsAll | src/pages/Pipeline.tsx:12-14 | with the initial filters every record is shown, in order |
| Pipeline.SearchIgnoresCase | src/pages/Pipeline.tsx:29-31 | a term and its lower-cased form select the same records |
| Pipeline.SearchIsSubstring | src/pages/Pipeline.tsx:29-31 | a term matches exactly when, ignoring case, it occurs in the client name, the id or the product type |
| Pipeline.MatchesTextIff | src/pages/Pipeline.tsx:29 | the case-blind includes test holds exactly when the lower-cased term occurs at some position of the lower-cased text |
| Pipeline.StatusFilterSelects | src/pages/Pipeline.tsx:32 | a status option selects exactly the records with that status |
| Pipeline.FilteredConversionRate | src/pages/Pipeline.tsx:194 | the card's rate is in 0..100 and 0 when nothing is shown |
| Pipeline.SummaryIsMetricsOfShown | src/pages/Pipeline.tsx:187-194 | the total value and rate cards are the headline metrics of the shown records, and of the whole collection under the initial filters |
| Pipeline.FilteredRateIsRounded | src/pages/Pipeline.tsx:194 | with records shown, the card rate is their order share rounded to the nearest percent |
| Pipeline.FormatCurrency | src/pages/Pipeline.tsx:43-46 | '-' exactly for a missing value or 0; anything else is shown as that value |
| Pipeline.FormatDate | src/pages/Pipeline.tsx:38-41 | '-' exactly for a missing date; any other date is shown |
| Team.AvgQuoteTenthsNearest | src/pages/Team.tsx:17-23 | the average quote time is 0 for a team with no quoted records, and otherwise the mean rounded to the nearest tenth |
| Team.WithQuoteTime | src/pages/Team.tsx:21-24 | the team's entry keeps every rollup field and adds the average quote time of the team's delay entries |
| Team.TeamDelayMetrics | src/pages/Team.tsx:11-25 | one entry per team of the rollup, in the same order |
| Team.TeamDelayMetricsSpec | src/pages/Team.tsx:11-25 | each entry is that team's rollup with the rounded mean quote time of its delay entries |
| Team.RecordOfFindsOwn | src/pages/Team.tsx:13 | with distinct ids, looking up a record's id finds that record |
| Team.OnTeamIsAssignment | src/pages/Team.tsx:12-15 | with distinct ids, a delay entry counts for a team exactly when its quoted record is assigned to that team |
| Team.PerformanceRating | src/pages/Team.tsx:189-190 | 'Excellent' exactly from 70, 'Good' exactly from 50 to below 70, 'Needs Improvement' exactly below 50 |
| Team.RatingBands | src/pages/Team.tsx:27-31 | the colour and the label always agree, and a higher rate never gets a lower rating |
| Team.LeaderFromIsFirstMaximum | src/pages/Team.tsx:206-207 | continuing the reduction from the first maximum of a prefix gives the first maximum of the whole list |
| Team.LeaderIsFirstMaximum | src/pages/Team.tsx:206-207 | the reduction picks a team with the largest key, and every team before it has a strictly smaller key |
| Team.TopPerformerSpec | src/pages/Team.tsx:206-210 | the top performer is one of the teams, has the highest rate, and no earlier team reaches that rate |
| Team.RevenueLeaderSpec | src/pages/Team.tsx:217-221 | the revenue leader is one of the teams, has the highest value, and no earlier team reaches it |
| Team.SampleLeaders | src/pages/Team.tsx:204-221 | on the sample, Sales_A is both the top performer and the revenue leader |
| Dashboard.AvgQuoteTime | src/pages/Dashboard.tsx:19 | no average (NaN) exactly for no entries; otherwise the average times the count is the sum of quote times |
| Dashboard.AvgDeliveryTime | src/pages/Dashboard.tsx:20 | the average is taken over the entries with a non-zero delivery time only, and is NaN exactly when there are none |
| Dashboard.UntimedEntriesIgnored | src/pages/Dashboard.tsx:20 | an entry without a non-zero delivery time does not change the delivery average |
| Dashboard.SampleAvgQuoteTime | src/pages/Dashboard.tsx:19 | on the sample the average quote time is 2 days |
| Dashboard.SampleAvgDeliveryTime | src/pages/Dashboard.tsx:20 | on the sample the average delivery time is 20/3 days |
| Auth.RestoredUser | src/context/AuthContext.tsx:49-56 | a stored session restores exactly the stored user, and no session restores nobody |
| Auth.DemoUser | src/context/AuthContext.tsx:65-93 | exactly the three demo emails have accounts, with their own email, the login time and the roles admin, manager and user |
| Auth.UserFromSignup | src/context/AuthContext.tsx:103-111 | a sign-up login keeps the record's id and email and always has role 'user' |
| Auth.Authenticate | src/context/AuthContext.tsx:95-131 | a matching sign-up record wins; otherwise a demo email with 'password123' logs in as that demo user; otherwise the credentials are invalid; each case holds exactly under its condition |
| Auth.NewSignupRecord | src/context/AuthContext.tsx:146-153 | the stored record keeps the email and password, and its id is the decimal text of the clock reading |
| Auth.GoogleUser | src/context/AuthContext.tsx:167-175 | the Google account has email google.user@gmail.com, role 'user' and id 'google_' followed by the clock reading |
| Auth.SignupThenLogin | src/context/AuthContext.tsx:102-117 | after a sign-up, logging in with the same email and password signs in the new account, whatever storage held before |
| Auth.SignupLoginIsSingleUse | src/context/AuthContext.tsx:113-114 | a sign-up login removes the record, so the same credentials never log in through it again |
| Auth.AuthProvider.constructor | src/context/AuthContext.tsx:46-56 | mounting restores the stored user, if any, and ends loading |
| Auth.AuthProvider.Login | src/context/AuthContext.tsx:58-132 | a sign-up login sets the user, writes the session and removes the sign-up record; a demo login sets the user and writes the session, leaving the record; invalid credentials return the error and change neither user nor storage; loading always ends false; a reload would restore the signed-in user |
| Auth.AuthProvider.Signup | src/context/AuthContext.tsx:134-159 | only the sign-up slot is overwritten, the user is unchanged, and loading ends false |
| Auth.AuthProvider.GoogleLogin | src/context/AuthContext.tsx:161-180 | always signs in the fixed Google account and writes it as the session |
| Auth.AuthProvider.Logout | src/context/AuthContext.tsx:182-190 | the user becomes null, so not authenticated, both slots are removed, and loading is untouched |
| Auth.SignupLoginLogout | src/context/AuthContext.tsx:134-186 | after a sign-up, a login with the same credentials and two logouts, nobody is authenticated and storage is what it was before, without either slot |
| Signup.WithField | src/components/Auth/SignupForm.tsx:86-88 | the named field takes the new value and every other field keeps its own |
| Signup.Validate | src/components/Auth/SignupForm.tsx:46-62 | "required fields" exactly when first name, last name, email or password is empty; "too short" exactly when all four are filled and the password has fewer than 8 characters; accepted exactly otherwise |
| Signup.CompanyIsOptional | src/components/Auth/SignupForm.tsx:46 | the company never decides whether a submission is accepted |
| Signup.EmptyPasswordIsMissing | src/components/Auth/SignupForm.tsx:46-62 | an empty password is reported as a missing field, not a short one |
| Signup.SignupForm.constructor | src/components/Auth/SignupForm.tsx:31-40 | a fresh form has every field empty, nothing loading and no dialog |
| Signup.SignupForm.HandleChange | src/components/Auth/SignupForm.tsx:86-88 | only the named field of the form data changes |
| Signup.SignupForm.HandleSubmit | src/components/Auth/SignupForm.tsx:43-77 | a rejected form raises its error and leaves the handler uncalled and the loading flag and dialog untouched; a valid form is passed unchanged to the handler; the dialog opens only if the handler does not throw, a failure raises "Signup Failed", and loading ends false |
| Signup.SignupForm.HandleSuccessClose | src/components/Auth/SignupForm.tsx:79-84 | the success dialog closes and nothing else changes |
| ChatBot.WelcomeFor | src/components/AIChat/ChatBot.tsx:36-47 | dashboard, pipeline and analytics each get their own greeting, and the general context gets the default one |
| ChatBot.WelcomesDiffer | src/components/AIChat/ChatBot.tsx:36-47 | different contexts are greeted differently |
| ChatBot.BotReply | src/components/AIChat/ChatBot.tsx:80-372 | on the lower-cased input, each context rule fires exactly in its own context and in priority order; help applies exactly when no context rule fires and help is asked for, showing the context's capitalised name; otherwise the default reply quotes the input as typed |
| ChatBot.ReplyIgnoresCase | src/components/AIChat/ChatBot.tsx:81 | the lower-cased input gets the same reply, except that a default reply quotes the text as typed |
| ChatBot.CorporateAsksConversion | src/components/AIChat/ChatBot.tsx:85 | on the dashboard, "Corporate" triggers the conversion rule because it contains "rate" |
| ChatBot.SendKeepsOrder | src/components/AIChat/ChatBot.tsx:52-62 | posting a message keeps the conversation answered in order and puts the message last in the wait |
| ChatBot.ReplyKeepsOrder | src/components/AIChat/ChatBot.tsx:65-77 | answering the oldest waiting message keeps the conversation answered in order |
| ChatBot.ChatWidget.constructor | src/components/AIChat/ChatBot.tsx:24-34 | the chat opens with the greeting of its starting context, an empty input box and nothing pending |
| ChatBot.ChatWidget.SetContext | src/components/AIChat/ChatBot.tsx:18-21 | a new context from the layout leaves the conversation, greeting included, as it was |
| ChatBot.ChatWidget.SetInputText | src/components/AIChat/ChatBot.tsx:492 | typing sets the input text only |
| ChatBot.ChatWidget.SendMessage | src/components/AIChat/ChatBot.tsx:49-62 | blank input changes nothing; other input appends one user message with the text as typed, clears the box, sets the typing flag and schedules its reply; every reply so far answers the message at its position |
| ChatBot.ChatWidget.ReplyArrives | src/components/AIChat/ChatBot.tsx:65-77 | exactly one bot message is appended, answering the oldest waiting message in the context it was sent from, and the typing flag clears |
| Layout.ContextForPath | src/components/Layout/DashboardLayout.tsx:27-32 | pipeline exactly for a path containing '/pipeline'; analytics exactly for one containing '/analytics' and not '/pipeline'; dashboard exactly for '/'; general for every other path |
| Layout.OnlyRootIsDashboard | src/components/Layout/DashboardLayout.tsx:30 | the dashboard context belongs to the path '/' alone |
| Layout.PipelinePrefixWins | src/components/Layout/DashboardLayout.tsx:28 | any path under '/pipeline' is the pipeline context, even if it also names analytics |
| Layout.KnownRoutes | src/components/Layout/DashboardLayout.tsx:27-32 | '/', '/pipeline', '/analytics' and '/team' select dashboard, pipeline, analytics and general |

## Left out

- File downloads (the Blob, the object URL and the hidden link) and all toast notifications
  outside the sign-up form are browser I/O. Only the CSV text and the JSON document are modelled.
- `JSON.stringify` formatting, and the JSON round trip of the stored session, are not
  modelled. A restored `lastLogin` comes back as a string in the source; the model keeps the
  number.
- Timers and simulated network waits are not modelled as time passing. Each asynchronous
  operation is one atomic method, and a chat reply arrives only when `ReplyArrives` is called.
- `console.log` calls, JSX, charts, badge colours, the chat's open and minimise toggles and its
  icon and colour helpers are presentation, and are left out.
- Arithmetic on `number` is modelled exactly: values are integers, and averages are exact
  rationals. A rounded percentage (`Math.round(p / q * 100)`) can differ from the source by
  1: the source rounds a floating-point product, so `23 / 40 * 100` comes out just below
  57.5 and rounds to 57, where the exact percentage rounds to 58. This affects the conversion
  rates of `MockData.ConversionRate`, `MockData.GetMetrics`, `MockData.TeamRollup`, the
  Pipeline rate card and `MetricsExport.TeamSuccessRate`; the sample's rates are not affected.
- Lower-casing covers ASCII letters only, and string length counts characters, not UTF-16
  units.
- The local time zone is taken to be UTC for `quarter`, `month` and `week_of_year`. The
  clock readings (`export_date`, `Date.now()`, `new Date()`) are parameters.
- MetricsExport.GenerateDataset: uses one `exportDate` for every row, and the JSON export
  uses the same one for its metadata. The source reads `new Date()` afresh for each row
  and again for the metadata, so its timestamps can differ by the time the export takes.
- Date fields hold calendar dates, so malformed date strings (and the NaN they give) are out
  of scope. NaN itself is modelled as `None`.
- `toLocaleString`, `toFixed` and `toLocaleDateString` are display formatting, except that
  the export's month label is modelled as the English month name and the year.
- Chat replies are tags, not their multi-paragraph wording. Message ids and timestamps come
  from the clock and are left out.
- Auth.DemoUser: looks up the three demo emails only. The source indexes an object, so an
  inherited property name such as "constructor" would also find a (non-user) value.
- Signup.WithField: takes one of the five form fields. The source accepts any field name
  string, and the form only ever passes those five.
- Team.TopPerformer and Team.RevenueLeader require a non-empty team list. The source's
  `reduce` without an initial value throws on an empty list, which cannot happen since
  `getTeamPerformance` always returns three teams.
- MetricsExport.CsvRoundTrip: holds for rows whose values contain no line break. The source
  quotes only values containing ',' or '"', and Csv.NewlineSplitsRecord shows that a value
  holding a line break comes back as two lines. No sample record holds one.
- Dashboard status-distribution constants, the Analytics page, the user profile dialog, the
  navigation bar and the routing in App are constant data or presentation, and are not part
  of this model.
