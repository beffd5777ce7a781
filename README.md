# CreditWise scoring and report core in Dafny

This project models the core of CreditWise, an alternative credit-scoring
application for small businesses, and proves properties of that model.
CreditWise turns a business's transaction history into five factor scores
(0..100 each): bill payment history, income consistency, expense
management, financial growth and transaction diversity. It weights them
30/25/20/15/10 percent into a score on 0..1000, and from that score and the
transactions it builds a report. The report holds:

- totals, margins and a monthly ledger;
- category and payment-method tables;
- loan terms derived from the risk level;
- rule-based insights.

The report is shown in a dialog and as a PDF. A gauge component shows the
grade of a score.

Modules, one per source file (plus two shared ones):

| module | file | models |
|---|---|---|
| `Numbers` | `numbers.dfy` | `Math.round`, clamping, `toFixed(1)`, sums, mean, variance, and square roots as a relation |
| `Transactions` | `transactions.dfy` | transactions, dates and month keys, `filter`, sums, and the stable `Array.prototype.sort` by date |
| `CreditAnalysis` | `credit_analysis.dfy` | `src/lib/credit-analysis.ts`: month grouping and the five factor functions |
| `ScoreBreakdown` | `score_breakdown.dfy` | `src/components/score-breakdown.tsx`: contributions and the weighted total |
| `ReportMetrics` | `report_metrics.dfy` | the pure figures of `src/lib/reportUtils.ts`: margin, balance, documentation rate, period, risk level, loan terms, approval curve, buffer, components |
| `ReportUtils` | `report_utils.dfy` | `groupByMonth` of `reportUtils.ts`, as a method that sorts the caller's array in place and fills the monthly ledger |
| `ReportTables` | `report_tables.dfy` | `analyzeCategoryDistribution` and `analyzePaymentMethods` |
| `ReportInsights` | `report_insights.dfy` | `generateInsights` |
| `ReportData` | `report_data.dfy` | `formatReportData`, which assembles the report |
| `PdfGenerator` | `pdf_generator.dfy` | `src/lib/pdf-generator.ts`: the page cursor and `checkPageBreak` as a class, and the content decisions of the PDF |
| `ReportViewDialog` | `report_view_dialog.dfy` | `src/components/report-view-dialog.tsx`: grade styles, factor insights, recommendations |
| `ScoreGauge` | `score_gauge.dfy` | `src/components/score-gauge.tsx`: the component state and its two effects, as a class |

Amounts are `real`. Dates are calendar dates. A month key is (year, month).
Code that updates state in place is imperative Dafny:

- the in-place sort and the ledger loop of `groupByMonth`;
- the `for` loops of the category and payment-method tables;
- the pushes of `generateInsights`;
- the PDF page cursor;
- the gauge's state hooks.

Each of these methods is proved against a specification function. The
properties are proved about that function.

Where this model follows the code rather than the design text:

- `formatReportData` takes its totals over the caller's order. It then
  sorts the caller's array in place, and reads everything else from the
  sorted array. `ReportData.ReportBalanceIsNetProfit` and
  `ReportData.ReportCounts` show that the order does not change the
  figures.
- The business id is the `userId` of the earliest transaction.

## Model

| member | source | states |
|---|---|---|
| Numbers.Clamp | src/lib/credit-analysis.ts:118 | `Math.max(0, Math.min(100, x))` lies in the bounds, leaves values inside unchanged and sends values outside to the nearer bound |
| Numbers.Round | src/lib/credit-analysis.ts:89 | `Math.round(x)` is the integer within half a unit of x, rounding halves up |
| Numbers.RoundUnique | src/lib/credit-analysis.ts:89 | only one integer lies in that half-open interval around x |
| Numbers.RoundMonotone | src/lib/credit-analysis.ts:89 | rounding never reverses the order of two numbers |
| Numbers.RoundWithin | src/lib/credit-analysis.ts:118 | a number between two integers rounds to a value between them |
| Numbers.RoundTenth | src/lib/reportUtils.ts:197 | `parseFloat(x.toFixed(1))` is within 0.05 of x and keeps its sign |
| Numbers.Variance | src/lib/credit-analysis.ts:110 | the population variance of the monthly totals is never negative |
| Numbers.ConstantHasNoVariance | src/lib/credit-analysis.ts:109-110 | equal monthly totals have that total as their mean and zero variance |
| Numbers.SquareOrder | src/lib/credit-analysis.ts:111 | for non-negative numbers, the order of the squares is the order of the numbers, so a square root is determined by its square |
| Transactions.DayStampOrder | src/lib/credit-analysis.ts:36 | comparing day stamps, as `getTime()` differences do, orders valid dates as the calendar does |
| Transactions.DateLeKeyOrder | src/lib/credit-analysis.ts:213 | an earlier date never falls in a later `YYYY-MM` month |
| Transactions.Filter | src/lib/credit-analysis.ts:97 | `filter` keeps exactly the elements that pass the test, and no more of them than there were |
| Transactions.FilterAppend | src/lib/credit-analysis.ts:97 | filtering a list with one more element adds that element when it passes |
| Transactions.SumAbsAmounts | src/lib/credit-analysis.ts:126-132 | the sum of `Math.abs(amount)` is never negative |
| Transactions.SumAmountsAppend | src/lib/reportUtils.ts:22-28 | the `reduce` sum of two lists joined is the sum of their sums |
| Transactions.SumAmountsNonNegative | src/lib/reportUtils.ts:22-28 | non-negative amounts have a non-negative total |
| Transactions.FilterPermutation | src/lib/reportUtils.ts:34 | filtering two orderings of the same transactions gives the same multiset |
| Transactions.SumAmountsPermutation | src/lib/reportUtils.ts:22-28 | a total does not depend on the order of the transactions |
| Transactions.InsertBy | src/lib/reportUtils.ts:113 | inserting into a sorted list keeps it sorted and adds exactly that element |
| Transactions.SortBy | src/lib/reportUtils.ts:113 | the stable sort returns a sorted permutation of its input |
| Transactions.SortByDate | src/lib/credit-analysis.ts:35-37 | sorting by date returns the same transactions, earliest first |
| Transactions.SortedByDateIsChronological | src/lib/reportUtils.ts:113 | in the sorted list, a transaction never comes after a later-dated one |
| CreditAnalysis.InMonthEmptyIff | src/lib/credit-analysis.ts:210-222 | a month has transactions exactly when it is the month of one of them |
| CreditAnalysis.GroupByMonth | src/lib/credit-analysis.ts:210-222 | the grouping lists each month once, and every listed month has a group |
| CreditAnalysis.GroupMembers | src/lib/credit-analysis.ts:210-222 | a month has a group exactly when some transaction falls in it, and the group holds that month's transactions |
| CreditAnalysis.GroupHoldsMonth | src/lib/credit-analysis.ts:210-222 | each group is exactly the non-empty list of its month's transactions, in input order |
| CreditAnalysis.GroupCountsMonths | src/lib/credit-analysis.ts:210-222 | there are as many groups as distinct months |
| CreditAnalysis.MonthlyTotals | src/lib/credit-analysis.ts:102-104 | one total per month group |
| CreditAnalysis.Lower | src/lib/credit-analysis.ts:80 | `toLowerCase` on the ASCII letters: each character is mapped on its own, so the length is kept |
| CreditAnalysis.IncludesAt | src/lib/credit-analysis.ts:80 | a keyword found at some position is `includes`d |
| CreditAnalysis.BillPaymentHistory | src/lib/credit-analysis.ts:75-90 | 40 without bill months; 33, 67 or 100 for one, two, or three or more distinct months with a bill-like expense |
| CreditAnalysis.CvSearch | src/lib/credit-analysis.ts:111-118 | the score found is between 0 and the bound searched from |
| CreditAnalysis.ReachesIff | src/lib/credit-analysis.ts:111-118 | a candidate score is reachable exactly when it is at most the score of the coefficient of variation |
| CreditAnalysis.CvSearchIsScore | src/lib/credit-analysis.ts:111-118 | the search returns the bound, or the coefficient-of-variation score when that is lower |
| CreditAnalysis.ConsistencyOfTotals | src/lib/credit-analysis.ts:106-118 | from monthly totals, 0..100; 50 when the mean is not positive; otherwise `round(clamp(100 - cv*50))`, with cv = sd/mean, for every square root sd of the variance |
| CreditAnalysis.CvSearchAll | src/lib/credit-analysis.ts:111-118 | searching from 100 gives the score of sd/mean for every square root sd of the variance |
| CreditAnalysis.IncomeConsistency | src/lib/credit-analysis.ts:96-119 | 0..100, and 30 when there is no income |
| CreditAnalysis.IncomeMonthsNonEmpty | src/lib/credit-analysis.ts:101-106 | with some income there is at least one monthly total, so the empty-totals branch cannot be taken |
| CreditAnalysis.IncomeConsistencyIsCvScore | src/lib/credit-analysis.ts:101-118 | with income, the score is that of the coefficient of variation of the monthly income totals |
| CreditAnalysis.SteadyIncomeScoresFull | src/lib/credit-analysis.ts:108-118 | the same positive income every month scores 100 |
| CreditAnalysis.NonPositiveMeanScoresHalf | src/lib/credit-analysis.ts:112-118 | monthly income totals with a non-positive mean score 50 |
| CreditAnalysis.ExpenseManagement | src/lib/credit-analysis.ts:125-150 | 40 when the income total is 0; otherwise 20..100 |
| CreditAnalysis.ExpenseManagementBands | src/lib/credit-analysis.ts:136-149 | by expense/income ratio r: below 0.7 the score is `round(100 - 70r)`, at least 51; from 0.7 to 0.9 it is `round(60 - 100(r - 0.7))`, in 40..60; from 0.9 on it is `round(max(20, 40 - 100(r - 0.9)))`, in 20..40 |
| CreditAnalysis.HalfSpentScores65 | src/lib/credit-analysis.ts:140-141 | spending half of income scores 65 |
| CreditAnalysis.EarliestKey | src/lib/credit-analysis.ts:162-166 | the first key after the sort is a listed month that precedes every other |
| CreditAnalysis.LatestKey | src/lib/credit-analysis.ts:162-167 | the last key after the sort is a listed month that follows every other |
| CreditAnalysis.GrowthScore | src/lib/credit-analysis.ts:175-185 | the growth band score lies in 0..100 |
| CreditAnalysis.GrowthFromEnds | src/lib/credit-analysis.ts:169-185 | the score from first and last month totals lies in 0..100, and is 50 when the first month's total is 0 |
| CreditAnalysis.FinancialGrowth | src/lib/credit-analysis.ts:156-186 | 0..100, and 50 with fewer than two incomes or fewer than two income months |
| CreditAnalysis.FinancialGrowthComparesEnds | src/lib/credit-analysis.ts:161-171 | with enough data, the score compares the totals of the earliest and the latest income month |
| CreditAnalysis.GrowthBands | src/lib/credit-analysis.ts:175-185 | growth above 10% scores `min(100, 60 + 200g)`, at least 80; from -50% to 10% it scores `50 + 100g`, in 0..60; below -50% it scores 0 |
| CreditAnalysis.GrowthDirection | src/lib/credit-analysis.ts:169-185 | a rising last month scores at least 50; a falling one at most 50 |
| CreditAnalysis.GrowthScoreMonotone | src/lib/credit-analysis.ts:175-185 | more growth never lowers the score |
| CreditAnalysis.TransactionDiversity | src/lib/credit-analysis.ts:192-205 | 0..100, and 30 without income |
| CreditAnalysis.DiversityIsCappedCount | src/lib/credit-analysis.ts:197-204 | with income, the score is `min(100, 20 * categories + 10 * merchants)`, counting distinct income categories and merchants |
| CreditAnalysis.AnalyzeTransactions | src/lib/credit-analysis.ts:20-69 | all five factors lie in 0..100; an empty history scores 50 on each; otherwise expense management is at least 20 |
| ScoreBreakdown.Contribution | src/components/score-breakdown.tsx:21 | the points shown are `value * weight / 10` rounded, between 0 and `10 * weight` (plus the rounding) |
| ScoreBreakdown.FactorList | src/components/score-breakdown.tsx:41-72 | five rows, each a factor with its weight 30, 25, 20, 15 or 10 |
| ScoreBreakdown.WeightsSumTo100 | src/components/score-breakdown.tsx:41-72 | the weights add up to 100 |
| ScoreBreakdown.TotalIsWeightedSum | src/components/score-breakdown.tsx:74-76 | the total is 3·bill + 2.5·income + 2·expense + 1.5·growth + 1·diversity |
| ScoreBreakdown.DisplayedTotal | src/components/score-breakdown.tsx:83 | the rounded total shown lies in 0..1000 |
| ScoreBreakdown.TotalBounds | src/components/score-breakdown.tsx:74-76 | the total lies in 0..1000; all factors at 100 give exactly 1000; all at 0 give 0 |
| ScoreBreakdown.TotalMonotone | src/components/score-breakdown.tsx:74-76 | raising any factor never lowers the total or the total shown |
| ScoreBreakdown.PointsNearTotal | src/components/score-breakdown.tsx:21-76 | the points shown per row add up to the total within half a point per row |
| ScoreBreakdown.ShownPointsVersusTotal | src/components/score-breakdown.tsx:21-102 | the points shown add up to within 2 of the rounded total shown |
| ReportMetrics.ProfitMargin | src/lib/reportUtils.ts:28 | 0 without income; otherwise above 15% exactly when expenses stay below 85% of income, non-negative exactly when expenses do not exceed income, at most 100% |
| ReportMetrics.MarginOrder | src/lib/reportUtils.ts:28 | the margin thresholds expressed on income and expenses |
| ReportMetrics.BalanceIsNet | src/lib/reportUtils.ts:38 | the running balance equals total income minus total expenses |
| ReportMetrics.BalancePermutation | src/lib/reportUtils.ts:22-38 | totals and balance do not depend on transaction order |
| ReportMetrics.DocumentedCount | src/lib/reportUtils.ts:34 | the number of transactions with a source document is at most the number of transactions |
| ReportMetrics.DocumentationRate | src/lib/reportUtils.ts:35 | 0..100%; 0 without transactions; below 70% exactly when fewer than 7 in 10 transactions are documented |
| ReportMetrics.RateOrder | src/lib/reportUtils.ts:35 | the 70% threshold on the rate is the 7-in-10 threshold on the counts |
| ReportMetrics.Oldest | src/lib/reportUtils.ts:215 | the start date is the date of some transaction, no later than any other |
| ReportMetrics.Newest | src/lib/reportUtils.ts:216 | the end date is the date of some transaction, no earlier than any other |
| ReportMetrics.AssessmentPeriod | src/lib/reportUtils.ts:211-225 | 'N/A' and 0 months without transactions; otherwise the oldest and the newest date, every transaction dated between them, and as months the calendar-month difference between them, at least 1 |
| ReportMetrics.PeriodCoversTransactions | src/lib/reportUtils.ts:211-225 | with valid dates, every transaction's month lies within the period's months |
| ReportMetrics.SingleMonthPeriod | src/lib/reportUtils.ts:218-223 | transactions that all fall in one calendar month make a period of one month |
| ReportMetrics.NumMonths | src/lib/reportUtils.ts:41 | `months || 1` is at least 1 and equals the period's months when there are any |
| ReportMetrics.NumMonthsOfPeriod | src/lib/reportUtils.ts:40-44 | 1 for an empty history; the period's month count otherwise |
| ReportMetrics.RiskLevelOf | src/lib/reportUtils.ts:91-95 | Low from 700, Medium from 500 to 699, High below 500 |
| ReportMetrics.LoanEligibility | src/lib/reportUtils.ts:181-184 | the loan is average monthly income times 6, 3 or 1 for low, medium or high risk, rounded to the nearest integer |
| ReportMetrics.LoanGrowsWithScore | src/lib/reportUtils.ts:181-184 | a higher score never lowers the loan offered |
| ReportMetrics.InterestRateDistinguishesRisk | src/lib/reportUtils.ts:186-189 | two scores get the same rate exactly when they have the same risk level |
| ReportMetrics.RepaymentCapacity | src/lib/reportUtils.ts:191-193 | 45% of average monthly income, rounded; non-negative for non-negative income |
| ReportMetrics.RepaymentWithinLoan | src/lib/reportUtils.ts:181-193 | the monthly repayment never exceeds the loan offered |
| ReportMetrics.EmergencyBuffer | src/lib/reportUtils.ts:195-198 | 99 months without expenses; otherwise balance over monthly expenses to one decimal, with the balance's sign |
| ReportMetrics.ApprovalProbability | src/lib/reportUtils.ts:200-204 | 20..95%: 20 below 500, 60..85 from 500 to 749, 85..95 from 750 |
| ReportMetrics.ApprovalMonotone | src/lib/reportUtils.ts:200-204 | a higher score never lowers the approval probability |
| ReportMetrics.ScoreComponents | src/lib/reportUtils.ts:97-106 | all zero without factors; otherwise each component is the factor's value times its score-breakdown weight over 10 (×3, ×2.5, ×2, ×1.5, ×1), and with factors in 0..100 lies between 0 and ten times that weight |
| ReportMetrics.ComponentsMatchBreakdown | src/lib/reportUtils.ts:97-106 | the components add up to the weighted total of the score breakdown |
| ReportUtils.LedgerOf | src/lib/reportUtils.ts:115-132 | the ledger lists each month once, and every listed month has a row |
| ReportUtils.LedgerAppend | src/lib/reportUtils.ts:115-132 | booking one more transaction adds its signed amount to the running balance |
| ReportUtils.BookStep | src/lib/reportUtils.ts:115-132 | one pass of the `forEach` body turns the ledger and balance of a prefix into those of the prefix one longer |
| ReportUtils.TotalsStep | src/lib/reportUtils.ts:122-128 | one more transaction adds its amount to the income or to the expense total, by kind |
| ReportUtils.LedgerRows | src/lib/reportUtils.ts:115-132 | each month's row holds that month's income total, expense total and count |
| ReportUtils.LedgerKeysAreMonths | src/lib/reportUtils.ts:118-120 | a month has a row exactly when some transaction falls in it |
| ReportUtils.BookMatches | src/lib/reportUtils.ts:122-131 | booking a transaction into a matching row gives the row of the month with that transaction added |
| ReportUtils.MonthlyLedgerRows | src/lib/reportUtils.ts:109-139 | after the net-profit pass, each month's row has its month's totals and count, and net profit = income - expenses |
| ReportUtils.LedgerCountsSum | src/lib/reportUtils.ts:130 | the month counts add up to the number of transactions |
| ReportUtils.MonthlyCountsSum | src/lib/reportUtils.ts:109-139 | the same holds after the net-profit pass |
| ReportUtils.MonthBalance | src/lib/reportUtils.ts:115-136 | each month's row holds the running balance right after that month's last transaction in list order |
| ReportUtils.LastMonthBalance | src/lib/reportUtils.ts:124-131 | the last transaction's month row carries the final running balance |
| ReportUtils.LedgerKeysChronological | src/lib/reportUtils.ts:113-120 | on date-sorted input, months are listed oldest first and the last is the month of the last transaction |
| ReportUtils.LastBucketIsBalance | src/lib/reportUtils.ts:111-132 | on sorted input, the last listed month's balance is the overall balance |
| ReportUtils.SortByDateInPlace | src/lib/reportUtils.ts:113 | `transactions.sort(...)` leaves the caller's array holding the date-sorted list |
| ReportUtils.BookMonths | src/lib/reportUtils.ts:115-132 | the loop fills the ledger specified for the array's contents |
| ReportUtils.SetNetProfits | src/lib/reportUtils.ts:134-136 | the second loop sets every row's net profit and changes nothing else |
| ReportUtils.GroupByMonth | src/lib/reportUtils.ts:109-139 | the caller's array ends sorted by date, and the result is the monthly ledger of the sorted transactions |
| ReportTables.CategoryName | src/lib/reportUtils.ts:145 | `category \|\| 'Uncategorized'` is never empty and is the category when there is one |
| ReportTables.CategoryTableOf | src/lib/reportUtils.ts:142-153 | names are listed once each, and each name has a row |
| ReportTables.TableStep | src/lib/reportUtils.ts:144-153 | the table of a prefix one longer is the previous table with the next transaction filed |
| ReportTables.Entries | src/lib/reportUtils.ts:155-156 | `Object.entries` lists one row per name, in the order the names were first seen |
| ReportTables.AnalyzeCategoryDistribution | src/lib/reportUtils.ts:141-158 | the rows are the category table sorted by amount, largest first |
| ReportTables.FileOne | src/lib/reportUtils.ts:145-152 | one pass of the loop files the transaction under its category |
| ReportTables.FileAll | src/lib/reportUtils.ts:144-153 | the loop builds the table of all the transactions |
| ReportTables.CategoryTableRows | src/lib/reportUtils.ts:144-153 | a category has a row exactly when some transaction has that name; the row holds that category's count, its amount total and the kind of its first transaction |
| ReportTables.CategoryNamesListed | src/lib/reportUtils.ts:144-153 | every transaction's category has a row |
| ReportTables.TotalCountPermutation | src/lib/reportUtils.ts:155-157 | re-ordering the rows, as the sort does, keeps the total count |
| ReportTables.TableCountsSum | src/lib/reportUtils.ts:151 | the category counts add up to the number of transactions |
| ReportTables.EntriesCount | src/lib/reportUtils.ts:155-156 | listing the rows keeps the sum of their counts |
| ReportTables.CategoryCountsSum | src/lib/reportUtils.ts:141-158 | the counts of the returned rows add up to the number of transactions |
| ReportTables.CategoryRowsDescribeCategories | src/lib/reportUtils.ts:141-158 | each returned row is the count, total and first kind of its category, and every transaction's category is among the rows |
| ReportTables.RowsCarryTheirNames | src/lib/reportUtils.ts:156 | each row is stored under its own name |
| ReportTables.CategoryNamesDistinct | src/lib/reportUtils.ts:141-158 | no category appears twice in the result |
| ReportTables.DistinctNamesPermutation | src/lib/reportUtils.ts:157 | sorting keeps the names distinct |
| ReportTables.Share | src/lib/reportUtils.ts:177 | 0% of a non-positive total; otherwise the share times the total is the amount times 100 |
| ReportTables.MethodOf | src/lib/reportUtils.ts:168 | a transaction is Digital/Bank exactly when it has a source document |
| ReportTables.PaidByAppend | src/lib/reportUtils.ts:169 | one more transaction adds its amount to its method's total only |
| ReportTables.PaidByFilters | src/lib/reportUtils.ts:166-169 | the Digital/Bank total is that of documented transactions, the Cash total that of the rest |
| ReportTables.MethodTotalsAppend | src/lib/reportUtils.ts:166-169 | the loop step updates the totals of the transaction's method only |
| ReportTables.MethodsSplitTotal | src/lib/reportUtils.ts:166-172 | the two method totals add up to the total amount |
| ReportTables.MethodRows | src/lib/reportUtils.ts:160-179 | two rows, Digital/Bank then Cash |
| ReportTables.AnalyzePaymentMethods | src/lib/reportUtils.ts:160-179 | the loop returns the method rows of the transactions |
| ReportTables.MethodRowsPromise | src/lib/reportUtils.ts:160-179 | the rows hold the documented and the undocumented totals, which add up to the total amount, and each row's percentage is its share of that sum |
| ReportTables.SharesSumTo100 | src/lib/reportUtils.ts:172-178 | with a positive total the two shares add up to 100%, and each is in 0..100 for non-negative amounts |
| ReportInsights.ExpenseFactor | src/lib/reportUtils.ts:247-249 | `(factors \|\| {}).expenseManagement \|\| 0`: 0 without factors, the factor otherwise |
| ReportInsights.InsightOf | src/lib/reportUtils.ts:231-266 | each rule pushes an insight tagged with that rule |
| ReportInsights.Pick | src/lib/reportUtils.ts:227-269 | never more insights than rules |
| ReportInsights.GenerateInsights | src/lib/reportUtils.ts:227-269 | the four pushes give the insights of the firing rules, in rule order, at most four |
| ReportInsights.PickContents | src/lib/reportUtils.ts:231-266 | a rule's insight is present exactly when the rule fires, and each insight is its rule's |
| ReportInsights.PickOrdered | src/lib/reportUtils.ts:231-266 | insights keep the order of their rules |
| ReportInsights.InsightsPromise | src/lib/reportUtils.ts:227-269 | excellent credit from 750; strong profitability when expenses are below 85% of positive income; expense advice when the expense factor is below 70; low documentation when under 7 in 10 are documented or there are none; always in that order |
| ReportData.BusinessId | src/lib/reportUtils.ts:51 | the first transaction's `userId`, or 'N/A'; never empty |
| ReportData.DocumentedCountPermutation | src/lib/reportUtils.ts:34-35 | the documented count and rate do not depend on order |
| ReportData.Metrics | src/lib/reportUtils.ts:65-75 | net profit is income minus expenses, and each monthly average times the month count gives its total |
| ReportData.FormatReportData | src/lib/reportUtils.ts:21-87 | the caller's array ends sorted by date, and the report is the one specified from the original list, the score and the date |
| ReportData.SortedDatesValid | src/lib/reportUtils.ts:113 | sorting keeps every date valid |
| ReportData.ReportBalanceIsNetProfit | src/lib/reportUtils.ts:22-38 | the reported balance equals the reported net profit, income minus expenses |
| ReportData.ReportCounts | src/lib/reportUtils.ts:30-35 | the counts and the rate are those of the caller's list, and the category counts add up to it |
| ReportData.ReportPaymentMethods | src/lib/reportUtils.ts:30-32 | the two method rows split the total: documented first, then the rest |
| ReportData.ReportLastMonth | src/lib/reportUtils.ts:30-38 | with valid dates, the last month of the breakdown has the reported balance |
| ReportData.SingleMonthAverages | src/lib/reportUtils.ts:40-75 | a history within one calendar month is a one-month period, so the monthly averages equal the totals |
| PdfGenerator.PdfDocument.A4 | src/lib/pdf-generator.ts:25-35 | a new A4 document: one page, a 297 mm page, a 20 mm margin, the cursor at the margin |
| PdfGenerator.PdfDocument.AddPage | src/lib/pdf-generator.ts:50 | one page more; the cursor is unchanged |
| PdfGenerator.PdfDocument.AddPages | src/lib/pdf-generator.ts:222-242 | a table spilling over n pages adds n pages |
| PdfGenerator.PdfDocument.MoveTo | src/lib/pdf-generator.ts:244 | sets the cursor; no new page |
| PdfGenerator.PdfDocument.Advance | src/lib/pdf-generator.ts:268 | moves the cursor down; no new page |
| PdfGenerator.PdfDocument.CheckPageBreak | src/lib/pdf-generator.ts:48-55 | breaks exactly when the space would overflow the bottom margin, then starts a page at the margin; otherwise changes nothing; a request that fits a page never overflows after a break |
| PdfGenerator.GradeColor | src/lib/pdf-generator.ts:58-66 | A success, B primary, C warning, D danger, any other grade gray |
| PdfGenerator.ScoreDescription | src/lib/pdf-generator.ts:69-75 | five bands at 800, 700, 600 and 500, each exactly where it applies |
| PdfGenerator.DescriptionMonotone | src/lib/pdf-generator.ts:69-75 | a higher score never gets a worse description |
| PdfGenerator.CountShown | src/lib/pdf-generator.ts:192 | `transactionCount \|\| 0` |
| PdfGenerator.DateShown | src/lib/pdf-generator.ts:193-194 | a missing or empty date shows 'N/A'; otherwise the date |
| PdfGenerator.FactorStatus | src/lib/pdf-generator.ts:215 | Excellent from 80, Good from 60, Fair from 40, Needs Work below |
| PdfGenerator.FactorTable | src/lib/pdf-generator.ts:214-220 | five rows, each a factor with its weight and status |
| PdfGenerator.FactorWeightsSumTo100 | src/lib/pdf-generator.ts:214-220 | the weights in the table add up to 100% |
| PdfGenerator.Points | src/lib/pdf-generator.ts:259 | `(score * weight).toFixed(1)` is within 0.05 of the exact product |
| PdfGenerator.Calculations | src/lib/pdf-generator.ts:258-264 | five lines, each factor with its weight and points |
| PdfGenerator.PointsWithinWeight | src/lib/pdf-generator.ts:259-263 | a score in 0..100 earns between 0 and its weight in points |
| PdfGenerator.Actions | src/lib/pdf-generator.ts:290-333 | each area lists three actions |
| PdfGenerator.RecommendationFor | src/lib/pdf-generator.ts:293-303 | the recommendation carries its area |
| PdfGenerator.Recommendations | src/lib/pdf-generator.ts:290-333 | at most three recommendations |
| PdfGenerator.RecommendationsPromise | src/lib/pdf-generator.ts:290-333 | none without factors; an area is listed exactly when its factor is below 70, with that factor's score; areas in fixed order; HIGH never after MEDIUM |
| PdfGenerator.ExcellentTextWhenNothingToImprove | src/lib/pdf-generator.ts:335-341 | the "Excellent!" text shows exactly when factors are missing or all three are at least 70 |
| PdfGenerator.GradeLegendPartitions | src/lib/pdf-generator.ts:404-410 | every score up to 1000 falls in exactly one legend row, whose description begins the score's description |
| PdfGenerator.LegendGradeBPlusIsGray | src/lib/pdf-generator.ts:406 | the legend's grade 'B+' has no colour of its own and draws gray |
| PdfGenerator.WriteLines | src/lib/pdf-generator.ts:266-269 | n lines move the cursor 6n mm down on the same page |
| PdfGenerator.WriteRecommendations | src/lib/pdf-generator.ts:343-388 | each recommendation adds at most one page |
| PdfGenerator.StartSection | src/lib/pdf-generator.ts:153-164 | a section starts a page and puts the cursor below its header |
| PdfGenerator.GenerateProfessionalPdf | src/lib/pdf-generator.ts:24-488 | six pages plus table pages, and at most the page breaks more; shows the stored score, colour, description, count and dates; the factor table, calculations and total only with factors; the recommendations; the "Excellent!" text only without them; the legend |
| ReportViewDialog.GradeTone | src/components/report-view-dialog.tsx:50-58 | A green, B blue, C yellow, D red, any other grade gray |
| ReportViewDialog.GradeColoursAgree | src/components/report-view-dialog.tsx:50-58 | the dialog and the PDF agree on which grades are gray, green and red |
| ReportViewDialog.GradeBadgeIsDefault | src/components/report-view-dialog.tsx:194-196 | the badge is the default style exactly for green and blue grades |
| ReportViewDialog.SameDescriptionAsPdf | src/components/report-view-dialog.tsx:60-66 | the dialog's score description is the PDF's |
| ReportViewDialog.GetFactorInsight | src/components/report-view-dialog.tsx:68-73 | Excellent from 80, Good from 60, Fair from 40, Needs Improvement below |
| ReportViewDialog.FactorStatusMatchesPdf | src/components/report-view-dialog.tsx:68-73 | the dialog status is the PDF's from 40 up; below 40 the dialog says Needs Improvement where the PDF says Needs Work |
| ReportViewDialog.FactorDetailsMatchPdf | src/components/report-view-dialog.tsx:75-106 | the dialog's factor weights add up to 100 and match the PDF's table |
| ReportViewDialog.ShownValue | src/components/report-view-dialog.tsx:226 | `report.factors?.[key] \|\| 0`: 0 without factors, the factor otherwise |
| ReportViewDialog.FactorLines | src/components/report-view-dialog.tsx:225-227 | one line per factor, each with its value and the insight of that value |
| ReportViewDialog.MissingFactorsShowZero | src/components/report-view-dialog.tsx:226-227 | without factors every line shows 0 and Needs Improvement |
| ReportViewDialog.RecommendationFor | src/components/report-view-dialog.tsx:114-166 | a recommendation carries its area and that area's priority |
| ReportViewDialog.Fired | src/components/report-view-dialog.tsx:114-157 | never more recommendations than rules |
| ReportViewDialog.FiredContents | src/components/report-view-dialog.tsx:114-157 | an area is listed exactly when its rule fires |
| ReportViewDialog.FiredOrdered | src/components/report-view-dialog.tsx:114-157 | rules ordered by urgency give recommendations ordered by urgency |
| ReportViewDialog.GetRecommendationsContents | src/components/report-view-dialog.tsx:108-169 | none without factors; one per firing rule (bill and income below 70, expenses below 70, growth below 50, diversity below 60); 'Maintain Excellence', and then alone, exactly when no rule fires |
| ReportViewDialog.GetRecommendationsOrdered | src/components/report-view-dialog.tsx:108-169 | with factors, 1 to 5 entries, each with its area's priority, urgency never increasing |
| ReportViewDialog.RecommendationsAgreeWithPdf | src/components/report-view-dialog.tsx:114-139 | the dialog raises bill payments, income stability and expense control exactly when the PDF does |
| ScoreGauge.GradeFor | src/components/score-gauge.tsx:19-33 | A from 800, B from 600, C from 400, D below, each with its own colour |
| ScoreGauge.GradeMonotone | src/components/score-gauge.tsx:19-33 | a higher value never gets a lower grade |
| ScoreGauge.Gauge.constructor | src/components/score-gauge.tsx:10-12 | the first render: animated value 0, grade D in red |
| ScoreGauge.Gauge.Animate | src/components/score-gauge.tsx:14-17 | the animation sets the animated value to the value; the grade is untouched, so grade and colour still agree |
| ScoreGauge.Gauge.ApplyGrade | src/components/score-gauge.tsx:19-33 | grade and colour are set together from the value; the animated value is untouched |
| ScoreGauge.Mount | src/components/score-gauge.tsx:9-33 | after both effects the gauge shows the value with its grade and colour |

## Left out

- Console logging in `credit-analysis.ts` and the Genkit flows, Firestore access, routes and pages that call this core are not part of this model.
- `formatCurrency` and `formatPercent` (`reportUtils.ts` lines 6-18) are locale formatting and are not modelled. Figures are kept as numbers.
- The clock is a parameter. The report date and the date inside the report id come from it. The report id is the pair (date, score), not its string.
- Description strings that interpolate numbers are represented by the numbers they show. The exact wording of the insight descriptions is not modelled.
- Floating point is not modelled: amounts and ratios are exact `real`s.
- `Math.sqrt` is a relation (any non-negative square root). The coefficient-of-variation score is computed by a threshold search proved equal to it.
- Dates are calendar dates without time or time zone. The `getMonth` (local time) month of `credit-analysis.ts` and the `toISOString` (UTC) month of `reportUtils.ts` are the same key here. Date parsing and invalid dates are not modelled.
- `Array.prototype.sort` is the stable insertion sort `Transactions.SortBy`; only its result is modelled, not the comparisons it makes.
- `Object.keys` order: month keys such as `2024-05` are not integer-like, so JavaScript keeps insertion order, as the model's key lists do.
- The bill keyword test is a substring test on the lower-cased category. Like the source, it also matches categories where a keyword is only part of a word (for example "rent" inside "current").
- The `monthlyTotals.length === 0` branch of `calculateIncomeConsistency` cannot be taken once there is income (`CreditAnalysis.IncomeMonthsNonEmpty`), so it has no branch of its own.
- The score breakdown component reads its factor values from demo data in `src/lib/data.ts`, which is not part of this model. The component is modelled over any factor values.
- PDF drawing is not modelled: fonts, colours as RGB triples, rectangles and the footer. Colours are named.
- Three things the drawing library decides are fields of `PdfGenerator.Layout`: how many lines a wrapped text takes (`splitTextToSize`), where an `autoTable` ends (`lastAutoTable.finalY`) and how many pages a table spills over.
- The page height is taken as 297 mm, the height of A4 in millimetres.
- `toLocaleDateString` is not modelled; `PdfGenerator.DateShown` shows the stored date string.
- The PDF's "Valid Until" date and the generation date are not modelled.
- The `Buffer` the PDF generator returns is not modelled.
- PdfGenerator.GenerateProfessionalPdf: bounds the page count rather than stating it exactly. The extra pages depend on the cursor position, which depends on wrapped text and table heights given by the layout library.
- PdfGenerator.WriteRecommendations: states only the page bound. The text drawn for each recommendation is the content `PdfGenerator.RecommendationsPromise` describes.
- The dialog's recommendations keep their priority and area but not their action and impact texts. Icons and CSS classes are reduced to a tone.
- The dialog markup (tabs, progress bars, tables) is not modelled.
- The gauge's SVG arc (`Math.PI`, stroke offsets) is not modelled. `requestAnimationFrame` and its cleanup are reduced to one step that sets the animated value. The `max` prop is kept; the source uses it only in the SVG arc, which is not modelled.
- CreditAnalysis.MonthlyTotals: states only that there is one total per month. That each total is its month's sum is its definition, which `CreditAnalysis.IncomeConsistencyIsCvScore` uses.
- CreditAnalysis.AnalyzeTransactions: states ranges and the empty-history case. That the factors are the five factor functions on the date-sorted list is its definition, and each factor function carries its own contract.
- ReportInsights.InsightOf: states only the rule of the insight. Its kind and description are its definition.
- The legend's row C reads "Needs Improvement", while `getScoreDescription` gives "Needs Improvement - Higher Risk" (see `PdfGenerator.GradeLegendPartitions`).
- The gauge's grades (A from 800, B from 600, C from 400) differ from the PDF legend's (A, B+, B, C, D at 800/700/600/500). Each is modelled as written.
- CreditAnalysis.Lower: lower-cases only the ASCII letters A-Z. JavaScript's `toLowerCase` follows Unicode, where some characters change the length ('İ' becomes two code units) or map outside ASCII (the Kelvin sign becomes 'k'). The bill keywords contain no such case, so the bill test is unaffected.
- CreditAnalysis.EarliestKey: orders months by the calendar. The source sorts the `YYYY-MM` strings, which agrees with the calendar only for four-digit years (year 999 sorts after 2024 as a string, year 10000 before it).
- CreditAnalysis.LatestKey: same calendar order as `CreditAnalysis.EarliestKey`, with the same restriction to four-digit years.
- ReportTables.AnalyzeCategoryDistribution: treats every category name as an own key of a fresh record. In JavaScript a name inherited from `Object.prototype` ("toString", "constructor", "__proto__") makes `!categories[category]` false, so no row is created for it and the count update goes to the inherited value. Such categories get a row here, so `ReportTables.CategoryCountsSum` and `ReportTables.CategoryRowsDescribeCategories` hold for the model but not for those names in the source.
- ReportTables.Entries: lists the names in the order they were first seen. `Object.entries` lists integer-like names ("2024", "7") first, in ascending order. When two rows have equal amounts, the stable sort can then keep them in a different order than here.
