# Period analytics of the finance dashboard, in Dafny

This project models the part of a personal-finance web application that turns the
user's transactions into the figures of its dashboard:
- which transactions fall in the selected period (day, week, month, year or a custom range);
- which fall in the equivalent earlier period;
- income, expense and balance totals, and their variation against the earlier period;
- expenses per category, the dominant category, and the rule-based insights shown beside them;
- the health and trend badges.

Beside that core it models four smaller pieces of client state of the same application:
- the category list kept by the `useCategorias` hook;
- the new-goal dialog;
- the profile page;
- the sign-up form.

Each is a class whose methods change that state once the remote answer (a parameter) is known.

Files and modules:
- `wrappers.dfy` (`Wrappers`): `Option` and `Result`.
- `seqs.dfy` (`Seqs`): an order-preserving `Filter` on sequences.
- `calendar.dfy` (`Calendar`): proleptic Gregorian dates, a day number, day arithmetic that normalises like JavaScript's `Date`, weekdays and the start of the week.
- `datekeys.dfy` (`DateKeys`): `YYYY-MM-DD` keys, JavaScript's string order on them, `split` and the `dd/mm/yyyy` display format.
- `periods.dfy` (`Periods`): the period selector, the current-period rule and the previous-period interval.
- `aggregation.dfy` (`Aggregation`): the period subsets, the totals, the per-category totals and the newest-first sort.
- `indicators.dfy` (`Indicators`): the variations, the category share with JavaScript's division by zero, the top category, the tips and the badges.
- `dashboard.dfy` (`Dashboard`): the whole `processedData` computation.
- `insights.dfy` (`Insights`): `gerarInsights`.
- `scenarios.dfy` (`Scenarios`): a concrete end-to-end run.
- `categorias.dfy` (`Categorias`), `nova_meta.dfy` (`NovaMeta`), `perfil.dfy` (`Perfil`) and `register.dfy` (`Register`): the four client-state pieces.

In these places the code behaves in ways a reader might not expect, and the model follows the code:
- The dashboard starts on the tab value `"mês"`, and the period filters only know `"mes"`.
  - The initial tab (and the "Mês" tab) therefore takes the default branches: every transaction is current.
  - The previous interval is `("", "")`, which holds only transactions whose date part is empty.
  - See `Periods.MonthTabIsUnrecognised`, `Aggregation.UnrecognisedKeepsAll` and `Scenarios.MonthTabScenario`.
- An empty snapshot does not yield an empty insight list. Its figures are all zero, and a ratio of 0 is below 70 %, so the ratio rule praises controlled spending. `Insights.NoTransactions` shows that exactly that one insight is produced.
- The category tip is given for the top category whether or not that category is dominant (share above 40 %): the tip check sits outside the dominance check. See `Insights.TipWithoutDominance`.
- The share of a category is computed even when total expenses are 0. JavaScript then gives `NaN` or an infinity, and an infinite share passes the `> 40` test. See `Indicators.ShareOver40`.

## Model

| member | source | states |
|---|---|---|
| Seqs.Filter | src/pages/Dashboard.tsx:246-266 | the kept elements are exactly the elements that pass, and none is added (multiset inclusion) |
| Seqs.FilterConcat | src/pages/Dashboard.tsx:270-273 | filtering distributes over concatenation, so relative order is kept |
| Seqs.FilterAll | src/pages/Dashboard.tsx:264-265 | a predicate every element passes keeps the whole sequence |
| Seqs.FilterNone | src/pages/Dashboard.tsx:270-273 | a predicate no element passes keeps nothing |
| Calendar.DaysInMonth | src/pages/Dashboard.tsx:209-210 | months have 28 to 31 days; 29 exactly for February of a leap year, 28 exactly for February of a common one |
| Calendar.LeapYearExamples | src/pages/Dashboard.tsx:209-210 | 2024 and 2000 are leap years, 2023 and 1900 are not |
| Calendar.MonthBoundary | src/pages/Dashboard.tsx:177-178 | the last day of a month before December is valid and followed by the first of the next month |
| Calendar.YearBoundary | src/pages/Dashboard.tsx:177-178 | 31 December is valid and followed by 1 January of the next year |
| Calendar.DayNumberOrder | src/pages/Dashboard.tsx:248-258 | calendar order of valid dates is the order of their day numbers, and equal day numbers mean equal dates |
| Calendar.Succ | src/pages/Dashboard.tsx:177-178 | the next calendar day is valid and one day number later |
| Calendar.Pred | src/pages/Dashboard.tsx:177-178 | the previous calendar day is valid and one day number earlier |
| Calendar.AddDays | src/pages/Dashboard.tsx:74 | `setDate(getDate() + k)` normalises to a valid date exactly k day numbers away, for negative k too |
| Calendar.Weekday | src/pages/Dashboard.tsx:74 | `getDay()` lies in 0..6 |
| Calendar.StartOfWeekIsSunday | src/pages/Dashboard.tsx:71-78 | the start of the week is a Sunday, at most six days before the given day |
| Calendar.StartOfWeekIsLatestSunday | src/pages/Dashboard.tsx:71-78 | no Sunday on or before the given day is later than the start of its week |
| Calendar.JsDateFirstOfMonth | src/pages/Dashboard.tsx:209 | `new Date(y, k, 1)` is the first of month k+1 |
| Calendar.JsDateDayZero | src/pages/Dashboard.tsx:210 | `new Date(y, m, 0)` is the last day of month m, whatever its length |
| DateKeys.Decimal | src/pages/Dashboard.tsx:64-66 | `String(n)` of a natural number is a non-empty string of decimal digits |
| DateKeys.DecimalDigits | src/pages/Dashboard.tsx:64-66 | a number of w digits prints as its w-digit rendering |
| DateKeys.KeyShape | src/pages/Dashboard.tsx:62-68 | a key of a four-digit-year date is four year digits, dash, two month digits, dash, two day digits: ten characters |
| DateKeys.StrLessTotal | src/pages/Dashboard.tsx:327-329 | JavaScript's string order is total and asymmetric |
| DateKeys.StrLessTransitive | src/pages/Dashboard.tsx:327-329 | JavaScript's string order is transitive |
| DateKeys.StrLessIrreflexive | src/pages/Dashboard.tsx:327-329 | no string is below itself |
| DateKeys.StrLessConcat | src/pages/Dashboard.tsx:248-258 | strings with a same-length prefix compare by prefix first, then by the rest |
| DateKeys.DigitsOrder | src/pages/Dashboard.tsx:248-258 | fixed-width digit strings compare as the numbers they denote |
| DateKeys.KeyOrder | src/pages/Dashboard.tsx:248-258 | comparing keys as strings is comparing the dates, and equal keys mean equal dates |
| DateKeys.KeyFieldsOrder | src/pages/Dashboard.tsx:248-258 | keys of the same shape compare by year, then month, then day, and are equal exactly when all three are |
| DateKeys.Split | src/pages/Dashboard.tsx:247 | `split` always yields at least one part |
| DateKeys.SplitAtSeparator | src/pages/Dashboard.tsx:247 | a leading part without the separator is the first part, and the rest is split in turn |
| DateKeys.SplitNoSeparator | src/pages/Dashboard.tsx:247 | a string without the separator splits into itself |
| DateKeys.DatePartOfKey | src/pages/Dashboard.tsx:247 | the date part of a key, with or without a time suffix, is the key itself |
| DateKeys.FormatDateOfKey | src/pages/Dashboard.tsx:55-59 | `formatarData` of a key, with or without a time suffix, is day/month/year |
| DateKeys.SplitKey | src/pages/Dashboard.tsx:57 | a key splits at its dashes into exactly its year, month and day |
| DateKeys.FormatDateEmpty | src/pages/Dashboard.tsx:56 | `formatarData` of the empty string is empty |
| Periods.ParsePeriod | src/pages/Dashboard.tsx:249-265 | a tag is unrecognised exactly when it is none of the five period names, and keeps the tag |
| Periods.MonthTabIsUnrecognised | src/pages/Dashboard.tsx:121 | the initial tab is the third tab, "mês", which no period branch recognises; the day, week and year tabs are recognised |
| Periods.MonthStartKey | src/pages/Dashboard.tsx:81-87 | the month start key is the key of the first of the current month |
| Periods.YearStartKey | src/pages/Dashboard.tsx:90-93 | the year start key is the key of the first of January |
| Periods.CurrentDay | src/pages/Dashboard.tsx:250-251 | a date is in the current day exactly when it is today |
| Periods.CurrentWeek | src/pages/Dashboard.tsx:252-253 | a date is in the current week exactly when it is on or after the Sunday that starts the week |
| Periods.CurrentMonth | src/pages/Dashboard.tsx:254-255 | a date is in the current month exactly when it is on or after the first of the month |
| Periods.CurrentYear | src/pages/Dashboard.tsx:256-257 | a date is in the current year exactly when its year is not earlier |
| Periods.CurrentCustom | src/pages/Dashboard.tsx:258-263 | a custom range keeps exactly the dates between its ends, and without a range nothing is kept |
| Periods.CurrentUnrecognised | src/pages/Dashboard.tsx:264-265 | an unrecognised tag keeps every transaction |
| Periods.KeyIntervalMembers | src/pages/Dashboard.tsx:270-273 | a closed key interval holds exactly the dates between its ends |
| Periods.StaysFourDigit | src/pages/Dashboard.tsx:173-244 | going back up to a year from a four-digit year (from 1001) stays four-digit |
| Periods.PreviousDay | src/pages/Dashboard.tsx:176-181 | the previous day interval is yesterday alone |
| Periods.PreviousWeek | src/pages/Dashboard.tsx:182-196 | the previous week runs from the Sunday seven days before the week start to the Saturday before it |
| Periods.PreviousMonth | src/pages/Dashboard.tsx:197-216 | the previous month interval runs from the first to the last day of the preceding month |
| Periods.PreviousMonthMembers | src/pages/Dashboard.tsx:197-216 | a date is in the previous month interval exactly when it lies in the preceding month |
| Periods.PreviousMonthJanuary | src/pages/Dashboard.tsx:204-208 | in January the previous month is December of the year before |
| Periods.PreviousMonthFebruary | src/pages/Dashboard.tsx:197-216 | for every year, the previous month interval of March is February, ending on the 29th in a leap year and on the 28th otherwise |
| Periods.PreviousYear | src/pages/Dashboard.tsx:217-223 | the previous year interval is 1 January to 31 December of last year |
| Periods.PreviousYearMembers | src/pages/Dashboard.tsx:217-223 | a date is in it exactly when its year is last year |
| Periods.PreviousCustom | src/pages/Dashboard.tsx:224-240 | the previous custom interval ends one day before the range starts and spans as many days as the range |
| Periods.CustomPreviousEnds | src/pages/Dashboard.tsx:224-240 | the ends of the previous custom interval are valid dates, the end one day before the range starts and as many days after the start as the range spans |
| Periods.PreviousFallback | src/pages/Dashboard.tsx:241-242 | without a range, or for an unrecognised tag, the previous interval is ("",""), which holds only the empty date part |
| Aggregation.UnrecognisedKeepsAll | src/pages/Dashboard.tsx:246-266 | for an unrecognised tag the current subset is the whole snapshot, in order |
| Aggregation.FallbackIsEmpty | src/pages/Dashboard.tsx:269-273 | the fallback previous interval selects nothing when every transaction has a date |
| Aggregation.SumConcat | src/pages/Dashboard.tsx:285-291 | the sum of amounts is additive over concatenation |
| Aggregation.TotalConcat | src/pages/Dashboard.tsx:285-291 | an income or expense total is additive over concatenation |
| Aggregation.TotalSnoc | src/pages/Dashboard.tsx:285-291 | one more transaction adds its amount to its own kind's total only |
| Aggregation.TotalEmpty | src/pages/Dashboard.tsx:275-283 | the total of no transactions is 0 |
| Aggregation.CategoryKey | src/pages/Dashboard.tsx:301 | the category key is never empty; it is "Outros" exactly when the category is missing, empty or "Outros", and otherwise the category's name |
| Aggregation.CategoryOrderKeys | src/pages/Dashboard.tsx:298-304 | the category keys are distinct and are exactly the keys of the expenses, in first-seen order |
| Aggregation.CategorySumAbsent | src/pages/Dashboard.tsx:298-304 | a key no expense has totals 0 |
| Aggregation.CategorySumIgnoresIncome | src/pages/Dashboard.tsx:299 | an income transaction changes neither the category totals nor their order |
| Aggregation.SumOverStep | src/pages/Dashboard.tsx:300-303 | one more expense adds its amount to the sum over distinct keys when its key is among them |
| Aggregation.CategoryTotalsAddUp | src/pages/Dashboard.tsx:298-304 | the category totals add up to total expenses |
| Aggregation.CategoryTotals | src/pages/Dashboard.tsx:298-304 | the accumulating loop yields the first-seen key order and, for every key, its category total |
| Aggregation.Entries | src/pages/Dashboard.tsx:375 | `Object.entries` lists each key with its amount, in key order |
| Aggregation.Insert | src/pages/Dashboard.tsx:327-329 | one insertion step extends the newest-first prefix, leaves the rest alone and keeps the elements |
| Aggregation.SortNewestFirst | src/pages/Dashboard.tsx:327-329 | the sort leaves the array newest first by date string and a permutation of what it was |
| Indicators.Abs | src/pages/Dashboard.tsx:319 | `Math.abs` is non-negative and is the value or its negation |
| Indicators.IncomeVariationCases | src/pages/Dashboard.tsx:307-312 | the income variation is the percentage change against positive earlier income, else 100 when income appeared, else 0 |
| Indicators.IncomeVariationSign | src/pages/Dashboard.tsx:307-312 | for non-negative incomes, the variation is positive or negative exactly when income rose or fell, and never below -100 |
| Indicators.BalanceVariationCases | src/pages/Dashboard.tsx:315-324 | the balance variation is the change relative to the earlier balance's size, 100 when a deficit turned non-negative, ±100 or 0 from a zero balance |
| Indicators.BalanceVariationSign | src/pages/Dashboard.tsx:315-324 | the balance variation is positive, negative or zero exactly when the balance rose, fell or stayed |
| Indicators.BalanceVariationExamples | src/pages/Dashboard.tsx:315-324 | sample values of each branch, such as -50 to -25 giving +50 |
| Indicators.Divide | src/pages/Dashboard.tsx:380 | JavaScript division: a finite quotient for a non-zero divisor, otherwise +∞, -∞ or NaN by the dividend's sign |
| Indicators.Scale | src/pages/Dashboard.tsx:380 | multiplying by a positive factor keeps infinities and NaN and scales finite values |
| Indicators.ShareFinite | src/pages/Dashboard.tsx:380 | the share is the percentage of total expenses when that total is non-zero, and NaN or an infinity at 0 |
| Indicators.ShareOver40 | src/pages/Dashboard.tsx:382 | with positive total expenses a share exceeds 40 % exactly when 5·value > 2·total; at total 0 exactly when the value is positive |
| Indicators.TopIndex | src/pages/Dashboard.tsx:375-376 | the top category has the largest amount, and every earlier entry is strictly smaller (first maximum) |
| Indicators.TopIndexTie | src/pages/Dashboard.tsx:375-376 | on a tie the first entry wins |
| Indicators.TipFor | src/pages/Dashboard.tsx:387-396 | a tip exists exactly for the four listed categories, each with its own tip |
| Indicators.HealthBadge | src/pages/Dashboard.tsx:545-556 | the badge is "Bom" below 80 %, "Regular" from 80 to below 90, "Ruim" from 90 |
| Indicators.BalanceBadge | src/pages/Dashboard.tsx:534-538 | the trend badge shows growth exactly when the balance variation is non-negative |
| Indicators.BalanceBadgeFollowsBalance | src/pages/Dashboard.tsx:534-538 | the trend badge shows growth exactly when the balance did not fall |
| Dashboard.ExpenseRatioMeaning | src/pages/Dashboard.tsx:294-295 | the expense ratio is expenses as a percentage of positive income, and 0 otherwise |
| Dashboard.CategoryEntries | src/pages/Dashboard.tsx:298-304 | the category entries pair each key, in first-seen order, with its total |
| Dashboard.EntriesOf | src/pages/Dashboard.tsx:298-304 | an entry list pairs each given key with its category total |
| Dashboard.EntriesSumOver | src/pages/Dashboard.tsx:298-304 | the amounts of an entry list add up to the sum over its keys |
| Dashboard.CategoryEntriesAddUp | src/pages/Dashboard.tsx:298-304 | the category amounts add up to total expenses |
| Dashboard.CategoryEntriesDistinct | src/pages/Dashboard.tsx:298-304 | no category appears twice |
| Dashboard.CategoryEntriesKeys | src/pages/Dashboard.tsx:298-304 | a key has an entry, carrying its total, exactly when an expense of the current subset has that key |
| Dashboard.FiguresConsistent | src/pages/Dashboard.tsx:285-304 | balance is income minus expenses, the ratio is the expense ratio of the two totals, and the category amounts are distinct by key and add up to total expenses |
| Dashboard.RatioOfFigures | src/pages/Dashboard.tsx:293-295 | the figures' ratio times income is expenses times 100, or the ratio is 0 without income |
| Dashboard.FiguresFromFields | src/pages/Dashboard.tsx:285-324 | assembled figures hold the given totals, balance income minus expenses, the expense ratio of the totals, and a balance variation whose sign is that of the change in balance |
| Dashboard.BalanceTrend | src/pages/Dashboard.tsx:314-324 | a balance variation computed from the two balances is positive, negative or zero exactly when the balance rose, fell or stayed |
| Dashboard.FiguresOfSubsets | src/pages/Dashboard.tsx:275-324 | current totals come from the current subset and earlier income and balance from the previous one; the balance variation is positive or negative exactly when the balance rose or fell; the categories are the category entries of the current subset |
| Dashboard.FiguresWhenEmpty | src/pages/Dashboard.tsx:155-168 | while loading, or with no transactions, every figure is 0 and there are no categories |
| Dashboard.ComputeFiguresLoaded | src/pages/Dashboard.tsx:170-339 | with transactions loaded, the figures are those of the current subset against the previous one |
| Dashboard.AccumulatedEntries | src/pages/Dashboard.tsx:298-304 | the entries of the accumulated object are the category entries |
| Dashboard.GastosPorCategoria | src/pages/Dashboard.tsx:298-304 | the loop's result is the category entries of the current subset |
| Dashboard.ComputeFiguresOf | src/pages/Dashboard.tsx:275-324 | the imperative computation gives the figures of the two subsets |
| Dashboard.SortFiltered | src/pages/Dashboard.tsx:327-329 | the sorted subset is newest first and holds the same transactions, as often |
| Dashboard.ProcessData | src/pages/Dashboard.tsx:154-339 | the figures of the selection, and the current subset sorted newest first (a permutation of it; empty while loading or for no transactions) |
| Insights.Rank | src/pages/Dashboard.tsx:354-409 | each insight belongs to one of the rules, ranked 0 to 5 |
| Insights.GerarInsights | src/pages/Dashboard.tsx:354-409 | the imperative list is the rules' insights in rule order |
| Insights.PushCategoryInsights | src/pages/Dashboard.tsx:375-396 | the category block appends exactly the category rule's insights to those so far |
| Insights.RanksConcat | src/pages/Dashboard.tsx:354-409 | rule outputs concatenated in rule order keep insights in rule order |
| Insights.RanksWithinConcat | src/pages/Dashboard.tsx:354-409 | juxtaposed rank ranges join into one range |
| Insights.RuleRanks | src/pages/Dashboard.tsx:354-409 | each rule emits insights of its own ranks only, in order |
| Insights.InsightsMembers | src/pages/Dashboard.tsx:354-409 | an insight is in the list exactly when one of the four rules produces it |
| Insights.IncreasingRanksBounds | src/pages/Dashboard.tsx:354-409 | in a list of strictly increasing ranks within 0..4 only the first can have rank 0 and only the last rank 4 |
| Insights.InsightsInRuleOrder | src/pages/Dashboard.tsx:354-409 | insights appear in rule order; only the first can be the balance insight and only the last the savings insight |
| Insights.BalanceInsight | src/pages/Dashboard.tsx:359-363 | a positive balance opens with its commendation, a negative one with its shortfall, a zero balance gives no balance insight |
| Insights.RatioRuleRanks | src/pages/Dashboard.tsx:366-372 | the ratio rule emits only ratio insights |
| Insights.RatioInsight | src/pages/Dashboard.tsx:366-372 | critical exactly above 90 %, high exactly in (80, 90], controlled exactly below 70, none from 70 to 80 |
| Insights.CategoryRuleRanks | src/pages/Dashboard.tsx:375-396 | the category rule emits only dominance and tip insights |
| Insights.CategoryInsight | src/pages/Dashboard.tsx:375-396 | without categories no category insight; otherwise dominance exactly when the top share exceeds 40 %, with the top category's amount and share, and a tip exactly when the top category has one |
| Insights.SavingsInsight | src/pages/Dashboard.tsx:400-406 | the savings shortfall is reported, with gap 20 % of income minus savings, exactly when income is positive and savings fall short; its gap is positive |
| Insights.BadgeAndRatioInsight | src/pages/Dashboard.tsx:366-372 | the ratio insights agree with the health badge away from 80 and 90; at 80 the badge says "Regular" with no ratio insight, at 90 "Ruim" with only the high warning |
| Insights.NoTransactions | src/pages/Dashboard.tsx:155-168 | an empty loaded period yields exactly the controlled-spending insight |
| Insights.TipWithoutDominance | src/pages/Dashboard.tsx:387-396 | a top category not above 40 % still gets its tip |
| Scenarios.ScenarioSubsets | src/pages/Dashboard.tsx:246-273 | on the initial tab the sample transactions are all current and none previous |
| Scenarios.ScenarioInterval | src/pages/Dashboard.tsx:241-242 | the initial tab's previous interval is the fallback ("","") |
| Scenarios.ScenarioPrevious | src/pages/Dashboard.tsx:270-273 | the fallback interval selects none of the samples |
| Scenarios.ScenarioTotals | src/pages/Dashboard.tsx:285-304 | the samples total 1000 income, 800 expenses, all in "Food" |
| Scenarios.ScenarioTotal | src/pages/Dashboard.tsx:285-291 | the income total is 1000 and the expense total 800 |
| Scenarios.ScenarioCategories | src/pages/Dashboard.tsx:298-304 | the category entries are ("Food", 800) alone |
| Scenarios.ScenarioFiguresOf | src/pages/Dashboard.tsx:275-324 | the sample figures: balance 200, ratio 80, variations 100 |
| Scenarios.ScenarioFigures | src/pages/Dashboard.tsx:154-339 | the whole computation on the initial tab gives those figures |
| Scenarios.ScenarioInsights | src/pages/Dashboard.tsx:354-409 | those figures give the positive balance and the "Food" dominance at 100 %, and nothing else |
| Scenarios.MonthTabScenario | src/pages/Dashboard.tsx:121 | end to end, the initial tab on the samples yields exactly those two insights |
| Categorias.ReplaceById | src/hooks/useCategorias.ts:82 | replacing by id keeps the length, puts the record at every matching index and leaves the others |
| Categorias.RemoveById | src/hooks/useCategorias.ts:108 | removing by id keeps exactly the entries with another id |
| Categorias.ByTipo | src/hooks/useCategorias.ts:194-195 | a type filter keeps exactly the entries of that type, with no additions |
| Categorias.RemoveByIdConcat | src/hooks/useCategorias.ts:108 | removal works piece by piece, keeping order |
| Categorias.CreateThenDelete | src/hooks/useCategorias.ts:54 | deleting a just-created record with a fresh id gives back the earlier list |
| Categorias.UpdateThenDelete | src/hooks/useCategorias.ts:82 | delete after update of the same id equals the delete alone |
| Categorias.UpdateIdempotent | src/hooks/useCategorias.ts:82 | updating twice with the same record is updating once |
| Categorias.DeleteIdempotent | src/hooks/useCategorias.ts:108 | deleting twice is deleting once |
| Categorias.ByTipoPartition | src/hooks/useCategorias.ts:194-195 | the income and expense lists partition the categories, multiplicities included |
| Categorias.ByTipoLengths | src/hooks/useCategorias.ts:194-195 | the income and expense lists are together as long as the whole list |
| Categorias.Defaults | src/hooks/useCategorias.ts:129-146 | fourteen defaults, the first five income and the other nine expense, none with a description |
| Categorias.Created | src/hooks/useCategorias.ts:149-151 | a record is created exactly when some answer carries it, and never more records than answers |
| Categorias.CreatedInOrder | src/hooks/useCategorias.ts:149-151 | the created records are the values of the successful answers, one per success and in call order |
| Categorias.HasCategorias | src/hooks/useCategorias.ts:168-186 | true exactly when the query succeeded with a known positive count |
| Categorias.CategoryStore.constructor | src/hooks/useCategorias.ts:18-19 | the list starts empty and loading |
| Categorias.CategoryStore.Receitas | src/hooks/useCategorias.ts:194 | exactly the income categories of the list |
| Categorias.CategoryStore.Despesas | src/hooks/useCategorias.ts:195 | exactly the expense categories of the list |
| Categorias.CategoryStore.Fetch | src/hooks/useCategorias.ts:22-40 | rows received replace the list, no rows empty it, an error keeps it; loading ends in every case |
| Categorias.CategoryStore.Create | src/hooks/useCategorias.ts:42-70 | a successful create appends the returned record; an error is returned and leaves the list |
| Categorias.CategoryStore.Update | src/hooks/useCategorias.ts:72-98 | a successful update replaces the entries with that id; an error leaves the list |
| Categorias.CategoryStore.Delete | src/hooks/useCategorias.ts:100-124 | a successful delete removes the entries with that id; an error leaves the list |
| Categorias.CategoryStore.ImportDefaults | src/hooks/useCategorias.ts:127-166 | the fourteen defaults are sent in order, the successful ones appended, and success is reported whatever failed |
| Categorias.CategoryStore.CreateAll | src/hooks/useCategorias.ts:148-151 | every given default is sent, in order, and the successful answers are appended |
| NovaMeta.EmptyForm | src/components/NovaMetaModal.tsx:39-50 | the empty form has type "economia" and every other field empty |
| NovaMeta.Set | src/components/NovaMetaModal.tsx:94-99 | the named field takes the value and the others are unchanged |
| NovaMeta.SetLaws | src/components/NovaMetaModal.tsx:94-99 | writing a field's own value changes nothing, and a later write to a field overrides an earlier one |
| NovaMeta.OrZero | src/components/NovaMetaModal.tsx:69 | `x \|\| 0` is never NaN: NaN and 0 give 0, other numbers stay |
| NovaMeta.OrElse | src/components/NovaMetaModal.tsx:70 | `s \|\| t` is s unless s is empty |
| NovaMeta.BuildMeta | src/components/NovaMetaModal.tsx:65-75 | the new goal is active, copies the text fields, parses the target, never has a NaN current value, and starts today when no start date was given |
| NovaMeta.MetaDefaults | src/components/NovaMetaModal.tsx:69 | an empty or unparseable current value becomes 0, and a parseable one is kept |
| NovaMeta.ResetFormIsRejected | src/components/NovaMetaModal.tsx:56-63 | the reset form fails the required-field guard |
| NovaMeta.DefaultGoalCategories | src/components/NovaMetaModal.tsx:114-120 | five default goal categories, all active |
| NovaMeta.IssuedCount | src/components/NovaMetaModal.tsx:123-125 | all five creates are issued, or those up to and including the first that throws |
| NovaMeta.MetaModal.constructor | src/components/NovaMetaModal.tsx:39-50 | closed, with the empty form, not importing |
| NovaMeta.MetaModal.HandleInputChange | src/components/NovaMetaModal.tsx:94-99 | the input's field takes the value |
| NovaMeta.MetaModal.HandleSubmit | src/components/NovaMetaModal.tsx:53-92 | with a required field empty nothing is sent and nothing changes; otherwise the built goal is sent, the form is reset and the dialog closes |
| NovaMeta.MetaModal.ImportDefaults | src/components/NovaMetaModal.tsx:102-140 | without a callback nothing happens; otherwise the defaults are created in order until one throws, the outcome says which, and the flag is down at the end |
| Perfil.OrEmpty | src/pages/Perfil.tsx:32-42 | a missing value becomes the empty string |
| Perfil.FormFromProfile | src/pages/Perfil.tsx:32-42 | the form holds the profile's fields and the account e-mail, missing ones empty |
| Perfil.Set | src/pages/Perfil.tsx:44-49 | the named field takes the value and the others are unchanged |
| Perfil.UpdateOf | src/pages/Perfil.tsx:91-104 | the saved update carries name, phone, address and avatar from the form |
| Perfil.EmailIsNotSaved | src/pages/Perfil.tsx:91-104 | editing the e-mail field does not change what is saved |
| Perfil.CheckFile | src/pages/Perfil.tsx:55-76 | no file, not an image, larger than 5 MiB, or accepted; exactly one of these, by mime prefix and size |
| Perfil.AvatarLimits | src/pages/Perfil.tsx:66-76 | exactly 5 MiB is accepted, one byte more is too large, a PDF is not an image |
| Perfil.WordStarts | src/pages/Perfil.tsx:121-128 | the word starts are characters of the name, never a space |
| Perfil.FirstsOfSplit | src/pages/Perfil.tsx:121-128 | the first characters of the parts of `split(" ")` are the word starts |
| Perfil.WordStartsOfWord | src/pages/Perfil.tsx:121-128 | a word contributes its first character when it follows a space, and nothing else |
| Perfil.Upper | src/pages/Perfil.tsx:121-128 | ASCII lower-case letters are raised, other characters kept |
| Perfil.ToUpper | src/pages/Perfil.tsx:121-128 | `toUpperCase` raises each character |
| Perfil.Initials | src/pages/Perfil.tsx:121-128 | at most two initials |
| Perfil.InitialsAreWordStarts | src/pages/Perfil.tsx:121-128 | the initials are the first two word starts, raised; a name of spaces, or no name, gives none |
| Perfil.AllSpacesNoStarts | src/pages/Perfil.tsx:121-128 | a string of spaces has no word starts |
| Perfil.InitialsOfThreeWords | src/pages/Perfil.tsx:121-128 | "ana li bo" gives "AL" |
| Perfil.InitialsAfterSpaces | src/pages/Perfil.tsx:121-128 | leading spaces are skipped: "  zé" gives "Z" |
| Perfil.ProfilePage.constructor | src/pages/Perfil.tsx:20-29 | not editing, with an empty form |
| Perfil.ProfilePage.ProfileLoaded | src/pages/Perfil.tsx:32-42 | with a profile and a user the form is loaded from them, otherwise it is kept |
| Perfil.ProfilePage.HandleInputChange | src/pages/Perfil.tsx:44-49 | the input's field takes the value |
| Perfil.ProfilePage.HandleFileChange | src/pages/Perfil.tsx:55-89 | the file check decides; only an accepted file is uploaded, and only a non-empty URL replaces the avatar |
| Perfil.ProfilePage.HandleSave | src/pages/Perfil.tsx:91-104 | without a profile nothing is sent; otherwise the form's update is sent and editing ends on success |
| Perfil.ProfilePage.HandleCancel | src/pages/Perfil.tsx:106-118 | editing ends, and the form is reloaded when profile and user are present |
| Register.CheckPasswords | src/components/auth/RegisterForm.tsx:30-38 | mismatch exactly when the passwords differ; too short exactly when they agree with fewer than 6 characters; passed otherwise |
| Register.CheckOrder | src/components/auth/RegisterForm.tsx:30-38 | the mismatch check comes first, and six characters pass |
| Register.RegisterForm.constructor | src/components/auth/RegisterForm.tsx:14-22 | all fields empty, not loading |
| Register.RegisterForm.HandleSubmit | src/components/auth/RegisterForm.tsx:26-45 | sign-up is called once, with the form's fields, exactly when both checks pass; the loading flag goes up and then down in every case |

## Left out

- Fetching, the remote database, authentication, navigation, toasts, console logging, the layout and all JSX rendering are out of scope. Remote answers are parameters, and `Number(...)`, `toISOString()` and the clock are parameters or a given date.
- `now` is one date shared by every part of a computation. The code reads the clock several times, which can straddle midnight.
- Amounts are exact reals, not IEEE doubles.
  - Rounding, `toFixed` and `toLocaleString` display formatting are not modelled.
  - The only floating-point special values modelled are those of the category share at total expenses 0, and the `Number` results in the goal dialog.
- The custom previous interval is modelled on calendar days. `new Date("YYYY-MM-DD")` (UTC midnight) read back with local getters can shift a day in time zones west of UTC; that shift is not modelled.
- `new Date(y, m, d)` maps years 0 to 99 to 1900 to 1999; the model does not. The key and ordering lemmas assume four-digit years, from 1001 where a step goes back a year.
- `localeCompare` in the sort, and `<` on date strings, are modelled as code-point order (Dafny's `char`). On `YYYY-MM-DD` strings this is what the source gets; on arbitrary text it is not locale order, and it also differs from JavaScript's UTF-16 code-unit order when a character above U+FFFF meets one in U+E000–U+FFFF.
- Aggregation.SortNewestFirst: the result order among transactions with the same date string is not stated. The source's sort is stable, and the model's insertion sort is too, but no contract says so.
- `Object.entries` is taken in insertion order. JavaScript lists integer-like keys first, so a category named like a number would move; that is not modelled.
- Aggregation.CategoryTotals: the source accumulates into a plain `{}` object, so `acc[categoria] || 0` reads inherited `Object.prototype` members. A category named "constructor" starts from a function and its total becomes a string, and one named "__proto__" has its assignment ignored and drops out of `Object.entries`. The model treats every name as an ordinary key, so `Aggregation.CategoryTotalsAddUp` holds only for category names that are not `Object.prototype` members.
- `dicasPorCategoria[categoria]` also finds inherited `Object.prototype` names (a category called "toString"); only the four listed categories get a tip in the model.
- The insight texts, the user's name inside them, the emoji tagging and the icon lookup are out; an insight is a tag with its numbers.
- `getCurrentPeriod`, `formatarMes`, the debts, vehicles and shopping-list figures, and the category-import modal of the dashboard are out: they are display or other features.
- Perfil.Upper: only ASCII letters are upper-cased; JavaScript's full Unicode case mapping is not modelled.
- Register.CheckPasswords: `password.length` counts UTF-16 code units; the model counts characters.
- The payloads that create and update send (`NovaCategoria` and the `updates` object) only travel to the remote call; the model keeps what comes back.
- `handleInputChange` with a field name outside the form is not modelled: the field names are an enumeration.
- The import progress bars and their timers, and the profile effect's dependency and re-run rules, are out: they are presentation and scheduling.
