# GCARA dashboards — a verified Dafny model

GCARA is a React front end of crisis-monitoring dashboards. Its "API" fabricates snapshots
from random numbers, and each page turns a snapshot into cards, charts and lists by small
deterministic rules. This project models those rules and proves what they promise:

- the mock generators of `project/src/utils/api.ts` (module `Api`), with every
  `Math.random()` draw passed in as a real in [0, 1);
- the ten-point rolling chart history shared by the climate, finance, health and energy
  pages (module `Rolling`), each page's projection of a snapshot to a chart point, and its
  severity and trend classifiers (modules `Climate`, `Finance`, `Health`, `Energy`);
- the overview page's per-domain statuses, counts, overall status and all-or-nothing fetch
  (module `Overview`, over the shared `Status` module);
- the economic analyst page's in-flight guard and metric rebuild (`EconomicAnalyst`), the
  risk analyst page's generator, number format and loading state (`Analyst`), the trainer
  page's polled update with its five-entry session list (`Trainer`), and the responder
  page's cycling resource counter and utilisation colours (`Responder`);
- the testimonial carousel (`Testimonials`), the "time ago" indicator
  (`RefreshIndicator`) and the login page's role-to-route table (`Login`).

Pages whose state changes step by step are classes whose methods take the draws, clock
readings and awaited results as parameters; a page's fetch is split at its `await` into a
`Begin…` and a `Complete…`/`Finish…` method. Printed numbers use `Decimal.IntToString`,
whose round trip through `Decimal.ParseInt` is proved. Clock readings are integer
milliseconds; their printed forms (`toLocaleTimeString`, ISO strings) are opaque strings.

## Model

| member | source | states |
|---|---|---|
| Decimal.NatRoundTrip | project/src/components/RefreshIndicator.tsx:12-16 | reading back the decimal digits a count prints as gives the count |
| Decimal.IntRoundTrip | project/src/components/RefreshIndicator.tsx:12-16 | the printed form of any integer, sign included, reads back as that integer |
| Status.Aggregate | project/src/pages/Climate/ClimateDashboard.tsx:99-100 | the worst severity of a list: no entry ranks above it, and it is Normal or one of the entries |
| Status.AggregateIsWorst | project/src/pages/Overview/OverviewDashboard.tsx:60 | the aggregate equals the recursively computed worst severity |
| Status.Count | project/src/pages/Overview/OverviewDashboard.tsx:58-59 | the count is the number of occurrences of the value (its multiplicity), hence at most the length and positive exactly when the value occurs |
| Status.CountsDisjoint | project/src/pages/Overview/OverviewDashboard.tsx:58-59 | counts of two different severities add up to at most the list's length |
| Rolling.KeepLast | project/src/pages/Climate/ClimateDashboard.tsx:29 | `slice(-n)`: length min(len, n), element by element the suffix |
| Rolling.Append | project/src/pages/Climate/ClimateDashboard.tsx:19-30 | length min(len+1, 10), newest last, old points an unchanged prefix below capacity, oldest dropped at capacity |
| Rolling.KeepLastTwice | project/src/pages/Finance/FinanceDashboard.tsx:29 | trimming to n after trimming to n changes nothing |
| Rolling.AppendAllKeepsNewest | project/src/pages/Health/HealthDashboard.tsx:19-28 | any run of appends leaves exactly the last ten of all points, in insertion order |
| Rolling.AppendAllSaturates | project/src/pages/Energy/EnergyDashboard.tsx:19-30 | after ten or more appends the window holds only the last ten new points |
| Api.AlertsSeverity | project/src/pages/Health/HealthDashboard.tsx:98-99 | Critical iff some alert is critical, Warning iff none is critical and some is a warning, else Normal |
| Api.GenerateClimateData | project/src/utils/api.ts:39-56 | one "Temperature" alert, Warning with the above-average message iff the drawn temperature exceeds 18; with draws in [0,1) temperature in [15,20), CO2 in [410,430), rainfall in [0,100) |
| Api.GenerateFinanceData | project/src/utils/api.ts:58-72 | S&P 500, NASDAQ and FTSE 100 in that order, EUR/USD and GBP/USD; with draws in [0,1) each value, change, rate and the VIX in its range |
| Api.Scale | project/src/utils/api.ts:77-78 | `Math.floor(r * n)` lies in [0, n) for a draw in [0, 1) |
| Api.GenerateHealthData | project/src/utils/api.ts:74-89 | outbreaks exactly Influenza then Dengue with whole cases in [0,10000) and [0,5000), one warning alert, vaccination in [70,85) |
| Api.GenerateEnergyData | project/src/utils/api.ts:91-99 | with draws in [0,1) generation, oil, gas and renewable share in their ranges |
| Api.InsightPool | project/src/utils/api.ts:102-124 | three insights with distinct predictions, each with a risk level, confidence in [0,100] and three actions |
| Api.ShuffledIsPermutation | project/src/utils/api.ts:126 | a reordering of the pool holds every pooled insight once |
| Api.GenerateAIInsights | project/src/utils/api.ts:101-127 | exactly two insights, both from the pool, distinct and well formed |
| Api.GetClimateData | project/src/utils/api.ts:130-133 | resolves with the generator's snapshot, never rejects |
| Api.GetFinanceData | project/src/utils/api.ts:135-138 | resolves with the generator's snapshot, never rejects |
| Api.GetHealthData | project/src/utils/api.ts:140-143 | resolves with the generator's snapshot, never rejects |
| Api.GetEnergyData | project/src/utils/api.ts:145-148 | resolves with the generator's snapshot, never rejects |
| Api.GetAIInsights | project/src/utils/api.ts:150-153 | resolves with the generator's two insights, never rejects |
| Climate.Project | project/src/pages/Climate/ClimateDashboard.tsx:20-28 | the chart point carries the snapshot's temperature, CO2 level and rainfall |
| Climate.TemperatureSeverity | project/src/pages/Climate/ClimateDashboard.tsx:66 | Warning iff above 18, never Critical |
| Climate.TemperatureTrend | project/src/pages/Climate/ClimateDashboard.tsx:64 | Up iff above 17, otherwise Down |
| Climate.Co2Severity | project/src/pages/Climate/ClimateDashboard.tsx:78 | Critical above 420, Warning in (415, 420], Normal otherwise |
| Climate.Co2Trend | project/src/pages/Climate/ClimateDashboard.tsx:76 | Up iff above 415, otherwise Neutral |
| Climate.CardsAgreeWithTrends | project/src/pages/Climate/ClimateDashboard.tsx:64-78 | a temperature warning always trends up; CO2 is abnormal exactly when it trends up |
| Climate.GeneratedAlertMatchesCard | project/src/utils/api.ts:47-53 | the generated alert and the alerts card agree: Warning iff the drawn temperature exceeds 18 |
| Climate.Dashboard.constructor | project/src/pages/Climate/ClimateDashboard.tsx:10-12 | no data, empty chart, loading |
| Climate.Dashboard.BeginFetch | project/src/pages/Climate/ClimateDashboard.tsx:14-15 | loading set, data and chart kept, cards hidden |
| Climate.Dashboard.CompleteFetch | project/src/pages/Climate/ClimateDashboard.tsx:17-33 | data replaced, loading cleared, chart is the rolling append of the projected point |
| Finance.Project | project/src/pages/Finance/FinanceDashboard.tsx:24-26 | sp500 is the first index value, nasdaq a third of the second, volatility the VIX |
| Finance.IndexSeverity | project/src/pages/Finance/FinanceDashboard.tsx:68 | Warning iff the absolute change exceeds 2 |
| Finance.IndexTrend | project/src/pages/Finance/FinanceDashboard.tsx:66 | Up iff the change is positive, otherwise Down |
| Finance.ChangePrefix | project/src/pages/Finance/FinanceDashboard.tsx:159 | "+" iff the change is positive, otherwise nothing |
| Finance.VixSeverity | project/src/pages/Finance/FinanceDashboard.tsx:83 | Critical above 25, Warning in (20, 25], Normal otherwise |
| Finance.VixTrend | project/src/pages/Finance/FinanceDashboard.tsx:81 | Up iff above 20 |
| Finance.SentimentWord | project/src/pages/Finance/FinanceDashboard.tsx:143 | "heightened" iff the VIX exceeds 20, "moderate" otherwise |
| Finance.CautionShown | project/src/pages/Finance/FinanceDashboard.tsx:144 | the caution sentence shows iff the VIX exceeds 25 |
| Finance.SentimentFollowsCard | project/src/pages/Finance/FinanceDashboard.tsx:81-83 | heightened sentiment exactly when the VIX card is not Normal; caution exactly when it is Critical |
| Finance.GeneratedNeverAlarms | project/src/utils/api.ts:60-69 | generated data never raises an index warning, a critical VIX or the caution sentence |
| Finance.Dashboard.constructor | project/src/pages/Finance/FinanceDashboard.tsx:10-12 | no data, empty chart, loading |
| Finance.Dashboard.BeginFetch | project/src/pages/Finance/FinanceDashboard.tsx:14-15 | loading set, data and chart kept, cards hidden |
| Finance.Dashboard.CompleteFetch | project/src/pages/Finance/FinanceDashboard.tsx:17-33 | data replaced, chart is the rolling append, the oldest point dropped first at capacity |
| Health.TotalCases | project/src/pages/Health/HealthDashboard.tsx:48 | the sum of the outbreaks' cases, never negative for non-negative counts |
| Health.TotalCasesCons | project/src/pages/Health/HealthDashboard.tsx:48 | the left-fold sum is the head's cases plus the sum of the rest |
| Health.Project | project/src/pages/Health/HealthDashboard.tsx:23-26 | the chart's cases value is the total cases divided by 100 |
| Health.VaccinationSeverity | project/src/pages/Health/HealthDashboard.tsx:67 | Normal iff the rate exceeds 80, otherwise Warning |
| Health.VaccinationTrend | project/src/pages/Health/HealthDashboard.tsx:65 | Up iff the rate exceeds 75, otherwise Neutral |
| Health.OutbreaksSeverity | project/src/pages/Health/HealthDashboard.tsx:77 | Critical above 3 outbreaks, Warning above 1, Normal otherwise |
| Health.TotalCasesSeverity | project/src/pages/Health/HealthDashboard.tsx:88 | Warning iff the total exceeds 10000 |
| Health.OutbreakTag | project/src/pages/Health/HealthDashboard.tsx:138-142 | "High" iff cases exceed 5000, otherwise "Moderate" |
| Health.BarWidth | project/src/pages/Health/HealthDashboard.tsx:156 | the bar width is in [0, 100], proportional below 10000 cases and full from there |
| Health.NormalVaccinationTrendsUp | project/src/pages/Health/HealthDashboard.tsx:65-67 | a Normal vaccination card always trends up |
| Health.GeneratedHealthCards | project/src/utils/api.ts:76-86 | generated data shows an outbreaks Warning, a total below 15000 and a Warning alerts card |
| Health.Dashboard.constructor | project/src/pages/Health/HealthDashboard.tsx:10-12 | no data, empty chart, loading |
| Health.Dashboard.BeginFetch | project/src/pages/Health/HealthDashboard.tsx:14-15 | loading set, data and chart kept, cards hidden |
| Health.Dashboard.CompleteFetch | project/src/pages/Health/HealthDashboard.tsx:17-32 | data replaced, chart is the rolling append, newest point last |
| Energy.Project | project/src/pages/Energy/EnergyDashboard.tsx:22-27 | generation is the global generation divided by 1000 |
| Energy.RenewableSeverity | project/src/pages/Energy/EnergyDashboard.tsx:79 | Normal iff the share exceeds 30, otherwise Warning |
| Energy.RenewableTrend | project/src/pages/Energy/EnergyDashboard.tsx:77 | Up iff the share exceeds 30, otherwise Neutral |
| Energy.OilSeverity | project/src/pages/Energy/EnergyDashboard.tsx:91 | Warning iff oil exceeds 85 |
| Energy.OilTrend | project/src/pages/Energy/EnergyDashboard.tsx:89 | Up iff oil exceeds 80, otherwise Down |
| Energy.GasSeverity | project/src/pages/Energy/EnergyDashboard.tsx:103 | Warning iff gas exceeds 4.5 |
| Energy.GasTrend | project/src/pages/Energy/EnergyDashboard.tsx:101 | Up iff gas exceeds 4 |
| Energy.EnergyMix | project/src/pages/Energy/EnergyDashboard.tsx:166-204 | the three shares sum to 100 with nuclear fixed at 15 |
| Energy.MarketWord | project/src/pages/Energy/EnergyDashboard.tsx:218 | "elevated" iff oil exceeds 85, otherwise "stable" |
| Energy.TextAndTrendsFollowCards | project/src/pages/Energy/EnergyDashboard.tsx:77-103 | the market text follows the oil card; an oil or gas warning trends up; the renewable share trends up exactly when its card is Normal |
| Energy.GeneratedMixAndChart | project/src/utils/api.ts:91-99 | with generated data every mix share is non-negative and the chart generation lies in [25, 30) |
| Energy.Dashboard.constructor | project/src/pages/Energy/EnergyDashboard.tsx:10-12 | no data, empty chart, loading |
| Energy.Dashboard.BeginFetch | project/src/pages/Energy/EnergyDashboard.tsx:14-15 | loading set, data and chart kept, cards hidden |
| Energy.Dashboard.CompleteFetch | project/src/pages/Energy/EnergyDashboard.tsx:17-34 | data replaced, chart is the rolling append of the projected point |
| Overview.ClimateStatus | project/src/pages/Overview/OverviewDashboard.tsx:52 | Warning iff temperature above 18 or CO2 above 420, never Critical |
| Overview.FinanceStatus | project/src/pages/Overview/OverviewDashboard.tsx:53 | Critical above 25, Warning in (20, 25] |
| Overview.HealthStatus | project/src/pages/Overview/OverviewDashboard.tsx:54 | Critical above 3 outbreaks, Warning in 2..3 |
| Overview.EnergyStatus | project/src/pages/Overview/OverviewDashboard.tsx:55 | Warning iff oil above 85, never Critical |
| Overview.CriticalCount | project/src/pages/Overview/OverviewDashboard.tsx:58 | the number of Critical domains among the four, positive exactly when some domain is Critical |
| Overview.WarningCount | project/src/pages/Overview/OverviewDashboard.tsx:59 | the number of Warning domains among the four, positive exactly when some domain is a Warning |
| Overview.OverallStatus | project/src/pages/Overview/OverviewDashboard.tsx:60 | Critical iff some domain is, Warning iff none is Critical and some is a Warning, else Normal |
| Overview.CountsBounded | project/src/pages/Overview/OverviewDashboard.tsx:58-59 | the two counts add up to at most four |
| Overview.StatusesMatchCards | project/src/pages/Overview/OverviewDashboard.tsx:51-56 | each overview status agrees with the domain page's own card |
| Overview.GeneratedOverallIsWarning | project/src/pages/Overview/OverviewDashboard.tsx:54-60 | generated data always gives a health Warning, no Critical, and an overall Warning |
| Overview.Dashboard.constructor | project/src/pages/Overview/OverviewDashboard.tsx:10-16 | nothing loaded, loading, the mount time |
| Overview.Dashboard.Status | project/src/pages/Overview/OverviewDashboard.tsx:51-56 | the system status of the four loaded snapshots |
| Overview.Dashboard.BeginFetchAll | project/src/pages/Overview/OverviewDashboard.tsx:18-19 | loading set, nothing else changes, the body hidden |
| Overview.Dashboard.CompleteFetchAll | project/src/pages/Overview/OverviewDashboard.tsx:19-34 | all five results stored with the time only when every one resolved; otherwise nothing changes and loading stays set |
| Overview.FetchFromApi | project/src/pages/Overview/OverviewDashboard.tsx:18-60 | a fetch against the mock API always completes, shows the body and gives an overall Warning |
| EconomicAnalyst.InitialData | project/src/pages/EconomicAnalystDashboard.tsx:19-73 | the starting data: four metrics and three reports |
| EconomicAnalyst.FormatChange | project/src/pages/EconomicAnalystDashboard.tsx:98-99 | a '+' is prefixed iff the number is non-negative or the string does not start with '-'; otherwise printed as is |
| EconomicAnalyst.ChangeColor | project/src/pages/EconomicAnalystDashboard.tsx:102 | green iff the change starts with '+', red otherwise |
| EconomicAnalyst.RebuildMetric | project/src/pages/EconomicAnalystDashboard.tsx:80-109 | title and icon kept, new value, signed change, green iff the new change is non-negative |
| EconomicAnalyst.GenerateNewData | project/src/pages/EconomicAnalystDashboard.tsx:77-117 | only the metrics are replaced, same length, titles and icons per position |
| EconomicAnalyst.ScoreColor | project/src/pages/EconomicAnalystDashboard.tsx:181-185 | green from 90, yellow from 80 to 89, red below 80 |
| EconomicAnalyst.StatusColor | project/src/pages/EconomicAnalystDashboard.tsx:187-194 | Published, Drafting, Reviewing and everything else get their own badge |
| EconomicAnalyst.StatusColorsDistinct | project/src/pages/EconomicAnalystDashboard.tsx:187-194 | the three known badges differ from each other and from the default |
| EconomicAnalyst.Dashboard.constructor | project/src/pages/EconomicAnalystDashboard.tsx:124-125 | the initial data, not fetching |
| EconomicAnalyst.Dashboard.BeginFetch | project/src/pages/EconomicAnalystDashboard.tsx:131-138 | a scheduled call while fetching changes nothing; any other call proceeds and marks a fetch in flight |
| EconomicAnalyst.Dashboard.FinishFetch | project/src/pages/EconomicAnalystDashboard.tsx:140-155 | the data is rebuilt on success and kept on failure; the flag is cleared either way |
| Analyst.Clamp | project/src/pages/AnalystDashboard.tsx:106 | the result is in [10, 100] and equals the input when already in range |
| Analyst.FormatNumber | project/src/pages/AnalystDashboard.tsx:70-73 | below 1000 the plain decimal; from 1000 the thousands with one decimal and 'k' |
| Analyst.FormatNumberSuffix | project/src/pages/AnalystDashboard.tsx:71-72 | the text ends in 'k' exactly when the number is at least 1000 |
| Analyst.SignedChange | project/src/pages/AnalystDashboard.tsx:144-150 | '+' iff the sign draw exceeds one half, then the magnitude |
| Analyst.PerturbPoint | project/src/pages/AnalystDashboard.tsx:84-90 | same label; risk, natural, conflict and health capped at 65, 50, 50 and 60 |
| Analyst.Alerts | project/src/pages/AnalystDashboard.tsx:109-140 | ids 1 to 3; the first critical iff its draw is below 0.3 else high, the second critical below 0.2 else medium, the third always critical; locations from their pools |
| Analyst.Trend | project/src/pages/AnalystDashboard.tsx:76-90 | seven points labelled 00:00 to 24:00 in order, each perturbed and capped |
| Analyst.Regions | project/src/pages/AnalystDashboard.tsx:99-106 | the six region ids in order, each risk offset and clamped into [10, 100] |
| Analyst.GenerateMockData | project/src/pages/AnalystDashboard.tsx:68-156 | the trend, regions and alerts above, the formatted metrics and the given time label |
| Analyst.CapsNeverBind | project/src/pages/AnalystDashboard.tsx:86-89 | with draws in [0,1) no cap is reached: every series stays below its cap and within two of its base |
| Analyst.ClampNeverBinds | project/src/pages/AnalystDashboard.tsx:99-106 | with draws in [0,1) the clamp is the identity: global risk in [30, 63], the others in [20, 56] |
| Analyst.MetricFormats | project/src/pages/AnalystDashboard.tsx:94-95 | active monitoring (100 to 218) never prints with 'k', predictions (2500 to 3698) always do |
| Analyst.RegionColor | project/src/pages/AnalystDashboard.tsx:424-425 | red above 50, yellow in (30, 50], green otherwise |
| Analyst.AlertBorder | project/src/pages/AnalystDashboard.tsx:461-462 | red, orange or yellow border for a critical, high or medium alert |
| Analyst.Dashboard.constructor | project/src/pages/AnalystDashboard.tsx:161-163 | no data, loading, no error |
| Analyst.Dashboard.BeginFetch | project/src/pages/AnalystDashboard.tsx:170-173 | loading raised when the callback's own data was absent, error cleared; the spinner shows exactly while there is no data |
| Analyst.Dashboard.CompleteFetch | project/src/pages/AnalystDashboard.tsx:174-186 | a result replaces the data, a failure sets the fixed message and keeps the data; loading ends and the spinner hides |
| Trainer.UpdateMetrics | project/src/pages/TrainerDashboard.tsx:121-129 | active +1 iff its draw exceeds 0.8; participants grow by 0 to 19; completion at most 99, +1 iff its draw exceeds 0.7 below 99 |
| Trainer.UpdateSimulation | project/src/pages/TrainerDashboard.tsx:132-137 | only completion and score change; a Completed one keeps its completion; others rise by at most one and never pass 100 |
| Trainer.UpdateSimulations | project/src/pages/TrainerDashboard.tsx:132-137 | same length and order, each entry updated in place |
| Trainer.CompletionRatesStayBounded | project/src/pages/TrainerDashboard.tsx:135 | across any number of polls a completion rate in [0, 100] never falls, stays in range, and is fixed for a Completed simulation |
| Trainer.NewSession | project/src/pages/TrainerDashboard.tsx:141-147 | participant and drill from their pools, score in [75, 99], duration 20 to 59 minutes |
| Trainer.AddSession | project/src/pages/TrainerDashboard.tsx:149 | the new session first, then at most four earlier ones in order: the five newest |
| Trainer.AddSessionsKeepsNewest | project/src/pages/TrainerDashboard.tsx:140-150 | after any run of additions the list is the first five of the additions newest first followed by the original list |
| Trainer.DifficultyColor | project/src/pages/TrainerDashboard.tsx:173-181 | green, yellow, orange, red from Beginner to Expert, grey otherwise |
| Trainer.StatusColor | project/src/pages/TrainerDashboard.tsx:183-190 | green Active, yellow Scheduled, blue Completed, grey otherwise |
| Trainer.Dashboard.constructor | project/src/pages/TrainerDashboard.tsx:43-116 | the initial metrics, simulations and three sessions |
| Trainer.Dashboard.SimulateDataUpdate | project/src/pages/TrainerDashboard.tsx:121-154 | metrics and simulations updated, a session added iff its draw exceeds 0.4, poll time recorded; at most five sessions and the caps kept |
| Responder.NextResources | project/src/pages/ResponderDashboard.tsx:98 | one more below 15, back to 12 otherwise; in [12, 15] it stays there and always moves |
| Responder.UpdateIncident | project/src/pages/ResponderDashboard.tsx:93-106 | only INC-001's resources move; every incident gets the new label; nothing else changes |
| Responder.UpdateIncidents | project/src/pages/ResponderDashboard.tsx:93-107 | same length and order, each incident updated in place |
| Responder.IterateCycles | project/src/pages/ResponderDashboard.tsx:98 | after n polls the count is 12 plus (offset + n) mod 4 |
| Responder.PeriodFour | project/src/pages/ResponderDashboard.tsx:98 | the count stays in [12, 15] and four polls bring it back |
| Responder.ActiveIncidentsCard | project/src/pages/ResponderDashboard.tsx:212 | the card counts the incidents, a number no poll changes, whatever its time label |
| Responder.AboveThreshold | project/src/pages/ResponderDashboard.tsx:332 | comparing the utilisation percentage with a whole threshold is a comparison of whole numbers |
| Responder.UtilisationColor | project/src/pages/ResponderDashboard.tsx:332-349 | red above 80 %, yellow in (60 %, 80 %], green otherwise |
| Responder.ResourcesConsistentAndGreen | project/src/pages/ResponderDashboard.tsx:56-61 | every resource's available plus deployed is its total, and every bar is green |
| Responder.SeverityColor | project/src/pages/ResponderDashboard.tsx:128-135 | red, orange, yellow for Critical, High, Medium, green otherwise |
| Responder.StatusColor | project/src/pages/ResponderDashboard.tsx:137-144 | red Active, yellow Monitoring, blue Preparation, green otherwise |
| Responder.Dashboard.constructor | project/src/pages/ResponderDashboard.tsx:9-53 | the mount time and the three initial incidents, INC-001 starting inside its [12, 15] cycle |
| Responder.Dashboard.SimulateDataUpdate | project/src/pages/ResponderDashboard.tsx:92-109 | every incident updated, poll time recorded, the active-incidents count unchanged, INC-001's count kept in [12, 15] |
| Testimonials.NextIndex | project/src/components/Testimonials.tsx:73 | the next index, wrapping from the last to the first, always in range |
| Testimonials.PrevIndex | project/src/components/Testimonials.tsx:78 | the previous index, wrapping from the first to the last, always in range |
| Testimonials.PrevUndoesNext | project/src/components/Testimonials.tsx:72-80 | prev after next and next after prev return the original index |
| Testimonials.AdvanceIsModular | project/src/components/Testimonials.tsx:66 | k steps forward land on (i + k) mod 5 |
| Testimonials.FullRoundReturns | project/src/components/Testimonials.tsx:62-70 | five steps return to the start, and every testimonial is reached within one round |
| Testimonials.ActiveDots | project/src/components/Testimonials.tsx:212-219 | exactly the current testimonial's dot is active |
| Testimonials.Carousel.constructor | project/src/components/Testimonials.tsx:59-60 | first testimonial, autoplay on |
| Testimonials.Carousel.Tick | project/src/components/Testimonials.tsx:62-70 | advances only while autoplaying and leaves autoplay as it was |
| Testimonials.Carousel.Next | project/src/components/Testimonials.tsx:72-75 | the next index, autoplay off |
| Testimonials.Carousel.Prev | project/src/components/Testimonials.tsx:77-80 | the previous index, autoplay off |
| Testimonials.Carousel.GoTo | project/src/components/Testimonials.tsx:82-85 | the chosen index, autoplay off |
| RefreshIndicator.Bucket | project/src/components/RefreshIndicator.tsx:9-17 | seconds iff under 60 s, minutes iff 60 s to under an hour, hours from an hour on |
| RefreshIndicator.BucketBracketsElapsed | project/src/components/RefreshIndicator.tsx:10-16 | the count times its unit is at most the elapsed time and one more unit exceeds it |
| RefreshIndicator.Render | project/src/components/RefreshIndicator.tsx:12-16 | the count followed by its unit letter and " ago" |
| RefreshIndicator.TimeAgo | project/src/components/RefreshIndicator.tsx:9-17 | always ends in " ago" after exactly the unit that matches the elapsed seconds; an unparsable time gives "NaNh ago" |
| RefreshIndicator.RenderInjective | project/src/components/RefreshIndicator.tsx:12-16 | two readings that print alike are the same unit and count |
| Login.Roles | project/src/pages/Login.tsx:32-42 | four roles with distinct ids |
| Login.RouteFor | project/src/pages/Login.tsx:17-25 | a route exactly for the ids in the table |
| Login.EveryRoleRouted | project/src/pages/Login.tsx:17-42 | every offered role routes to "/" followed by its id, and the table has no other ids |
| Login.OneHighlighted | project/src/pages/Login.tsx:78-80 | with an offered role chosen, its button is highlighted and no other one is |
| Login.LoginPage.constructor | project/src/pages/Login.tsx:9 | the analyst role is chosen at first |
| Login.LoginPage.SelectRole | project/src/pages/Login.tsx:76 | the chosen role becomes exactly the clicked role's id |
| Login.LoginPage.HandleLogin | project/src/pages/Login.tsx:13-26 | the route always exists and is "/" followed by the chosen role |

## Left out

- Rounding by `toFixed` and re-parsing by `parseFloat` are not modelled: generated
  measurements are exact reals. In particular the climate page's card reads the temperature
  rounded to one decimal while the generated alert tests the unrounded one, so near 18.0
  the two can disagree; `Climate.GeneratedAlertMatchesCard` states their agreement on the
  unrounded value only.
- Analyst.FormatNumber: rounds an exact half of a tenth upwards; `toFixed(1)` on the binary
  double may round some of those halves down.
- Analyst.GenerateMockData: the strings built with `toFixed` (the global risk change, the
  accuracy rate and its change, each alert's probability) are parameters, as is the
  update time label.
- EconomicAnalyst.GenerateNewData: the per-title arithmetic, the regex re-parsing of the
  old value and change and `toLocaleString` are not modelled; each metric's new value and
  change arrive as a parameter, so only the sign, colour and preservation rules are proved.
- Trainer.UpdateMetrics: the average score is moved by the draw but not rounded to one
  decimal; Trainer.UpdateSimulation likewise for each simulation's average score.
- EconomicAnalyst.Dashboard.BeginFetch: the flag tested is the page's current one; the
  source tests the value captured when the callback was created, and the effect that
  re-creates the interval whenever that flag changes (and fetches again at once) is not
  modelled.
- Analyst.Dashboard.BeginFetch: which render's `data` the callback captured is a
  parameter; the interval always holds the mount's callback, which saw no data.
- Timers (`setInterval`, `setTimeout`, the API's delays) are not modelled: each poll or
  tick is an explicit method call, and overlapping asynchronous completions are not
  considered.
- `Math.random()` is not modelled: each draw is a parameter, with its [0, 1) range stated
  where a contract depends on it. `Date`, `toLocaleTimeString` and ISO timestamps are
  integer milliseconds or opaque strings.
- The testimonials' texts, the trainer's static training programmes, the responder's
  static communications list, the login form's credentials (never checked) and all JSX,
  Tailwind styling beyond the colour rules above, animation and chart rendering are left
  out as presentation.
- The presentational components (LiveCard, ChartWidget, AIInsightCard, Navbar, Sidebar,
  Header, Hero, Features, TechStack, Workflow, Footer), the landing page and the router in
  App.tsx are not part of this model; neither is AIInsightsDashboard.tsx, a loading
  wrapper around `getAIInsights`.
- The Java backend (an OpenWeatherMap call, JSON parsing, persistence and a controller) is
  I/O and not part of this model.
