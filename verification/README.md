# Contract analyser core, modelled in Dafny

This project models the decision logic of a German contract-analysis backend:

- **The four rule-based risk engines** for employment contracts, SaaS contracts, NDAs and vendor (supplier) contracts. Each engine runs a fixed list of checks over the extracted contract fields. Each check adds at most one finding (`ClauseRisk`) at a fixed level with a fixed score. The findings are then aggregated:
  - they are sorted into severity buckets;
  - they are scored 25/15/8 per critical/high/medium finding, capped at 100;
  - the score is mapped onto a risk level;
  - an executive-summary template is chosen.
- **The data model.** This covers the enumerations with their wire values, the finding and the assessment with their field constraints, and the typed employment input records with their defaults.
- **The two usage limiters.**
  - The in-memory per-month tier tracker: free 3, pro 50, enterprise unlimited.
  - The database-backed plan tracker: plan table, monthly counters, percentages and limit checks with the 80 % warning.
- **The deadline logic.**
  - The upcoming-deadline list, sorted stably by days to the end date.
  - Per-contract alerts at 30/14/7/1 days, plus a notice-deadline alert.
  - The daily run and its critical filter.
  - The deadline page's counts, urgency classes and banner.
- **Prompt assembly.** Truncation to 7000 characters, brace escaping, `str.format` substitution and the prompt-type fallback to "general".
- **The LLM client's deterministic parts.** Dummy mode, extraction of the JSON object from a fenced reply, and the model-type fallback.
- **The Stripe price table** and its lookup.

Every operation is a pure function. State is passed in and returned:

- the engines' scratch lists;
- the tracker maps;
- the usage tables.

The environment is passed in as parameters:

- today's date, as a day number;
- the current month;
- the dummy-mode environment variable;
- the API's reply.

Each file holds one module, and the modules follow the source files:

| module | source |
|---|---|
| `Models` | models.py |
| `Scoring` | the aggregation shared by the engines |
| `EmploymentEngine`, `SaasEngine`, `NdaEngine`, `VendorEngine` | risk_engine.py |
| `Pricing` | pricing.py |
| `UsageTracking` | usage_tracking.py |
| `DeadlineAlerts` | deadline_alerts.py |
| `DeadlinePage` | deadline_page.py |
| `Prompts` | prompts.py |
| `LlmClient` | llm_client.py |
| `StripePrices` | stripe_prices.py |
| `Wrappers`, `Text` | helpers: `Option`/`Result`, ASCII case mapping, substring tests |

## Model

| member | source | states |
|---|---|---|
| Models.ParseRiskLevel | app/models.py:29-34 | a parsed level serialises back to the string it came from |
| Models.RiskLevelRoundTrip | app/models.py:29-34 | parsing the wire value of every level gives that level back |
| Models.RiskLevelValues | app/models.py:29-34 | exactly the five strings critical/high/medium/low/minimal parse |
| Models.ParseLegalValidity | app/models.py:37-41 | a parsed validity serialises back to its input |
| Models.LegalValidityRoundTrip | app/models.py:37-41 | each of the four validities survives serialise-then-parse |
| Models.ClauseCategoryValueInjective | app/models.py:44-69 | the 25 categories have pairwise distinct wire values |
| Models.NewAssessment | app/models.py:208-227 | an assessment built from its required fields has every list field empty, as the declared defaults make it |
| Models.DefaultWorkingConditions | app/models.py:105-114 | by default, overtime is not included in the salary and there is no overtime cap |
| Models.DefaultVacationTerms | app/models.py:117-121 | by default, no day count is set and carry-over is allowed |
| Models.DefaultProbationTerms | app/models.py:124-127 | by default, there is no duration and the legal maximum is not exceeded |
| Models.DefaultNonCompeteTerms | app/models.py:140-149 | by default, there is no post-employment clause and both compensation flags are false |
| Models.EmptyEmploymentContract | app/models.py:159-180 | an empty record has none of the four sub-records a check reads |
| Scoring.Filter | app/risk_engine.py:142-145 | a bucket holds exactly the findings of its level, never more than the input |
| Scoring.FilterConcat | app/risk_engine.py:142-145 | bucketing distributes over concatenation of finding lists |
| Scoring.CountConcat | app/risk_engine.py:142-147 | bucket sizes add up over concatenated finding lists |
| Scoring.FilterUniform | app/risk_engine.py:24-25 | when every finding has level l, the l-bucket is the whole list |
| Scoring.FilterAbsent | app/risk_engine.py:24-25 | when no finding has level l, the l-bucket is empty |
| Scoring.FilterMultiplicity | app/risk_engine.py:142-145 | a finding occurs in its level's bucket exactly as often as in the input, and nowhere else |
| Scoring.BucketsAt | app/risk_engine.py:142-145 | for each finding, the five buckets together hold it as often as the input does |
| Scoring.BucketsPartition | app/risk_engine.py:142-145 | the five buckets form a partition of the finding list (multiset equality) |
| Scoring.WeightedScore | app/risk_engine.py:147 | the score is 25·critical + 15·high + 8·medium when that is below 100, otherwise 100; always in [0,100] |
| Scoring.ScoreMonotone | app/risk_engine.py:147 | more findings in any bucket never lower the score |
| Scoring.ScoreToLevel | app/risk_engine.py:105-110 | the level is the band the score lies in: CRITICAL from 70, HIGH from 55, MEDIUM from 40, LOW from 20, MINIMAL below |
| Scoring.BandsDisjoint | app/risk_engine.py:105-110 | a score lies in exactly one band: in band l iff the ladder maps it to l |
| Scoring.LevelMonotone | app/risk_engine.py:105-110 | a higher score never gives a lower level |
| Scoring.SummaryFor | app/risk_engine.py:112-119 | critical template iff CRITICAL level (quoting the critical count), elevated iff HIGH, otherwise the acceptable template quoting the score |
| Scoring.CountAtMostOne | app/risk_engine.py:167-183 | a check that adds at most one finding of a fixed level contributes 1 to that level's count iff it fired |
| Scoring.CountCheck | app/risk_engine.py:167-183 | a check contributes one finding to level l exactly when it fires and its level is l |
| Scoring.CountChecks5 | app/risk_engine.py:460-494 | the bucket counts of five concatenated checks are the sums of their firing indicators |
| Scoring.CountChecks7 | app/risk_engine.py:129-165 | the bucket counts of seven concatenated checks are the sums of their firing indicators |
| Scoring.ScorableConcat | app/risk_engine.py:129-165 | valid non-minimal findings stay so under concatenation |
| Scoring.Aggregate | app/risk_engine.py:129-165 | the buckets hold exactly their level's findings. The score is the capped weighted sum, and the level is its band. Legal compliance equals the score and the other four sub-scores are 0. Confidence is 0.9 and the missing clauses are passed through. The summary is the one `SummaryFor` picks for the level: critical with the critical count for CRITICAL, elevated with the score for HIGH, acceptable with the score otherwise. The result is a valid assessment |
| Scoring.AggregatePartition | app/risk_engine.py:142-147 | with four buckets, the bucket lists together are a permutation of the findings |
| Scoring.AggregatePartitionCriticalHigh | app/risk_engine.py:24-27 | with two buckets and only critical/high findings, the two lists are a permutation of the findings |
| Scoring.AggregateMonotone | app/risk_engine.py:142-147 | adding findings never lowers the overall score |
| EmploymentEngine.CheckProbation | app/risk_engine.py:47-59 | one CRITICAL finding (95, invalid) iff the probation is longer than 6 months |
| EmploymentEngine.CheckOvertime | app/risk_engine.py:61-74 | one CRITICAL finding (85) iff overtime is included in the salary with no or a zero cap |
| EmploymentEngine.CheckNonCompete | app/risk_engine.py:76-89 | one CRITICAL finding (100) iff a post-employment non-compete has missing or inadequate compensation |
| EmploymentEngine.CheckVacation | app/risk_engine.py:91-103 | one CRITICAL finding (80) iff a non-zero vacation entitlement is below 20 days |
| EmploymentEngine.Findings | app/risk_engine.py:19-22 | one critical, valid finding per broken rule |
| EmploymentEngine.AssessEmploymentContract | app/risk_engine.py:15-45 | the scratch lists are reset and refilled. The critical count is the number of broken rules and the high/medium/low buckets are empty. The score is 25 per broken rule, capped, and the level is its band. There are no missing clauses, the summary is the one `_generate_summary` (lines 112-119) selects for the level (critical with the count, elevated or acceptable with the score), and the assessment is valid |
| EmploymentEngine.NoCarryOver | app/risk_engine.py:15-22 | the result does not depend on the engine's scratch state from earlier calls |
| EmploymentEngine.EmploymentBuckets | app/risk_engine.py:24-25 | the critical bucket is a permutation of all findings |
| EmploymentEngine.LevelByViolations | app/risk_engine.py:105-119 | 0/1/2 broken rules give MINIMAL 0, LOW 25 and MEDIUM 50; three or more give CRITICAL. HIGH, and hence the elevated summary, is unreachable |
| EmploymentEngine.ProbationBoundary | app/risk_engine.py:47-59 | exactly 6 months is accepted; the check fires iff months > 6 |
| EmploymentEngine.VacationZeroIsUnset | app/risk_engine.py:91-103 | 0 days reads as unset and is not flagged, while a negative entitlement is flagged |
| EmploymentEngine.DefaultNonCompeteFlagged | app/risk_engine.py:76-89 | a post-employment clause with default compensation flags scores 25 |
| EmploymentEngine.DefaultWorkingConditionsQuiet | app/risk_engine.py:61-74 | default working conditions raise no overtime finding |
| EmploymentEngine.EmptyContract | app/risk_engine.py:15-45 | the empty contract scores 0, MINIMAL, with no findings |
| EmploymentEngine.AllRulesBroken | app/risk_engine.py:15-45 | breaking all four rules gives 4 critical findings, score 100, CRITICAL |
| SaasEngine.CheckAutoRenewal | app/risk_engine.py:167-183 | at most one CRITICAL finding, present iff auto-renewal is on and the notice is non-zero and under 30 days |
| SaasEngine.CheckDataProtection | app/risk_engine.py:185-199 | at most one CRITICAL finding, present iff no DPA is included |
| SaasEngine.CheckDataLocation | app/risk_engine.py:201-216 | at most one HIGH finding, present iff a location is given, is not guaranteed EU, and does not contain "EU" once upper-cased |
| SaasEngine.CheckSla | app/risk_engine.py:218-236 | a MEDIUM finding iff a non-zero uptime is below 99.5, and the service-credits missing clause iff there is no credit mechanism |
| SaasEngine.CheckLiability | app/risk_engine.py:238-253 | at most one HIGH finding, present iff a non-zero cap multiple is under 12 (below a year of fees) |
| SaasEngine.CheckDataExport | app/risk_engine.py:255-269 | at most one HIGH finding, present iff no export format is stated |
| SaasEngine.CheckPriceEscalation | app/risk_engine.py:271-285 | at most one HIGH finding, present iff an escalation clause has no cap |
| SaasEngine.Findings | app/risk_engine.py:134-140 | the seven checks append one finding per fired rule: the length is the number of fired critical, high and medium rules |
| SaasEngine.CountsOfChecks | app/risk_engine.py:129-165 | every bucket count is the number of fired checks of that level |
| SaasEngine.CriticalFindings | app/risk_engine.py:142 | the critical count is the number of fired critical rules |
| SaasEngine.HighFindings | app/risk_engine.py:143 | the high count is the number of fired high rules |
| SaasEngine.MediumFindings | app/risk_engine.py:144 | the medium count is the number of fired medium rules |
| SaasEngine.FindingCounts | app/risk_engine.py:142-147 | critical/high/medium counts match the rule counts; no LOW or MINIMAL findings arise |
| SaasEngine.FindingsScorable | app/risk_engine.py:129-165 | every finding is valid and above LOW |
| SaasEngine.AssessSaasContract | app/risk_engine.py:129-165 | the buckets have the rule counts and the score is their weighted sum. The missing clauses are the service-credits note iff there is no credit mechanism, the summary is the one `_generate_summary` (lines 294-303) selects for the level (critical with the count, elevated or acceptable with the score), and the assessment is valid |
| SaasEngine.NoCarryOver | app/risk_engine.py:129-140 | earlier calls' scratch state does not affect the result |
| SaasEngine.SaasBuckets | app/risk_engine.py:142-145 | the four buckets together are a permutation of the findings |
| SaasEngine.EmptyContract | app/risk_engine.py:129-165 | an empty dictionary scores 40 MEDIUM. That is a missing DPA and a missing export format, plus the service-credits note |
| SaasEngine.ShortNoticeScenario | app/risk_engine.py:129-165 | 10-day auto-renewal notice, no DPA, 99 % uptime and a 6× liability cap, with no export format stated, give 88, CRITICAL |
| SaasEngine.RenewalNoticeBoundary | app/risk_engine.py:172 | with auto-renewal, the check fires iff notice ≠ 0 and notice < 30 (negative values included) |
| SaasEngine.LocationSubstringTest | app/risk_engine.py:204-205 | "Neuseeland" upper-cases to a text containing "EU" and is therefore not flagged |
| SaasEngine.NonEuLocationFlagged | app/risk_engine.py:201-216 | a location "USA" is flagged |
| NdaEngine.DefaultNdaContract | app/models.py:263-280 | the declared defaults: not indefinite, no exclusions, no return or destruction duty |
| NdaEngine.PenaltyFinding | app/risk_engine.py:394-409 | HIGH 70 for a per-violation penalty, otherwise MEDIUM 50 |
| NdaEngine.CheckIndefinite | app/risk_engine.py:351-362 | at most one CRITICAL finding, present iff the duration is indefinite |
| NdaEngine.CheckOverlong | app/risk_engine.py:364-376 | at most one HIGH finding, present iff the duration exceeds 10 years |
| NdaEngine.CheckDuration | app/risk_engine.py:349-376 | the two duration findings are independent: both fire together when indefinite and over 10 years |
| NdaEngine.CheckScope | app/risk_engine.py:378-392 | at most one HIGH finding, present iff the lower-cased definition contains both "alle" and "informationen" |
| NdaEngine.CheckPenalty | app/risk_engine.py:394-409 | one finding iff the penalty exceeds 100 000, at HIGH if per violation, else MEDIUM |
| NdaEngine.CheckExclusions | app/risk_engine.py:411-427 | at most one MEDIUM finding, present iff the exclusions list is empty |
| NdaEngine.CheckReturnObligation | app/risk_engine.py:429-432 | the return-or-destruction note iff neither duty is stated |
| NdaEngine.Findings | app/risk_engine.py:318-322 | the checks append one finding per fired rule: the length is the number of fired critical, high and medium rules |
| NdaEngine.CountsOfChecks | app/risk_engine.py:313-347 | each bucket count is the number of fired checks of that level |
| NdaEngine.CriticalFindings | app/risk_engine.py:324 | the critical count is the number of fired critical rules |
| NdaEngine.HighFindings | app/risk_engine.py:325 | the high count is the number of fired high rules |
| NdaEngine.MediumFindings | app/risk_engine.py:326 | the medium count is the number of fired medium rules |
| NdaEngine.FindingCounts | app/risk_engine.py:313-347 | the counts match the rules, and no LOW or MINIMAL findings arise |
| NdaEngine.FindingsScorable | app/risk_engine.py:313-347 | every finding is valid and above LOW |
| NdaEngine.AssessNdaContract | app/risk_engine.py:313-347 | the bucket sizes are the rule counts and the score is the weighted sum. The missing clause is the return note iff no return duty is stated, the summary is the one `_generate_summary` (lines 441-450) selects for the level (critical with the count, elevated or acceptable with the score), and the assessment is valid |
| NdaEngine.NoCarryOver | app/risk_engine.py:313-322 | earlier calls' scratch state does not affect the result |
| NdaEngine.NdaBuckets | app/risk_engine.py:324-327 | the four buckets together are a permutation of the findings |
| NdaEngine.ExclusionsNotMissingClause | app/risk_engine.py:411-432 | the only possible missing clause is the return note; missing exclusions are a finding only |
| NdaEngine.EmptyContract | app/risk_engine.py:313-347 | the empty dictionary scores 8, MINIMAL, from one medium finding, and reports the return note |
| NdaEngine.DefaultsAssessLikeEmpty | app/risk_engine.py:313-347 | an NDA at its declared defaults assesses exactly like the empty dictionary |
| NdaEngine.IndefinitePenaltyScenario | app/risk_engine.py:313-347 | indefinite duration with a 500 000 per-violation penalty and no exclusions gives 48, MEDIUM, with the acceptable summary |
| NdaEngine.DurationFindingsIndependent | app/risk_engine.py:349-376 | indefinite and over 10 years yields both duration findings, in that order |
| NdaEngine.ScopeIgnoresCase | app/risk_engine.py:381 | upper-casing the definition does not change the scope check |
| NdaEngine.PenaltyBoundary | app/risk_engine.py:397 | the penalty check fires iff the amount is above 100 000 |
| VendorEngine.CheckWarranty | app/risk_engine.py:496-524 | at most one CRITICAL finding: 90 for a missing warranty, 85 for one under 12 months; the two are alternatives |
| VendorEngine.CheckLiability | app/risk_engine.py:526-542 | at most one CRITICAL finding, present iff the lower-cased cap type is "excluded" |
| VendorEngine.CheckPayment | app/risk_engine.py:544-560 | at most one MEDIUM finding, present iff a non-zero payment term is under 14 days |
| VendorEngine.CheckAuditRights | app/risk_engine.py:562-576 | at most one HIGH finding, present iff no audit rights are stated |
| VendorEngine.CheckPriceAdjustment | app/risk_engine.py:578-592 | at most one HIGH finding, present iff a price-adjustment clause has no index |
| VendorEngine.Findings | app/risk_engine.py:465-469 | the five checks append one finding per fired rule: the length is the number of fired critical, high and medium rules |
| VendorEngine.CountsOfChecks | app/risk_engine.py:460-494 | each bucket count is the number of fired checks of that level |
| VendorEngine.CriticalFindings | app/risk_engine.py:471 | the critical count is the number of fired critical rules |
| VendorEngine.HighFindings | app/risk_engine.py:472 | the high count is the number of fired high rules |
| VendorEngine.MediumFindings | app/risk_engine.py:473 | the medium count is the number of fired medium rules |
| VendorEngine.FindingCounts | app/risk_engine.py:460-494 | the counts match the rules, and no LOW or MINIMAL findings arise |
| VendorEngine.FindingsScorable | app/risk_engine.py:460-494 | every finding is valid and above LOW |
| VendorEngine.AssessVendorContract | app/risk_engine.py:460-494 | the bucket sizes are the rule counts and the score is the weighted sum; there are no missing clauses, the summary is the one `_generate_summary` (lines 601-610) selects for the level (critical with the count, elevated or acceptable with the score), and the assessment is valid |
| VendorEngine.NoCarryOver | app/risk_engine.py:460-469 | earlier calls' scratch state does not affect the result |
| VendorEngine.VendorBuckets | app/risk_engine.py:471-474 | the four buckets together are a permutation of the findings |
| VendorEngine.WarrantyAlwaysJudged | app/risk_engine.py:496-524 | a contract without a warranty of at least 12 months always has a critical finding |
| VendorEngine.EmptyContract | app/risk_engine.py:460-494 | the empty dictionary scores 40, MEDIUM: a missing warranty and missing audit rights |
| VendorEngine.ShortWarrantyScenario | app/risk_engine.py:460-494 | 6-month warranty, 10-day payment, an unindexed price adjustment and no audit rights give 63, HIGH, with the elevated summary |
| VendorEngine.LiabilityIgnoresCase | app/risk_engine.py:529 | "Excluded" in any case is flagged |
| VendorEngine.WarrantyBoundary | app/risk_engine.py:496-524 | the warranty check is silent iff the stated duration is at least 12 months |
| Pricing.LimitsOf | app/pricing.py:16-43 | free allows 3 analyses and employment contracts only, pro 50, enterprise unlimited (-1) |
| Pricing.GetLimits | app/pricing.py:45-47 | an unknown tier falls back to the free limits |
| Pricing.GetLimitsOfTier | app/pricing.py:45-47 | each tier's value string looks up that tier's limits |
| Pricing.TiersOrdered | app/pricing.py:16-43 | free < pro < enterprise (unlimited) in analyses, and the contract types grow from tier to tier |
| Pricing.Store | app/pricing.py:72-79 | storing a record changes exactly that (identifier, month) entry |
| Pricing.GetUsage | app/pricing.py:64-79 | an existing record is returned unchanged; otherwise a fresh free record with 0 analyses is created. Nothing else changes |
| Pricing.IncrementUsage | app/pricing.py:81-86 | the count rises by one from 0 for a new record, the tier is kept and the last use is set; nothing else changes |
| Pricing.Decide | app/pricing.py:88-104 | unlimited iff the tier's limit is -1. Otherwise the call is allowed iff used < limit, and denied with (used, limit) or allowed with limit − used ≥ 1 remaining |
| Pricing.CanAnalyze | app/pricing.py:88-104 | decides on the (possibly freshly created) record; a new identifier has 3 remaining |
| Pricing.SetTier | app/pricing.py:106-109 | an existing record keeps every field but the tier, which becomes the new one; a month not yet seen gets a fresh record (count 0, no last use, first use now) with the new tier; only that entry changes |
| Pricing.GetTier | app/pricing.py:111-114 | the stored tier, or FREE for a new record |
| Pricing.SetThenGet | app/pricing.py:106-114 | a tier that was set is read back |
| Pricing.MonthNotInherited | app/pricing.py:60-79 | a tier set in one month is not seen in another month, which starts FREE |
| Pricing.GetUsageIdempotent | app/pricing.py:64-79 | a second get_usage returns the same record and state |
| Pricing.IncrementConsumesOne | app/pricing.py:81-104 | an increment turns n remaining into n−1, and the last one into limit reached |
| Pricing.FreeQuotaIsThree | app/pricing.py:88-104 | a new identifier may analyse after two increments and is refused (3 of 3) after three |
| UsageTracking.PlanTable | app/usage_tracking.py:16-49 | the plan table has exactly the four plans free, starter, professional and enterprise |
| UsageTracking.PlanTableShape | app/usage_tracking.py:16-49 | every limit is unlimited or positive, analyses grow free < starter < professional, and enterprise is unlimited |
| UsageTracking.GetUserPlan | app/usage_tracking.py:148-168 | the stored plan id, or "free" without a row; the limits are those of the id, or free's for an unknown id |
| UsageTracking.GetMonthlyUsage | app/usage_tracking.py:187-216 | the stored row of the user and month, and all zeros for a month without a row |
| UsageTracking.Bump | app/usage_tracking.py:123-133 | an existing row: a known event type raises its own counter by one and leaves every other counter as it was; an unknown type changes nothing |
| UsageTracking.BumpChangesOneCounter | app/usage_tracking.py:123-143 | a known event type raises exactly its own counter by one; an unknown type changes nothing |
| UsageTracking.TrackEvent | app/usage_tracking.py:104-146 | the event is appended to the log. Exactly the (email, month) summary row is created or bumped, and every other row is unchanged |
| UsageTracking.TrackThenRead | app/usage_tracking.py:104-216 | after tracking, the monthly usage shows the matching counter one higher; other counters and other users or months are unchanged |
| UsageTracking.RoundHalfEven | app/usage_tracking.py:228 | rounds to the nearest integer, ties to even |
| UsageTracking.CalcPercentage | app/usage_tracking.py:223-228 | 0 for unlimited, 100 for a zero limit, at most 100. For any other limit it is the round-half-even of used/limit·100 capped at 100: within 0.5 of the share below the cap, and 100 once used ≥ limit |
| UsageTracking.ShareAtLeastOne | app/usage_tracking.py:228 | reaching the limit means a share of at least 1 |
| UsageTracking.PercentageInRange | app/usage_tracking.py:223-228 | for non-negative usage and limits ≥ -1 the percentage is in [0,100] |
| UsageTracking.PercentageMonotone | app/usage_tracking.py:223-228 | more usage never lowers the percentage |
| UsageTracking.ShareMonotone | app/usage_tracking.py:228 | more usage never lowers the exact share |
| UsageTracking.Info | app/usage_tracking.py:230-252 | the info carries the usage and the limit, is unlimited iff the limit is -1, and its percentage is `calc_percentage` of the two |
| UsageTracking.GetUsageWithLimits | app/usage_tracking.py:218-253 | combines the plan and the month's usage. Analyses and copilot use their plan limits; exports report the month's export count against the fixed limit 100 and are never unlimited. Each percentage is `calc_percentage` of its used count and limit |
| UsageTracking.CheckLimit | app/usage_tracking.py:255-283 | only analyses and copilot queries are limited. Unlimited plans pass. The call is denied with the billing URL iff used ≥ limit. A warning with the remaining count is given iff the percentage is ≥ 80 |
| UsageTracking.FreePlanFifthIsLast | app/usage_tracking.py:255-275 | a user without a plan who has made 5 analyses is denied at 5/5, 100 % |
| UsageTracking.TrackLastAnalysis | app/usage_tracking.py:104-283 | tracking the last allowed analysis makes the next check deny |
| UsageTracking.FreePlanWarning | app/usage_tracking.py:277-283 | a free user at 4 of 5 is allowed with a warning of 1 remaining |
| DeadlineAlerts.NoticeDaysOf | app/deadline_alerts.py:87-89 | a missing or zero notice reads as 30 days, an integer as itself; unreadable values skip the contract |
| DeadlineAlerts.EntryOf | app/deadline_alerts.py:74-104 | an entry exists iff the analysis parses with an end date within [0, days_ahead] days and a readable notice. It carries the day counts relative to today and the notice deadline end − notice |
| DeadlineAlerts.Collect | app/deadline_alerts.py:70-105 | an entry is collected iff some stored row produces it; the list is no longer than the rows, and every entry lies within the window |
| DeadlineAlerts.CollectOne | app/deadline_alerts.py:74-105 | one row contributes its entry if it has one, and nothing otherwise |
| DeadlineAlerts.CollectConcat | app/deadline_alerts.py:74-105 | the rows are visited in stored order: the entries of two row lists in a row are the entries of the first followed by those of the second |
| DeadlineAlerts.ConsSorted | app/deadline_alerts.py:107 | prepending a lower bound keeps the list sorted |
| DeadlineAlerts.Insert | app/deadline_alerts.py:107 | inserting adds exactly one element |
| DeadlineAlerts.InsertPermutes | app/deadline_alerts.py:107 | insertion adds the element to the multiset |
| DeadlineAlerts.InsertLowerBound | app/deadline_alerts.py:107 | insertion keeps a lower bound on days to end |
| DeadlineAlerts.InsertSorted | app/deadline_alerts.py:107 | inserting into a sorted list keeps it sorted |
| DeadlineAlerts.SortByEnd | app/deadline_alerts.py:107 | the result is a sorted permutation of the input by days to end |
| DeadlineAlerts.WithKeyConcat | app/deadline_alerts.py:107 | entries with a given key distribute over concatenation |
| DeadlineAlerts.WithKeyAllLarger | app/deadline_alerts.py:107 | a list whose keys all exceed k has no entries with key k |
| DeadlineAlerts.InsertStable | app/deadline_alerts.py:107 | insertion puts a new element after all equal keys (stability) |
| DeadlineAlerts.InsertStablePast | app/deadline_alerts.py:107 | stability is preserved when the insertion passes the head |
| DeadlineAlerts.InsertStableFront | app/deadline_alerts.py:107 | stability holds when the element goes before the head |
| DeadlineAlerts.SortStable | app/deadline_alerts.py:107 | the sort is stable: entries with equal days keep their stored order |
| DeadlineAlerts.UpcomingDeadlines | app/deadline_alerts.py:57-108 | the list is sorted by days to end, is a permutation of the qualifying entries, and lies within the window. Entries with equal days keep the order in which they were collected |
| DeadlineAlerts.UpcomingMembership | app/deadline_alerts.py:57-108 | an entry is upcoming iff some stored row produces it |
| DeadlineAlerts.ThresholdAlerts | app/deadline_alerts.py:116-126 | there is one end-date alert per threshold t with days ≤ t, and no others; for thresholds listed longest first the alerts come in strictly decreasing threshold order, so none repeats |
| DeadlineAlerts.CreateAlertsForContract | app/deadline_alerts.py:110-138 | there are at most 5 alerts. The threshold alerts are exactly those for t in 30/14/7/1 with days ≤ t. A notice-deadline alert exists iff 0 ≤ days to notice ≤ 7, and it carries the notice date. The count is the threshold alerts plus that one. Threshold alerts come first, in strictly decreasing threshold order, so the notice alert is last |
| DeadlineAlerts.ThresholdAlertsCons | app/deadline_alerts.py:116-126 | a met first threshold yields its alert first |
| DeadlineAlerts.ThresholdAlertsAll | app/deadline_alerts.py:116-126 | when every threshold is met, the alerts are exactly one per threshold, in order |
| DeadlineAlerts.ImminentThresholdAlerts | app/deadline_alerts.py:116-126 | a contract ending within a day gets alerts 30, 14, 7, 1 in that order |
| DeadlineAlerts.ThresholdAlertsFirst | app/deadline_alerts.py:110-138 | end-date alerts come before the notice alert |
| DeadlineAlerts.AlertOrder | app/deadline_alerts.py:110-138 | a contract ending within a day starts with the four threshold alerts |
| DeadlineAlerts.AllAlerts | app/deadline_alerts.py:303-308 | every alert of the run belongs to some upcoming contract |
| DeadlineAlerts.CriticalAlerts | app/deadline_alerts.py:314-316 | the critical alerts are exactly those due within 7 days |
| DeadlineAlerts.RunDailyCheck | app/deadline_alerts.py:285-318 | the run uses the 30-day window, creates all alerts for the upcoming list, and keeps the alerts due within 7 days as critical |
| DeadlineAlerts.EveryUpcomingAlerted | app/deadline_alerts.py:285-318 | every upcoming contract gets at least its 30-day alert |
| DeadlineAlerts.AllAlertsContains | app/deadline_alerts.py:303-308 | all alerts of each upcoming contract are in the run's list |
| DeadlineAlerts.NoticeAlertsCritical | app/deadline_alerts.py:129-136 | every notice-deadline alert is critical |
| DeadlineAlerts.EndingThisWeekEmailed | app/deadline_alerts.py:314-318 | a contract ending within 7 days triggers the e-mail |
| DeadlinePage.BandOf | app/deadline_page.py:16-18 | the bands are ≤7 days (critical), 8–30 (warning) and >30 (upcoming) |
| DeadlinePage.CountBand | app/deadline_page.py:16-18 | a band count never exceeds the list length, and is positive iff some deadline lies in the band |
| DeadlinePage.CountBandConcat | app/deadline_page.py:16-18 | band counts add over concatenation |
| DeadlinePage.CountBandIsCard | app/deadline_page.py:16-18 | a band count is the number of positions whose deadline lies in the band |
| DeadlinePage.StatsCount | app/deadline_page.py:16-18 | critical, warning and upcoming are the numbers of deadlines with ≤ 7 days, with 8 to 30 days, and with more than 30 days |
| DeadlinePage.StatsOf | app/deadline_page.py:16-18 | the three band counts sum to the total; critical is positive iff some deadline has ≤ 7 days, upcoming iff some has more than 30 |
| DeadlinePage.BandsPartition | app/deadline_page.py:16-18 | the three bands partition the deadline list |
| DeadlinePage.UrgencyOf | app/deadline_page.py:22-34 | urgency classes are ≤7 critical, ≤14 high, ≤30 medium, else low |
| DeadlinePage.UrgencyMonotone | app/deadline_page.py:22-34 | a nearer deadline is never less urgent |
| DeadlinePage.UrgencyRefinesBand | app/deadline_page.py:16-34 | critical urgency is exactly the critical band; high and medium split the warning band |
| DeadlinePage.DeadlineRows | app/deadline_page.py:21-60 | one row per deadline, in order, with its urgency |
| DeadlinePage.TableRows | app/deadline_page.py:62-71 | the placeholder row appears iff there are no deadlines |
| DeadlinePage.CriticalRowsMatchStat | app/deadline_page.py:16-34 | the rows marked critical are as many as the critical stat |
| DeadlinePage.BannerFor | app/deadline_page.py:111-117 | a banner appears iff some deadline is critical; it carries the count, singular iff 1 |
| DeadlinePage.DeadlinesPage | app/deadline_page.py:6-18 | the page uses the 90-day list for its stats, rows and banner; the banner shows iff some deadline of that list ends within 7 days |
| DeadlinePage.BannerIffCriticalRow | app/deadline_page.py:111-117 | the banner appears iff a row is marked critical |
| DeadlinePage.EmptyPage | app/deadline_page.py:62-71 | with no contracts, the counts are zero, there is no banner and the placeholder is the only row |
| Prompts.Truncate | app/prompts.py:522-525 | a text within the limit is unchanged; a longer one is cut to the limit and marked |
| Prompts.Escape | app/prompts.py:526 | escaping adds one character per brace |
| Prompts.UnescapeEscape | app/prompts.py:526 | escaping is undone by unescaping |
| Prompts.ReplaceCharConcat | app/prompts.py:526 | replacing a character distributes over concatenation |
| Prompts.TwoPassIsEscape | app/prompts.py:526 | the two successive replaces double every brace |
| Prompts.PrepareContractText | app/prompts.py:522-526 | the prepared text is the truncated text with braces doubled, and unescapes back to it |
| Prompts.Format | app/prompts.py:532 | `str.format` with one keyword: a template without braces formats to itself, and a lone closing brace is an error |
| Prompts.FirstClose | app/prompts.py:532 | finds the first closing brace, or reports there is none |
| Prompts.FormatStep | app/prompts.py:532 | an escaped literal character formats to itself |
| Prompts.EscapeConcat | app/prompts.py:526 | escaping distributes over concatenation |
| Prompts.FormatEscapedLiteral | app/prompts.py:40 | formatting reproduces escaped template text literally |
| Prompts.FormatField | app/prompts.py:532 | a field `{key}` is replaced by the value, verbatim |
| Prompts.FormatFieldThenLiteral | app/prompts.py:532 | field then escaped literal formats to value then literal |
| Prompts.FormatTemplate | app/prompts.py:529-532 | formatting a template inserts the value verbatim between the literal parts |
| Prompts.UserPromptAsWritten | app/prompts.py:529-532 | the prompt the code builds contains the escaped, not the original, contract text |
| Prompts.AsWrittenDoublesBraces | app/prompts.py:522-532 | a contract text `{x}` appears in the prompt as `{{x}}` |
| Prompts.UserPrompt | app/prompts.py:529-532 | the corrected prompt formats the template with the truncated text verbatim |
| Prompts.ResolveType | app/prompts.py:612-614 | a known type is kept; anything else becomes "general" |
| Prompts.GetPromptForType | app/prompts.py:601-619 | the resolved type's system prompt, and its template around the truncated text with every brace doubled, as `get_prompt_for_type` builds it |
| Prompts.GetCorrectedPromptForType | app/prompts.py:601-619 | the corrected lookup: the same system prompt, and the template around the truncated text verbatim |
| Prompts.CorrectedAgreesWithoutBraces | app/prompts.py:522-532 | on a text without braces the program's lookup and the corrected one agree |
| Prompts.EscapeNoBraces | app/prompts.py:531-532 | escaping leaves a text without braces unchanged |
| Prompts.UnknownTypeIsGeneral | app/prompts.py:612-614 | an unknown type gets exactly the general prompts, in both lookups |
| LlmClient.FindFirst | app/llm_client.py:74 | finds the first occurrence of the separator, or reports there is none |
| LlmClient.Split | app/llm_client.py:74 | splitting always yields at least one piece |
| LlmClient.SplitPiecesSeparatorFree | app/llm_client.py:74 | no piece contains the separator |
| LlmClient.JoinCons | app/llm_client.py:74 | joining a head and a tail puts one separator between them |
| LlmClient.JoinSplit | app/llm_client.py:74 | joining the pieces with the separator rebuilds the text |
| LlmClient.SplitWithoutSeparator | app/llm_client.py:73-74 | a text without the separator splits to itself |
| LlmClient.StripLeftSuffix | app/llm_client.py:76 | left-stripping drops a leading run of whitespace and yields a suffix starting with a non-space |
| LlmClient.StripRightPrefix | app/llm_client.py:76 | right-stripping drops a trailing run of whitespace and yields a prefix ending with a non-space |
| LlmClient.Strip | app/llm_client.py:54 | a stripped text is empty or starts and ends with a non-space; it is empty exactly when the text is all whitespace |
| LlmClient.PrefixOfSuffix | app/llm_client.py:76 | a prefix of a suffix is the corresponding slice |
| LlmClient.StripIsSlice | app/llm_client.py:54 | stripping yields the slice of the input between a leading and a trailing run of whitespace, starting and ending with a non-space |
| LlmClient.StripIdempotent | app/llm_client.py:54 | stripping twice equals stripping once |
| LlmClient.Candidate | app/llm_client.py:74-76 | a piece is stripped and loses a leading "json" tag; the result has no whitespace at either end, and an untagged piece is just stripped |
| LlmClient.LooksLikeObject | app/llm_client.py:77 | a candidate looks like an object iff it is non-empty, starts with "{" and ends with "}" |
| LlmClient.FirstObject | app/llm_client.py:75-81 | the first piece that looks like an object after stripping and tag removal is taken; otherwise the reply is kept |
| LlmClient.ExtractJsonText | app/llm_client.py:70-83 | a reply without a fence is kept. Otherwise, split at the fences, the candidate of the first piece that looks like an object is taken, and the whole reply when none does |
| LlmClient.FindFirstAt | app/llm_client.py:74 | the first occurrence is the one with none before it |
| LlmClient.SplitStep | app/llm_client.py:74 | splitting peels off the text before the first separator |
| LlmClient.FirstFenceAtEnd | app/llm_client.py:74 | a closing fence after fence-free text is the first fence |
| LlmClient.SplitLeading | app/llm_client.py:74 | a leading separator gives an empty first piece |
| LlmClient.SplitTrailing | app/llm_client.py:74 | text then a fence splits into the text and an empty piece |
| LlmClient.SplitWrapped | app/llm_client.py:74 | a fenced body splits into empty, body, empty |
| LlmClient.StripFixed | app/llm_client.py:54 | text without outer spaces is unchanged by stripping |
| LlmClient.CandidateOfBareObject | app/llm_client.py:76-79 | an object piece is its own candidate |
| LlmClient.CandidateOfTaggedObject | app/llm_client.py:77-78 | the "json" tag is removed from a tagged object |
| LlmClient.CandidateOfEmpty | app/llm_client.py:76-79 | the empty piece gives the empty candidate |
| LlmClient.FencedObjectExtracted | app/llm_client.py:70-83 | an object fenced with ``` or ```json is extracted exactly |
| LlmClient.ExtractSecond | app/llm_client.py:75-81 | when the first piece is not an object but the second is, the second is taken |
| LlmClient.DummyResponse | app/llm_client.py:86-94 | the dummy reply has no fields and no flags, level "low" and score 25 |
| LlmClient.DummyConsistentWithLadder | app/llm_client.py:86-94 | the dummy level is the one the engines' ladder gives for its score |
| LlmClient.DummyMode | app/llm_client.py:34 | dummy mode is on when the variable is unset, and otherwise iff it reads "true" in any letter case |
| LlmClient.DummyModeDefault | app/llm_client.py:34 | an unset variable means dummy mode; "false" turns it off |
| LlmClient.CallLlmAnalysis | app/llm_client.py:20-67 | dummy mode returns the dummy reply. Otherwise a reply is stripped and its JSON text extracted for parsing, and an API failure becomes an error |
| LlmClient.FencedReplyParsed | app/llm_client.py:20-83 | a fenced object reply is parsed as exactly that object |
| LlmClient.ModelTypesArePromptTypes | app/llm_client.py:150-159 | the client knows exactly the eight prompt types |
| LlmClient.ResolveModelType | app/llm_client.py:175-177 | a known type is kept; anything else becomes "general" |
| LlmClient.AnalyzeContract | app/llm_client.py:162-180 | builds the prompts for the type as the program does, with the contract text's braces doubled, and calls the model with them |
| LlmClient.FallbacksAgree | app/llm_client.py:175-177 | the client's fallback and the prompt tables' fallback pick the same type |
| StripePrices.Field | app/stripe_prices.py:6-28 | a plan row has exactly the five keys |
| StripePrices.Prices | app/stripe_prices.py:6-28 | the price table has exactly the plans starter, professional and enterprise |
| StripePrices.GetPriceId | app/stripe_prices.py:30-35 | the plan is lower-cased. An unknown plan is an error naming it; otherwise the interval's value is returned, or a key error |
| StripePrices.GetPriceIdSucceeds | app/stripe_prices.py:30-35 | succeeds iff the lower-cased plan and the interval key both exist |
| StripePrices.GetPriceIdIgnoresCase | app/stripe_prices.py:32 | upper-casing the plan name does not change the lookup |
| StripePrices.DefaultIsMonthly | app/stripe_prices.py:30 | without an interval the monthly price id is returned |
| StripePrices.GetAllPrices | app/stripe_prices.py:37-39 | it is the price table itself; each yearly amount is 10 months' price, and each plan's ids are what the lookup returns |
| StripePrices.PlanOfPriceId | app/stripe_prices.py:6-28 | a price id names a plan of the table and an interval |
| StripePrices.PriceIdsIdentifyPlan | app/stripe_prices.py:6-28 | price ids are distinct: each one identifies its plan and interval |
| StripePrices.PricesMatchPlans | app/stripe_prices.py:6-28 | every priced plan is in the usage plan table with the same name and monthly price; only "free" is unpriced |
| Text.Upper | app/risk_engine.py:204 | upper-casing maps each ASCII letter and leaves the rest |
| Text.Lower | app/stripe_prices.py:32 | lower-casing maps each ASCII letter and leaves the rest |
| Text.LowerIdempotent | app/stripe_prices.py:32 | lower-casing twice is lower-casing once |
| Text.LowerOfUpper | app/stripe_prices.py:32 | lower-casing after upper-casing is lower-casing |

## Left out

- Free-text fields are not modelled: finding ids (uuid), excerpts, descriptions, recommendations, key findings and immediate actions. They carry no decision. The summary's nda_type label is also omitted, and so is the score the NDA engine's critical summary quotes besides the count (the score is the assessment's own field).
- Floating point is not modelled. Real-valued fields are exact reals.
- UsageTracking.CalcPercentage: `round(used / limit * 100)` on floats is modelled as exact round-half-even. A float representation error at exact .5 ties is not modelled.
- Python's `str.lower`/`upper` are modelled on ASCII letters only, not the full Unicode case tables. `strip` removes exactly the characters `str.isspace` accepts.
- NdaEngine.CheckScope: a definition given explicitly as `None` makes the source raise when lower-casing; the model treats an absent definition as empty text and does not model the exception.
- SaasEngine.CheckDataLocation: a `data_location` given explicitly as `None` makes the source raise at `.upper()` (app/risk_engine.py:204); the model reads it as absent and does not model the exception.
- VendorEngine.CheckLiability: a `cap_type` given explicitly as `None` makes the source raise at `.lower()` (app/risk_engine.py:529); the model reads it as absent and does not model the exception.
- SaasEngine.AssessSaasContract, NdaEngine.AssessNdaContract, VendorEngine.AssessVendorContract: a sub-record given explicitly as `None` (for example `contract_term`, read with `term.get` at app/risk_engine.py:169) makes the source raise; the model has no such value, and an absent sub-record reads as empty. The employment engine tests each sub-record before reading it.
- NdaEngine.CheckPenalty: the penalty is a number. A string `penalty_amount` makes the source raise, either at `float()` or at the `:,.0f` format (app/risk_engine.py:396-406); this is not modelled.
- DeadlinePage.DeadlinesPage: contract values are numbers. A non-numeric value makes the source raise at the `:,.0f` format (app/deadline_page.py:37); this is not modelled.
- DeadlineAlerts.NoticeDaysOf: the stored notice period is a number or unparsable. A stored string "0" is truthy, so the source uses a 0-day notice period (app/deadline_alerts.py:87), whereas the model's NoticeDays(0) stands for the number 0 and reads as 30. Likewise a truthy non-integer whose `int()` is 0, such as 0.5, gives a 0-day period in the source and is not modelled.
- LlmClient.Strip: its own contract states only the ends of the result and when it is empty; LlmClient.StripIsSlice states the rest, that the result is the input less a leading and a trailing run of whitespace.
- Pricing: the session key is `sha256(identifier)[:16]`. The model keys by the identifier itself, so hash collisions are not modelled. The current month is a parameter.
- Dates are day numbers. Parsing an ISO date is reduced to "a day, no date, or an unparsable date", and today is a parameter.
- The SQLite tables are maps passed in and returned. Connections, commits and the `metadata` JSON column of usage events are not modelled.
- set_user_plan and get_usage_history (usage_tracking.py) are plain database writes and reads with no decision logic; they are not modelled.
- save_alert, get_pending_alerts, mark_alerts_sent and send_alert_email (deadline_alerts.py) are not modelled: they are storage, HTML e-mail formatting and SMTP. The daily run records whether an e-mail is due (critical alerts exist) instead of sending it.
- The HTML of the deadline page is out of scope: the model keeps the counts, row urgency, placeholder row and banner.
- The prompt texts themselves are out of scope. A template is modelled as literal text around one `{contract_text}` field; format specs and conversions in `str.format` are not modelled.
- The OpenAI request, `json.loads` and logging are out of scope. The API's reply is a parameter, and parsing is represented by the extracted text to be parsed.
- LlmClient.CallLlmAnalysis: the two error kinds (invalid JSON, API failure) are merged into one failure outcome, since JSON parsing is not modelled.
- Fields the engines only pass through (names, dates, parties) are not modelled.
- Behaviour of the code worth noting:
  - A SaaS contract with a 10-day notice, no DPA, 99 % uptime and a 6× cap scores 88: the missing export format adds a HIGH finding.
  - An NDA that is indefinite, has a 500 000 per-violation penalty and no exclusions scores 48: the empty exclusions list adds a MEDIUM finding.
  - Empty NDA exclusions are a finding only, not a missing clause.
  - Numeric tests use Python truthiness (`x and x < 30`), so negative values trigger a rule and zero reads as unset.

## Findings

| source | as written | input that shows it | evidently intended | confidence | as-written member | corrected member |
|---|---|---|---|---|---|---|
| app/prompts.py:522-532 | the contract text has its braces doubled and is then passed as the argument of `str.format`, which inserts arguments verbatim | contract text `{x}` appears in the prompt as `{{x}}` | the contract text appears unchanged (only template literals need doubled braces) | high; not executed | Prompts.UserPromptAsWritten, Prompts.AsWrittenDoublesBraces, Prompts.GetPromptForType | Prompts.UserPrompt, Prompts.GetCorrectedPromptForType, Prompts.CorrectedAgreesWithoutBraces |
