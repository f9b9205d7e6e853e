/** Plan limits and monthly usage counters of the database-backed usage
    tracker. The two tables the logic reads (user plans and monthly usage) are
    in-memory maps; the current month is a parameter. */
module UsageTracking {
  import opened Wrappers

  // ---------------------------------------------------------------------------
  // Plans
  // ---------------------------------------------------------------------------

  /** Monthly limits of a plan; -1 means unlimited. */
  datatype PlanLimits = PlanLimits(
    analysesPerMonth: int,
    copilotQueriesPerMonth: int,
    contractsStored: int,
    teamMembers: int,
    name: string,
    price: int)

  const Unlimited := -1

  /** The plan table, keyed by plan id. */
  function PlanTable(): (t: map<string, PlanLimits>)
    ensures t.Keys == {"free", "starter", "professional", "enterprise"}
  {
    map[
      "free" := PlanLimits(5, 20, 10, 1, "Free", 0),
      "starter" := PlanLimits(50, 200, 100, 3, "Starter", 69),
      "professional" := PlanLimits(200, 1000, 500, 10, "Professional", 179),
      "enterprise" := PlanLimits(-1, -1, -1, -1, "Enterprise", 449)]
  }

  /** Every limit in the table is unlimited or positive, and higher plans never
      allow fewer analyses or copilot queries (counting -1 as infinite). */
  lemma PlanTableShape()
    ensures forall id | id in PlanTable() ::
      var p := PlanTable()[id];
      (p.analysesPerMonth == Unlimited || p.analysesPerMonth > 0)
      && (p.copilotQueriesPerMonth == Unlimited || p.copilotQueriesPerMonth > 0)
    ensures PlanTable()["free"].analysesPerMonth < PlanTable()["starter"].analysesPerMonth
            < PlanTable()["professional"].analysesPerMonth
    ensures PlanTable()["enterprise"].analysesPerMonth == Unlimited
  {
  }

  /** A stored plan row; the Stripe ids are not consulted by the limit logic. */
  datatype PlanRow = PlanRow(planId: string, startedAt: Option<string>, expiresAt: Option<string>)

  /** The plan as `get_user_plan` reports it: the row's id, with the limits of
      that id, or the free limits if the id is unknown. */
  datatype UserPlan = UserPlan(planId: string, startedAt: Option<string>, expiresAt: Option<string>, limits: PlanLimits)

  function GetUserPlan(plans: map<string, PlanRow>, email: string): (r: UserPlan)
    ensures email in plans ==> r.planId == plans[email].planId
    ensures email !in plans ==> r.planId == "free"
    ensures r.planId in PlanTable() ==> r.limits == PlanTable()[r.planId]
    ensures r.planId !in PlanTable() ==> r.limits == PlanTable()["free"]
  {
    if email in plans then
      var row := plans[email];
      var limits := if row.planId in PlanTable() then PlanTable()[row.planId] else PlanTable()["free"];
      UserPlan(row.planId, row.startedAt, row.expiresAt, limits)
    else UserPlan("free", None, None, PlanTable()["free"])
  }

  // ---------------------------------------------------------------------------
  // Monthly usage
  // ---------------------------------------------------------------------------

  datatype MonthlyUsage = MonthlyUsage(analyses: int, copilotQueries: int, exports: int, apiCalls: int)

  const NoUsage := MonthlyUsage(0, 0, 0, 0)

  /** The monthly summary table, keyed by (e-mail, month). */
  type UsageTable = map<(string, string), MonthlyUsage>

  /** `get_monthly_usage`: the stored row, or all zeros. */
  function GetMonthlyUsage(usage: UsageTable, email: string, month: string): (r: MonthlyUsage)
    ensures (email, month) in usage ==> r == usage[(email, month)]
    ensures (email, month) !in usage ==> r == NoUsage
  {
    if (email, month) in usage then usage[(email, month)] else NoUsage
  }

  /** The counter an event type feeds, if any. */
  function Counter(u: MonthlyUsage, eventType: string): Option<int>
  {
    if eventType == "analysis" then Some(u.analyses)
    else if eventType == "copilot_query" then Some(u.copilotQueries)
    else if eventType == "export" then Some(u.exports)
    else if eventType == "api_call" then Some(u.apiCalls)
    else None
  }

  predicate KnownEvent(eventType: string)
  {
    eventType in {"analysis", "copilot_query", "export", "api_call"}
  }

  /** Raise the counter the event type feeds by one; other types change nothing. */
  function Bump(u: MonthlyUsage, eventType: string): (r: MonthlyUsage)
    ensures KnownEvent(eventType) ==> Counter(r, eventType).value == Counter(u, eventType).value + 1
    ensures forall other | other != eventType :: Counter(r, other) == Counter(u, other)
    ensures !KnownEvent(eventType) ==> r == u
  {
    if eventType == "analysis" then u.(analyses := u.analyses + 1)
    else if eventType == "copilot_query" then u.(copilotQueries := u.copilotQueries + 1)
    else if eventType == "export" then u.(exports := u.exports + 1)
    else if eventType == "api_call" then u.(apiCalls := u.apiCalls + 1)
    else u
  }

  /** Bumping raises exactly the matching counter by one and leaves the other
      three alone; an unknown type leaves the row unchanged. */
  lemma BumpChangesOneCounter(u: MonthlyUsage, eventType: string, other: string)
    ensures KnownEvent(eventType) ==> Counter(Bump(u, eventType), eventType).value == Counter(u, eventType).value + 1
    ensures other != eventType ==> Counter(Bump(u, eventType), other) == Counter(u, other)
    ensures !KnownEvent(eventType) ==> Bump(u, eventType) == u
  {
  }

  /** One logged event. */
  datatype UsageEvent = UsageEvent(email: string, eventType: string, resourceId: Option<string>)

  /** `track_event`: log the event; raise the matching counter of an existing
      row, or insert a new row with that counter at 1 and the rest at 0. A new
      row is inserted even for an unknown type (then all zeros). */
  function TrackEvent(events: seq<UsageEvent>, usage: UsageTable, email: string, eventType: string,
                      resourceId: Option<string>, month: string): (r: (seq<UsageEvent>, UsageTable))
    ensures r.0 == events + [UsageEvent(email, eventType, resourceId)]
    ensures (email, month) in r.1 && r.1.Keys == usage.Keys + {(email, month)}
    ensures forall k | k in usage && k != (email, month) :: r.1[k] == usage[k]
    ensures r.1[(email, month)] == Bump(GetMonthlyUsage(usage, email, month), eventType)
  {
    var key := (email, month);
    var row :=
      if key in usage then Bump(usage[key], eventType)
      else MonthlyUsage(if eventType == "analysis" then 1 else 0,
                        if eventType == "copilot_query" then 1 else 0,
                        if eventType == "export" then 1 else 0,
                        if eventType == "api_call" then 1 else 0);
    (events + [UsageEvent(email, eventType, resourceId)], usage[key := row])
  }

  /** Tracking an event adds one to its counter for the month as read back,
      and leaves every other counter and every other month as it was. */
  lemma TrackThenRead(events: seq<UsageEvent>, usage: UsageTable, email: string, eventType: string,
                      resourceId: Option<string>, month: string, otherType: string, e2: string, m2: string)
    ensures var after := TrackEvent(events, usage, email, eventType, resourceId, month).1;
      && (KnownEvent(eventType) ==>
            Counter(GetMonthlyUsage(after, email, month), eventType).value
            == Counter(GetMonthlyUsage(usage, email, month), eventType).value + 1)
      && (otherType != eventType ==>
            Counter(GetMonthlyUsage(after, email, month), otherType) == Counter(GetMonthlyUsage(usage, email, month), otherType))
      && ((e2, m2) != (email, month) ==> GetMonthlyUsage(after, e2, m2) == GetMonthlyUsage(usage, e2, m2))
  {
    BumpChangesOneCounter(GetMonthlyUsage(usage, email, month), eventType, otherType);
  }

  // ---------------------------------------------------------------------------
  // Percentages and the limit check
  // ---------------------------------------------------------------------------

  /** Python's `round` on an exact value: to the nearest integer, halves to
      the even neighbour. */
  function RoundHalfEven(x: real): (n: int)
    ensures x - 0.5 <= n as real <= x + 0.5
    ensures n as real == x - 0.5 || n as real == x + 0.5 ==> n % 2 == 0
  {
    var f := x.Floor;
    var frac := x - f as real;
    if frac < 0.5 then f
    else if frac > 0.5 then f + 1
    else if f % 2 == 0 then f else f + 1
  }

  /** `calc_percentage`: 0 for an unlimited plan, 100 for a zero limit, else
      the rounded share capped at 100. */
  function CalcPercentage(used: int, limit: int): (p: int)
    ensures limit == Unlimited ==> p == 0
    ensures limit == 0 ==> p == 100
    ensures p <= 100
    ensures limit > 0 && used >= 0 ==> 0 <= p
    ensures limit > 0 && p < 100 ==>
      p as real - 0.5 <= Share(used, limit) * 100.0 <= p as real + 0.5
    ensures limit > 0 && used >= limit ==> p == 100
    ensures limit != Unlimited && limit != 0 ==>
      p == (if RoundHalfEven(Share(used, limit) * 100.0) < 100 then RoundHalfEven(Share(used, limit) * 100.0) else 100)
  {
    if limit == -1 then 0
    else if limit == 0 then 100
    else
      ShareAtLeastOne(used, limit);
      var rounded := RoundHalfEven(Share(used, limit) * 100.0);
      if rounded < 100 then rounded else 100
  }

  /** `used / limit` as an exact value. */
  function Share(used: int, limit: int): real
    requires limit != 0
  {
    used as real / limit as real
  }

  lemma ShareAtLeastOne(used: int, limit: int)
    requires limit != 0
    ensures limit > 0 && used >= limit ==> Share(used, limit) >= 1.0
    ensures limit > 0 && used >= 0 ==> Share(used, limit) >= 0.0
  {
    var q := Share(used, limit);
    assert q * limit as real == used as real;
  }

  /** For the limits a plan can have (-1 or at least 0) and a non-negative
      count, the percentage lies in [0, 100]. */
  lemma PercentageInRange(used: int, limit: int)
    requires used >= 0 && limit >= -1
    ensures 0 <= CalcPercentage(used, limit) <= 100
  {
  }

  /** More usage never lowers the percentage. */
  lemma PercentageMonotone(u1: int, u2: int, limit: int)
    requires u1 <= u2 && limit > 0
    ensures CalcPercentage(u1, limit) <= CalcPercentage(u2, limit)
  {
    ShareMonotone(u1, u2, limit);
  }

  lemma ShareMonotone(u1: int, u2: int, limit: int)
    requires u1 <= u2 && limit > 0
    ensures Share(u1, limit) * 100.0 <= Share(u2, limit) * 100.0
  {
    var q1, q2 := Share(u1, limit), Share(u2, limit);
    assert q1 * limit as real == u1 as real;
    assert q2 * limit as real == u2 as real;
  }

  /** One limited resource as `get_usage_with_limits` reports it. */
  datatype LimitInfo = LimitInfo(used: int, limit: int, percentage: int, unlimited: bool)

  function Info(used: int, limit: int): (i: LimitInfo)
    ensures i.used == used && i.limit == limit && i.unlimited == (limit == Unlimited)
    ensures i.percentage == CalcPercentage(used, limit)
  {
    LimitInfo(used, limit, CalcPercentage(used, limit), limit == -1)
  }

  /** The fixed export allowance, the same for every plan. */
  const ExportLimit := 100

  datatype UsageWithLimits = UsageWithLimits(plan: UserPlan, usage: MonthlyUsage,
                                             analyses: LimitInfo, copilot: LimitInfo, exports: LimitInfo)

  function GetUsageWithLimits(plans: map<string, PlanRow>, usage: UsageTable, email: string, month: string): (r: UsageWithLimits)
    ensures r.plan == GetUserPlan(plans, email) && r.usage == GetMonthlyUsage(usage, email, month)
    ensures r.analyses.used == r.usage.analyses && r.analyses.limit == r.plan.limits.analysesPerMonth
    ensures r.copilot.used == r.usage.copilotQueries && r.copilot.limit == r.plan.limits.copilotQueriesPerMonth
    ensures r.exports.used == r.usage.exports && r.exports.limit == ExportLimit && !r.exports.unlimited
    ensures r.analyses.percentage == CalcPercentage(r.usage.analyses, r.plan.limits.analysesPerMonth)
    ensures r.copilot.percentage == CalcPercentage(r.usage.copilotQueries, r.plan.limits.copilotQueriesPerMonth)
    ensures r.exports.percentage == CalcPercentage(r.usage.exports, ExportLimit)
  {
    var plan := GetUserPlan(plans, email);
    var u := GetMonthlyUsage(usage, email, month);
    UsageWithLimits(plan, u,
      Info(u.analyses, plan.limits.analysesPerMonth),
      Info(u.copilotQueries, plan.limits.copilotQueriesPerMonth),
      Info(u.exports, ExportLimit))
  }

  /** The answer of `check_limit`. */
  datatype LimitCheck =
    | NotLimited
    | UnlimitedPlan(info: LimitInfo)
    | LimitReached(info: LimitInfo, upgradeUrl: string)
    | WithinLimit(info: LimitInfo, warning: Option<int>)

  predicate Allowed(c: LimitCheck)
  {
    !c.LimitReached?
  }

  const UpgradeUrl := "/billing"

  /** `check_limit`: only analyses and copilot queries are limited. An
      unlimited plan passes; reaching the limit denies with the billing page;
      otherwise the call passes, with a warning carrying the remaining count
      once the percentage reaches 80. */
  function CheckLimit(plans: map<string, PlanRow>, usage: UsageTable, email: string, month: string, eventType: string): (r: LimitCheck)
    ensures eventType != "analysis" && eventType != "copilot_query" <==> r == NotLimited
    ensures var data := GetUsageWithLimits(plans, usage, email, month);
      var info := if eventType == "analysis" then data.analyses else data.copilot;
      r != NotLimited ==>
        && (r.UnlimitedPlan? <==> info.unlimited)
        && (!Allowed(r) <==> !info.unlimited && info.used >= info.limit)
        && (r.LimitReached? ==> r.upgradeUrl == UpgradeUrl)
        && (r.WithinLimit? ==> (r.warning.Some? <==> info.percentage >= 80))
        && (r.WithinLimit? && r.warning.Some? ==> r.warning.value == info.limit - info.used)
        && r.info == info
  {
    var data := GetUsageWithLimits(plans, usage, email, month);
    if eventType != "analysis" && eventType != "copilot_query" then NotLimited
    else
      var info := if eventType == "analysis" then data.analyses else data.copilot;
      if info.unlimited then UnlimitedPlan(info)
      else if info.used >= info.limit then LimitReached(info, UpgradeUrl)
      else WithinLimit(info, if info.percentage >= 80 then Some(info.limit - info.used) else None)
  }

  /** A user without a plan row gets the free limits: the sixth analysis of a
      month is denied. */
  lemma FreePlanFifthIsLast(plans: map<string, PlanRow>, usage: UsageTable, email: string, month: string)
    requires email !in plans
    requires (email, month) in usage && usage[(email, month)].analyses == 5
    ensures CheckLimit(plans, usage, email, month, "analysis") == LimitReached(LimitInfo(5, 5, 100, false), UpgradeUrl)
  {
  }

  /** Tracking the one analysis that was still allowed (a limited plan with
      one analysis left this month) reaches the limit. */
  lemma TrackLastAnalysis(plans: map<string, PlanRow>, events: seq<UsageEvent>, usage: UsageTable,
                          email: string, month: string, rid: Option<string>)
    requires var limit := GetUserPlan(plans, email).limits.analysesPerMonth;
      limit != Unlimited && GetMonthlyUsage(usage, email, month).analyses == limit - 1
    ensures var after := TrackEvent(events, usage, email, "analysis", rid, month).1;
      !Allowed(CheckLimit(plans, after, email, month, "analysis"))
  {
    var after := TrackEvent(events, usage, email, "analysis", rid, month).1;
    assert GetMonthlyUsage(after, email, month).analyses == GetMonthlyUsage(usage, email, month).analyses + 1;
  }

  /** The warning of the free plan: 4 of 5 analyses used is 80 percent, so
      the call passes with one remaining. */
  lemma FreePlanWarning(plans: map<string, PlanRow>, usage: UsageTable, email: string, month: string)
    requires email !in plans
    requires (email, month) in usage && usage[(email, month)].analyses == 4
    ensures CheckLimit(plans, usage, email, month, "analysis").warning == Some(1)
  {
    assert CalcPercentage(4, 5) == 80 by {
      assert Share(4, 5) * 100.0 == 80.0;
    }
  }
}
