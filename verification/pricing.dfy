/** The in-memory usage quota of the pricing layer: per-tier limits and a
    tracker holding one usage record per (identifier, month). The month and
    the current timestamp are parameters; the identifier stands in for the
    session key derived from it. */
module Pricing {
  import opened Wrappers

  // ---------------------------------------------------------------------------
  // Tiers and their limits
  // ---------------------------------------------------------------------------

  datatype PricingTier = Free | Pro | Enterprise

  function TierValue(t: PricingTier): string
  {
    match t
    case Free => "free"
    case Pro => "pro"
    case Enterprise => "enterprise"
  }

  /** The limits of one tier. `analysesPerMonth == -1` means unlimited. The
      clause-library and comparison features are only listed for ENTERPRISE;
      elsewhere they are absent, modelled as false. */
  datatype TierLimits = TierLimits(
    analysesPerMonth: int,
    contractTypes: seq<string>,
    pdfExport: bool,
    apiAccess: bool,
    clauseChat: bool,
    clauseLibrary: bool,
    contractComparison: bool,
    priceEur: int)

  const Unlimited := -1

  function LimitsOf(t: PricingTier): (l: TierLimits)
    ensures t == Free ==> l.analysesPerMonth == 3 && l.contractTypes == ["employment"]
    ensures t == Pro ==> l.analysesPerMonth == 50
    ensures t == Enterprise ==> l.analysesPerMonth == Unlimited
    ensures l.analysesPerMonth == Unlimited || l.analysesPerMonth > 0
  {
    match t
    case Free => TierLimits(3, ["employment"], false, false, false, false, false, 0)
    case Pro => TierLimits(50, ["employment", "saas", "nda", "vendor"], true, false, true, false, false, 49)
    case Enterprise => TierLimits(-1, ["employment", "saas", "nda", "vendor", "lease", "service", "msa"],
                                  true, true, true, true, true, 299)
  }

  /** `TierLimits.get_limits`: look the tier up by its value; any other key
      falls back to the FREE limits. */
  function GetLimits(tier: string): (l: TierLimits)
    ensures tier !in {"free", "pro", "enterprise"} ==> l == LimitsOf(Free)
  {
    if tier == "pro" then LimitsOf(Pro)
    else if tier == "enterprise" then LimitsOf(Enterprise)
    else LimitsOf(Free)
  }

  /** Looking a tier up by its own value gives that tier's limits. */
  lemma GetLimitsOfTier(t: PricingTier)
    ensures GetLimits(TierValue(t)) == LimitsOf(t)
  {
  }

  /** Higher tiers never allow fewer analyses, counting -1 as infinite. */
  lemma TiersOrdered()
    ensures LimitsOf(Free).analysesPerMonth < LimitsOf(Pro).analysesPerMonth
    ensures LimitsOf(Enterprise).analysesPerMonth == Unlimited
    ensures forall c :: c in LimitsOf(Free).contractTypes ==> c in LimitsOf(Pro).contractTypes
    ensures forall c :: c in LimitsOf(Pro).contractTypes ==> c in LimitsOf(Enterprise).contractTypes
  {
  }

  // ---------------------------------------------------------------------------
  // The tracker
  // ---------------------------------------------------------------------------

  /** One month's usage of one identifier; the timestamps are opaque strings. */
  datatype UsageRecord = UsageRecord(analyses: int, tier: PricingTier, firstUse: string, lastUse: Option<string>)

  /** identifier -> month -> record. */
  type Tracker = map<string, map<string, UsageRecord>>

  function Lookup(t: Tracker, id: string, month: string): Option<UsageRecord>
  {
    if id in t && month in t[id] then Some(t[id][month]) else None
  }

  /** Write one record, creating the identifier's month table if needed. */
  function Store(t: Tracker, id: string, month: string, rec: UsageRecord): (r: Tracker)
    ensures Lookup(r, id, month) == Some(rec)
    ensures forall k, m | (k, m) != (id, month) :: Lookup(r, k, m) == Lookup(t, k, m)
  {
    var months := if id in t then t[id] else map[];
    t[id := months[month := rec]]
  }

  /** Nothing but the one record changes. */
  ghost predicate OnlyChanged(t: Tracker, r: Tracker, id: string, month: string)
  {
    forall k, m | (k, m) != (id, month) :: Lookup(r, k, m) == Lookup(t, k, m)
  }

  /** The record a first use in a month starts with. */
  function FreshRecord(now: string): UsageRecord
  {
    UsageRecord(0, Free, now, None)
  }

  /** `get_usage`: the existing record of the month, or a fresh FREE record
      with no analyses, which is stored. An existing record is never reset. */
  function GetUsage(t: Tracker, id: string, month: string, now: string): (r: (Tracker, UsageRecord))
    ensures Lookup(r.0, id, month) == Some(r.1)
    ensures Lookup(t, id, month).Some? ==> r.1 == Lookup(t, id, month).value && r.0 == t
    ensures Lookup(t, id, month).None? ==> r.1 == FreshRecord(now)
    ensures OnlyChanged(t, r.0, id, month)
  {
    match Lookup(t, id, month)
    case Some(rec) => (t, rec)
    case None => (Store(t, id, month, FreshRecord(now)), FreshRecord(now))
  }

  /** `increment_usage`: one more analysis, stamped with the current time. */
  function IncrementUsage(t: Tracker, id: string, month: string, now: string): (r: (Tracker, UsageRecord))
    ensures Lookup(r.0, id, month) == Some(r.1)
    ensures r.1.analyses == (if Lookup(t, id, month).Some? then Lookup(t, id, month).value.analyses else 0) + 1
    ensures r.1.tier == (if Lookup(t, id, month).Some? then Lookup(t, id, month).value.tier else Free)
    ensures r.1.lastUse == Some(now)
    ensures OnlyChanged(t, r.0, id, month)
  {
    var (t1, usage) := GetUsage(t, id, month, now);
    var updated := usage.(analyses := usage.analyses + 1, lastUse := Some(now));
    (Store(t1, id, month, updated), updated)
  }

  /** The verdict of `can_analyze`; the message text is derived from it. */
  datatype Verdict =
    | UnlimitedAnalyses
    | LimitReached(current: int, max: int)
    | AnalysesRemaining(remaining: int)

  predicate Allowed(v: Verdict)
  {
    !v.LimitReached?
  }

  /** `can_analyze` on a record: unlimited tiers always pass; otherwise the
      count is compared with the tier's monthly limit. */
  function Decide(usage: UsageRecord): (v: Verdict)
    ensures LimitsOf(usage.tier).analysesPerMonth == Unlimited <==> v == UnlimitedAnalyses
    ensures var max := LimitsOf(usage.tier).analysesPerMonth;
      max != Unlimited ==> (Allowed(v) <==> usage.analyses < max)
    ensures v.LimitReached? ==> v.current == usage.analyses && v.max == LimitsOf(usage.tier).analysesPerMonth
    ensures v.AnalysesRemaining? ==>
      v.remaining >= 1 && v.remaining == LimitsOf(usage.tier).analysesPerMonth - usage.analyses
  {
    var max := GetLimits(TierValue(usage.tier)).analysesPerMonth;
    GetLimitsOfTier(usage.tier);
    if max == -1 then UnlimitedAnalyses
    else if usage.analyses >= max then LimitReached(usage.analyses, max)
    else AnalysesRemaining(max - usage.analyses)
  }

  /** `can_analyze`: reads the month's record, creating it on first use. */
  function CanAnalyze(t: Tracker, id: string, month: string, now: string): (r: (Tracker, Verdict))
    ensures var (t1, usage) := GetUsage(t, id, month, now); r == (t1, Decide(usage))
    ensures Lookup(t, id, month).None? ==> r.1 == AnalysesRemaining(3)
    ensures OnlyChanged(t, r.0, id, month)
  {
    var (t1, usage) := GetUsage(t, id, month, now);
    (t1, Decide(usage))
  }

  /** `set_tier`: change the tier of the month's record, creating it first. */
  function SetTier(t: Tracker, id: string, month: string, tier: PricingTier, now: string): (r: Tracker)
    ensures Lookup(r, id, month).Some? && Lookup(r, id, month).value.tier == tier
    ensures Lookup(t, id, month).Some? ==> Lookup(r, id, month).value.analyses == Lookup(t, id, month).value.analyses
    ensures Lookup(t, id, month).Some? ==> Lookup(r, id, month).value == Lookup(t, id, month).value.(tier := tier)
    ensures Lookup(t, id, month).None? ==> Lookup(r, id, month).value == UsageRecord(0, tier, now, None)
    ensures OnlyChanged(t, r, id, month)
  {
    var (t1, usage) := GetUsage(t, id, month, now);
    Store(t1, id, month, usage.(tier := tier))
  }

  /** `get_tier`: the month's tier, FREE for a month not yet seen. */
  function GetTier(t: Tracker, id: string, month: string, now: string): (r: (Tracker, PricingTier))
    ensures Lookup(t, id, month).Some? ==> r.1 == Lookup(t, id, month).value.tier && r.0 == t
    ensures Lookup(t, id, month).None? ==> r.1 == Free
    ensures OnlyChanged(t, r.0, id, month)
  {
    var (t1, usage) := GetUsage(t, id, month, now);
    (t1, usage.tier)
  }

  // ---------------------------------------------------------------------------
  // Properties across calls
  // ---------------------------------------------------------------------------

  /** A tier that was set is the tier read back in the same month. */
  lemma SetThenGet(t: Tracker, id: string, month: string, tier: PricingTier, now: string, later: string)
    ensures GetTier(SetTier(t, id, month, tier, now), id, month, later).1 == tier
  {
  }

  /** A tier set in one month is not inherited by a month not yet seen: its
      fresh record starts at FREE. */
  lemma MonthNotInherited(t: Tracker, id: string, m1: string, m2: string, tier: PricingTier, now: string, later: string)
    requires m1 != m2 && Lookup(t, id, m2).None?
    ensures GetTier(SetTier(t, id, m1, tier, now), id, m2, later).1 == Free
  {
  }

  /** Reading usage twice in a row changes nothing the second time. */
  lemma GetUsageIdempotent(t: Tracker, id: string, month: string, now: string, later: string)
    ensures var (t1, u1) := GetUsage(t, id, month, now);
      GetUsage(t1, id, month, later) == (t1, u1)
  {
  }

  /** An increment consumes exactly one of the remaining analyses: with n left
      before, n - 1 are left after, and the last one reaches the limit. */
  lemma IncrementConsumesOne(t: Tracker, id: string, month: string, now: string, later: string, n: int)
    requires CanAnalyze(t, id, month, now).1 == AnalysesRemaining(n)
    ensures var t1 := IncrementUsage(t, id, month, now).0;
      var v := CanAnalyze(t1, id, month, later).1;
      if n == 1 then v.LimitReached? else v == AnalysesRemaining(n - 1)
  {
  }

  /** A FREE identifier gets exactly three analyses in a fresh month. */
  lemma FreeQuotaIsThree(t: Tracker, id: string, month: string, now: string)
    requires Lookup(t, id, month).None?
    ensures var t1 := IncrementUsage(t, id, month, now).0;
      var t2 := IncrementUsage(t1, id, month, now).0;
      var t3 := IncrementUsage(t2, id, month, now).0;
      && Allowed(CanAnalyze(t2, id, month, now).1)
      && CanAnalyze(t3, id, month, now).1 == LimitReached(3, 3)
  {
  }
}
