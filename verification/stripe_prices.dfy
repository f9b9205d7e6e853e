/** The Stripe price table: for each paid plan the monthly and yearly price
    IDs, the display name and the two amounts in euros, and the lookup that
    turns a plan name and a billing interval into a table entry. */
module StripePrices {
  import opened Wrappers
  import Text
  import UsageTracking

  /** One plan's row of the price table. */
  datatype PlanPrices = PlanPrices(
    monthly: string,
    yearly: string,
    name: string,
    monthlyAmount: int,
    yearlyAmount: int)

  /** A value stored under a key of a plan's row: the IDs and the name are
      strings, the amounts are integers. */
  datatype PlanField = StrField(s: string) | IntField(n: int)

  /** The row read as a dictionary: its five keys and nothing else. */
  function Field(p: PlanPrices, key: string): (r: Option<PlanField>)
    ensures r.Some? <==> key in {"monthly", "yearly", "name", "monthly_amount", "yearly_amount"}
  {
    if key == "monthly" then Some(StrField(p.monthly))
    else if key == "yearly" then Some(StrField(p.yearly))
    else if key == "name" then Some(StrField(p.name))
    else if key == "monthly_amount" then Some(IntField(p.monthlyAmount))
    else if key == "yearly_amount" then Some(IntField(p.yearlyAmount))
    else None
  }

  /** The production price table. */
  function Prices(): (t: map<string, PlanPrices>)
    ensures t.Keys == {"starter", "professional", "enterprise"}
  {
    map[
      "starter" := PlanPrices("price_1Sj6QwDVswNSUYHMVozcIHKI", "price_1Sj6QxDVswNSUYHMfQXeZRgr", "Starter", 69, 690),
      "professional" := PlanPrices("price_1Sj6QxDVswNSUYHMlIqtJeL7", "price_1Sj6QyDVswNSUYHMEkO4FW6e", "Professional", 179, 1790),
      "enterprise" := PlanPrices("price_1Sj6QyDVswNSUYHMdf7jhW7L", "price_1Sj6QyDVswNSUYHMnVvcLUvo", "Enterprise", 449, 4490)]
  }

  /** Why a lookup fails: an unknown plan (a `ValueError` quoting the
      lower-cased plan), or a key the plan's row does not have (a `KeyError`). */
  datatype LookupError = UnknownPlan(message: string) | UnknownKey(key: string)

  const DefaultInterval := "monthly"

  /** `get_price_id`: the plan is matched case-insensitively; the interval
      (monthly unless given) is then looked up in that plan's row. */
  function GetPriceId(plan: string, interval: string := DefaultInterval): (r: Result<PlanField, LookupError>)
    ensures Text.Lower(plan) !in Prices() ==> r == Failure(UnknownPlan("Unknown plan: " + Text.Lower(plan)))
    ensures Text.Lower(plan) in Prices() ==>
      match Field(Prices()[Text.Lower(plan)], interval)
      case Some(v) => r == Success(v)
      case None => r == Failure(UnknownKey(interval))
  {
    var key := Text.Lower(plan);
    if key !in Prices() then Failure(UnknownPlan("Unknown plan: " + key))
    else
      match Field(Prices()[key], interval)
      case Some(v) => Success(v)
      case None => Failure(UnknownKey(interval))
  }

  /** A lookup succeeds exactly for a known plan and one of the five keys. */
  lemma GetPriceIdSucceeds(plan: string, interval: string)
    ensures GetPriceId(plan, interval).Success? <==>
      Text.Lower(plan) in Prices() && interval in {"monthly", "yearly", "name", "monthly_amount", "yearly_amount"}
  {
  }

  /** The plan name's letter case does not matter. */
  lemma GetPriceIdIgnoresCase(plan: string, interval: string)
    ensures GetPriceId(Text.Upper(plan), interval) == GetPriceId(plan, interval)
  {
    Text.LowerOfUpper(plan);
  }

  /** Without an interval the monthly price ID is returned. */
  lemma DefaultIsMonthly(plan: string)
    ensures Text.Lower(plan) in Prices() ==>
      GetPriceId(plan) == Success(StrField(Prices()[Text.Lower(plan)].monthly))
  {
  }

  /** `get_all_prices`: the table itself, every row billing a year at ten
      monthly amounts. */
  function GetAllPrices(): (t: map<string, PlanPrices>)
    ensures t == Prices()
    ensures forall p | p in t :: t[p].yearlyAmount == 10 * t[p].monthlyAmount && t[p].monthlyAmount > 0
    ensures forall p | p in t :: GetPriceId(p) == Success(StrField(t[p].monthly))
                                 && GetPriceId(p, "yearly") == Success(StrField(t[p].yearly))
  {
    var t := Prices();
    assert forall p | p in t :: Text.Lower(p) == p by {
      assert Text.Lower("starter") == "starter";
      assert Text.Lower("professional") == "professional";
      assert Text.Lower("enterprise") == "enterprise";
    }
    t
  }

  /** Which plan and interval a price ID belongs to. */
  function PlanOfPriceId(id: string): (r: Option<(string, string)>)
    ensures r.Some? ==> r.value.0 in Prices() && r.value.1 in {"monthly", "yearly"}
  {
    if id == Prices()["starter"].monthly then Some(("starter", "monthly"))
    else if id == Prices()["starter"].yearly then Some(("starter", "yearly"))
    else if id == Prices()["professional"].monthly then Some(("professional", "monthly"))
    else if id == Prices()["professional"].yearly then Some(("professional", "yearly"))
    else if id == Prices()["enterprise"].monthly then Some(("enterprise", "monthly"))
    else if id == Prices()["enterprise"].yearly then Some(("enterprise", "yearly"))
    else None
  }

  /** The six price IDs are distinct: each one identifies its plan and
      interval. */
  lemma PriceIdsIdentifyPlan(plan: string, interval: string)
    requires plan in Prices() && interval in {"monthly", "yearly"}
    ensures GetPriceId(plan, interval).Success? && GetPriceId(plan, interval).value.StrField?
    ensures PlanOfPriceId(GetPriceId(plan, interval).value.s) == Some((plan, interval))
  {
    assert Text.Lower(plan) == plan by {
      assert Text.Lower("starter") == "starter";
      assert Text.Lower("professional") == "professional";
      assert Text.Lower("enterprise") == "enterprise";
    }
  }

  /** The prices and names agree with the usage tracker's plan table, and the
      free plan is the one plan without a price. */
  lemma PricesMatchPlans()
    ensures forall p | p in Prices() ::
              && p in UsageTracking.PlanTable()
              && UsageTracking.PlanTable()[p].price == Prices()[p].monthlyAmount
              && UsageTracking.PlanTable()[p].name == Prices()[p].name
    ensures UsageTracking.PlanTable().Keys - Prices().Keys == {"free"}
  {
  }
}
