/** The deadline overview page: the headline counts over the 90-day deadline
    list, the urgency class of each table row, the critical-deadline banner
    and the placeholder row of an empty list. The HTML around them is not
    modelled. */
module DeadlinePage {
  import opened Wrappers
  import opened DeadlineAlerts

  /** How far ahead the page looks, in days. */
  const PageWindow := 90

  // ---------------------------------------------------------------------------
  // Headline counts
  // ---------------------------------------------------------------------------

  /** The three counted bands: within a week, within a month, later. */
  datatype Band = CriticalBand | WarningBand | UpcomingBand

  function BandOf(days: int): (b: Band)
    ensures b == CriticalBand <==> days <= 7
    ensures b == WarningBand <==> 7 < days <= 30
    ensures b == UpcomingBand <==> days > 30
  {
    if days <= 7 then CriticalBand else if days <= 30 then WarningBand else UpcomingBand
  }

  /** How many deadlines fall in a band. */
  function CountBand(ds: seq<Deadline>, b: Band): (n: nat)
    ensures n <= |ds|
    ensures n > 0 <==> exists i | 0 <= i < |ds| :: BandOf(ds[i].daysUntilEnd) == b
  {
    if ds == [] then 0
    else
      var rest := CountBand(ds[1..], b);
      assert forall i | 0 <= i < |ds| - 1 :: ds[1..][i] == ds[i + 1];
      assert rest > 0 ==> exists i | 0 <= i < |ds| :: BandOf(ds[i].daysUntilEnd) == b by {
        if rest > 0 {
          var i :| 0 <= i < |ds[1..]| && BandOf(ds[1..][i].daysUntilEnd) == b;
          assert BandOf(ds[i + 1].daysUntilEnd) == b;
        }
      }
      (if BandOf(ds[0].daysUntilEnd) == b then 1 else 0) + rest
  }

  /** The positions of the deadlines in a band. */
  function BandIndices(ds: seq<Deadline>, b: Band): set<nat>
  {
    set i: nat | i < |ds| && BandOf(ds[i].daysUntilEnd) == b
  }

  /** Counts add over concatenation. */
  lemma {:induction false} CountBandConcat(a: seq<Deadline>, c: seq<Deadline>, b: Band)
    ensures CountBand(a + c, b) == CountBand(a, b) + CountBand(c, b)
  {
    if a != [] {
      assert (a + c)[1..] == a[1..] + c;
      CountBandConcat(a[1..], c, b);
    } else {
      assert a + c == c;
    }
  }

  /** The count of a band is exactly the number of deadlines in it. */
  lemma {:induction false} CountBandIsCard(ds: seq<Deadline>, b: Band)
    ensures CountBand(ds, b) == |BandIndices(ds, b)|
  {
    if ds != [] {
      var n := |ds| - 1;
      var front := ds[..n];
      CountBandIsCard(front, b);
      assert ds == front + [ds[n]];
      CountBandConcat(front, [ds[n]], b);
      assert [ds[n]][1..] == [];
      if BandOf(ds[n].daysUntilEnd) == b {
        assert BandIndices(ds, b) == BandIndices(front, b) + {n};
      } else {
        assert BandIndices(ds, b) == BandIndices(front, b);
      }
    }
  }

  datatype Stats = Stats(critical: nat, warning: nat, upcoming: nat, total: nat)

  function StatsOf(ds: seq<Deadline>): (s: Stats)
    ensures s.total == |ds|
    ensures s.critical + s.warning + s.upcoming == s.total
    ensures s.critical > 0 <==> exists i | 0 <= i < |ds| :: ds[i].daysUntilEnd <= 7
    ensures s.upcoming > 0 <==> exists i | 0 <= i < |ds| :: ds[i].daysUntilEnd > 30
  {
    BandsPartition(ds);
    var c := CountBand(ds, CriticalBand);
    var u := CountBand(ds, UpcomingBand);
    Stats(c, CountBand(ds, WarningBand), u, |ds|)
  }

  /** Each headline count is the number of deadlines in its band: within a
      week, within a month but not a week, and later. */
  lemma StatsCount(ds: seq<Deadline>)
    ensures StatsOf(ds).critical == |set i: nat | i < |ds| && ds[i].daysUntilEnd <= 7|
    ensures StatsOf(ds).warning == |set i: nat | i < |ds| && 7 < ds[i].daysUntilEnd <= 30|
    ensures StatsOf(ds).upcoming == |set i: nat | i < |ds| && ds[i].daysUntilEnd > 30|
  {
    CountBandIsCard(ds, CriticalBand);
    CountBandIsCard(ds, WarningBand);
    CountBandIsCard(ds, UpcomingBand);
    assert BandIndices(ds, CriticalBand) == set i: nat | i < |ds| && ds[i].daysUntilEnd <= 7;
    assert BandIndices(ds, WarningBand) == set i: nat | i < |ds| && 7 < ds[i].daysUntilEnd <= 30;
    assert BandIndices(ds, UpcomingBand) == set i: nat | i < |ds| && ds[i].daysUntilEnd > 30;
  }

  /** Every deadline is counted in exactly one band. */
  lemma {:induction false} BandsPartition(ds: seq<Deadline>)
    ensures CountBand(ds, CriticalBand) + CountBand(ds, WarningBand) + CountBand(ds, UpcomingBand) == |ds|
  {
    if ds != [] {
      BandsPartition(ds[1..]);
    }
  }

  // ---------------------------------------------------------------------------
  // Row urgency
  // ---------------------------------------------------------------------------

  datatype Urgency = UrgencyCritical | UrgencyHigh | UrgencyMedium | UrgencyLow

  /** The CSS class name of an urgency. */
  function UrgencyClass(u: Urgency): string
  {
    match u
    case UrgencyCritical => "critical"
    case UrgencyHigh => "high"
    case UrgencyMedium => "medium"
    case UrgencyLow => "low"
  }

  /** Severity rank: critical highest. */
  function UrgencyRank(u: Urgency): nat
  {
    match u
    case UrgencyCritical => 3
    case UrgencyHigh => 2
    case UrgencyMedium => 1
    case UrgencyLow => 0
  }

  function UrgencyOf(days: int): (u: Urgency)
    ensures u == UrgencyCritical <==> days <= 7
    ensures u == UrgencyHigh <==> 7 < days <= 14
    ensures u == UrgencyMedium <==> 14 < days <= 30
    ensures u == UrgencyLow <==> days > 30
  {
    if days <= 7 then UrgencyCritical
    else if days <= 14 then UrgencyHigh
    else if days <= 30 then UrgencyMedium
    else UrgencyLow
  }

  /** A later deadline is never more urgent. */
  lemma UrgencyMonotone(d1: int, d2: int)
    requires d1 <= d2
    ensures UrgencyRank(UrgencyOf(d1)) >= UrgencyRank(UrgencyOf(d2))
  {
  }

  /** The urgency classes refine the counted bands: HIGH and MEDIUM rows are
      exactly the warning band. */
  lemma UrgencyRefinesBand(days: int)
    ensures UrgencyOf(days) == UrgencyCritical <==> BandOf(days) == CriticalBand
    ensures UrgencyOf(days) in {UrgencyHigh, UrgencyMedium} <==> BandOf(days) == WarningBand
    ensures UrgencyOf(days) == UrgencyLow <==> BandOf(days) == UpcomingBand
  {
  }

  /** A table row: one per deadline, or the single placeholder of an empty list. */
  datatype Row = DeadlineRow(contractId: string, daysUntilEnd: int, urgency: Urgency) | Placeholder

  function DeadlineRows(ds: seq<Deadline>): (r: seq<Row>)
    ensures |r| == |ds|
    ensures forall i | 0 <= i < |ds| ::
      r[i] == DeadlineRow(ds[i].contractId, ds[i].daysUntilEnd, UrgencyOf(ds[i].daysUntilEnd))
  {
    if ds == [] then []
    else [DeadlineRow(ds[0].contractId, ds[0].daysUntilEnd, UrgencyOf(ds[0].daysUntilEnd))] + DeadlineRows(ds[1..])
  }

  /** The rows of the table. */
  function TableRows(ds: seq<Deadline>): (r: seq<Row>)
    ensures ds == [] <==> r == [Placeholder]
    ensures ds != [] ==> r == DeadlineRows(ds)
  {
    if ds == [] then [Placeholder] else DeadlineRows(ds)
  }

  /** How many rows carry a given urgency class. */
  function CountUrgency(rows: seq<Row>, u: Urgency): nat
  {
    if rows == [] then 0
    else (if rows[0].DeadlineRow? && rows[0].urgency == u then 1 else 0) + CountUrgency(rows[1..], u)
  }

  /** The rows classed critical are exactly the deadlines counted as critical. */
  lemma {:induction false} CriticalRowsMatchStat(ds: seq<Deadline>)
    ensures CountUrgency(TableRows(ds), UrgencyCritical) == StatsOf(ds).critical
  {
    if ds != [] {
      CriticalRowsMatchStat(ds[1..]);
      assert DeadlineRows(ds)[1..] == DeadlineRows(ds[1..]);
      if ds[1..] == [] {
        assert CountUrgency(DeadlineRows(ds[1..]), UrgencyCritical) == 0;
      }
    }
  }

  // ---------------------------------------------------------------------------
  // Banner and page
  // ---------------------------------------------------------------------------

  /** The banner announcing critical deadlines, in singular or plural wording. */
  datatype Banner = Banner(count: nat, singular: bool)

  function BannerFor(s: Stats): (b: Option<Banner>)
    ensures b.Some? <==> s.critical > 0
    ensures b.Some? ==> b.value.count == s.critical && (b.value.singular <==> s.critical == 1)
  {
    if s.critical > 0 then Some(Banner(s.critical, s.critical == 1)) else None
  }

  datatype Page = Page(stats: Stats, banner: Option<Banner>, rows: seq<Row>)

  /** `get_deadlines_page`: the counts, banner and rows over the 90-day list. */
  function DeadlinesPage(stored: seq<ContractRow>, today: int): (p: Page)
    ensures var ds := UpcomingDeadlines(stored, today, PageWindow);
      p.stats == StatsOf(ds) && p.rows == TableRows(ds)
    ensures p.banner == BannerFor(p.stats)
    ensures var ds := UpcomingDeadlines(stored, today, PageWindow);
      p.banner.Some? <==> exists i | 0 <= i < |ds| :: ds[i].daysUntilEnd <= 7
  {
    var ds := UpcomingDeadlines(stored, today, PageWindow);
    var stats := StatsOf(ds);
    Page(stats, BannerFor(stats), TableRows(ds))
  }

  /** The banner shows exactly when a row is classed critical. */
  lemma BannerIffCriticalRow(stored: seq<ContractRow>, today: int)
    ensures var p := DeadlinesPage(stored, today);
      p.banner.Some? <==> CountUrgency(p.rows, UrgencyCritical) > 0
  {
    CriticalRowsMatchStat(UpcomingDeadlines(stored, today, PageWindow));
  }

  /** A page with nothing due has no banner and just the placeholder row. */
  lemma EmptyPage(today: int)
    ensures DeadlinesPage([], today) == Page(Stats(0, 0, 0, 0), None, [Placeholder])
  {
  }
}
