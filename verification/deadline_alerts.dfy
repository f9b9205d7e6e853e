/** Contract deadline alerts: the window of upcoming contract ends, the notice
    deadline derived from each, the alerts raised per contract and the
    critical selection that is e-mailed. Dates are day numbers; "today" is a
    parameter. */
module DeadlineAlerts {
  import opened Wrappers

  // ---------------------------------------------------------------------------
  // Stored contracts and the upcoming-deadline list
  // ---------------------------------------------------------------------------

  /** The stored end date: missing or empty (falsy), unparseable, or a day. */
  datatype DateField = NoDate | BadDate | OnDay(day: int)

  /** The stored notice period: missing or falsy (read as 30), an integer, or a
      value `int()` rejects. */
  datatype NoticeField = NoNotice | NoticeDays(days: int) | BadNotice

  /** The extracted fields of a stored analysis, or an analysis that does not
      parse. */
  datatype Analysis = Unparseable | Extracted(endDate: DateField, renewalNoticeDays: NoticeField)

  datatype ContractRow = ContractRow(contractId: string, filename: string, contractType: string, analysis: Analysis)

  /** One entry of the upcoming-deadline list. */
  datatype Deadline = Deadline(
    contractId: string,
    filename: string,
    contractType: string,
    endDate: int,
    daysUntilEnd: int,
    noticeDeadline: int,
    daysUntilNotice: int)

  const DefaultNoticeDays := 30

  /** The notice period in days: 30 when missing or zero. `None` when the stored
      value cannot be read as an integer, which makes the contract skipped. */
  function NoticeDaysOf(n: NoticeField): (r: Option<int>)
    ensures n == NoNotice || n == NoticeDays(0) ==> r == Some(DefaultNoticeDays)
    ensures n.NoticeDays? && n.days != 0 ==> r == Some(n.days)
    ensures r.None? <==> n == BadNotice
  {
    match n
    case NoNotice => Some(30)
    case NoticeDays(d) => if d == 0 then Some(30) else Some(d)
    case BadNotice => None
  }

  /** The entry one stored contract contributes, if any: it needs a parseable
      analysis and end date, an end within `daysAhead` days from today, and a
      readable notice period. */
  function EntryOf(row: ContractRow, today: int, daysAhead: int): (r: Option<Deadline>)
    ensures r.Some? ==> && row.analysis.Extracted? && row.analysis.endDate.OnDay?
                        && r.value.endDate == row.analysis.endDate.day
                        && r.value.daysUntilEnd == r.value.endDate - today
                        && 0 <= r.value.daysUntilEnd <= daysAhead
                        && NoticeDaysOf(row.analysis.renewalNoticeDays) == Some(r.value.endDate - r.value.noticeDeadline)
                        && r.value.daysUntilNotice == r.value.noticeDeadline - today
                        && r.value.contractId == row.contractId
    ensures (row.analysis.Extracted? && row.analysis.endDate.OnDay?
             && 0 <= row.analysis.endDate.day - today <= daysAhead
             && row.analysis.renewalNoticeDays != BadNotice) ==> r.Some?
  {
    match row.analysis
    case Unparseable => None
    case Extracted(end, notice) =>
      match end
      case OnDay(endDay) =>
        var daysUntil := endDay - today;
        if 0 <= daysUntil <= daysAhead then
          match NoticeDaysOf(notice)
          case Some(nd) =>
            var noticeDeadline := endDay - nd;
            Some(Deadline(row.contractId, row.filename, row.contractType, endDay, daysUntil,
                          noticeDeadline, noticeDeadline - today))
          case None => None
        else None
      case _ => None
  }

  /** The entries of the rows, in row order; rows without an entry are skipped
      and the others still processed. */
  function Collect(rows: seq<ContractRow>, today: int, daysAhead: int): (r: seq<Deadline>)
    ensures |r| <= |rows|
    ensures forall d :: d in r <==> exists row :: row in rows && EntryOf(row, today, daysAhead) == Some(d)
    ensures forall d | d in r :: 0 <= d.daysUntilEnd <= daysAhead
  {
    if rows == [] then []
    else
      var rest := Collect(rows[1..], today, daysAhead);
      assert forall row :: row in rows[1..] ==> row in rows;
      assert forall row :: row in rows ==> row == rows[0] || row in rows[1..];
      match EntryOf(rows[0], today, daysAhead)
      case Some(d) => [d] + rest
      case None => rest
  }

  /** One row contributes its entry, if it has one, and nothing else. */
  lemma CollectOne(row: ContractRow, today: int, daysAhead: int)
    ensures Collect([row], today, daysAhead)
         == (match EntryOf(row, today, daysAhead) case Some(d) => [d] case None => [])
  {
    assert [row][1..] == [];
  }

  /** The rows are collected in stored order: the entries of a list of rows
      are those of its first part followed by those of the rest. */
  lemma {:induction false} CollectConcat(a: seq<ContractRow>, b: seq<ContractRow>, today: int, daysAhead: int)
    ensures Collect(a + b, today, daysAhead) == Collect(a, today, daysAhead) + Collect(b, today, daysAhead)
  {
    if a == [] {
      assert a + b == b;
    } else {
      assert (a + b)[0] == a[0];
      assert (a + b)[1..] == a[1..] + b;
      CollectConcat(a[1..], b, today, daysAhead);
    }
  }

  // ---------------------------------------------------------------------------
  // Stable sort by days until the end
  // ---------------------------------------------------------------------------

  predicate SortedByEnd(s: seq<Deadline>)
  {
    forall i, j :: 0 <= i < j < |s| ==> s[i].daysUntilEnd <= s[j].daysUntilEnd
  }

  /** The entries with a given key, in their order. */
  function WithKey(s: seq<Deadline>, k: int): (r: seq<Deadline>)
    ensures |r| <= |s|
  {
    if s == [] then []
    else (if s[0].daysUntilEnd == k then [s[0]] else []) + WithKey(s[1..], k)
  }

  /** Every entry's key is at least `k`. */
  predicate LowerBound(k: int, s: seq<Deadline>)
  {
    forall i :: 0 <= i < |s| ==> k <= s[i].daysUntilEnd
  }

  /** A sorted list headed by a key no larger than the rest stays sorted. */
  lemma ConsSorted(h: Deadline, t: seq<Deadline>)
    requires SortedByEnd(t) && LowerBound(h.daysUntilEnd, t)
    ensures SortedByEnd([h] + t)
  {
    var r := [h] + t;
    forall i, j | 0 <= i < j < |r|
      ensures r[i].daysUntilEnd <= r[j].daysUntilEnd
    {
      assert r[j] == t[j - 1];
      if i > 0 {
        assert r[i] == t[i - 1];
      }
    }
  }

  /** Insert after every entry whose key is not larger: equal keys keep their
      arrival order. */
  function Insert(s: seq<Deadline>, x: Deadline): (r: seq<Deadline>)
    ensures |r| == |s| + 1
  {
    if s == [] then [x]
    else if s[0].daysUntilEnd <= x.daysUntilEnd then [s[0]] + Insert(s[1..], x)
    else [x] + s
  }

  /** Inserting adds exactly the one entry. */
  lemma {:induction false} InsertPermutes(s: seq<Deadline>, x: Deadline)
    ensures multiset(Insert(s, x)) == multiset(s) + multiset{x}
  {
    if s != [] && s[0].daysUntilEnd <= x.daysUntilEnd {
      InsertPermutes(s[1..], x);
      assert s == [s[0]] + s[1..];
    }
  }

  /** A bound on the list and on the new entry bounds the result. */
  lemma {:induction false} InsertLowerBound(s: seq<Deadline>, x: Deadline, k: int)
    requires LowerBound(k, s) && k <= x.daysUntilEnd
    ensures LowerBound(k, Insert(s, x))
  {
    if s != [] && s[0].daysUntilEnd <= x.daysUntilEnd {
      var rest := Insert(s[1..], x);
      InsertLowerBound(s[1..], x, k);
      assert forall i | 1 <= i < |rest| + 1 :: ([s[0]] + rest)[i] == rest[i - 1];
    }
  }

  /** Inserting into a sorted list keeps it sorted. */
  lemma {:induction false} InsertSorted(s: seq<Deadline>, x: Deadline)
    requires SortedByEnd(s)
    ensures SortedByEnd(Insert(s, x))
  {
    if s == [] {
    } else if s[0].daysUntilEnd <= x.daysUntilEnd {
      var t := s[1..];
      assert SortedByEnd(t);
      assert LowerBound(s[0].daysUntilEnd, t);
      InsertSorted(t, x);
      InsertLowerBound(t, x, s[0].daysUntilEnd);
      ConsSorted(s[0], Insert(t, x));
    } else {
      ConsSorted(x, s);
    }
  }

  /** Python's `list.sort(key=...)`: a stable sort, here insertion sort. */
  function SortByEnd(s: seq<Deadline>): (r: seq<Deadline>)
    ensures multiset(r) == multiset(s)
    ensures SortedByEnd(r)
  {
    if s == [] then []
    else
      var init := s[..|s| - 1];
      var sorted := SortByEnd(init);
      assert s == init + [s[|s| - 1]];
      InsertPermutes(sorted, s[|s| - 1]);
      InsertSorted(sorted, s[|s| - 1]);
      Insert(sorted, s[|s| - 1])
  }

  /** One entry's contribution to `WithKey`. */
  lemma WithKeyCons(h: Deadline, t: seq<Deadline>, k: int)
    ensures WithKey([h] + t, k) == (if h.daysUntilEnd == k then [h] else []) + WithKey(t, k)
  {
    assert ([h] + t)[0] == h && ([h] + t)[1..] == t;
  }

  lemma {:induction false} WithKeyConcat(a: seq<Deadline>, b: seq<Deadline>, k: int)
    ensures WithKey(a + b, k) == WithKey(a, k) + WithKey(b, k)
  {
    if a == [] {
      assert a + b == b;
    } else {
      var h, t := a[0], a[1..];
      assert a == [h] + t;
      assert a + b == [h] + (t + b);
      WithKeyCons(h, t + b, k);
      WithKeyCons(h, t, k);
      WithKeyConcat(t, b, k);
    }
  }

  /** In a sorted list, nothing after a larger key has a smaller one. */
  lemma {:induction false} WithKeyAllLarger(s: seq<Deadline>, k: int)
    requires forall i :: 0 <= i < |s| ==> s[i].daysUntilEnd > k
    ensures WithKey(s, k) == []
  {
    if s != [] {
      WithKeyAllLarger(s[1..], k);
    }
  }

  lemma {:induction false} InsertStable(s: seq<Deadline>, x: Deadline, k: int)
    requires SortedByEnd(s)
    ensures WithKey(Insert(s, x), k) == WithKey(s, k) + (if x.daysUntilEnd == k then [x] else [])
  {
    if s == [] {
      assert WithKey([x], k) == (if x.daysUntilEnd == k then [x] else []) + WithKey([], k);
    } else if s[0].daysUntilEnd <= x.daysUntilEnd {
      assert SortedByEnd(s[1..]);
      InsertStable(s[1..], x, k);
      InsertStablePast(s, x, k);
    } else {
      InsertStableFront(s, x, k);
    }
  }

  /** Inserting past the head: the head's contribution comes first. */
  lemma InsertStablePast(s: seq<Deadline>, x: Deadline, k: int)
    requires s != [] && s[0].daysUntilEnd <= x.daysUntilEnd
    requires WithKey(Insert(s[1..], x), k) == WithKey(s[1..], k) + (if x.daysUntilEnd == k then [x] else [])
    ensures WithKey(Insert(s, x), k) == WithKey(s, k) + (if x.daysUntilEnd == k then [x] else [])
  {
    var xs := if x.daysUntilEnd == k then [x] else [];
    var hs := if s[0].daysUntilEnd == k then [s[0]] else [];
    var t := s[1..];
    var rest := Insert(t, x);
    var wt := WithKey(t, k);
    assert Insert(s, x) == [s[0]] + rest;
    WithKeyCons(s[0], rest, k);
    assert WithKey(Insert(s, x), k) == hs + (wt + xs);
    assert WithKey(s, k) == hs + wt;
    assert hs + (wt + xs) == (hs + wt) + xs;
  }

  /** Inserting before a sorted list whose keys are all larger. */
  lemma InsertStableFront(s: seq<Deadline>, x: Deadline, k: int)
    requires SortedByEnd(s) && s != [] && s[0].daysUntilEnd > x.daysUntilEnd
    ensures WithKey(Insert(s, x), k) == WithKey(s, k) + (if x.daysUntilEnd == k then [x] else [])
  {
    WithKeyCons(x, s, k);
    if x.daysUntilEnd == k {
      WithKeyAllLarger(s, k);
    }
  }

  /** The sort is stable: the entries with any one key appear in the sorted
      list in the order they arrived. */
  lemma {:induction false} SortStable(s: seq<Deadline>, k: int)
    ensures WithKey(SortByEnd(s), k) == WithKey(s, k)
  {
    if s != [] {
      var init := s[..|s| - 1];
      var last := s[|s| - 1];
      var ls := if last.daysUntilEnd == k then [last] else [];
      assert s == init + [last];
      SortStable(init, k);
      InsertStable(SortByEnd(init), last, k);
      WithKeyConcat(init, [last], k);
      assert WithKey([last], k) == ls + WithKey([], k);
      var wi := WithKey(init, k);
      assert WithKey(SortByEnd(s), k) == wi + ls;
      assert WithKey(s, k) == wi + (ls + []);
      assert ls + [] == ls;
    }
  }

  /** `get_upcoming_deadlines`: the entries within the window, ordered by days
      until the end. */
  function UpcomingDeadlines(rows: seq<ContractRow>, today: int, daysAhead: int): (r: seq<Deadline>)
    ensures SortedByEnd(r)
    ensures multiset(r) == multiset(Collect(rows, today, daysAhead))
    ensures forall d | d in r :: 0 <= d.daysUntilEnd <= daysAhead
    ensures forall k :: WithKey(r, k) == WithKey(Collect(rows, today, daysAhead), k)
  {
    var c := Collect(rows, today, daysAhead);
    var r := SortByEnd(c);
    forall k
      ensures WithKey(r, k) == WithKey(c, k)
    {
      SortStable(c, k);
    }
    forall d | d in r
      ensures d in c
    {
      SameElements(r, c, d);
    }
    r
  }

  /** Lists with the same multiset have the same elements. */
  lemma SameElements(a: seq<Deadline>, b: seq<Deadline>, x: Deadline)
    requires multiset(a) == multiset(b) && x in a
    ensures x in b
  {
    assert x in multiset(a);
  }

  /** A row appears among the upcoming deadlines exactly when it has an entry:
      an unparseable row is skipped without affecting any other row. */
  lemma UpcomingMembership(rows: seq<ContractRow>, today: int, daysAhead: int, d: Deadline)
    ensures d in UpcomingDeadlines(rows, today, daysAhead)
        <==> exists row :: row in rows && EntryOf(row, today, daysAhead) == Some(d)
  {
    var r := UpcomingDeadlines(rows, today, daysAhead);
    assert d in r <==> d in multiset(r);
    assert d in Collect(rows, today, daysAhead) <==> d in multiset(Collect(rows, today, daysAhead));
  }

  // ---------------------------------------------------------------------------
  // Alerts
  // ---------------------------------------------------------------------------

  /** "<t>_days" for a threshold t, or the notice deadline. */
  datatype AlertKind = DaysBefore(threshold: int) | NoticeDeadline

  datatype Alert = Alert(contractId: string, kind: AlertKind, alertDate: int, deadlineDate: int, daysUntil: int)

  const Thresholds: seq<int> := [30, 14, 7, 1]

  /** Alert window of the notice deadline, in days. */
  const NoticeWindow := 7

  /** Thresholds listed from the longest to the shortest, none twice. */
  predicate Decreasing(ts: seq<int>)
  {
    forall i, j | 0 <= i < j < |ts| :: ts[i] > ts[j]
  }

  /** One end-date alert per threshold the contract is within, in threshold order. */
  function ThresholdAlerts(d: Deadline, today: int, ts: seq<int>): (r: seq<Alert>)
    ensures |r| <= |ts|
    ensures forall a | a in r :: a == Alert(d.contractId, a.kind, today, d.endDate, d.daysUntilEnd) && a.kind.DaysBefore?
    ensures forall t :: Alert(d.contractId, DaysBefore(t), today, d.endDate, d.daysUntilEnd) in r
                        <==> t in ts && d.daysUntilEnd <= t
    ensures Decreasing(ts) ==>
              forall i, j | 0 <= i < j < |r| :: r[i].kind.threshold > r[j].kind.threshold
  {
    if ts == [] then []
    else
      var rest := ThresholdAlerts(d, today, ts[1..]);
      assert forall t :: t in ts <==> t == ts[0] || t in ts[1..];
      if d.daysUntilEnd <= ts[0] then
        var r := [Alert(d.contractId, DaysBefore(ts[0]), today, d.endDate, d.daysUntilEnd)] + rest;
        assert Decreasing(ts) ==> forall j | 0 < j < |r| :: r[0].kind.threshold > r[j].kind.threshold by {
          if Decreasing(ts) {
            forall j | 0 < j < |r|
              ensures r[0].kind.threshold > r[j].kind.threshold
            {
              var a := rest[j - 1];
              assert a in rest;
              assert a.kind.threshold in ts[1..];
            }
          }
        }
        r
      else rest
  }

  /** `create_alerts_for_contract`: the threshold alerts, then a notice-deadline
      alert when the notice deadline is between today and a week from now. */
  function CreateAlertsForContract(d: Deadline, today: int): (r: seq<Alert>)
    ensures |r| <= 5
    ensures forall a | a in r :: a.contractId == d.contractId && a.alertDate == today
    ensures forall t :: Alert(d.contractId, DaysBefore(t), today, d.endDate, d.daysUntilEnd) in r
                        <==> t in Thresholds && d.daysUntilEnd <= t
    ensures (exists a :: a in r && a.kind == NoticeDeadline) <==> 0 <= d.daysUntilNotice <= NoticeWindow
    ensures forall a | a in r && a.kind == NoticeDeadline ::
              a.deadlineDate == d.noticeDeadline && a.daysUntil == d.daysUntilNotice
    ensures |r| == |ThresholdAlerts(d, today, Thresholds)| + (if 0 <= d.daysUntilNotice <= NoticeWindow then 1 else 0)
    ensures forall i, j | 0 <= i < j < |r| && r[j].kind.DaysBefore? ::
              r[i].kind.DaysBefore? && r[i].kind.threshold > r[j].kind.threshold
  {
    var ends := ThresholdAlerts(d, today, Thresholds);
    var notice := if d.daysUntilNotice <= 7 && d.daysUntilNotice >= 0
                  then [Alert(d.contractId, NoticeDeadline, today, d.noticeDeadline, d.daysUntilNotice)]
                  else [];
    ends + notice
  }

  /** The threshold alerts of a contract within the first threshold start with
      that threshold's alert. */
  lemma ThresholdAlertsCons(d: Deadline, today: int, ts: seq<int>)
    requires ts != [] && d.daysUntilEnd <= ts[0]
    ensures ThresholdAlerts(d, today, ts)
         == [Alert(d.contractId, DaysBefore(ts[0]), today, d.endDate, d.daysUntilEnd)] + ThresholdAlerts(d, today, ts[1..])
  {
  }

  /** A contract within every threshold of `ts` draws one alert per threshold,
      in the order of `ts`. */
  lemma {:induction false} ThresholdAlertsAll(d: Deadline, today: int, ts: seq<int>)
    requires forall i | 0 <= i < |ts| :: d.daysUntilEnd <= ts[i]
    ensures |ThresholdAlerts(d, today, ts)| == |ts|
    ensures forall i | 0 <= i < |ts| ::
              ThresholdAlerts(d, today, ts)[i] == Alert(d.contractId, DaysBefore(ts[i]), today, d.endDate, d.daysUntilEnd)
  {
    if ts != [] {
      ThresholdAlertsAll(d, today, ts[1..]);
      ThresholdAlertsCons(d, today, ts);
    }
  }

  /** A contract due within a day is within all four thresholds. */
  lemma ImminentThresholdAlerts(d: Deadline, today: int)
    requires d.daysUntilEnd <= 1
    ensures ThresholdAlerts(d, today, Thresholds)
         == [Alert(d.contractId, DaysBefore(30), today, d.endDate, d.daysUntilEnd),
             Alert(d.contractId, DaysBefore(14), today, d.endDate, d.daysUntilEnd),
             Alert(d.contractId, DaysBefore(7), today, d.endDate, d.daysUntilEnd),
             Alert(d.contractId, DaysBefore(1), today, d.endDate, d.daysUntilEnd)]
  {
    ThresholdAlertsAll(d, today, Thresholds);
  }

  /** The threshold alerts come first, the notice alert (if any) last. */
  lemma ThresholdAlertsFirst(d: Deadline, today: int)
    ensures var e := ThresholdAlerts(d, today, Thresholds);
      |CreateAlertsForContract(d, today)| >= |e| && CreateAlertsForContract(d, today)[..|e|] == e
  {
  }

  /** The alerts are raised in threshold order, 30 days first. */
  lemma AlertOrder(d: Deadline, today: int)
    requires d.daysUntilEnd <= 1
    ensures |CreateAlertsForContract(d, today)| >= 4
    ensures CreateAlertsForContract(d, today)[..4]
         == [Alert(d.contractId, DaysBefore(30), today, d.endDate, d.daysUntilEnd),
             Alert(d.contractId, DaysBefore(14), today, d.endDate, d.daysUntilEnd),
             Alert(d.contractId, DaysBefore(7), today, d.endDate, d.daysUntilEnd),
             Alert(d.contractId, DaysBefore(1), today, d.endDate, d.daysUntilEnd)]
  {
    ImminentThresholdAlerts(d, today);
    ThresholdAlertsFirst(d, today);
  }

  /** The alerts of a list of contracts, contract by contract. */
  function AllAlerts(upcoming: seq<Deadline>, today: int): (r: seq<Alert>)
    ensures forall a | a in r :: exists d :: d in upcoming && a in CreateAlertsForContract(d, today)
  {
    if upcoming == [] then []
    else
      var rest := AllAlerts(upcoming[1..], today);
      assert forall d :: d in upcoming[1..] ==> d in upcoming;
      CreateAlertsForContract(upcoming[0], today) + rest
  }

  /** Only alerts due within a week are e-mailed. */
  function CriticalAlerts(alerts: seq<Alert>): (r: seq<Alert>)
    ensures forall a :: a in r <==> a in alerts && a.daysUntil <= 7
    ensures |r| <= |alerts|
  {
    if alerts == [] then []
    else
      var rest := CriticalAlerts(alerts[1..]);
      assert forall a :: a in alerts <==> a == alerts[0] || a in alerts[1..];
      (if alerts[0].daysUntil <= 7 then [alerts[0]] else []) + rest
  }

  /** The outcome of the daily run: the upcoming list, all alerts raised, and
      the critical alerts; an e-mail goes out exactly when there are any. */
  datatype DailyCheck = DailyCheck(upcoming: seq<Deadline>, alerts: seq<Alert>, critical: seq<Alert>)

  predicate EmailSent(c: DailyCheck)
  {
    c.critical != []
  }

  /** `run_daily_check`, with a 30-day window. */
  function RunDailyCheck(rows: seq<ContractRow>, today: int): (r: DailyCheck)
    ensures r.upcoming == UpcomingDeadlines(rows, today, 30)
    ensures r.alerts == AllAlerts(r.upcoming, today)
    ensures forall a :: a in r.critical <==> a in r.alerts && a.daysUntil <= 7
  {
    var upcoming := UpcomingDeadlines(rows, today, 30);
    var alerts := AllAlerts(upcoming, today);
    DailyCheck(upcoming, alerts, CriticalAlerts(alerts))
  }

  /** Every contract in the 30-day window raises at least the 30-day alert. */
  lemma EveryUpcomingAlerted(rows: seq<ContractRow>, today: int, d: Deadline)
    requires d in RunDailyCheck(rows, today).upcoming
    ensures Alert(d.contractId, DaysBefore(30), today, d.endDate, d.daysUntilEnd) in RunDailyCheck(rows, today).alerts
  {
    AllAlertsContains(RunDailyCheck(rows, today).upcoming, today, d);
  }

  lemma {:induction false} AllAlertsContains(upcoming: seq<Deadline>, today: int, d: Deadline)
    requires d in upcoming
    ensures forall a | a in CreateAlertsForContract(d, today) :: a in AllAlerts(upcoming, today)
  {
    if upcoming[0] != d {
      AllAlertsContains(upcoming[1..], today, d);
    }
  }

  /** A notice-deadline alert is always critical, so it is always e-mailed. */
  lemma NoticeAlertsCritical(rows: seq<ContractRow>, today: int, a: Alert)
    requires a in RunDailyCheck(rows, today).alerts && a.kind == NoticeDeadline
    ensures a in RunDailyCheck(rows, today).critical
  {
  }

  /** A contract ending within a week always triggers the e-mail. */
  lemma EndingThisWeekEmailed(rows: seq<ContractRow>, today: int, d: Deadline)
    requires d in RunDailyCheck(rows, today).upcoming && d.daysUntilEnd <= 7
    ensures EmailSent(RunDailyCheck(rows, today))
  {
    EveryUpcomingAlerted(rows, today, d);
  }
}
