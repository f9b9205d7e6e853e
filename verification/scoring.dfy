/** The aggregation every engine shares: sorting findings into severity
    buckets, the capped additive score, the threshold ladder from score to
    level, and the choice of executive-summary template. In the source these are
    written out four times, once per engine; here they are defined once. */
module Scoring {
  import opened Models

  const CriticalWeight: int := 25
  const HighWeight: int := 15
  const MediumWeight: int := 8
  const MaxScore: int := 100
  /** The fixed confidence every engine reports. */
  const EngineConfidence: real := 0.9

  // ---------------------------------------------------------------------------
  // Severity buckets
  // ---------------------------------------------------------------------------

  /** The findings of `s` at level `l`, in their original order. */
  function Filter(s: seq<ClauseRisk>, l: RiskLevel): (r: seq<ClauseRisk>)
    ensures |r| <= |s|
    ensures forall f :: f in r <==> f in s && f.riskLevel == l
  {
    if s == [] then []
    else (if s[0].riskLevel == l then [s[0]] else []) + Filter(s[1..], l)
  }

  function Count(s: seq<ClauseRisk>, l: RiskLevel): nat
  {
    |Filter(s, l)|
  }

  /** Bucketing distributes over the order in which checks append findings. */
  lemma {:induction false} FilterConcat(a: seq<ClauseRisk>, b: seq<ClauseRisk>, l: RiskLevel)
    ensures Filter(a + b, l) == Filter(a, l) + Filter(b, l)
  {
    if a == [] {
      assert a + b == b;
    } else {
      assert (a + b)[1..] == a[1..] + b;
      FilterConcat(a[1..], b, l);
    }
  }

  lemma CountConcat(a: seq<ClauseRisk>, b: seq<ClauseRisk>, l: RiskLevel)
    ensures Count(a + b, l) == Count(a, l) + Count(b, l)
  {
    FilterConcat(a, b, l);
  }

  /** A bucket of findings that are all at level `l` keeps every one of them. */
  lemma {:induction false} FilterUniform(s: seq<ClauseRisk>, l: RiskLevel)
    requires forall f :: f in s ==> f.riskLevel == l
    ensures Filter(s, l) == s
  {
    if s != [] {
      assert s[0] in s;
      FilterUniform(s[1..], l);
      assert [s[0]] + s[1..] == s;
    }
  }

  /** A level no finding has gets an empty bucket. */
  lemma {:induction false} FilterAbsent(s: seq<ClauseRisk>, l: RiskLevel)
    requires forall f :: f in s ==> f.riskLevel != l
    ensures Filter(s, l) == []
  {
    if s != [] {
      assert s[0] in s;
      FilterAbsent(s[1..], l);
    }
  }

  /** One step of bucketing, counted as a multiset. */
  lemma FilterCons(s: seq<ClauseRisk>, l: RiskLevel)
    requires s != []
    ensures s[0].riskLevel == l ==> multiset(Filter(s, l)) == multiset{s[0]} + multiset(Filter(s[1..], l))
    ensures s[0].riskLevel != l ==> multiset(Filter(s, l)) == multiset(Filter(s[1..], l))
  {
  }

  /** A bucket holds each finding of its level as often as the findings list
      does, and nothing else. */
  lemma {:induction false} FilterMultiplicity(s: seq<ClauseRisk>, l: RiskLevel, x: ClauseRisk)
    ensures multiset(Filter(s, l))[x] == if x.riskLevel == l then multiset(s)[x] else 0
  {
    if s != [] {
      var t := s[1..];
      FilterMultiplicity(t, l, x);
      FilterCons(s, l);
      assert multiset(s) == multiset{s[0]} + multiset(t) by {
        assert s == [s[0]] + t;
      }
      var here := multiset{s[0]}[x];
      assert multiset(s)[x] == here + multiset(t)[x];
      if s[0].riskLevel == l {
        assert multiset(Filter(s, l))[x] == here + multiset(Filter(t, l))[x];
      } else {
        assert x.riskLevel == l ==> here == 0;
      }
    }
  }

  /** The five buckets partition the findings: together they hold every finding
      exactly as often as the findings list does. */
  lemma BucketsPartition(s: seq<ClauseRisk>)
    ensures multiset(Filter(s, Critical)) + multiset(Filter(s, High)) + multiset(Filter(s, Medium))
          + multiset(Filter(s, Low)) + multiset(Filter(s, Minimal)) == multiset(s)
  {
    var sum := multiset(Filter(s, Critical)) + multiset(Filter(s, High)) + multiset(Filter(s, Medium))
             + multiset(Filter(s, Low)) + multiset(Filter(s, Minimal));
    forall x | true
      ensures sum[x] == multiset(s)[x]
    {
      BucketsAt(s, x);
    }
    assert sum == multiset(s);
  }

  /** The partition, counted for one finding: exactly one bucket holds it. */
  lemma BucketsAt(s: seq<ClauseRisk>, x: ClauseRisk)
    ensures multiset(Filter(s, Critical))[x] + multiset(Filter(s, High))[x] + multiset(Filter(s, Medium))[x]
          + multiset(Filter(s, Low))[x] + multiset(Filter(s, Minimal))[x] == multiset(s)[x]
  {
    FilterMultiplicity(s, Critical, x);
    FilterMultiplicity(s, High, x);
    FilterMultiplicity(s, Medium, x);
    FilterMultiplicity(s, Low, x);
    FilterMultiplicity(s, Minimal, x);
  }

  // ---------------------------------------------------------------------------
  // Score and level
  // ---------------------------------------------------------------------------

  /** The capped additive score from the bucket sizes. */
  function WeightedScore(critical: nat, high: nat, medium: nat): (score: int)
    ensures InPercentRange(score)
    ensures critical * CriticalWeight + high * HighWeight + medium * MediumWeight < MaxScore
            ==> score == critical * CriticalWeight + high * HighWeight + medium * MediumWeight
    ensures critical * CriticalWeight + high * HighWeight + medium * MediumWeight >= MaxScore
            ==> score == MaxScore
  {
    var raw := critical * CriticalWeight + high * HighWeight + medium * MediumWeight;
    if raw < MaxScore then raw else MaxScore
  }

  /** More findings in any bucket never lower the score. */
  lemma ScoreMonotone(c: nat, h: nat, m: nat, c': nat, h': nat, m': nat)
    requires c <= c' && h <= h' && m <= m'
    ensures WeightedScore(c, h, m) <= WeightedScore(c', h', m')
  {
  }

  /** Severity order on levels, MINIMAL lowest. */
  function Rank(l: RiskLevel): nat
  {
    match l
    case Minimal => 0
    case Low => 1
    case Medium => 2
    case High => 3
    case Critical => 4
  }

  /** The score band each level stands for: the threshold table read per level. */
  predicate InBand(score: int, l: RiskLevel)
  {
    match l
    case Critical => 70 <= score
    case High => 55 <= score < 70
    case Medium => 40 <= score < 55
    case Low => 20 <= score < 40
    case Minimal => score < 20
  }

  /** The threshold ladder, first match wins. */
  function ScoreToLevel(score: int): (l: RiskLevel)
    ensures InBand(score, l)
  {
    if score >= 70 then Critical
    else if score >= 55 then High
    else if score >= 40 then Medium
    else if score >= 20 then Low
    else Minimal
  }

  /** The bands do not overlap, so the ladder's level is the only level whose
      band holds the score. */
  lemma BandsDisjoint(score: int, l: RiskLevel)
    ensures InBand(score, l) <==> ScoreToLevel(score) == l
  {
  }

  /** A higher score never gives a lower level. */
  lemma LevelMonotone(s1: int, s2: int)
    requires s1 <= s2
    ensures Rank(ScoreToLevel(s1)) <= Rank(ScoreToLevel(s2))
  {
  }

  // ---------------------------------------------------------------------------
  // Summary and the aggregate
  // ---------------------------------------------------------------------------

  /** The executive-summary template an engine picks: the critical template for
      CRITICAL, the elevated-risk one for HIGH, the acceptable one otherwise. */
  function SummaryFor(level: RiskLevel, criticalCount: nat, score: int): (s: Summary)
    ensures s.CriticalSummary? <==> level == Critical
    ensures s.ElevatedSummary? <==> level == High
    ensures s.CriticalSummary? ==> s.criticalCount == criticalCount
    ensures !s.CriticalSummary? ==> s.score == score
  {
    match level
    case Critical => CriticalSummary(criticalCount)
    case High => ElevatedSummary(score)
    case _ => AcceptableSummary(score)
  }

  /** The employment engine builds only the critical and high buckets and
      scores only those; the other three engines build all four and also weigh
      the medium bucket. */
  datatype Scheme = CriticalAndHigh | AllBuckets

  /** The engine's mutable scratch state between `assess_*` calls. */
  datatype Scratch = Scratch(risks: seq<ClauseRisk>, missingClauses: seq<string>)

  /** Findings the four-bucket aggregation keeps: a valid score, and a level
      above MINIMAL (no check produces LOW either). */
  predicate Scorable(s: seq<ClauseRisk>)
  {
    forall f :: f in s ==> ValidClauseRisk(f) && f.riskLevel != Low && f.riskLevel != Minimal
  }

  /** One for a rule that fires, zero otherwise. */
  function B2N(b: bool): nat
  {
    if b then 1 else 0
  }

  /** A check's output: at most one finding, of the given level, with a valid score. */
  predicate AtMostOne(r: seq<ClauseRisk>, l: RiskLevel)
  {
    |r| <= 1 && forall f :: f in r ==> f.riskLevel == l && ValidClauseRisk(f)
  }

  /** A check's single finding counts once in its own bucket and nowhere else. */
  lemma CountAtMostOne(r: seq<ClauseRisk>, level: RiskLevel, l: RiskLevel)
    requires AtMostOne(r, level)
    ensures Count(r, l) == if r != [] && level == l then 1 else 0
  {
    if r != [] {
      assert r == [r[0]];
      assert r[0] in r;
    }
  }

  /** A check that fires exactly when its rule holds adds one to its own
      bucket's count when the rule holds, and nothing to any other bucket. */
  lemma CountCheck(r: seq<ClauseRisk>, level: RiskLevel, fires: bool, l: RiskLevel)
    requires AtMostOne(r, level) && (r != [] <==> fires)
    ensures Count(r, l) == B2N(fires && level == l)
  {
    CountAtMostOne(r, level, l);
  }

  /** The bucket counts of five concatenated checks, each firing on its own
      rule into its own bucket. */
  lemma CountChecks5(a: seq<ClauseRisk>, b: seq<ClauseRisk>, c: seq<ClauseRisk>, d: seq<ClauseRisk>, e: seq<ClauseRisk>,
                     la: RiskLevel, lb: RiskLevel, lc: RiskLevel, ld: RiskLevel, le: RiskLevel,
                     fa: bool, fb: bool, fc: bool, fd: bool, fe: bool, l: RiskLevel)
    requires AtMostOne(a, la) && (a != [] <==> fa) && AtMostOne(b, lb) && (b != [] <==> fb)
    requires AtMostOne(c, lc) && (c != [] <==> fc) && AtMostOne(d, ld) && (d != [] <==> fd)
    requires AtMostOne(e, le) && (e != [] <==> fe)
    ensures Count(a + b + c + d + e, l)
         == B2N(fa && la == l) + B2N(fb && lb == l) + B2N(fc && lc == l) + B2N(fd && ld == l) + B2N(fe && le == l)
  {
    CountParts5(a, b, c, d, e, l);
    CountCheck(a, la, fa, l);
    CountCheck(b, lb, fb, l);
    CountCheck(c, lc, fc, l);
    CountCheck(d, ld, fd, l);
    CountCheck(e, le, fe, l);
  }

  /** The same for seven checks. */
  lemma CountChecks7(a: seq<ClauseRisk>, b: seq<ClauseRisk>, c: seq<ClauseRisk>, d: seq<ClauseRisk>, e: seq<ClauseRisk>,
                     f: seq<ClauseRisk>, g: seq<ClauseRisk>,
                     la: RiskLevel, lb: RiskLevel, lc: RiskLevel, ld: RiskLevel, le: RiskLevel, lf: RiskLevel, lg: RiskLevel,
                     fa: bool, fb: bool, fc: bool, fd: bool, fe: bool, ff: bool, fg: bool, l: RiskLevel)
    requires AtMostOne(a, la) && (a != [] <==> fa) && AtMostOne(b, lb) && (b != [] <==> fb)
    requires AtMostOne(c, lc) && (c != [] <==> fc) && AtMostOne(d, ld) && (d != [] <==> fd)
    requires AtMostOne(e, le) && (e != [] <==> fe) && AtMostOne(f, lf) && (f != [] <==> ff)
    requires AtMostOne(g, lg) && (g != [] <==> fg)
    ensures Count(a + b + c + d + e + f + g, l)
         == B2N(fa && la == l) + B2N(fb && lb == l) + B2N(fc && lc == l) + B2N(fd && ld == l) + B2N(fe && le == l)
          + B2N(ff && lf == l) + B2N(fg && lg == l)
  {
    CountParts7(a, b, c, d, e, f, g, l);
    CountCheck(a, la, fa, l);
    CountCheck(b, lb, fb, l);
    CountCheck(c, lc, fc, l);
    CountCheck(d, ld, fd, l);
    CountCheck(e, le, fe, l);
    CountCheck(f, lf, ff, l);
    CountCheck(g, lg, fg, l);
  }

  /** Counting over the concatenated outputs of five or seven checks. */
  lemma CountParts5(a: seq<ClauseRisk>, b: seq<ClauseRisk>, c: seq<ClauseRisk>, d: seq<ClauseRisk>,
                   e: seq<ClauseRisk>, l: RiskLevel)
    ensures Count(a + b + c + d + e, l) == Count(a, l) + Count(b, l) + Count(c, l) + Count(d, l) + Count(e, l)
  {
    CountConcat(a, b, l);
    CountConcat(a + b, c, l);
    CountConcat(a + b + c, d, l);
    CountConcat(a + b + c + d, e, l);
  }

  lemma CountParts7(a: seq<ClauseRisk>, b: seq<ClauseRisk>, c: seq<ClauseRisk>, d: seq<ClauseRisk>,
                   e: seq<ClauseRisk>, f: seq<ClauseRisk>, g: seq<ClauseRisk>, l: RiskLevel)
    ensures Count(a + b + c + d + e + f + g, l)
         == Count(a, l) + Count(b, l) + Count(c, l) + Count(d, l) + Count(e, l) + Count(f, l) + Count(g, l)
  {
    CountConcat(a, b, l);
    CountConcat(a + b, c, l);
    CountConcat(a + b + c, d, l);
    CountConcat(a + b + c + d, e, l);
    CountConcat(a + b + c + d + e, f, l);
    CountConcat(a + b + c + d + e + f, g, l);
  }

  lemma ScorableConcat(a: seq<ClauseRisk>, b: seq<ClauseRisk>)
    requires Scorable(a) && Scorable(b)
    ensures Scorable(a + b)
  {
  }

  predicate AllValid(s: seq<ClauseRisk>)
  {
    forall f :: f in s ==> ValidClauseRisk(f)
  }

  /** The assessment an engine returns for the findings and notes of one run. */
  function Aggregate(scheme: Scheme, risks: seq<ClauseRisk>, missing: seq<string>): (a: Assessment)
    // Each bucket holds exactly the findings at its level (or is empty when
    // the scheme does not build it).
    ensures forall f :: f in a.criticalRisks <==> f in risks && f.riskLevel == Critical
    ensures forall f :: f in a.highRisks <==> f in risks && f.riskLevel == High
    ensures scheme == AllBuckets ==> forall f :: f in a.mediumRisks <==> f in risks && f.riskLevel == Medium
    ensures scheme == AllBuckets ==> forall f :: f in a.lowRisks <==> f in risks && f.riskLevel == Low
    ensures scheme == CriticalAndHigh ==> a.mediumRisks == [] && a.lowRisks == []
    // Score, level and the fixed fields.
    ensures a.overallRiskScore == WeightedScore(|a.criticalRisks|, |a.highRisks|,
                                                if scheme == AllBuckets then |a.mediumRisks| else 0)
    ensures InBand(a.overallRiskScore, a.overallRiskLevel)
    ensures a.legalComplianceScore == a.overallRiskScore
    ensures a.financialRiskScore == 0 && a.operationalRiskScore == 0
    ensures a.dataProtectionScore == 0 && a.contractManagementScore == 0
    ensures a.confidenceScore == EngineConfidence
    ensures a.missingClauses == missing
    ensures a.riskCategories == [] && a.recommendedAdditions == []
    ensures a.keyFindings == [] && a.immediateActions == []
    ensures a.executiveSummary.CriticalSummary? <==> a.overallRiskLevel == Critical
    ensures a.executiveSummary.CriticalSummary? ==> a.executiveSummary.criticalCount == |a.criticalRisks|
    ensures a.executiveSummary == SummaryFor(a.overallRiskLevel, |a.criticalRisks|, a.overallRiskScore)
    ensures AllValid(risks) ==> ValidAssessment(a)
  {
    var critical := Filter(risks, Critical);
    var high := Filter(risks, High);
    var medium := if scheme == AllBuckets then Filter(risks, Medium) else [];
    var low := if scheme == AllBuckets then Filter(risks, Low) else [];
    var score := WeightedScore(|critical|, |high|, if scheme == AllBuckets then |medium| else 0);
    var level := ScoreToLevel(score);
    Assessment(
      score, level, score, 0, 0, 0, 0, [],
      critical, high, medium, low, missing, [],
      SummaryFor(level, |critical|, score), [], [], EngineConfidence)
  }

  /** With the four buckets built, every finding above MINIMAL is in exactly one
      bucket, the one of its level, and the buckets together are the findings. */
  lemma AggregatePartition(risks: seq<ClauseRisk>, missing: seq<string>)
    requires forall f :: f in risks ==> f.riskLevel != Minimal
    ensures var a := Aggregate(AllBuckets, risks, missing);
      multiset(a.criticalRisks + a.highRisks + a.mediumRisks + a.lowRisks) == multiset(risks)
  {
    BucketsPartition(risks);
    FilterAbsent(risks, Minimal);
  }

  /** With only the critical and high buckets built, findings at those two
      levels are all kept. */
  lemma AggregatePartitionCriticalHigh(risks: seq<ClauseRisk>, missing: seq<string>)
    requires forall f :: f in risks ==> f.riskLevel == Critical || f.riskLevel == High
    ensures var a := Aggregate(CriticalAndHigh, risks, missing);
      multiset(a.criticalRisks + a.highRisks) == multiset(risks)
  {
    BucketsPartition(risks);
    FilterAbsent(risks, Medium);
    FilterAbsent(risks, Low);
    FilterAbsent(risks, Minimal);
  }

  /** Adding findings to a run never lowers the assessed score. */
  lemma AggregateMonotone(scheme: Scheme, risks: seq<ClauseRisk>, more: seq<ClauseRisk>, missing: seq<string>)
    ensures Aggregate(scheme, risks, missing).overallRiskScore
         <= Aggregate(scheme, risks + more, missing).overallRiskScore
  {
    CountConcat(risks, more, Critical);
    CountConcat(risks, more, High);
    CountConcat(risks, more, Medium);
    var c, h, m := Count(risks, Critical), Count(risks, High), Count(risks, Medium);
    var c', h', m' := Count(risks + more, Critical), Count(risks + more, High), Count(risks + more, Medium);
    if scheme == AllBuckets {
      ScoreMonotone(c, h, m, c', h', m');
    } else {
      ScoreMonotone(c, h, 0, c', h', 0);
    }
  }
}
