/** The employment-contract engine: four independent checks against German
    labour-law limits, each adding at most one CRITICAL finding, scored on the
    critical and high buckets only. */
module EmploymentEngine {
  import opened Wrappers
  import opened Models
  import opened Scoring

  // ---------------------------------------------------------------------------
  // The rules, stated on the input
  // ---------------------------------------------------------------------------

  /** Probation longer than the statutory six months (an absent or zero
      duration never qualifies). */
  predicate ProbationTooLong(d: EmploymentContractData)
  {
    d.probation.Some? && d.probation.value.durationMonths.Some?
    && d.probation.value.durationMonths.value > 6.0
  }

  /** Overtime settled by the salary with no (or a zero) cap on the hours. */
  predicate UncappedOvertime(d: EmploymentContractData)
  {
    d.workingConditions.Some? && d.workingConditions.value.overtimeIncludedInSalary
    && (d.workingConditions.value.overtimeCapHours.None? || d.workingConditions.value.overtimeCapHours.value == 0.0)
  }

  /** A post-employment non-compete that is flagged as uncompensated or not
      flagged as adequately compensated. */
  predicate UncompensatedNonCompete(d: EmploymentContractData)
  {
    d.nonCompete.Some? && d.nonCompete.value.postEmployment
    && (d.nonCompete.value.missingCompensation || !d.nonCompete.value.hasAdequateCompensation)
  }

  /** A non-zero yearly vacation entitlement under the statutory 20 days. */
  predicate VacationBelowMinimum(d: EmploymentContractData)
  {
    d.vacation.Some? && d.vacation.value.daysPerYear.Some?
    && d.vacation.value.daysPerYear.value != 0 && d.vacation.value.daysPerYear.value < 20
  }

  /** How many of the four rules the contract breaks. */
  function Violations(d: EmploymentContractData): nat
  {
    B2N(ProbationTooLong(d)) + B2N(UncappedOvertime(d))
    + B2N(UncompensatedNonCompete(d)) + B2N(VacationBelowMinimum(d))
  }

  // ---------------------------------------------------------------------------
  // The findings
  // ---------------------------------------------------------------------------

  const ProbationFinding := ClauseRisk(Probation, Critical, 95, Invalid,
    "Probezeit überschreitet 6 Monate", "\U{00A7} 622 Abs. 3 BGB")
  const OvertimeFinding := ClauseRisk(Overtime, Critical, 85, PotentiallyInvalid,
    "Intransparente Überstundenabgeltung", "BAG 5 AZR 765/10; \U{00A7} 307 BGB")
  const NonCompeteFinding := ClauseRisk(NonCompete, Critical, 100, Invalid,
    "Wettbewerbsverbot ohne Karenzentschädigung", "\U{00A7} 74 Abs. 2 HGB")
  const VacationFinding := ClauseRisk(Vacation, Critical, 80, Invalid,
    "Urlaub unter gesetzlichem Minimum", "\U{00A7} 3 BUrlG")

  /** Every employment finding is CRITICAL and carries a score in [0,100]. */
  predicate EmploymentFinding(f: ClauseRisk)
  {
    f.riskLevel == Critical && ValidClauseRisk(f)
  }

  function CheckProbation(d: EmploymentContractData): (r: seq<ClauseRisk>)
    ensures |r| <= 1 && (r != [] <==> ProbationTooLong(d))
    ensures forall f :: f in r ==> EmploymentFinding(f) && f.category == Probation && f.riskScore == 95
  {
    match d.probation
    case Some(p) =>
      (match p.durationMonths
       case Some(m) => if m != 0.0 && m > 6.0 then [ProbationFinding] else []
       case None => [])
    case None => []
  }

  function CheckOvertime(d: EmploymentContractData): (r: seq<ClauseRisk>)
    ensures |r| <= 1 && (r != [] <==> UncappedOvertime(d))
    ensures forall f :: f in r ==> EmploymentFinding(f) && f.category == Overtime && f.riskScore == 85
  {
    match d.workingConditions
    case Some(w) =>
      if w.overtimeIncludedInSalary then
        (match w.overtimeCapHours
         case None => [OvertimeFinding]
         case Some(cap) => if cap == 0.0 then [OvertimeFinding] else [])
      else []
    case None => []
  }

  function CheckNonCompete(d: EmploymentContractData): (r: seq<ClauseRisk>)
    ensures |r| <= 1 && (r != [] <==> UncompensatedNonCompete(d))
    ensures forall f :: f in r ==> EmploymentFinding(f) && f.category == NonCompete && f.riskScore == 100
  {
    match d.nonCompete
    case Some(n) =>
      if n.postEmployment && (n.missingCompensation || !n.hasAdequateCompensation)
      then [NonCompeteFinding] else []
    case None => []
  }

  function CheckVacation(d: EmploymentContractData): (r: seq<ClauseRisk>)
    ensures |r| <= 1 && (r != [] <==> VacationBelowMinimum(d))
    ensures forall f :: f in r ==> EmploymentFinding(f) && f.category == Vacation && f.riskScore == 80
  {
    match d.vacation
    case Some(v) =>
      (match v.daysPerYear
       case Some(days) => if days != 0 && days < 20 then [VacationFinding] else []
       case None => [])
    case None => []
  }

  /** The findings of one run, in check order: one per broken rule. */
  function Findings(d: EmploymentContractData): (r: seq<ClauseRisk>)
    ensures |r| == Violations(d)
    ensures forall f :: f in r ==> EmploymentFinding(f)
  {
    CheckProbation(d) + CheckOvertime(d) + CheckNonCompete(d) + CheckVacation(d)
  }

  // ---------------------------------------------------------------------------
  // The assessment
  // ---------------------------------------------------------------------------

  /** `assess_employment_contract`: the scratch lists are reset, the four checks
      run in order, and the findings are aggregated. Returns the assessment and
      the engine's scratch state after the call. */
  function AssessEmploymentContract(engine: Scratch, d: EmploymentContractData): (r: (Assessment, Scratch))
    ensures r.1.risks == Findings(d) && r.1.missingClauses == []
    ensures |r.0.criticalRisks| == Violations(d)
    ensures r.0.highRisks == [] && r.0.mediumRisks == [] && r.0.lowRisks == []
    ensures r.0.overallRiskScore == WeightedScore(Violations(d), 0, 0)
    ensures InBand(r.0.overallRiskScore, r.0.overallRiskLevel)
    ensures r.0.missingClauses == []
    ensures ValidAssessment(r.0)
    ensures r.0.executiveSummary == SummaryFor(r.0.overallRiskLevel, |r.0.criticalRisks|, r.0.overallRiskScore)
  {
    var e4 := Scratch(Findings(d), []);
    FilterUniform(e4.risks, Critical);
    FilterAbsent(e4.risks, High);
    (Aggregate(CriticalAndHigh, e4.risks, e4.missingClauses), e4)
  }

  /** Nothing carries over between calls: the result depends on the input only. */
  lemma NoCarryOver(e1: Scratch, e2: Scratch, d: EmploymentContractData)
    ensures AssessEmploymentContract(e1, d) == AssessEmploymentContract(e2, d)
  {
  }

  /** All findings land in the critical bucket. */
  lemma EmploymentBuckets(e: Scratch, d: EmploymentContractData)
    ensures var a := AssessEmploymentContract(e, d).0;
      multiset(a.criticalRisks) == multiset(Findings(d))
  {
    AggregatePartitionCriticalHigh(Findings(d), []);
  }

  /** The level by number of broken rules: none gives MINIMAL, one LOW, two
      MEDIUM, three or four CRITICAL; HIGH is never reached, so the summary
      never uses the elevated-risk template. */
  lemma LevelByViolations(e: Scratch, d: EmploymentContractData)
    ensures var a := AssessEmploymentContract(e, d).0;
      && (Violations(d) == 0 ==> a.overallRiskScore == 0 && a.overallRiskLevel == Minimal)
      && (Violations(d) == 1 ==> a.overallRiskScore == 25 && a.overallRiskLevel == Low)
      && (Violations(d) == 2 ==> a.overallRiskScore == 50 && a.overallRiskLevel == Medium)
      && (Violations(d) >= 3 ==> a.overallRiskLevel == Critical)
      && a.overallRiskLevel != High
      && !a.executiveSummary.ElevatedSummary?
  {
    var a := AssessEmploymentContract(e, d).0;
    var v := Violations(d);
    assert v <= 4;
    assert a.overallRiskScore == if v * 25 < 100 then v * 25 else 100;
    BandsDisjoint(a.overallRiskScore, a.overallRiskLevel);
  }

  /** Exactly six months of probation is allowed; anything longer is flagged. */
  lemma ProbationBoundary(months: real)
    ensures var d := EmploymentContractData(None, None, None, Some(ProbationTerms(Some(months), None, false)), None);
      (CheckProbation(d) != []) <==> months > 6.0
  {
  }

  /** A vacation entitlement of 0 days reads as "not stated" and is not
      flagged, whereas a negative one is. */
  lemma VacationZeroIsUnset(days: int)
    ensures var d := EmploymentContractData(None, None, Some(VacationTerms(Some(days), None, true, None)), None, None);
      (CheckVacation(d) != []) <==> (days != 0 && days < 20)
  {
  }

  /** A post-employment non-compete left at the declared defaults for the two
      compensation flags is flagged. */
  lemma DefaultNonCompeteFlagged(e: Scratch)
    ensures var nc := DefaultNonCompeteTerms().(postEmployment := true);
      var d := EmploymentContractData(None, None, None, None, Some(nc));
      AssessEmploymentContract(e, d).0.overallRiskScore == 25
  {
    var nc := DefaultNonCompeteTerms().(postEmployment := true);
    var d := EmploymentContractData(None, None, None, None, Some(nc));
    assert Violations(d) == 1;
  }

  /** Working conditions left at their defaults raise nothing. */
  lemma DefaultWorkingConditionsQuiet()
    ensures CheckOvertime(EmploymentContractData(None, Some(DefaultWorkingConditions()), None, None, None)) == []
  {
  }

  /** The empty contract scores 0, MINIMAL, with no findings. */
  lemma EmptyContract(e: Scratch)
    ensures var a := AssessEmploymentContract(e, EmptyEmploymentContract()).0;
      a.overallRiskScore == 0 && a.overallRiskLevel == Minimal && a.criticalRisks == []
  {
    assert Violations(EmptyEmploymentContract()) == 0;
  }

  /** All four rules broken: four critical findings, score 100, CRITICAL. */
  lemma AllRulesBroken(e: Scratch)
    ensures var d := EmploymentContractData(
        None,
        Some(DefaultWorkingConditions().(overtimeIncludedInSalary := true)),
        Some(VacationTerms(Some(15), None, true, None)),
        Some(ProbationTerms(Some(8.0), None, false)),
        Some(DefaultNonCompeteTerms().(postEmployment := true, missingCompensation := true)));
      var a := AssessEmploymentContract(e, d).0;
      |a.criticalRisks| == 4 && a.overallRiskScore == 100 && a.overallRiskLevel == Critical
  {
    var d := EmploymentContractData(
        None,
        Some(DefaultWorkingConditions().(overtimeIncludedInSalary := true)),
        Some(VacationTerms(Some(15), None, true, None)),
        Some(ProbationTerms(Some(8.0), None, false)),
        Some(DefaultNonCompeteTerms().(postEmployment := true, missingCompensation := true)));
    assert Violations(d) == 4;
  }
}
