/** The NDA engine: duration, scope, penalty and exclusion checks that add
    findings, and a return-obligation check that only notes a missing clause.
    The duration check can add two findings (indefinite and overlong are
    checked independently). */
module NdaEngine {
  import opened Wrappers
  import opened Models
  import opened Scoring
  import Text

  // ---------------------------------------------------------------------------
  // Input
  // ---------------------------------------------------------------------------

  /** The NDA dictionary fields the engine reads. An absent `exclusions` reads
      as the empty list. */
  datatype NdaContractData = NdaContractData(
    ndaType: Option<string>,
    definitionConfidential: Option<string>,
    exclusions: seq<string>,
    durationYears: Option<int>,
    durationIndefinite: Option<Scalar>,
    returnOfInformation: Option<Scalar>,
    destructionOfInformation: Option<Scalar>,
    penaltyAmount: Option<real>,
    penaltyPerViolation: Option<Scalar>)

  function EmptyNdaContract(): NdaContractData
  {
    NdaContractData(None, None, [], None, None, None, None, None, None)
  }

  /** The dictionary of a typed NDA record left at its declared defaults:
      not indefinite, no exclusions, neither return nor destruction agreed. */
  function DefaultNdaContract(): (d: NdaContractData)
    ensures d.durationIndefinite == Some(Bool(false)) && d.exclusions == []
    ensures d.returnOfInformation == Some(Bool(false)) && d.destructionOfInformation == Some(Bool(false))
  {
    NdaContractData(None, None, [], None, Some(Bool(false)), Some(Bool(false)), Some(Bool(false)), None, None)
  }

  // ---------------------------------------------------------------------------
  // The rules, stated on the input
  // ---------------------------------------------------------------------------

  predicate IndefiniteDuration(d: NdaContractData)
  {
    Truthy(d.durationIndefinite)
  }

  /** A stated duration of more than ten years. */
  predicate OverlongDuration(d: NdaContractData)
  {
    d.durationYears.Some? && d.durationYears.value > 10
  }

  /** The lower-cased definition mentions both "alle" and "informationen"
      (as substrings, anywhere). */
  predicate BroadDefinition(d: NdaContractData)
  {
    var def := Text.Lower(d.definitionConfidential.GetOr(""));
    Text.Contains(def, "alle") && Text.Contains(def, "informationen")
  }

  /** A contractual penalty above 100 000. */
  predicate HighPenalty(d: NdaContractData)
  {
    d.penaltyAmount.Some? && d.penaltyAmount.value > 100000.0
  }

  predicate PerViolation(d: NdaContractData)
  {
    Truthy(d.penaltyPerViolation)
  }

  predicate NoExclusions(d: NdaContractData)
  {
    d.exclusions == []
  }

  /** Neither return nor destruction of the information is agreed. */
  predicate NoReturnObligation(d: NdaContractData)
  {
    !Truthy(d.returnOfInformation) && !Truthy(d.destructionOfInformation)
  }

  function CriticalCount(d: NdaContractData): nat
  {
    B2N(IndefiniteDuration(d))
  }

  function HighCount(d: NdaContractData): nat
  {
    B2N(OverlongDuration(d)) + B2N(BroadDefinition(d)) + B2N(HighPenalty(d) && PerViolation(d))
  }

  function MediumCount(d: NdaContractData): nat
  {
    B2N(HighPenalty(d) && !PerViolation(d)) + B2N(NoExclusions(d))
  }

  // ---------------------------------------------------------------------------
  // The checks
  // ---------------------------------------------------------------------------

  const IndefiniteFinding := ClauseRisk(Termination, Critical, 85, RequiresReview,
    "Unbefristete Geheimhaltung", "\U{00A7} 307 BGB (Angemessenheit)")
  const OverlongFinding := ClauseRisk(Termination, High, 65, Valid,
    "Überlange Geheimhaltungsfrist", "Marktüblichkeit")
  const ScopeFinding := ClauseRisk(NonCompete, High, 60, RequiresReview,
    "Zu weite Definition vertraulicher Informationen", "\U{00A7} 307 BGB (Transparenzgebot)")
  const ExclusionsFinding := ClauseRisk(NonCompete, Medium, 45, Valid,
    "Fehlende Standardausnahmen", "Marktüblichkeit")

  /** The penalty finding: HIGH (70) when the penalty applies per violation,
      MEDIUM (50) otherwise. */
  function PenaltyFinding(perViolation: bool): (f: ClauseRisk)
    ensures f.riskLevel == (if perViolation then High else Medium)
    ensures f.riskScore == (if perViolation then 70 else 50)
  {
    ClauseRisk(Salary, if perViolation then High else Medium, if perViolation then 70 else 50,
               RequiresReview, "Hohe Vertragsstrafe", "\U{00A7} 343 BGB (Herabsetzung)")
  }

  /** The missing-clause note of the return-obligation check. */
  const ReturnClause := "Rückgabe- oder Vernichtungspflicht nach Vertragsende"

  /** First half of the duration check: indefinite confidentiality. */
  function CheckIndefinite(d: NdaContractData): (r: seq<ClauseRisk>)
    ensures AtMostOne(r, Critical) && (r != [] <==> IndefiniteDuration(d))
  {
    if Truthy(d.durationIndefinite) then [IndefiniteFinding] else []
  }

  /** Second half of the duration check, run whatever the first half found. */
  function CheckOverlong(d: NdaContractData): (r: seq<ClauseRisk>)
    ensures AtMostOne(r, High) && (r != [] <==> OverlongDuration(d))
  {
    match d.durationYears
    case Some(years) => if years != 0 && years > 10 then [OverlongFinding] else []
    case None => []
  }

  /** `_check_duration`: both halves, in order. */
  function CheckDuration(d: NdaContractData): (r: seq<ClauseRisk>)
    ensures |r| == B2N(IndefiniteDuration(d)) + B2N(OverlongDuration(d))
    ensures IndefiniteDuration(d) && OverlongDuration(d) ==> r == [IndefiniteFinding, OverlongFinding]
  {
    CheckIndefinite(d) + CheckOverlong(d)
  }

  function CheckScope(d: NdaContractData): (r: seq<ClauseRisk>)
    ensures AtMostOne(r, High) && (r != [] <==> BroadDefinition(d))
  {
    var def := Text.Lower(d.definitionConfidential.GetOr(""));
    if Text.Contains(def, "alle") && Text.Contains(def, "informationen") then [ScopeFinding] else []
  }

  function CheckPenalty(d: NdaContractData): (r: seq<ClauseRisk>)
    ensures AtMostOne(r, if PerViolation(d) then High else Medium) && (r != [] <==> HighPenalty(d))
  {
    match d.penaltyAmount
    case Some(p) =>
      if p != 0.0 && p > 100000.0 then [PenaltyFinding(Truthy(d.penaltyPerViolation))] else []
    case None => []
  }

  function CheckExclusions(d: NdaContractData): (r: seq<ClauseRisk>)
    ensures AtMostOne(r, Medium) && (r != [] <==> NoExclusions(d))
  {
    if |d.exclusions| == 0 then [ExclusionsFinding] else []
  }

  /** `_check_return_obligation`: adds no finding, only the missing-clause note. */
  function CheckReturnObligation(d: NdaContractData): (r: seq<string>)
    ensures |r| <= 1 && (r != [] <==> NoReturnObligation(d))
    ensures forall m :: m in r ==> m == ReturnClause
  {
    if !Truthy(d.returnOfInformation) && !Truthy(d.destructionOfInformation) then [ReturnClause] else []
  }

  // ---------------------------------------------------------------------------
  // The assessment
  // ---------------------------------------------------------------------------

  /** The findings of one run, in the order the checks append them. */
  function Findings(d: NdaContractData): (r: seq<ClauseRisk>)
    ensures |r| == CriticalCount(d) + HighCount(d) + MediumCount(d)
  {
    CheckDuration(d) + CheckScope(d) + CheckPenalty(d) + CheckExclusions(d)
  }

  /** The findings, counted per bucket, one term per check. */
  lemma CountsOfChecks(d: NdaContractData, l: RiskLevel)
    ensures Count(Findings(d), l)
         == B2N(IndefiniteDuration(d) && Critical == l) + B2N(OverlongDuration(d) && High == l)
          + B2N(BroadDefinition(d) && High == l)
          + B2N(HighPenalty(d) && (if PerViolation(d) then High else Medium) == l)
          + B2N(NoExclusions(d) && Medium == l)
  {
    var a, b, s, p, x := CheckIndefinite(d), CheckOverlong(d), CheckScope(d), CheckPenalty(d), CheckExclusions(d);
    var lp := if PerViolation(d) then High else Medium;
    assert Findings(d) == a + b + s + p + x;
    CountChecks5(a, b, s, p, x, Critical, High, High, lp, Medium,
                 IndefiniteDuration(d), OverlongDuration(d), BroadDefinition(d), HighPenalty(d), NoExclusions(d), l);
  }

  lemma CriticalFindings(d: NdaContractData)
    ensures Count(Findings(d), Critical) == CriticalCount(d)
  {
    CountsOfChecks(d, Critical);
  }

  lemma HighFindings(d: NdaContractData)
    ensures Count(Findings(d), High) == HighCount(d)
  {
    CountsOfChecks(d, High);
  }

  lemma MediumFindings(d: NdaContractData)
    ensures Count(Findings(d), Medium) == MediumCount(d)
  {
    CountsOfChecks(d, Medium);
  }

  /** The bucket sizes are the rule counts; nothing is LOW or MINIMAL. */
  lemma FindingCounts(d: NdaContractData)
    ensures Count(Findings(d), Critical) == CriticalCount(d)
    ensures Count(Findings(d), High) == HighCount(d)
    ensures Count(Findings(d), Medium) == MediumCount(d)
    ensures Count(Findings(d), Low) == 0 && Count(Findings(d), Minimal) == 0
  {
    CriticalFindings(d);
    HighFindings(d);
    MediumFindings(d);
    CountsOfChecks(d, Low);
    CountsOfChecks(d, Minimal);
  }

  /** Every finding has a valid score and a level above LOW. */
  lemma FindingsScorable(d: NdaContractData)
    ensures Scorable(Findings(d))
  {
    var a, b, s, p, x := CheckIndefinite(d), CheckOverlong(d), CheckScope(d), CheckPenalty(d), CheckExclusions(d);
    assert Findings(d) == a + b + s + p + x;
    ScorableConcat(a, b);
    ScorableConcat(a + b, s);
    ScorableConcat(a + b + s, p);
    ScorableConcat(a + b + s + p, x);
  }

  /** `assess_nda_contract`: reset, run the five checks, aggregate over all
      four buckets. Returns the assessment and the scratch state after the call. */
  function AssessNdaContract(engine: Scratch, d: NdaContractData): (r: (Assessment, Scratch))
    ensures r.1 == Scratch(Findings(d), CheckReturnObligation(d))
    ensures |r.0.criticalRisks| == CriticalCount(d)
    ensures |r.0.highRisks| == HighCount(d)
    ensures |r.0.mediumRisks| == MediumCount(d)
    ensures r.0.lowRisks == []
    ensures r.0.overallRiskScore == WeightedScore(CriticalCount(d), HighCount(d), MediumCount(d))
    ensures InBand(r.0.overallRiskScore, r.0.overallRiskLevel)
    ensures r.0.missingClauses == (if NoReturnObligation(d) then [ReturnClause] else [])
    ensures ValidAssessment(r.0)
    ensures r.0.executiveSummary == SummaryFor(r.0.overallRiskLevel, |r.0.criticalRisks|, r.0.overallRiskScore)
  {
    var e := Scratch(Findings(d), CheckReturnObligation(d));
    FindingCounts(d);
    FindingsScorable(d);
    FilterAbsent(e.risks, Low);
    (Aggregate(AllBuckets, e.risks, e.missingClauses), e)
  }

  /** Nothing carries over between calls. */
  lemma NoCarryOver(e1: Scratch, e2: Scratch, d: NdaContractData)
    ensures AssessNdaContract(e1, d) == AssessNdaContract(e2, d)
  {
  }

  /** Every finding is in exactly the bucket of its level. */
  lemma NdaBuckets(e: Scratch, d: NdaContractData)
    ensures var a := AssessNdaContract(e, d).0;
      multiset(a.criticalRisks + a.highRisks + a.mediumRisks + a.lowRisks) == multiset(Findings(d))
  {
    FindingsScorable(d);
    AggregatePartition(Findings(d), CheckReturnObligation(d));
  }

  /** Missing exclusions are reported as a finding only, never as a missing
      clause: the only missing clause an NDA can get is the return obligation. */
  lemma ExclusionsNotMissingClause(e: Scratch, d: NdaContractData)
    ensures forall m :: m in AssessNdaContract(e, d).0.missingClauses ==> m == ReturnClause
  {
  }

  /** The empty dictionary draws only the missing-exclusions finding: score 8,
      MINIMAL, plus the return-obligation note. */
  lemma EmptyContract(e: Scratch)
    ensures var a := AssessNdaContract(e, EmptyNdaContract()).0;
      && a.overallRiskScore == 8 && a.overallRiskLevel == Minimal
      && a.criticalRisks == [] && a.highRisks == [] && |a.mediumRisks| == 1
      && a.missingClauses == [ReturnClause]
  {
    var d := EmptyNdaContract();
    assert Text.Lower("") == "";
    assert !Text.Contains("", "alle");
    assert CriticalCount(d) == 0 && HighCount(d) == 0 && MediumCount(d) == 1;
  }

  /** A typed record at its defaults is assessed exactly like the empty
      dictionary: the explicit `False` values are as falsy as absent keys. */
  lemma DefaultsAssessLikeEmpty(e: Scratch)
    ensures AssessNdaContract(e, DefaultNdaContract()) == AssessNdaContract(e, EmptyNdaContract())
    ensures NoExclusions(DefaultNdaContract()) && NoReturnObligation(DefaultNdaContract())
  {
    assert Findings(DefaultNdaContract()) == Findings(EmptyNdaContract());
  }

  /** Indefinite duration and a 500 000 penalty per violation, nothing else
      stated: one CRITICAL, one HIGH and one MEDIUM finding (the missing
      exclusions), score 48, MEDIUM. */
  lemma IndefinitePenaltyScenario(e: Scratch)
    ensures var d := EmptyNdaContract().(durationIndefinite := Some(Bool(true)),
        penaltyAmount := Some(500000.0), penaltyPerViolation := Some(Bool(true)));
      var a := AssessNdaContract(e, d).0;
      a.overallRiskScore == 48 && a.overallRiskLevel == Medium
      && a.executiveSummary == AcceptableSummary(48)
  {
    var d := EmptyNdaContract().(durationIndefinite := Some(Bool(true)),
        penaltyAmount := Some(500000.0), penaltyPerViolation := Some(Bool(true)));
    assert Text.Lower("") == "";
    assert !Text.Contains("", "alle");
    assert CriticalCount(d) == 1 && HighCount(d) == 1 && MediumCount(d) == 1;
  }

  /** An indefinite NDA that also states more than ten years draws both
      duration findings. */
  lemma DurationFindingsIndependent(years: int)
    requires years > 10
    ensures CheckDuration(EmptyNdaContract().(durationIndefinite := Some(Bool(true)), durationYears := Some(years)))
         == [IndefiniteFinding, OverlongFinding]
  {
  }

  /** The scope test ignores case: upper-casing the definition changes
      nothing, so "ALLE INFORMATIONEN" is flagged exactly when "alle
      informationen" is. */
  lemma ScopeIgnoresCase(d: NdaContractData, def: string)
    ensures CheckScope(d.(definitionConfidential := Some(Text.Upper(def))))
         == CheckScope(d.(definitionConfidential := Some(def)))
  {
    Text.LowerOfUpper(def);
  }

  /** The penalty threshold is strict: exactly 100 000 is not flagged. */
  lemma PenaltyBoundary(amount: real)
    ensures CheckPenalty(EmptyNdaContract().(penaltyAmount := Some(amount))) != [] <==> amount > 100000.0
  {
  }
}
