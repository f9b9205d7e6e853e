/** The data model of the contract analyser: the enumerations a finding is
    tagged with, the finding itself (`ClauseRisk`), the aggregate result of one
    engine run (`Assessment`, the source's `ContractRiskAssessment`), and the
    typed input records of the employment engine with their declared defaults. */
module Models {
  import opened Wrappers

  // ---------------------------------------------------------------------------
  // Enumerations and their wire values
  // ---------------------------------------------------------------------------

  datatype RiskLevel = Critical | High | Medium | Low | Minimal

  /** The string a `RiskLevel` serialises to. */
  function RiskLevelValue(l: RiskLevel): string
  {
    match l
    case Critical => "critical"
    case High => "high"
    case Medium => "medium"
    case Low => "low"
    case Minimal => "minimal"
  }

  /** Reading a level back from its wire value; anything else is rejected. */
  function ParseRiskLevel(s: string): (r: Option<RiskLevel>)
    ensures r.Some? ==> RiskLevelValue(r.value) == s
  {
    if s == "critical" then Some(Critical)
    else if s == "high" then Some(High)
    else if s == "medium" then Some(Medium)
    else if s == "low" then Some(Low)
    else if s == "minimal" then Some(Minimal)
    else None
  }

  /** Exactly five levels, each with its own value: parsing inverts serialising. */
  lemma RiskLevelRoundTrip(l: RiskLevel)
    ensures ParseRiskLevel(RiskLevelValue(l)) == Some(l)
  {
  }

  /** The five wire values are the whole value set of the enumeration. */
  lemma RiskLevelValues(s: string)
    ensures ParseRiskLevel(s).Some? <==> s in {"critical", "high", "medium", "low", "minimal"}
  {
  }

  datatype LegalValidity = Valid | PotentiallyInvalid | Invalid | RequiresReview

  function LegalValidityValue(v: LegalValidity): string
  {
    match v
    case Valid => "valid"
    case PotentiallyInvalid => "potentially_invalid"
    case Invalid => "invalid"
    case RequiresReview => "requires_review"
  }

  function ParseLegalValidity(s: string): (r: Option<LegalValidity>)
    ensures r.Some? ==> LegalValidityValue(r.value) == s
  {
    if s == "valid" then Some(Valid)
    else if s == "potentially_invalid" then Some(PotentiallyInvalid)
    else if s == "invalid" then Some(Invalid)
    else if s == "requires_review" then Some(RequiresReview)
    else None
  }

  lemma LegalValidityRoundTrip(v: LegalValidity)
    ensures ParseLegalValidity(LegalValidityValue(v)) == Some(v)
  {
  }

  datatype ClauseCategory =
    | Probation | TerminationNotice | NonCompete | Overtime | Salary | Bonus
    | Vacation | WorkingHours | Confidentiality | IpRights | ExclusionPeriod
    | FixedTerm | Sla | DataProtection | LiabilityCap | Termination | AutoRenewal
    | PriceAdjustment | VendorLockIn | Duration | Scope | Penalty
    | Indemnification | Penalties | Other

  function ClauseCategoryValue(c: ClauseCategory): string
  {
    match c
    case Probation => "probation"
    case TerminationNotice => "termination_notice"
    case NonCompete => "non_compete"
    case Overtime => "overtime"
    case Salary => "salary"
    case Bonus => "bonus"
    case Vacation => "vacation"
    case WorkingHours => "working_hours"
    case Confidentiality => "confidentiality"
    case IpRights => "ip_rights"
    case ExclusionPeriod => "exclusion_period"
    case FixedTerm => "fixed_term"
    case Sla => "sla"
    case DataProtection => "data_protection"
    case LiabilityCap => "liability_cap"
    case Termination => "termination"
    case AutoRenewal => "auto_renewal"
    case PriceAdjustment => "price_adjustment"
    case VendorLockIn => "vendor_lock_in"
    case Duration => "duration"
    case Scope => "scope"
    case Penalty => "penalty"
    case Indemnification => "indemnification"
    case Penalties => "penalties"
    case Other => "other"
  }

  /** Distinct categories serialise to distinct strings. */
  lemma ClauseCategoryValueInjective(a: ClauseCategory, b: ClauseCategory)
    ensures ClauseCategoryValue(a) == ClauseCategoryValue(b) ==> a == b
  {
  }

  // ---------------------------------------------------------------------------
  // Findings and assessments
  // ---------------------------------------------------------------------------

  /** One identified issue. The random `id`, and the free-text clause excerpt,
      description and recommendation, are not modelled; the title and the legal
      basis are kept because they are fixed per check. */
  datatype ClauseRisk = ClauseRisk(
    category: ClauseCategory,
    riskLevel: RiskLevel,
    riskScore: int,
    legalValidity: LegalValidity,
    issueTitle: string,
    legalBasis: string)

  /** The field constraint `0 <= risk_score <= 100` of a finding. */
  predicate ValidClauseRisk(f: ClauseRisk)
  {
    0 <= f.riskScore <= 100
  }

  datatype RiskCategory = RiskCategory(
    category: string,
    weight: real,
    score: int,
    maxScore: int,
    issuesCount: int,
    criticalIssues: int)

  /** Which of the three executive-summary templates an engine chose, with the
      number each template quotes (the critical count, or the score). */
  datatype Summary =
    | CriticalSummary(criticalCount: nat)
    | ElevatedSummary(score: int)
    | AcceptableSummary(score: int)

  datatype Assessment = Assessment(
    overallRiskScore: int,
    overallRiskLevel: RiskLevel,
    legalComplianceScore: int,
    financialRiskScore: int,
    operationalRiskScore: int,
    dataProtectionScore: int,
    contractManagementScore: int,
    riskCategories: seq<RiskCategory>,
    criticalRisks: seq<ClauseRisk>,
    highRisks: seq<ClauseRisk>,
    mediumRisks: seq<ClauseRisk>,
    lowRisks: seq<ClauseRisk>,
    missingClauses: seq<string>,
    recommendedAdditions: seq<string>,
    executiveSummary: Summary,
    keyFindings: seq<string>,
    immediateActions: seq<string>,
    confidenceScore: real)

  predicate InPercentRange(x: int)
  {
    0 <= x <= 100
  }

  /** The field constraints of an assessment: every score in [0,100], the
      confidence in [0,1], and every finding it carries a valid finding. */
  predicate ValidAssessment(a: Assessment)
  {
    && InPercentRange(a.overallRiskScore)
    && InPercentRange(a.legalComplianceScore)
    && InPercentRange(a.financialRiskScore)
    && InPercentRange(a.operationalRiskScore)
    && InPercentRange(a.dataProtectionScore)
    && InPercentRange(a.contractManagementScore)
    && 0.0 <= a.confidenceScore <= 1.0
    && (forall f :: f in a.criticalRisks ==> ValidClauseRisk(f))
    && (forall f :: f in a.highRisks ==> ValidClauseRisk(f))
    && (forall f :: f in a.mediumRisks ==> ValidClauseRisk(f))
    && (forall f :: f in a.lowRisks ==> ValidClauseRisk(f))
  }

  /** An assessment built from only the required fields: every list field is
      empty, as the declared defaults make it. */
  function NewAssessment(
    score: int, level: RiskLevel, legal: int, financial: int, operational: int,
    dataProtection: int, management: int, summary: Summary, confidence: real): (a: Assessment)
    ensures a.riskCategories == [] && a.criticalRisks == [] && a.highRisks == []
    ensures a.mediumRisks == [] && a.lowRisks == [] && a.missingClauses == []
    ensures a.recommendedAdditions == [] && a.keyFindings == [] && a.immediateActions == []
    ensures a.overallRiskScore == score && a.overallRiskLevel == level
    ensures a.confidenceScore == confidence
  {
    Assessment(score, level, legal, financial, operational, dataProtection, management,
               [], [], [], [], [], [], [], summary, [], [], confidence)
  }

  // ---------------------------------------------------------------------------
  // Employment input records (typed, with their declared defaults)
  // ---------------------------------------------------------------------------

  datatype WorkingConditions = WorkingConditions(
    weeklyHours: Option<real>,
    workLocation: Option<string>,
    homeOfficeAllowed: bool,
    homeOfficeDays: Option<int>,
    overtimeClause: Option<string>,
    overtimeIncludedInSalary: bool,
    overtimeCapHours: Option<real>,
    flextime: bool,
    trustBasedHours: bool)

  function DefaultWorkingConditions(): (w: WorkingConditions)
    ensures !w.overtimeIncludedInSalary && w.overtimeCapHours == None
  {
    WorkingConditions(None, None, false, None, None, false, None, false, false)
  }

  datatype VacationTerms = VacationTerms(
    daysPerYear: Option<int>,
    additionalDays: Option<int>,
    carryoverAllowed: bool,
    carryoverDeadline: Option<string>)

  function DefaultVacationTerms(): (v: VacationTerms)
    ensures v.daysPerYear == None && v.carryoverAllowed
  {
    VacationTerms(None, None, true, None)
  }

  datatype ProbationTerms = ProbationTerms(
    durationMonths: Option<real>,
    noticePeriodDuringProbation: Option<string>,
    exceedsLegalMaximum: bool)

  function DefaultProbationTerms(): (p: ProbationTerms)
    ensures p.durationMonths == None && !p.exceedsLegalMaximum
  {
    ProbationTerms(None, None, false)
  }

  datatype NonCompeteTerms = NonCompeteTerms(
    duringEmployment: bool,
    postEmployment: bool,
    durationMonths: Option<int>,
    geographicScope: Option<string>,
    activityScope: Option<string>,
    compensationClause: Option<string>,
    compensationPercentage: Option<real>,
    hasAdequateCompensation: bool,
    missingCompensation: bool)

  function DefaultNonCompeteTerms(): (n: NonCompeteTerms)
    ensures !n.postEmployment && !n.hasAdequateCompensation && !n.missingCompensation
  {
    NonCompeteTerms(false, false, None, None, None, None, None, false, false)
  }

  /** The employment contract fields the engine reads; the remaining fields of
      the source record (parties, dates, compensation, termination, ...) are
      never consulted by a check and are not modelled. */
  datatype EmploymentContractData = EmploymentContractData(
    jobTitle: Option<string>,
    workingConditions: Option<WorkingConditions>,
    vacation: Option<VacationTerms>,
    probation: Option<ProbationTerms>,
    nonCompete: Option<NonCompeteTerms>)

  function EmptyEmploymentContract(): (d: EmploymentContractData)
    ensures d.workingConditions == None && d.vacation == None
    ensures d.probation == None && d.nonCompete == None
  {
    EmploymentContractData(None, None, None, None, None)
  }

  // ---------------------------------------------------------------------------
  // Loosely typed dictionary values (SaaS, NDA and vendor inputs)
  // ---------------------------------------------------------------------------

  /** A scalar JSON value of a field that the engines only test for truthiness. */
  datatype Scalar = Bool(b: bool) | Num(x: real) | Text(s: string)

  /** Python truthiness of an optional scalar: absent, `False`, `0` and `""` are falsy. */
  predicate Truthy(v: Option<Scalar>)
  {
    match v
    case None => false
    case Some(Bool(b)) => b
    case Some(Num(x)) => x != 0.0
    case Some(Text(s)) => s != ""
  }
}
