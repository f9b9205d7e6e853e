/** The SaaS-contract engine: seven independent checks over the contract term,
    data protection, SLA, liability and pricing sub-dictionaries. An absent
    sub-dictionary reads as an empty one, so every field is optional. */
module SaasEngine {
  import opened Wrappers
  import opened Models
  import opened Scoring
  import Text

  // ---------------------------------------------------------------------------
  // Input
  // ---------------------------------------------------------------------------

  datatype ContractTerm = ContractTerm(autoRenewal: Option<Scalar>, noticePeriodDays: Option<int>)

  datatype DataProtectionTerms = DataProtectionTerms(
    dpaIncluded: Option<Scalar>,
    dataLocation: Option<string>,
    dataLocationGuaranteedEu: Option<Scalar>,
    dataExportFormat: Option<Scalar>)

  datatype SlaTerms = SlaTerms(uptimePercentage: Option<real>, creditMechanism: Option<Scalar>)

  datatype Liability = Liability(capMultipleAnnualFee: Option<real>)

  datatype Pricing = Pricing(priceEscalationClause: Option<Scalar>, priceEscalationCap: Option<Scalar>)

  datatype SaasContractData = SaasContractData(
    serviceName: Option<string>,
    providerName: Option<string>,
    contractTerm: ContractTerm,
    dataProtection: DataProtectionTerms,
    sla: SlaTerms,
    liability: Liability,
    pricing: Pricing)

  /** The empty dictionary: every sub-dictionary absent. */
  function EmptySaasContract(): SaasContractData
  {
    SaasContractData(None, None, ContractTerm(None, None), DataProtectionTerms(None, None, None, None),
                     SlaTerms(None, None), Liability(None), Pricing(None, None))
  }

  // ---------------------------------------------------------------------------
  // The rules, stated on the input
  // ---------------------------------------------------------------------------

  /** Auto-renewal with a stated, non-zero notice period under 30 days. A
      negative period is truthy and below 30, so it is flagged too. */
  predicate ShortRenewalNotice(d: SaasContractData)
  {
    Truthy(d.contractTerm.autoRenewal) && d.contractTerm.noticePeriodDays.Some?
    && d.contractTerm.noticePeriodDays.value != 0 && d.contractTerm.noticePeriodDays.value < 30
  }

  predicate MissingDpa(d: SaasContractData)
  {
    !Truthy(d.dataProtection.dpaIncluded)
  }

  /** A stated storage location whose upper-cased text has no "EU" in it, with
      no EU guarantee. */
  predicate NonEuLocation(d: SaasContractData)
  {
    var loc := Text.Upper(d.dataProtection.dataLocation.GetOr(""));
    loc != "" && !Text.Contains(loc, "EU") && !Truthy(d.dataProtection.dataLocationGuaranteedEu)
  }

  /** A stated, non-zero uptime below 99.5 percent. */
  predicate LowUptime(d: SaasContractData)
  {
    d.sla.uptimePercentage.Some? && d.sla.uptimePercentage.value != 0.0 && d.sla.uptimePercentage.value < 99.5
  }

  predicate MissingServiceCredits(d: SaasContractData)
  {
    !Truthy(d.sla.creditMechanism)
  }

  /** A stated, non-zero liability cap below 12 annual fees. */
  predicate LowLiabilityCap(d: SaasContractData)
  {
    d.liability.capMultipleAnnualFee.Some? && d.liability.capMultipleAnnualFee.value != 0.0
    && d.liability.capMultipleAnnualFee.value < 12.0
  }

  predicate MissingExportFormat(d: SaasContractData)
  {
    !Truthy(d.dataProtection.dataExportFormat)
  }

  predicate UncappedEscalation(d: SaasContractData)
  {
    Truthy(d.pricing.priceEscalationClause) && !Truthy(d.pricing.priceEscalationCap)
  }

  /** How many CRITICAL, HIGH and MEDIUM findings the rules call for. */
  function CriticalCount(d: SaasContractData): nat
  {
    B2N(ShortRenewalNotice(d)) + B2N(MissingDpa(d))
  }

  function HighCount(d: SaasContractData): nat
  {
    B2N(NonEuLocation(d)) + B2N(LowLiabilityCap(d)) + B2N(MissingExportFormat(d)) + B2N(UncappedEscalation(d))
  }

  function MediumCount(d: SaasContractData): nat
  {
    B2N(LowUptime(d))
  }

  // ---------------------------------------------------------------------------
  // The checks
  // ---------------------------------------------------------------------------

  const AutoRenewalFinding := ClauseRisk(AutoRenewal, Critical, 90, Valid,
    "Kurze Kündigungsfrist bei Auto-Renewal", "\U{00A7} 309 Nr. 9 BGB (AGB-Kontrolle)")
  const DpaFinding := ClauseRisk(DataProtection, Critical, 95, Invalid,
    "Fehlender Auftragsverarbeitungsvertrag", "Art. 28 DSGVO")
  const LocationFinding := ClauseRisk(DataProtection, High, 75, RequiresReview,
    "Datenspeicherung außerhalb EU", "Art. 44-49 DSGVO (Drittlandübermittlung)")
  const SlaFinding := ClauseRisk(Sla, Medium, 50, Valid,
    "Niedrige SLA-Garantie", "Vertragsrecht")
  const LiabilityFinding := ClauseRisk(LiabilityCap, High, 65, Valid,
    "Niedrige Haftungsobergrenze", "\U{00A7} 309 Nr. 7 BGB")
  const ExportFinding := ClauseRisk(DataProtection, High, 70, Valid,
    "Vendor Lock-in durch fehlenden Datenexport", "Art. 20 DSGVO (Datenportabilität)")
  const EscalationFinding := ClauseRisk(PriceAdjustment, High, 65, Valid,
    "Unbegrenzte Preisanpassung", "\U{00A7} 307 BGB (Transparenzgebot)")

  /** The missing-clause note of the SLA check. */
  const ServiceCreditsClause := "Service Credits bei SLA-Verletzung"

  function CheckAutoRenewal(d: SaasContractData): (r: seq<ClauseRisk>)
    ensures AtMostOne(r, Critical) && (r != [] <==> ShortRenewalNotice(d))
  {
    if Truthy(d.contractTerm.autoRenewal) then
      var notice := d.contractTerm.noticePeriodDays.GetOr(0);
      if notice != 0 && notice < 30 then [AutoRenewalFinding] else []
    else []
  }

  function CheckDataProtection(d: SaasContractData): (r: seq<ClauseRisk>)
    ensures AtMostOne(r, Critical) && (r != [] <==> MissingDpa(d))
  {
    if !Truthy(d.dataProtection.dpaIncluded) then [DpaFinding] else []
  }

  function CheckDataLocation(d: SaasContractData): (r: seq<ClauseRisk>)
    ensures AtMostOne(r, High) && (r != [] <==> NonEuLocation(d))
  {
    var location := Text.Upper(d.dataProtection.dataLocation.GetOr(""));
    if location != "" && !Text.Contains(location, "EU") && !Truthy(d.dataProtection.dataLocationGuaranteedEu)
    then [LocationFinding] else []
  }

  /** The SLA check: a MEDIUM finding for low uptime, and independently a
      missing-clause note when no credit mechanism is stated. */
  function CheckSla(d: SaasContractData): (r: (seq<ClauseRisk>, seq<string>))
    ensures AtMostOne(r.0, Medium) && (r.0 != [] <==> LowUptime(d))
    ensures |r.1| <= 1 && (r.1 != [] <==> MissingServiceCredits(d))
    ensures forall m :: m in r.1 ==> m == ServiceCreditsClause
  {
    var findings :=
      match d.sla.uptimePercentage
      case Some(uptime) => if uptime != 0.0 && uptime < 99.5 then [SlaFinding] else []
      case None => [];
    var missing := if !Truthy(d.sla.creditMechanism) then [ServiceCreditsClause] else [];
    (findings, missing)
  }

  function CheckLiability(d: SaasContractData): (r: seq<ClauseRisk>)
    ensures AtMostOne(r, High) && (r != [] <==> LowLiabilityCap(d))
  {
    match d.liability.capMultipleAnnualFee
    case Some(cap) => if cap != 0.0 && cap < 12.0 then [LiabilityFinding] else []
    case None => []
  }

  function CheckDataExport(d: SaasContractData): (r: seq<ClauseRisk>)
    ensures AtMostOne(r, High) && (r != [] <==> MissingExportFormat(d))
  {
    if !Truthy(d.dataProtection.dataExportFormat) then [ExportFinding] else []
  }

  function CheckPriceEscalation(d: SaasContractData): (r: seq<ClauseRisk>)
    ensures AtMostOne(r, High) && (r != [] <==> UncappedEscalation(d))
  {
    if Truthy(d.pricing.priceEscalationClause) && !Truthy(d.pricing.priceEscalationCap)
    then [EscalationFinding] else []
  }

  // ---------------------------------------------------------------------------
  // The assessment
  // ---------------------------------------------------------------------------

  /** The findings of one run, in the order the seven checks append them. */
  function Findings(d: SaasContractData): (r: seq<ClauseRisk>)
    ensures |r| == CriticalCount(d) + HighCount(d) + MediumCount(d)
  {
    CheckAutoRenewal(d) + CheckDataProtection(d) + CheckDataLocation(d) + CheckSla(d).0
    + CheckLiability(d) + CheckDataExport(d) + CheckPriceEscalation(d)
  }

  /** The findings, counted per bucket, one term per check. */
  lemma CountsOfChecks(d: SaasContractData, l: RiskLevel)
    ensures Count(Findings(d), l)
         == B2N(ShortRenewalNotice(d) && Critical == l) + B2N(MissingDpa(d) && Critical == l)
          + B2N(NonEuLocation(d) && High == l) + B2N(LowUptime(d) && Medium == l)
          + B2N(LowLiabilityCap(d) && High == l) + B2N(MissingExportFormat(d) && High == l)
          + B2N(UncappedEscalation(d) && High == l)
  {
    CountChecks7(CheckAutoRenewal(d), CheckDataProtection(d), CheckDataLocation(d), CheckSla(d).0,
                 CheckLiability(d), CheckDataExport(d), CheckPriceEscalation(d),
                 Critical, Critical, High, Medium, High, High, High,
                 ShortRenewalNotice(d), MissingDpa(d), NonEuLocation(d), LowUptime(d),
                 LowLiabilityCap(d), MissingExportFormat(d), UncappedEscalation(d), l);
  }

  lemma CriticalFindings(d: SaasContractData)
    ensures Count(Findings(d), Critical) == CriticalCount(d)
  {
    CountsOfChecks(d, Critical);
  }

  lemma HighFindings(d: SaasContractData)
    ensures Count(Findings(d), High) == HighCount(d)
  {
    CountsOfChecks(d, High);
  }

  lemma MediumFindings(d: SaasContractData)
    ensures Count(Findings(d), Medium) == MediumCount(d)
  {
    CountsOfChecks(d, Medium);
  }

  /** The bucket sizes are the rule counts; nothing is LOW or MINIMAL. */
  lemma FindingCounts(d: SaasContractData)
    ensures Count(Findings(d), Critical) == CriticalCount(d)
    ensures Count(Findings(d), High) == HighCount(d)
    ensures Count(Findings(d), Medium) == MediumCount(d)
    ensures Count(Findings(d), Low) == 0 && Count(Findings(d), Minimal) == 0
  {
    CriticalFindings(d);
    HighFindings(d);
    MediumFindings(d);
    CountsOfChecks(d, Low);
    CountsOfChecks(d, Minimal);
  }

  /** Every finding has a valid score and a level above LOW. */
  lemma FindingsScorable(d: SaasContractData)
    ensures Scorable(Findings(d))
  {
    var a, b, c, s, l, x, p := CheckAutoRenewal(d), CheckDataProtection(d), CheckDataLocation(d), CheckSla(d).0,
                               CheckLiability(d), CheckDataExport(d), CheckPriceEscalation(d);
    ScorableConcat(a, b);
    ScorableConcat(a + b, c);
    ScorableConcat(a + b + c, s);
    ScorableConcat(a + b + c + s, l);
    ScorableConcat(a + b + c + s + l, x);
    ScorableConcat(a + b + c + s + l + x, p);
  }

  /** `assess_saas_contract`: reset, run the seven checks, aggregate over all
      four buckets. Returns the assessment and the scratch state after the call. */
  function AssessSaasContract(engine: Scratch, d: SaasContractData): (r: (Assessment, Scratch))
    ensures r.1 == Scratch(Findings(d), CheckSla(d).1)
    ensures |r.0.criticalRisks| == CriticalCount(d)
    ensures |r.0.highRisks| == HighCount(d)
    ensures |r.0.mediumRisks| == MediumCount(d)
    ensures r.0.lowRisks == []
    ensures r.0.overallRiskScore == WeightedScore(CriticalCount(d), HighCount(d), MediumCount(d))
    ensures InBand(r.0.overallRiskScore, r.0.overallRiskLevel)
    ensures r.0.missingClauses == (if MissingServiceCredits(d) then [ServiceCreditsClause] else [])
    ensures ValidAssessment(r.0)
    ensures r.0.executiveSummary == SummaryFor(r.0.overallRiskLevel, |r.0.criticalRisks|, r.0.overallRiskScore)
  {
    var e := Scratch(Findings(d), CheckSla(d).1);
    FindingCounts(d);
    FindingsScorable(d);
    FilterAbsent(e.risks, Low);
    (Aggregate(AllBuckets, e.risks, e.missingClauses), e)
  }

  /** Nothing carries over between calls. */
  lemma NoCarryOver(e1: Scratch, e2: Scratch, d: SaasContractData)
    ensures AssessSaasContract(e1, d) == AssessSaasContract(e2, d)
  {
  }

  /** Every finding is in exactly the bucket of its level. */
  lemma SaasBuckets(e: Scratch, d: SaasContractData)
    ensures var a := AssessSaasContract(e, d).0;
      multiset(a.criticalRisks + a.highRisks + a.mediumRisks + a.lowRisks) == multiset(Findings(d))
  {
    FindingsScorable(d);
    AggregatePartition(Findings(d), CheckSla(d).1);
  }

  /** The empty dictionary still draws the missing-DPA and missing-export
      findings: score 40, MEDIUM, plus the service-credits note. */
  lemma EmptyContract(e: Scratch)
    ensures var a := AssessSaasContract(e, EmptySaasContract()).0;
      && a.overallRiskScore == 40 && a.overallRiskLevel == Medium
      && |a.criticalRisks| == 1 && |a.highRisks| == 1 && a.mediumRisks == []
      && a.missingClauses == [ServiceCreditsClause]
  {
    var d := EmptySaasContract();
    assert Text.Upper("") == "";
    assert CriticalCount(d) == 1 && HighCount(d) == 1 && MediumCount(d) == 0;
  }

  /** Short-notice auto-renewal (10 days), no DPA, 99.0% uptime and a 6x cap,
      with nothing else stated: two CRITICAL, two HIGH (the cap and the
      missing export format) and one MEDIUM finding, score 88, CRITICAL. */
  lemma ShortNoticeScenario(e: Scratch)
    ensures var d := EmptySaasContract().(
        contractTerm := ContractTerm(Some(Bool(true)), Some(10)),
        dataProtection := DataProtectionTerms(Some(Bool(false)), None, None, None),
        sla := SlaTerms(Some(99.0), None),
        liability := Liability(Some(6.0)));
      var a := AssessSaasContract(e, d).0;
      a.overallRiskScore == 88 && a.overallRiskLevel == Critical
  {
    var d := EmptySaasContract().(
        contractTerm := ContractTerm(Some(Bool(true)), Some(10)),
        dataProtection := DataProtectionTerms(Some(Bool(false)), None, None, None),
        sla := SlaTerms(Some(99.0), None),
        liability := Liability(Some(6.0)));
    assert Text.Upper("") == "";
    assert CriticalCount(d) == 2 && HighCount(d) == 2 && MediumCount(d) == 1;
  }

  /** Auto-renewal notice: exactly 30 days is enough, 29 is not, and a
      negative notice period is flagged as well. */
  lemma RenewalNoticeBoundary(notice: int)
    ensures var d := EmptySaasContract().(contractTerm := ContractTerm(Some(Bool(true)), Some(notice)));
      CheckAutoRenewal(d) != [] <==> notice != 0 && notice < 30
  {
  }

  /** The EU test is a substring test: a location spelled with the letters
      "eu" anywhere, such as "Neuseeland", passes as an EU location. */
  lemma LocationSubstringTest()
    ensures CheckDataLocation(EmptySaasContract().(dataProtection := DataProtectionTerms(None, Some("Neuseeland"), None, None))) == []
  {
    var nz := Text.Upper("Neuseeland");
    assert nz[1..3] == "EU" by {
      assert nz[1] == 'E' && nz[2] == 'U';
    }
    assert Text.OccursAt(nz, "EU", 1);
  }

  /** A location outside the EU, such as "USA", is flagged. */
  lemma NonEuLocationFlagged()
    ensures CheckDataLocation(EmptySaasContract().(dataProtection := DataProtectionTerms(None, Some("USA"), None, None))) != []
  {
    var us := Text.Upper("USA");
    assert |us| == 3 && us[0] == 'U' && us[1] == 'S';
    assert !Text.OccursAt(us, "EU", 0) by {
      assert us[0..2][0] == 'U';
    }
    assert !Text.OccursAt(us, "EU", 1) by {
      assert us[1..3][0] == 'S';
    }
  }
}
