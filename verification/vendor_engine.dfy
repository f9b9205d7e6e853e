/** The vendor-contract (supplier) engine: warranty, liability, payment,
    audit-right and price-adjustment checks. It never records a missing
    clause. */
module VendorEngine {
  import opened Wrappers
  import opened Models
  import opened Scoring
  import Text

  // ---------------------------------------------------------------------------
  // Input
  // ---------------------------------------------------------------------------

  datatype Warranty = Warranty(durationMonths: Option<int>)

  datatype VendorLiability = VendorLiability(capType: Option<string>)

  datatype Payment = Payment(paymentDays: Option<int>)

  datatype Quality = Quality(auditRights: Option<Scalar>)

  datatype VendorPricing = VendorPricing(priceAdjustmentClause: Option<Scalar>, priceAdjustmentIndex: Option<Scalar>)

  /** The vendor dictionary fields the engine reads; an absent sub-dictionary
      reads as an empty one. */
  datatype VendorContractData = VendorContractData(
    supplierName: Option<string>,
    contractSubject: Option<string>,
    warranty: Warranty,
    liability: VendorLiability,
    payment: Payment,
    quality: Quality,
    pricing: VendorPricing)

  function EmptyVendorContract(): VendorContractData
  {
    VendorContractData(None, None, Warranty(None), VendorLiability(None), Payment(None),
                       Quality(None), VendorPricing(None, None))
  }

  // ---------------------------------------------------------------------------
  // The rules, stated on the input
  // ---------------------------------------------------------------------------

  predicate MissingWarranty(d: VendorContractData)
  {
    d.warranty.durationMonths.None?
  }

  /** A stated warranty under twelve months; zero and negative months count. */
  predicate ShortWarranty(d: VendorContractData)
  {
    d.warranty.durationMonths.Some? && d.warranty.durationMonths.value < 12
  }

  /** The liability cap type is "excluded", in any letter case. */
  predicate LiabilityExcluded(d: VendorContractData)
  {
    Text.Lower(d.liability.capType.GetOr("")) == "excluded"
  }

  /** A stated, non-zero payment term under 14 days. */
  predicate ShortPaymentTerm(d: VendorContractData)
  {
    d.payment.paymentDays.Some? && d.payment.paymentDays.value != 0 && d.payment.paymentDays.value < 14
  }

  predicate MissingAuditRights(d: VendorContractData)
  {
    !Truthy(d.quality.auditRights)
  }

  predicate UnindexedPriceAdjustment(d: VendorContractData)
  {
    Truthy(d.pricing.priceAdjustmentClause) && !Truthy(d.pricing.priceAdjustmentIndex)
  }

  function CriticalCount(d: VendorContractData): nat
  {
    B2N(MissingWarranty(d) || ShortWarranty(d)) + B2N(LiabilityExcluded(d))
  }

  function HighCount(d: VendorContractData): nat
  {
    B2N(MissingAuditRights(d)) + B2N(UnindexedPriceAdjustment(d))
  }

  function MediumCount(d: VendorContractData): nat
  {
    B2N(ShortPaymentTerm(d))
  }

  // ---------------------------------------------------------------------------
  // The checks
  // ---------------------------------------------------------------------------

  const MissingWarrantyFinding := ClauseRisk(Other, Critical, 90, RequiresReview,
    "Fehlende Gewaehrleistung", "\U{00A7}\U{00A7} 434 ff. BGB")
  const ShortWarrantyFinding := ClauseRisk(Other, Critical, 85, RequiresReview,
    "Zu kurze Gewaehrleistungsfrist", "\U{00A7} 438 BGB")
  const LiabilityFinding := ClauseRisk(LiabilityCap, Critical, 95, Invalid,
    "Vollstaendiger Haftungsausschluss", "\U{00A7} 309 Nr. 7 BGB")
  const PaymentFinding := ClauseRisk(Other, Medium, 45, Valid,
    "Kurzes Zahlungsziel", "Marktstandard")
  const AuditFinding := ClauseRisk(Other, High, 60, Valid,
    "Fehlende Auditrechte", "Lieferkettensorgfaltspflichtengesetz (LkSG)")
  const PriceAdjustmentFinding := ClauseRisk(PriceAdjustment, High, 65, Valid,
    "Unbestimmte Preisanpassung", "\U{00A7} 307 BGB")

  /** The warranty check: a missing warranty (90) and a short one (85) are
      alternatives, so at most one CRITICAL finding results. */
  function CheckWarranty(d: VendorContractData): (r: seq<ClauseRisk>)
    ensures AtMostOne(r, Critical) && (r != [] <==> MissingWarranty(d) || ShortWarranty(d))
    ensures MissingWarranty(d) ==> r == [MissingWarrantyFinding]
    ensures ShortWarranty(d) ==> r == [ShortWarrantyFinding]
  {
    match d.warranty.durationMonths
    case None => [MissingWarrantyFinding]
    case Some(months) => if months < 12 then [ShortWarrantyFinding] else []
  }

  function CheckLiability(d: VendorContractData): (r: seq<ClauseRisk>)
    ensures AtMostOne(r, Critical) && (r != [] <==> LiabilityExcluded(d))
  {
    if Text.Lower(d.liability.capType.GetOr("")) == "excluded" then [LiabilityFinding] else []
  }

  function CheckPayment(d: VendorContractData): (r: seq<ClauseRisk>)
    ensures AtMostOne(r, Medium) && (r != [] <==> ShortPaymentTerm(d))
  {
    match d.payment.paymentDays
    case Some(days) => if days != 0 && days < 14 then [PaymentFinding] else []
    case None => []
  }

  function CheckAuditRights(d: VendorContractData): (r: seq<ClauseRisk>)
    ensures AtMostOne(r, High) && (r != [] <==> MissingAuditRights(d))
  {
    if !Truthy(d.quality.auditRights) then [AuditFinding] else []
  }

  function CheckPriceAdjustment(d: VendorContractData): (r: seq<ClauseRisk>)
    ensures AtMostOne(r, High) && (r != [] <==> UnindexedPriceAdjustment(d))
  {
    if Truthy(d.pricing.priceAdjustmentClause) && !Truthy(d.pricing.priceAdjustmentIndex)
    then [PriceAdjustmentFinding] else []
  }

  // ---------------------------------------------------------------------------
  // The assessment
  // ---------------------------------------------------------------------------

  /** The findings of one run, in the order the five checks append them. */
  function Findings(d: VendorContractData): (r: seq<ClauseRisk>)
    ensures |r| == CriticalCount(d) + HighCount(d) + MediumCount(d)
  {
    CheckWarranty(d) + CheckLiability(d) + CheckPayment(d) + CheckAuditRights(d) + CheckPriceAdjustment(d)
  }

  /** The findings, counted per bucket, with each check's count named. */
  lemma CountsOfChecks(d: VendorContractData, l: RiskLevel)
    ensures Count(Findings(d), l)
         == B2N((MissingWarranty(d) || ShortWarranty(d)) && Critical == l) + B2N(LiabilityExcluded(d) && Critical == l)
          + B2N(ShortPaymentTerm(d) && Medium == l)
          + B2N(MissingAuditRights(d) && High == l) + B2N(UnindexedPriceAdjustment(d) && High == l)
  {
    CountChecks5(CheckWarranty(d), CheckLiability(d), CheckPayment(d), CheckAuditRights(d), CheckPriceAdjustment(d),
                 Critical, Critical, Medium, High, High,
                 MissingWarranty(d) || ShortWarranty(d), LiabilityExcluded(d), ShortPaymentTerm(d),
                 MissingAuditRights(d), UnindexedPriceAdjustment(d), l);
  }

  lemma CriticalFindings(d: VendorContractData)
    ensures Count(Findings(d), Critical) == CriticalCount(d)
  {
    CountsOfChecks(d, Critical);
  }

  lemma HighFindings(d: VendorContractData)
    ensures Count(Findings(d), High) == HighCount(d)
  {
    CountsOfChecks(d, High);
  }

  lemma MediumFindings(d: VendorContractData)
    ensures Count(Findings(d), Medium) == MediumCount(d)
  {
    CountsOfChecks(d, Medium);
  }

  /** The bucket sizes are the rule counts; nothing is LOW or MINIMAL. */
  lemma FindingCounts(d: VendorContractData)
    ensures Count(Findings(d), Critical) == CriticalCount(d)
    ensures Count(Findings(d), High) == HighCount(d)
    ensures Count(Findings(d), Medium) == MediumCount(d)
    ensures Count(Findings(d), Low) == 0 && Count(Findings(d), Minimal) == 0
  {
    CriticalFindings(d);
    HighFindings(d);
    MediumFindings(d);
    CountsOfChecks(d, Low);
    CountsOfChecks(d, Minimal);
  }

  /** Every finding has a valid score and a level above LOW. */
  lemma FindingsScorable(d: VendorContractData)
    ensures Scorable(Findings(d))
  {
    var w, li, p, au, pr := CheckWarranty(d), CheckLiability(d), CheckPayment(d), CheckAuditRights(d), CheckPriceAdjustment(d);
    ScorableConcat(w, li);
    ScorableConcat(w + li, p);
    ScorableConcat(w + li + p, au);
    ScorableConcat(w + li + p + au, pr);
  }

  /** `assess_vendor_contract`: reset, run the five checks, aggregate over all
      four buckets. Returns the assessment and the scratch state after the call. */
  function AssessVendorContract(engine: Scratch, d: VendorContractData): (r: (Assessment, Scratch))
    ensures r.1 == Scratch(Findings(d), [])
    ensures |r.0.criticalRisks| == CriticalCount(d)
    ensures |r.0.highRisks| == HighCount(d)
    ensures |r.0.mediumRisks| == MediumCount(d)
    ensures r.0.lowRisks == []
    ensures r.0.overallRiskScore == WeightedScore(CriticalCount(d), HighCount(d), MediumCount(d))
    ensures InBand(r.0.overallRiskScore, r.0.overallRiskLevel)
    ensures r.0.missingClauses == []
    ensures ValidAssessment(r.0)
    ensures r.0.executiveSummary == SummaryFor(r.0.overallRiskLevel, |r.0.criticalRisks|, r.0.overallRiskScore)
  {
    var e := Scratch(Findings(d), []);
    FindingCounts(d);
    FindingsScorable(d);
    FilterAbsent(e.risks, Low);
    (Aggregate(AllBuckets, e.risks, e.missingClauses), e)
  }

  /** Nothing carries over between calls. */
  lemma NoCarryOver(e1: Scratch, e2: Scratch, d: VendorContractData)
    ensures AssessVendorContract(e1, d) == AssessVendorContract(e2, d)
  {
  }

  /** Every finding is in exactly the bucket of its level. */
  lemma VendorBuckets(e: Scratch, d: VendorContractData)
    ensures var a := AssessVendorContract(e, d).0;
      multiset(a.criticalRisks + a.highRisks + a.mediumRisks + a.lowRisks) == multiset(Findings(d))
  {
    FindingsScorable(d);
    AggregatePartition(Findings(d), []);
  }

  /** Every contract gets at least one CRITICAL finding or states a warranty of
      at least twelve months. */
  lemma WarrantyAlwaysJudged(e: Scratch, d: VendorContractData)
    ensures AssessVendorContract(e, d).0.criticalRisks != []
         || (d.warranty.durationMonths.Some? && d.warranty.durationMonths.value >= 12)
  {
  }

  /** The empty dictionary draws the missing-warranty and missing-audit-rights
      findings: score 40, MEDIUM. */
  lemma EmptyContract(e: Scratch)
    ensures var a := AssessVendorContract(e, EmptyVendorContract()).0;
      && a.overallRiskScore == 40 && a.overallRiskLevel == Medium
      && |a.criticalRisks| == 1 && |a.highRisks| == 1 && a.mediumRisks == []
  {
    var d := EmptyVendorContract();
    assert Text.Lower("") == "";
    assert CriticalCount(d) == 1 && HighCount(d) == 1 && MediumCount(d) == 0;
  }

  /** A six-month warranty, a 10-day payment term and an unindexed price
      clause, with no audit rights: one CRITICAL, two HIGH and one MEDIUM
      finding, score 63, HIGH. */
  lemma ShortWarrantyScenario(e: Scratch)
    ensures var d := EmptyVendorContract().(warranty := Warranty(Some(6)), payment := Payment(Some(10)),
        pricing := VendorPricing(Some(Bool(true)), None));
      var a := AssessVendorContract(e, d).0;
      a.overallRiskScore == 63 && a.overallRiskLevel == High && a.executiveSummary == ElevatedSummary(63)
  {
    var d := EmptyVendorContract().(warranty := Warranty(Some(6)), payment := Payment(Some(10)),
        pricing := VendorPricing(Some(Bool(true)), None));
    assert Text.Lower("") == "";
    assert CriticalCount(d) == 1 && HighCount(d) == 2 && MediumCount(d) == 1;
  }

  /** The exclusion test ignores case: "Excluded" is flagged like "excluded". */
  lemma LiabilityIgnoresCase()
    ensures CheckLiability(EmptyVendorContract().(liability := VendorLiability(Some("Excluded")))) != []
  {
    var t := Text.Lower("Excluded");
    var expected := "excluded";
    assert forall i | 0 <= i < |t| :: t[i] == expected[i];
    assert t == expected;
  }

  /** Twelve months of warranty is enough; eleven is not. */
  lemma WarrantyBoundary(months: int)
    ensures CheckWarranty(EmptyVendorContract().(warranty := Warranty(Some(months)))) == [] <==> months >= 12
  {
  }
}
