/** The coverage endpoint: `calculateCoverage` and the POST handler of the
    verification API. Amounts are integers in wei, as the source keeps them
    in big-number form until they are formatted for the response. */
module Verification {
  import opened Wrappers

  const BASIC := "Basic"
  const STANDARD := "Standard"
  const PREMIUM := "Premium"

  /** The switch on the plan name that gives the share the insurer pays. */
  function CoveragePercentage(planType: string): (pct: nat)
    ensures pct <= 100
    ensures pct == 60 <==> planType == BASIC
    ensures pct == 80 <==> planType == STANDARD
    ensures pct == 90 <==> planType == PREMIUM
    ensures pct == 0 <==> planType !in {BASIC, STANDARD, PREMIUM}
  {
    if planType == BASIC then 60
    else if planType == STANDARD then 80
    else if planType == PREMIUM then 90
    else 0
  }

  datatype Coverage = Coverage(originalPrice: nat, coveredPrice: nat, coPayAmount: nat, coveragePercentage: nat)

  /** `price.mul(pct).div(100)` and `price.sub(covered)`: the covered part is
      the truncated quotient, and the co-pay is what is left of the price. */
  function Split(originalPrice: nat, pct: nat): (c: Coverage)
    requires pct <= 100
    ensures c.originalPrice == originalPrice && c.coveragePercentage == pct
    ensures c.coveredPrice + c.coPayAmount == originalPrice
    ensures c.coveredPrice * 100 <= originalPrice * pct < c.coveredPrice * 100 + 100
  {
    assert originalPrice * pct <= originalPrice * 100;
    var covered := originalPrice * pct / 100;
    Coverage(originalPrice, covered, originalPrice - covered, pct)
  }

  /** `calculateCoverage(originalPrice, planType)`. */
  function CalculateCoverage(originalPrice: nat, planType: string): (c: Coverage)
    ensures c.originalPrice == originalPrice
    ensures c.coveragePercentage == CoveragePercentage(planType) <= 100
    ensures c.coveredPrice + c.coPayAmount == originalPrice
    ensures c.coveredPrice * 100 <= originalPrice * c.coveragePercentage < c.coveredPrice * 100 + 100
  {
    Split(originalPrice, CoveragePercentage(planType))
  }

  /** The bracket in Split's contract pins the covered amount down: no other
      amount is the truncated share. */
  lemma CoveredIsTheTruncatedShare(originalPrice: nat, pct: nat, covered: nat)
    requires pct <= 100
    requires covered * 100 <= originalPrice * pct < covered * 100 + 100
    ensures covered == Split(originalPrice, pct).coveredPrice
  {
    var other := Split(originalPrice, pct).coveredPrice;
    assert (covered - other) * 100 < 100 && (other - covered) * 100 < 100;
  }

  /** No coverage leaves the whole price to the buyer, full coverage leaves
      nothing, and a free medication costs nothing under any plan. */
  lemma SplitEdgeCases(originalPrice: nat, pct: nat)
    requires pct <= 100
    ensures Split(originalPrice, 0) == Coverage(originalPrice, 0, originalPrice, 0)
    ensures Split(originalPrice, 100) == Coverage(originalPrice, originalPrice, 0, 100)
    ensures Split(0, pct) == Coverage(0, 0, 0, pct)
  {
  }

  // ---------------------------------------------------------------------
  // The POST handler

  /** The body fields the handler reads; an absent field is `None`. */
  datatype Request = Request(medicationId: Option<string>, userAddress: Option<string>, contractAddress: Option<string>)

  /** The insurance record the handler assumes for the user. */
  datatype InsuranceOnFile = InsuranceOnFile(planType: string, isActive: bool)

  datatype CoverageReport = CoverageReport(originalPrice: nat, coveredPrice: nat, coPayAmount: nat, coveragePercentage: nat, hasCoverage: bool)

  datatype Body =
    | CoverageBody(coverage: CoverageReport)
    | ErrorBody(error: string)
      /** A TypeError raised inside the handler and caught by its `catch`;
          the message text is not modelled. */
    | ServerError

  datatype Response = Response(status: nat, body: Body)

  const MISSING_PARAMETERS := "Missing required parameters"
  const MEDICATION_NOT_FOUND := "Medication not found"

  /** The simulated price table: 0.005, 0.01, 0.02, 0.025 and 0.004 ether. */
  const MedicationPrices: map<string, nat> := map[
    "MED001" := 5_000_000_000_000_000,
    "MED002" := 10_000_000_000_000_000,
    "MED003" := 20_000_000_000_000_000,
    "MED004" := 25_000_000_000_000_000,
    "MED005" := 4_000_000_000_000_000
  ]

  /** The hard-coded user: an active Standard plan. */
  const DemoInsurance := InsuranceOnFile(STANDARD, true)

  /** A body field is truthy: present and not the empty string. */
  predicate Present(field: Option<string>)
  {
    field.Some? && field.value != ""
  }

  predicate HasRequiredFields(req: Request)
  {
    Present(req.medicationId) && Present(req.userAddress) && Present(req.contractAddress)
  }

  /** The coverage object for a known price: calculated from the plan when
      the insurance is active, otherwise nothing covered. */
  function Report(originalPrice: nat, insurance: InsuranceOnFile): (r: CoverageReport)
    ensures r.originalPrice == originalPrice
    ensures r.coveredPrice + r.coPayAmount == originalPrice
    ensures r.hasCoverage == insurance.isActive
    ensures !insurance.isActive ==> r.coveredPrice == 0 && r.coPayAmount == originalPrice && r.coveragePercentage == 0
    ensures insurance.isActive ==> r.coveragePercentage == CoveragePercentage(insurance.planType)
    ensures r.coveredPrice * 100 <= originalPrice * r.coveragePercentage < r.coveredPrice * 100 + 100
  {
    if insurance.isActive then
      var c := CalculateCoverage(originalPrice, insurance.planType);
      CoverageReport(c.originalPrice, c.coveredPrice, c.coPayAmount, c.coveragePercentage, insurance.isActive)
    else
      CoverageReport(originalPrice, 0, originalPrice, 0, insurance.isActive)
  }

  /** The handler's decision: missing fields, then an unknown medication,
      then the coverage record. The table is consulted through its own
      keys only (see VerifyAsWritten for the lookup the source performs). */
  function Verify(req: Request, insurance: InsuranceOnFile): (resp: Response)
    ensures !HasRequiredFields(req) <==> resp == Response(400, ErrorBody(MISSING_PARAMETERS))
    ensures (HasRequiredFields(req) && req.medicationId.value !in MedicationPrices)
            <==> resp == Response(404, ErrorBody(MEDICATION_NOT_FOUND))
    ensures resp.status == 200 <==> HasRequiredFields(req) && req.medicationId.value in MedicationPrices
    ensures resp.status == 200 ==>
              resp.body.CoverageBody? &&
              resp.body.coverage == Report(MedicationPrices[req.medicationId.value], insurance)
    ensures resp.status in {200, 400, 404}
  {
    if !HasRequiredFields(req) then
      Response(400, ErrorBody(MISSING_PARAMETERS))
    else if req.medicationId.value !in MedicationPrices then
      Response(404, ErrorBody(MEDICATION_NOT_FOUND))
    else
      Response(200, CoverageBody(Report(MedicationPrices[req.medicationId.value], insurance)))
  }

  /** The deployed handler, as written, with its simulated insurance
      record: every 200 answer is Standard coverage, and only an inherited
      property name differs from the corrected `Verify`. */
  function HandleVerification(req: Request): (resp: Response)
    ensures resp.status == 200 ==> resp.body.CoverageBody? && resp.body.coverage.hasCoverage
                                   && resp.body.coverage.coveragePercentage == 80
    ensures resp.status == 500 <==> HasRequiredFields(req) && req.medicationId.value in InheritedProperties
    ensures resp.status != 500 ==> resp == Verify(req, DemoInsurance)
  {
    VerifyAsWritten(req, DemoInsurance)
  }

  /** MED001 costs 5e15 wei; the Standard plan covers 4e15 of it. */
  lemma WorkedExampleMed001(userAddress: string, contractAddress: string)
    requires userAddress != "" && contractAddress != ""
    ensures HandleVerification(Request(Some("MED001"), Some(userAddress), Some(contractAddress)))
            == Response(200, CoverageBody(CoverageReport(5_000_000_000_000_000, 4_000_000_000_000_000,
                                                         1_000_000_000_000_000, 80, true)))
  {
  }

  /** Without active insurance every known medication is paid in full. */
  lemma {:induction false} InactiveInsurancePaysInFull(req: Request, planType: string)
    requires Verify(req, InsuranceOnFile(planType, false)).status == 200
    ensures var r := Verify(req, InsuranceOnFile(planType, false)).body.coverage;
            r.coveredPrice == 0 && r.coPayAmount == r.originalPrice && r.coveragePercentage == 0 && !r.hasCoverage
  {
  }

  // ---------------------------------------------------------------------
  // The lookup as the source writes it

  /** Names every plain JavaScript object inherits from Object.prototype, so
      that `medications[name]` is truthy although the table has no such key. */
  const InheritedProperties: set<string> := {
    "constructor", "__proto__", "hasOwnProperty", "isPrototypeOf", "propertyIsEnumerable",
    "toLocaleString", "toString", "valueOf",
    "__defineGetter__", "__defineSetter__", "__lookupGetter__", "__lookupSetter__"
  }

  datatype Lookup = OwnEntry(price: nat) | InheritedMember | NoEntry

  /** `medications[medicationId]` on an object literal. */
  function LookupAsWritten(medicationId: string): Lookup
  {
    if medicationId in MedicationPrices then OwnEntry(MedicationPrices[medicationId])
    else if medicationId in InheritedProperties then InheritedMember
    else NoEntry
  }

  /** The handler as written: an inherited name passes the 404 check, its
      `.price` is undefined, and the next big-number call on it throws,
      which the handler's `catch` turns into a 500. */
  function VerifyAsWritten(req: Request, insurance: InsuranceOnFile): (resp: Response)
    ensures !HasRequiredFields(req) ==> resp == Verify(req, insurance)
    ensures HasRequiredFields(req) && req.medicationId.value !in InheritedProperties ==> resp == Verify(req, insurance)
    ensures HasRequiredFields(req) && req.medicationId.value in InheritedProperties ==> resp == Response(500, ServerError)
  {
    if !HasRequiredFields(req) then
      Response(400, ErrorBody(MISSING_PARAMETERS))
    else
      match LookupAsWritten(req.medicationId.value)
      case NoEntry => Response(404, ErrorBody(MEDICATION_NOT_FOUND))
      case InheritedMember => Response(500, ServerError)
      case OwnEntry(price) => Response(200, CoverageBody(Report(price, insurance)))
  }

  /** The id "constructor" is not a medication, yet the handler as written
      answers 500 instead of 404. */
  lemma ConstructorIdIsServerError(userAddress: string, contractAddress: string, insurance: InsuranceOnFile)
    requires userAddress != "" && contractAddress != ""
    ensures var req := Request(Some("constructor"), Some(userAddress), Some(contractAddress));
            VerifyAsWritten(req, insurance).status == 500 && Verify(req, insurance).status == 404
  {
    var req := Request(Some("constructor"), Some(userAddress), Some(contractAddress));
    assert "constructor" in InheritedProperties;
    assert "constructor" !in MedicationPrices;
  }
}
