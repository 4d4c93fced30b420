/** The medication-verification panel: the insurance status it derives from
    the local transaction log and the contract, the fallback coverage it
    computes for the five demo medications, the search decision tree and the
    purchase step. */
module MedicationVerification {
  import opened Wrappers
  import Sequences
  import Verification
  import Medications
  import opened Web3

  /** "Thirty days from now", as a fixed offset in milliseconds. */
  const PROJECTED_DURATION: int := 30 * 86_400_000

  const ENTER_ID := "Please enter a medication ID"
  const NOT_FOUND := "Medication not found. Please try one of the available medications."
  const PURCHASE_FAILED := "Failed to purchase medication: "

  datatype FallbackEntry = FallbackEntry(name: string, price: nat)

  /** The demo table used when the contract cannot answer; prices in wei
      (0.005, 0.01, 0.02, 0.025 and 0.004 ether). */
  const FallbackMedications: map<string, FallbackEntry> := map[
    "MED001" := FallbackEntry("Aspirin", 5_000_000_000_000_000),
    "MED002" := FallbackEntry("Amoxicillin", 10_000_000_000_000_000),
    "MED003" := FallbackEntry("Lipitor", 20_000_000_000_000_000),
    "MED004" := FallbackEntry("Insulin", 25_000_000_000_000_000),
    "MED005" := FallbackEntry("Ibuprofen", 4_000_000_000_000_000)
  ]

  /** The medication shown on the panel. */
  datatype MedicationInfo = MedicationInfo(id: string, name: string, price: nat)

  /** The coverage shown on the panel. */
  datatype CoverageView = CoverageView(originalPrice: nat, coveredPrice: nat, coPayAmount: nat, hasCoverage: bool)

  // ---------------------------------------------------------------------
  // Insurance status from the transaction log

  predicate IsInsurancePurchase(tx: Transaction)
  {
    tx.kind == INSURANCE_PURCHASE
  }

  predicate HasInsurancePurchase(log: seq<Transaction>)
  {
    exists i :: 0 <= i < |log| && IsInsurancePurchase(log[i])
  }

  /** The insurance purchases, in log order. */
  function InsurancePurchases(log: seq<Transaction>): (r: seq<Transaction>)
    ensures forall i :: 0 <= i < |r| ==> r[i] in log && IsInsurancePurchase(r[i])
    ensures forall i :: 0 <= i < |log| && IsInsurancePurchase(log[i]) ==> log[i] in r
    ensures |r| > 0 <==> HasInsurancePurchase(log)
    ensures Sequences.IsSubsequence(r, log)
  {
    var r := Sequences.Filter(log, IsInsurancePurchase);
    Sequences.FilterIsSubsequence(log, IsInsurancePurchase);
    assert |r| > 0 ==> r[0] in log;
    r
  }

  /** `details.planType`; a record without one yields the empty name. */
  function PlanTypeOf(tx: Transaction): string
  {
    match tx.details
    case InsuranceDetails(planType, _) => planType
    case MedicationDetails(_, _) => ""
  }

  /** Places `tx`, which came before every element of `sorted`, after the
      elements with a strictly later timestamp: the stable insertion step
      for the comparator `b.timestamp - a.timestamp`. */
  function InsertByTimestamp(tx: Transaction, sorted: seq<Transaction>): (r: seq<Transaction>)
    ensures |r| == |sorted| + 1
    ensures multiset(r) == multiset(sorted) + multiset{tx}
  {
    if sorted == [] || sorted[0].timestamp <= tx.timestamp then [tx] + sorted
    else
      assert sorted == [sorted[0]] + sorted[1..];
      [sorted[0]] + InsertByTimestamp(tx, sorted[1..])
  }

  /** A stable sort, most recent first. */
  function SortByTimestampDesc(s: seq<Transaction>): (r: seq<Transaction>)
    ensures |r| == |s|
    ensures multiset(r) == multiset(s)
  {
    if s == [] then []
    else
      assert s == [s[0]] + s[1..];
      InsertByTimestamp(s[0], SortByTimestampDesc(s[1..]))
  }

  ghost predicate DescendingByTimestamp(s: seq<Transaction>)
  {
    forall i, j :: 0 <= i < j < |s| ==> s[i].timestamp >= s[j].timestamp
  }

  /** Insertion adds no record later than a bound that the new record and
      the list both respect. */
  lemma InsertRespectsBound(tx: Transaction, sorted: seq<Transaction>, bound: int)
    requires tx.timestamp <= bound
    requires forall k :: 0 <= k < |sorted| ==> sorted[k].timestamp <= bound
    ensures forall k :: 0 <= k < |InsertByTimestamp(tx, sorted)| ==> InsertByTimestamp(tx, sorted)[k].timestamp <= bound
  {
    var r := InsertByTimestamp(tx, sorted);
    forall k | 0 <= k < |r|
      ensures r[k].timestamp <= bound
    {
      assert r[k] in multiset(r);
      if r[k] != tx {
        assert r[k] in multiset(sorted);
        var m :| 0 <= m < |sorted| && sorted[m] == r[k];
      }
    }
  }

  /** A record no older than any of a descending list can head it. */
  lemma ConsKeepsDescending(head: Transaction, rest: seq<Transaction>)
    requires DescendingByTimestamp(rest)
    requires forall k :: 0 <= k < |rest| ==> rest[k].timestamp <= head.timestamp
    ensures DescendingByTimestamp([head] + rest)
  {
    var r := [head] + rest;
    forall i, j | 0 <= i < j < |r|
      ensures r[i].timestamp >= r[j].timestamp
    {
      assert r[j] == rest[j - 1];
      if i > 0 {
        assert r[i] == rest[i - 1];
      }
    }
  }

  lemma {:induction false} InsertKeepsDescending(tx: Transaction, sorted: seq<Transaction>)
    requires DescendingByTimestamp(sorted)
    ensures DescendingByTimestamp(InsertByTimestamp(tx, sorted))
  {
    if sorted == [] || sorted[0].timestamp <= tx.timestamp {
      ConsKeepsDescending(tx, sorted);
    } else {
      var rest := InsertByTimestamp(tx, sorted[1..]);
      InsertKeepsDescending(tx, sorted[1..]);
      InsertRespectsBound(tx, sorted[1..], sorted[0].timestamp);
      ConsKeepsDescending(sorted[0], rest);
    }
  }

  /** The sort puts the records in descending timestamp order. */
  lemma {:induction false} SortIsDescending(s: seq<Transaction>)
    ensures DescendingByTimestamp(SortByTimestampDesc(s))
  {
    if s != [] {
      SortIsDescending(s[1..]);
      InsertKeepsDescending(s[0], SortByTimestampDesc(s[1..]));
    }
  }

  /** `s[k]` has the greatest timestamp, and every earlier record a smaller one. */
  ghost predicate IsLatest(s: seq<Transaction>, k: int)
  {
    0 <= k < |s| &&
    (forall j :: 0 <= j < |s| ==> s[j].timestamp <= s[k].timestamp) &&
    (forall j :: 0 <= j < k ==> s[j].timestamp < s[k].timestamp)
  }

  /** The head after an insertion: the new record unless the current
      head is strictly more recent. */
  lemma InsertHead(tx: Transaction, sorted: seq<Transaction>)
    requires sorted != []
    ensures InsertByTimestamp(tx, sorted)[0] == if sorted[0].timestamp <= tx.timestamp then tx else sorted[0]
  {
  }

  /** A first record at least as recent as the latest of the rest is the latest. */
  lemma LatestAtFront(s: seq<Transaction>, k: int)
    requires |s| >= 2 && IsLatest(s[1..], k) && s[k + 1].timestamp <= s[0].timestamp
    ensures IsLatest(s, 0)
  {
    forall j | 0 < j < |s| ensures s[j].timestamp <= s[0].timestamp {
      assert s[j] == s[1..][j - 1];
    }
  }

  /** A first record older than the latest of the rest leaves that one latest. */
  lemma LatestBehindFront(s: seq<Transaction>, k: int)
    requires |s| >= 2 && IsLatest(s[1..], k) && s[k + 1].timestamp > s[0].timestamp
    ensures IsLatest(s, k + 1)
  {
    forall j | 0 < j < |s| ensures s[j].timestamp <= s[k + 1].timestamp {
      assert s[j] == s[1..][j - 1];
    }
    forall j | 0 < j < k + 1 ensures s[j].timestamp < s[k + 1].timestamp {
      assert s[j] == s[1..][j - 1];
    }
  }

  /** The head of the sorted list is the earliest-appended record among
      those with the greatest timestamp. */
  lemma {:induction false} SortHeadIsFirstLatest(s: seq<Transaction>)
    requires s != []
    ensures exists k :: IsLatest(s, k) && SortByTimestampDesc(s)[0] == s[k]
  {
    if |s| == 1 {
      assert IsLatest(s, 0);
    } else {
      var rest := s[1..];
      SortHeadIsFirstLatest(rest);
      var k :| IsLatest(rest, k) && SortByTimestampDesc(rest)[0] == rest[k];
      InsertHead(s[0], SortByTimestampDesc(rest));
      assert rest[k] == s[k + 1];
      if s[k + 1].timestamp <= s[0].timestamp {
        LatestAtFront(s, k);
        assert SortByTimestampDesc(s)[0] == s[0];
      } else {
        LatestBehindFront(s, k);
        assert SortByTimestampDesc(s)[0] == s[k + 1];
      }
    }
  }

  /** The record `checkInsuranceFromTransactions` bases its status on: the
      head of the insurance purchases sorted most recent first. */
  function LatestInsurancePurchase(log: seq<Transaction>): (r: Option<Transaction>)
    ensures r.Some? <==> HasInsurancePurchase(log)
    ensures r.Some? ==> IsInsurancePurchase(r.value) && r.value in log
    ensures r.Some? ==> exists k :: IsLatest(InsurancePurchases(log), k) && r.value == InsurancePurchases(log)[k]
  {
    var purchases := InsurancePurchases(log);
    if |purchases| > 0 then
      SortHeadIsFirstLatest(purchases);
      Some(SortByTimestampDesc(purchases)[0])
    else
      None
  }

  /** The status projected from an insurance record: active, starting at
      the record's timestamp and ending thirty days after now, however old
      the record is. */
  function ProjectStatus(tx: Transaction, now: int): (ins: UserInsurance)
    ensures ins.isActive && ins.hasActiveInsurance
    ensures ins.planType == PlanTypeOf(tx) && ins.startDate == tx.timestamp
    ensures ins.endDate == now + PROJECTED_DURATION
  {
    UserInsurance(PlanTypeOf(tx), tx.timestamp, now + PROJECTED_DURATION, true, true)
  }

  /** The status `checkInsuranceFromTransactions` would set, if any. */
  function InsuranceFromTransactions(log: seq<Transaction>, now: int): (r: Option<UserInsurance>)
    ensures r.Some? <==> HasInsurancePurchase(log)
    ensures r.Some? ==> r.value.isActive && r.value.hasActiveInsurance &&
                        r.value.endDate == now + PROJECTED_DURATION
    ensures r.Some? ==> exists k :: IsLatest(InsurancePurchases(log), k) &&
                                   r.value.startDate == InsurancePurchases(log)[k].timestamp &&
                                   r.value.planType == PlanTypeOf(InsurancePurchases(log)[k])
  {
    match LatestInsurancePurchase(log)
    case Some(tx) => Some(ProjectStatus(tx, now))
    case None => None
  }

  /** Whether a status object reports active insurance. */
  predicate ReportsActive(insurance: Option<UserInsurance>)
  {
    insurance.Some? && insurance.value.hasActiveInsurance
  }

  /** `fetchUserInsurance`: the contract's status when it reports active
      insurance; otherwise (a failed call included) the status projected
      from the log; otherwise "no insurance". */
  function ReconcileInsurance(remote: Result<UserInsurance, string>, log: seq<Transaction>, now: int): (ins: UserInsurance)
    ensures remote.Success? && remote.value.hasActiveInsurance ==> ins == remote.value
    ensures ins.hasActiveInsurance <==>
              (remote.Success? && remote.value.hasActiveInsurance) || HasInsurancePurchase(log)
    ensures !(remote.Success? && remote.value.hasActiveInsurance) && HasInsurancePurchase(log) ==>
              Some(ins) == InsuranceFromTransactions(log, now)
    ensures !(remote.Success? && remote.value.hasActiveInsurance) && !HasInsurancePurchase(log) ==>
              ins == NoInsurance(now)
  {
    if remote.Success? && remote.value.hasActiveInsurance then remote.value
    else
      match InsuranceFromTransactions(log, now)
      case Some(projected) => projected
      case None => NoInsurance(now)
  }

  /** An active contract status is adopted whatever the log holds. */
  lemma RemoteActiveOverridesLog(remote: UserInsurance, log1: seq<Transaction>, log2: seq<Transaction>, now: int)
    requires remote.hasActiveInsurance
    ensures ReconcileInsurance(Success(remote), log1, now) == ReconcileInsurance(Success(remote), log2, now)
  {
  }

  /** A failed call and an inactive answer lead to the same status. */
  lemma FailureTreatedAsInactive(remote: UserInsurance, message: string, log: seq<Transaction>, now: int)
    requires !remote.hasActiveInsurance
    ensures ReconcileInsurance(Failure(message), log, now) == ReconcileInsurance(Success(remote), log, now)
  {
  }

  // ---------------------------------------------------------------------
  // Fallback coverage

  /** `handleFallbackMedication`'s coverage: the plan percentage when the
      held status reports active insurance, nothing covered otherwise. */
  function FallbackCoverage(price: nat, insurance: Option<UserInsurance>): (c: CoverageView)
    ensures c.originalPrice == price
    ensures c.coveredPrice + c.coPayAmount == price
    ensures c.hasCoverage == ReportsActive(insurance)
    ensures !c.hasCoverage ==> c.coveredPrice == 0 && c.coPayAmount == price
    ensures c.hasCoverage ==>
              var pct := Verification.CoveragePercentage(insurance.value.planType);
              c.coveredPrice * 100 <= price * pct < c.coveredPrice * 100 + 100
  {
    if ReportsActive(insurance) then
      var split := Verification.Split(price, Verification.CoveragePercentage(insurance.value.planType));
      CoverageView(price, split.coveredPrice, split.coPayAmount, true)
    else
      CoverageView(price, 0, price, false)
  }

  /** The details and coverage the fallback shows, for a demo medication. */
  function FallbackLookup(medicationId: string, insurance: Option<UserInsurance>): (r: Option<(MedicationInfo, CoverageView)>)
    ensures r.None? <==> medicationId !in FallbackMedications
    ensures r.Some? ==>
              var entry := FallbackMedications[medicationId];
              r.value.0 == MedicationInfo(medicationId, entry.name, entry.price) &&
              r.value.1 == FallbackCoverage(entry.price, insurance)
  {
    if medicationId in FallbackMedications then
      var entry := FallbackMedications[medicationId];
      Some((MedicationInfo(medicationId, entry.name, entry.price), FallbackCoverage(entry.price, insurance)))
    else
      None
  }

  /** The fallback table lists the same medications, names and prices as the
      catalogue endpoint, and computes the coverage the verification
      endpoint computes for the same plan. */
  lemma FallbackAgreesWithVerification(medicationId: string, insurance: UserInsurance,
                                       userAddress: string, contractAddress: string)
    requires medicationId in FallbackMedications
    requires userAddress != "" && contractAddress != ""
    ensures var entry := FallbackMedications[medicationId];
            exists i :: 0 <= i < |Medications.Catalogue| &&
                        Medications.Catalogue[i].id == medicationId &&
                        Medications.Catalogue[i].name == entry.name &&
                        Medications.Catalogue[i].originalPrice == entry.price
    ensures var entry := FallbackMedications[medicationId];
            var c := FallbackCoverage(entry.price, Some(insurance));
            var resp := Verification.Verify(
              Verification.Request(Some(medicationId), Some(userAddress), Some(contractAddress)),
              Verification.InsuranceOnFile(insurance.planType, insurance.hasActiveInsurance));
            resp.status == 200 && resp.body.CoverageBody? &&
            resp.body.coverage.originalPrice == c.originalPrice &&
            resp.body.coverage.coveredPrice == c.coveredPrice &&
            resp.body.coverage.coPayAmount == c.coPayAmount &&
            resp.body.coverage.hasCoverage == c.hasCoverage
  {
    var cat := Medications.Catalogue;
    if medicationId == "MED001" {
      assert cat[0].id == medicationId;
    } else if medicationId == "MED002" {
      assert cat[1].id == medicationId;
    } else if medicationId == "MED003" {
      assert cat[2].id == medicationId;
    } else if medicationId == "MED004" {
      assert cat[3].id == medicationId;
    } else {
      assert cat[4].id == medicationId;
    }
  }

  // ---------------------------------------------------------------------
  // Search and purchase decisions

  /** The remote calls a search makes, in order. */
  datatype RemoteCall = AvailabilityCheck | DetailsLookup | CoverageLookup

  datatype SearchOutcome =
    | MissingId
    | UnknownMedication
    | FromContract(details: MedicationInfo, coverage: CoverageView)
    | FromFallback(details: MedicationInfo, coverage: CoverageView)

  /** `handleMedicationSearch`'s decision tree: an empty id stops at once;
      an id outside the demo table is rejected without a remote call;
      otherwise the contract is asked for availability, details and
      coverage, and any negative or failed answer falls back to the table. */
  function Search(medicationId: string, insurance: Option<UserInsurance>, available: bool,
                  details: Result<MedicationInfo, string>, coverage: Result<CoverageView, string>)
    : (r: (SearchOutcome, seq<RemoteCall>))
    ensures r.0 == MissingId <==> medicationId == ""
    ensures r.0 == UnknownMedication <==> medicationId != "" && medicationId !in FallbackMedications
    ensures r.0.FromContract? <==>
              medicationId in FallbackMedications && available && details.Success? && coverage.Success?
    ensures r.0.FromContract? ==> r.0.details == details.value && r.0.coverage == coverage.value
    ensures r.0.FromFallback? ==> FallbackLookup(medicationId, insurance) == Some((r.0.details, r.0.coverage))
    ensures r.1 == [] <==> medicationId !in FallbackMedications
    ensures AvailabilityCheck in r.1 <==> medicationId in FallbackMedications
    ensures DetailsLookup in r.1 <==> medicationId in FallbackMedications && available
    ensures CoverageLookup in r.1 <==> medicationId in FallbackMedications && available && details.Success?
  {
    if medicationId == "" then (MissingId, [])
    else if medicationId !in FallbackMedications then (UnknownMedication, [])
    else
      var fallback := FallbackLookup(medicationId, insurance).value;
      if !available then (FromFallback(fallback.0, fallback.1), [AvailabilityCheck])
      else if details.Failure? then (FromFallback(fallback.0, fallback.1), [AvailabilityCheck, DetailsLookup])
      else if coverage.Failure? then
        (FromFallback(fallback.0, fallback.1), [AvailabilityCheck, DetailsLookup, CoverageLookup])
      else
        (FromContract(details.value, coverage.value), [AvailabilityCheck, DetailsLookup, CoverageLookup])
  }

  /** The amount sent with a purchase: the co-pay when covered, the full
      price otherwise. */
  function PurchaseAmount(c: CoverageView): (amount: nat)
    ensures c.hasCoverage ==> amount == c.coPayAmount
    ensures !c.hasCoverage ==> amount == c.originalPrice
  {
    if c.hasCoverage then c.coPayAmount else c.originalPrice
  }

  /** With fallback coverage the amount due never exceeds the price, and
      equals the price less the covered share. */
  lemma AmountDueNeverExceedsPrice(price: nat, insurance: Option<UserInsurance>)
    ensures PurchaseAmount(FallbackCoverage(price, insurance)) <= price
    ensures PurchaseAmount(FallbackCoverage(price, insurance)) == price - FallbackCoverage(price, insurance).coveredPrice
  {
  }

  // ---------------------------------------------------------------------
  // The status banner

  datatype InsuranceBanner = ActiveInsurance(planType: string) | NoActiveInsurance

  /** `renderInsuranceStatus`: active when the log holds any insurance
      purchase or the held status reports active insurance; the plan shown
      is the held one when active, else that of the first insurance record
      in log order. */
  function RenderInsuranceStatus(log: seq<Transaction>, insurance: Option<UserInsurance>): (b: InsuranceBanner)
    ensures b.ActiveInsurance? <==> HasInsurancePurchase(log) || ReportsActive(insurance)
    ensures ReportsActive(insurance) ==> b == ActiveInsurance(insurance.value.planType)
    ensures !ReportsActive(insurance) && HasInsurancePurchase(log) ==>
              exists i :: 0 <= i < |log| && IsInsurancePurchase(log[i]) &&
                          (forall j :: 0 <= j < i ==> !IsInsurancePurchase(log[j])) &&
                          b == ActiveInsurance(PlanTypeOf(log[i]))
  {
    var purchases := InsurancePurchases(log);
    if |purchases| > 0 || ReportsActive(insurance) then
      ActiveInsurance(
        if ReportsActive(insurance) then insurance.value.planType
        else if |purchases| > 0 then
          FirstInsuranceIsHead(log);
          PlanTypeOf(purchases[0])
        else "Unknown")
    else
      NoActiveInsurance
  }

  lemma FirstInsuranceIsHead(log: seq<Transaction>)
    requires HasInsurancePurchase(log)
    ensures exists i :: 0 <= i < |log| && IsInsurancePurchase(log[i]) &&
                        (forall j :: 0 <= j < i ==> !IsInsurancePurchase(log[j])) &&
                        InsurancePurchases(log)[0] == log[i]
  {
    var k :| 0 <= k < |log| && IsInsurancePurchase(log[k]);
    var i := 0;
    while !IsInsurancePurchase(log[i])
      invariant 0 <= i <= k
      invariant forall j :: 0 <= j < i ==> !IsInsurancePurchase(log[j])
      decreases k - i
    {
      i := i + 1;
    }
    Sequences.FilterFirst(log, IsInsurancePurchase, i);
  }

  /** Once the held status is the reconciled one, the banner shows exactly
      that status. */
  lemma RenderAgreesWithReconciledStatus(remote: Result<UserInsurance, string>, log: seq<Transaction>, now: int)
    ensures var ins := ReconcileInsurance(remote, log, now);
            RenderInsuranceStatus(log, Some(ins)) ==
              if ins.hasActiveInsurance then ActiveInsurance(ins.planType) else NoActiveInsurance
  {
  }

  /** Before a status is held, the banner names the first insurance record
      while the log projection names the latest: a Basic purchase followed
      by a Premium one shows Basic, though the projection is Premium. */
  lemma RenderShowsFirstNotLatest(now: int)
    ensures var log := [Transaction("0x01", INSURANCE_PURCHASE, InsuranceDetails("Basic", 10_000_000_000_000_000), 1000),
                        Transaction("0x02", INSURANCE_PURCHASE, InsuranceDetails("Premium", 30_000_000_000_000_000), 2000)];
            RenderInsuranceStatus(log, None) == ActiveInsurance("Basic") &&
            ReconcileInsurance(Failure("unreachable"), log, now).planType == "Premium"
  {
    var log := [Transaction("0x01", INSURANCE_PURCHASE, InsuranceDetails("Basic", 10_000_000_000_000_000), 1000),
                Transaction("0x02", INSURANCE_PURCHASE, InsuranceDetails("Premium", 30_000_000_000_000_000), 2000)];
    assert IsInsurancePurchase(log[0]) && IsInsurancePurchase(log[1]);
    assert Sequences.Filter(log[1..], IsInsurancePurchase) == [log[1]] + Sequences.Filter(log[2..], IsInsurancePurchase);
    assert InsurancePurchases(log) == log;
    assert SortByTimestampDesc(log[1..]) == [log[1]];
    assert SortByTimestampDesc(log) == [log[1], log[0]];
  }

  // ---------------------------------------------------------------------
  // The panel's state and its handlers

  /** The component's state variables and the handlers that set them. */
  class VerificationPanel {
    var medicationId: string
    var medicationDetails: Option<MedicationInfo>
    var coverage: Option<CoverageView>
    var userInsurance: Option<UserInsurance>
    var loading: bool
    var purchasing: bool
    var error: string

    constructor ()
      ensures medicationId == "" && medicationDetails.None? && coverage.None? && userInsurance.None?
      ensures !loading && !purchasing && error == ""
    {
      medicationId := "";
      medicationDetails := None;
      coverage := None;
      userInsurance := None;
      loading := false;
      purchasing := false;
      error := "";
    }

    /** `checkInsuranceFromTransactions`: sets the projected status from the
        latest insurance record and reports whether there was one. */
    method CheckInsuranceFromTransactions(session: Web3Session, now: int) returns (found: bool)
      modifies this`userInsurance
      ensures found == HasInsurancePurchase(session.TransactionHistory())
      ensures found ==> userInsurance == InsuranceFromTransactions(session.TransactionHistory(), now)
      ensures !found ==> userInsurance == old(userInsurance)
    {
      var transactions := session.TransactionHistory();
      var insurancePurchases := InsurancePurchases(transactions);
      if |insurancePurchases| > 0 {
        var sorted := SortByTimestampDesc(insurancePurchases);
        var latest := sorted[0];
        userInsurance := Some(ProjectStatus(latest, now));
        return true;
      }
      return false;
    }

    /** `fetchUserInsurance`, given the awaited answer of `getUserInsurance`. */
    method FetchUserInsurance(session: Web3Session, fetched: Result<UserInsurance, string>, now: int)
      modifies this`userInsurance
      ensures userInsurance == Some(ReconcileInsurance(fetched, session.TransactionHistory(), now))
    {
      if fetched.Success? && fetched.value.hasActiveInsurance {
        userInsurance := Some(fetched.value);
      } else {
        var found := CheckInsuranceFromTransactions(session, now);
        if !found {
          userInsurance := Some(NoInsurance(now));
        }
      }
    }

    /** `handleFallbackMedication`: shows the demo table's details and the
        coverage computed from the held status; an id outside the table
        changes nothing. */
    method HandleFallbackMedication(medId: string)
      modifies this`medicationDetails, this`coverage
      ensures match FallbackLookup(medId, userInsurance)
              case Some(found) => medicationDetails == Some(found.0) && coverage == Some(found.1)
              case None => medicationDetails == old(medicationDetails) && coverage == old(coverage)
    {
      if medId in FallbackMedications {
        var fallbackMed := FallbackMedications[medId];
        medicationDetails := Some(MedicationInfo(medId, fallbackMed.name, fallbackMed.price));
        coverage := Some(FallbackCoverage(fallbackMed.price, userInsurance));
      }
    }

    /** `handleMedicationSearch`, given the answers of the three remote
        calls; returns the calls actually made. */
    method HandleMedicationSearch(available: bool, details: Result<MedicationInfo, string>,
                                  coverageAnswer: Result<CoverageView, string>)
      returns (calls: seq<RemoteCall>)
      modifies this`medicationDetails, this`coverage, this`loading, this`error
      ensures var r := Search(old(medicationId), old(userInsurance), available, details, coverageAnswer);
              calls == r.1 &&
              match r.0
              case MissingId =>
                error == ENTER_ID && loading == old(loading) &&
                medicationDetails == old(medicationDetails) && coverage == old(coverage)
              case UnknownMedication =>
                error == NOT_FOUND && !loading && medicationDetails.None? && coverage.None?
              case FromContract(d, c) =>
                error == "" && !loading && medicationDetails == Some(d) && coverage == Some(c)
              case FromFallback(d, c) =>
                error == "" && !loading && medicationDetails == Some(d) && coverage == Some(c)
    {
      calls := [];
      if medicationId == "" {
        error := ENTER_ID;
        return;
      }
      loading := true;
      error := "";
      medicationDetails := None;
      coverage := None;
      if medicationId in FallbackMedications {
        calls := [AvailabilityCheck];
        if available {
          calls := calls + [DetailsLookup];
          if details.Success? {
            medicationDetails := Some(details.value);
            calls := calls + [CoverageLookup];
            if coverageAnswer.Success? {
              coverage := Some(coverageAnswer.value);
            } else {
              HandleFallbackMedication(medicationId);
            }
          } else {
            HandleFallbackMedication(medicationId);
          }
        } else {
          HandleFallbackMedication(medicationId);
        }
      } else {
        error := NOT_FOUND;
      }
      loading := false;
    }

    /** `handlePurchase`: pays the amount due for the shown medication; on
        success the form is cleared, on failure the error is shown behind a
        second copy of the prefix. Nothing happens unless details and
        coverage are shown. */
    method HandlePurchase(session: Web3Session, walletInstalled: bool, submission: Result<string, string>,
                          confirmation: Result<Receipt, string>, now: int)
      modifies this, session
      ensures old(medicationDetails.None? || coverage.None?) ==>
                medicationId == old(medicationId) && medicationDetails == old(medicationDetails) &&
                coverage == old(coverage) && error == old(error) && purchasing == old(purchasing) &&
                session.storage == old(session.storage) && session.contractAddress == old(session.contractAddress)
      ensures old(medicationDetails.Some? && coverage.Some?) ==>
                var r := Purchase(session.codec,
                                  ContractFor(walletInstalled, old(session.contractAddress), old(session.storage)),
                                  old(session.storage), MEDICATION_PURCHASE,
                                  MedicationDetails(old(medicationId), PurchaseAmount(old(coverage.value))),
                                  submission, confirmation, now, MEDICATION_FAILED);
                session.storage == r.storage && !purchasing &&
                session.contractAddress ==
                  AddressAfterContract(walletInstalled, old(session.contractAddress), old(session.storage)) &&
                (r.outcome.Success? ==>
                   medicationId == "" && medicationDetails.None? && coverage.None? && error == old(error)) &&
                (r.outcome.Failure? ==>
                   medicationId == old(medicationId) && medicationDetails == old(medicationDetails) &&
                   coverage == old(coverage) && error == PURCHASE_FAILED + r.outcome.error)
      ensures userInsurance == old(userInsurance) && loading == old(loading)
    {
      if medicationDetails.None? || coverage.None? {
        return;
      }
      purchasing := true;
      var amount := PurchaseAmount(coverage.value);
      var outcome := session.PurchaseMedication(walletInstalled, medicationId, amount, submission, confirmation, now);
      if outcome.Success? {
        medicationId := "";
        medicationDetails := None;
        coverage := None;
      } else {
        error := PURCHASE_FAILED + outcome.error;
      }
      purchasing := false;
    }
  }
}
