/** The insurance plan endpoint: a constant three-plan table whose durations
    are stored in seconds and listed in days. */
module Plans {
  import opened Wrappers
  import Verification

  datatype InsurancePlan = InsurancePlan(
    planType: string,
    coveragePercentage: nat,
    price: nat,         // wei
    duration: nat,      // seconds
    description: string,
    isActive: bool)

  /** A plan as listed: price formatted, duration in days. */
  datatype PlanView = PlanView(
    planType: string,
    coveragePercentage: nat,
    price: string,
    duration: nat,      // days
    description: string,
    isActive: bool)

  const SECONDS_PER_DAY: nat := 24 * 60 * 60
  const PLAN_DURATION: nat := 30 * 24 * 60 * 60

  /** Prices are 0.01, 0.02 and 0.03 ether. */
  const InsurancePlans: seq<InsurancePlan> := [
    InsurancePlan("Basic", 60, 10_000_000_000_000_000, PLAN_DURATION,
                  "Basic coverage for essential medications", true),
    InsurancePlan("Standard", 80, 20_000_000_000_000_000, PLAN_DURATION,
                  "Standard coverage for most medications", true),
    InsurancePlan("Premium", 90, 30_000_000_000_000_000, PLAN_DURATION,
                  "Premium coverage for all medications including specialized treatments", true)
  ]

  /** `seconds / (24 * 60 * 60)` for a whole number of days. */
  function SecondsToDays(seconds: nat): (days: nat)
    requires seconds % SECONDS_PER_DAY == 0
    ensures days * SECONDS_PER_DAY == seconds
  {
    seconds / SECONDS_PER_DAY
  }

  predicate WholeDays(plan: InsurancePlan)
  {
    plan.duration % SECONDS_PER_DAY == 0
  }

  /** `{...plan, price: formatEther(plan.price), duration: plan.duration / 86400}`. */
  function View(plan: InsurancePlan, formatEther: nat -> string): (v: PlanView)
    requires WholeDays(plan)
    ensures v.planType == plan.planType && v.coveragePercentage == plan.coveragePercentage
    ensures v.description == plan.description && v.isActive == plan.isActive
    ensures v.price == formatEther(plan.price)
    ensures v.duration * SECONDS_PER_DAY == plan.duration
  {
    PlanView(plan.planType, plan.coveragePercentage, formatEther(plan.price),
             SecondsToDays(plan.duration), plan.description, plan.isActive)
  }

  /** The table: Basic, Standard, Premium at 60, 80 and 90 percent, each
      lasting 30 days of 86400 seconds. */
  lemma PlanTable()
    ensures |InsurancePlans| == 3
    ensures InsurancePlans[0].planType == "Basic" && InsurancePlans[0].coveragePercentage == 60
    ensures InsurancePlans[1].planType == "Standard" && InsurancePlans[1].coveragePercentage == 80
    ensures InsurancePlans[2].planType == "Premium" && InsurancePlans[2].coveragePercentage == 90
    ensures forall p :: p in InsurancePlans ==>
              p.coveragePercentage <= 100 && p.duration == 2_592_000 && WholeDays(p) && p.isActive
  {
  }

  /** The GET answer: every plan, in table order, reformatted. */
  function ListPlans(formatEther: nat -> string): (r: seq<PlanView>)
    ensures |r| == |InsurancePlans|
    ensures forall i :: 0 <= i < |r| ==> r[i] == View(InsurancePlans[i], formatEther)
  {
    PlanTable();
    seq(|InsurancePlans|, i requires 0 <= i < |InsurancePlans| => View(InsurancePlans[i], formatEther))
  }

  /** Every listed plan lasts 30 days. */
  lemma ListedDurationIsThirtyDays(formatEther: nat -> string)
    ensures forall v :: v in ListPlans(formatEther) ==> v.duration == 30
  {
    PlanTable();
    var r := ListPlans(formatEther);
    forall v | v in r ensures v.duration == 30 {
      var i :| 0 <= i < |r| && r[i] == v;
      assert v.duration * SECONDS_PER_DAY == 2_592_000;
    }
  }

  /** The plan of a given name, searching the table from the front. */
  function PlanNamed(planType: string): (r: Option<InsurancePlan>)
    ensures r.Some? ==> r.value in InsurancePlans && r.value.planType == planType
    ensures r.None? ==> forall p :: p in InsurancePlans ==> p.planType != planType
  {
    FindPlan(InsurancePlans, planType)
  }

  function FindPlan(plans: seq<InsurancePlan>, planType: string): (r: Option<InsurancePlan>)
    ensures r.Some? ==> r.value in plans && r.value.planType == planType
    ensures r.None? ==> forall p :: p in plans ==> p.planType != planType
  {
    if plans == [] then None
    else if plans[0].planType == planType then Some(plans[0])
    else FindPlan(plans[1..], planType)
  }

  /** The percentages in the plan table are the verification switch: a
      known plan name gets its table percentage, any other name gets 0. */
  lemma PercentageTableAgrees(planType: string)
    ensures Verification.CoveragePercentage(planType) ==
            (match PlanNamed(planType)
             case Some(plan) => plan.coveragePercentage
             case None => 0)
  {
    PlanTable();
    var found := PlanNamed(planType);
    if found.Some? {
      assert found.value == InsurancePlans[0] || found.value == InsurancePlans[1] || found.value == InsurancePlans[2];
    } else {
      assert planType != InsurancePlans[0].planType;
      assert planType != InsurancePlans[1].planType;
      assert planType != InsurancePlans[2].planType;
    }
  }
}
