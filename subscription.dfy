/** The subscription plans page: the Monthly/Yearly tabs, the plan cards
    they select, the feature list and the status colour. */
module Subscription {
  import opened Text
  import opened Seqs

  datatype Plan = Plan(id: int, plan: string, price: string, users: int, status: string)

  const SeededPlans: seq<Plan> := [
    Plan(1, "Monthly Basic", "$9.99", 45, "active"),
    Plan(2, "Monthly Pro", "$19.99", 28, "active"),
    Plan(3, "Yearly Basic", "$99.99", 15, "active"),
    Plan(4, "Yearly Pro", "$199.99", 8, "inactive")
  ]

  /** The plans shown: those whose name contains the billing type, exactly
      as typed (case matters), in order. */
  function ShownPlans(plans: seq<Plan>, billingType: string): (r: seq<Plan>)
    ensures forall p :: p in r <==> p in plans && Contains(p.plan, billingType)
    ensures IsSubsequence(r, plans)
  {
    FilterSpec(plans, (p: Plan) => Contains(p.plan, billingType));
    Filter(plans, (p: Plan) => Contains(p.plan, billingType))
  }

  /** The default tab shows the two monthly plans. */
  lemma DefaultTabShowsMonthlyPlans()
    ensures ShownPlans(SeededPlans, "Monthly") == SeededPlans[..2]
  {
    assert OccursAt("Monthly Basic", "Monthly", 0);
    assert OccursAt("Monthly Pro", "Monthly", 0);
    assert !Contains("Yearly Basic", "Monthly") by {
      forall i | 0 <= i <= 5 ensures !OccursAt("Yearly Basic", "Monthly", i) {
        FirstCharMismatch("Yearly Basic", "Monthly", i);
      }
    }
    assert !Contains("Yearly Pro", "Monthly") by {
      forall i | 0 <= i <= 3 ensures !OccursAt("Yearly Pro", "Monthly", i) {
        FirstCharMismatch("Yearly Pro", "Monthly", i);
      }
    }
  }

  /** The extra feature line of a plan card. */
  predicate HasPremiumFeatures(p: Plan) {
    Contains(p.plan, "Pro")
  }

  /** The feature list of a card. */
  function Features(p: Plan): (lines: seq<string>)
    ensures "Premium Features" in lines <==> HasPremiumFeatures(p)
    ensures |lines| >= 3 && lines[..3] == ["24/7 Support", "Cloud Storage", "Mobile App Access"]
    ensures |lines| == if HasPremiumFeatures(p) then 4 else 3
  {
    ["24/7 Support", "Cloud Storage", "Mobile App Access"]
      + (if HasPremiumFeatures(p) then ["Premium Features"] else [])
  }

  const Green := "#22c55e"
  const Red := "#ef4444"

  /** `getStatusColor`. */
  function StatusColor(status: string): (color: string)
    ensures color == Green <==> status == "active"
    ensures color == Red <==> status != "active"
  {
    if status == "active" then Green else Red
  }

  class SubscriptionPage {
    var billingType: string
    const subscriptions: seq<Plan>

    constructor ()
      ensures billingType == "Monthly" && subscriptions == SeededPlans
    {
      billingType := "Monthly";
      subscriptions := SeededPlans;
    }

    function Shown(): (r: seq<Plan>)
      reads this
      ensures IsSubsequence(r, subscriptions)
    {
      ShownPlans(subscriptions, billingType)
    }

    /** A tab click; the two tabs pass "Monthly" and "Yearly". */
    method ClickTab(tab: string)
      modifies this
      ensures billingType == tab
    {
      billingType := tab;
    }
  }
}
