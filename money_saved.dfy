/** The plan-savings calculation of the "Your Bottom Line" slide (the `useMemo` block and the
    section flags of `src/components/wrapped/slides/MoneySavedSlide.tsx`). Amounts are exact
    reals; the source computes with IEEE doubles. */
module MoneySaved {
  import opened Wrappers
  import opened Strings
  import opened Types

  // Plan classifiers, applied to the lower-cased account name.

  /** "standard", or a "meal" plan that is not a flex plan. */
  predicate IsStandardPlan(nameLower: string)
  {
    Contains(nameLower, "standard") || (Contains(nameLower, "meal") && !Contains(nameLower, "flex"))
  }

  predicate IsFlexPlan(nameLower: string) { Contains(nameLower, "flex") }

  predicate IsNeighborhoodPlan(nameLower: string) { Contains(nameLower, "neighborhood") }

  predicate IsFlyerExpress(nameLower: string)
  {
    Contains(nameLower, "flyer express") || Contains(nameLower, "flyer")
  }

  /** The Emporium's walk-out store gives no plan discount. */
  predicate IsEmporium(locationName: string) { Contains(Lower(locationName), "emporium") }

  function AccountNameLower(t: Transaction): string { Lower(t.accountName) }

  /** A non-numeric amount counts as 0. */
  function AmountOf(t: Transaction): real
  {
    match t.amount
    case Number(v) => v
    case NotANumber => 0.0
  }

  datatype Plan = Standard | Flex | Neighborhood | FlyerExpress | Unclassified

  /** The category the accumulation loop books a transaction under: the classifiers are tried
      in the order standard, flex, neighbourhood, flyer express. */
  function Classify(t: Transaction): (r: Plan)
    ensures var a := AccountNameLower(t);
      && (r == Standard <==> Contains(a, "standard") || (Contains(a, "meal") && !Contains(a, "flex")))
      && (r == Flex <==> !Contains(a, "standard") && Contains(a, "flex"))
      && (r == Neighborhood <==>
            !Contains(a, "standard") && !Contains(a, "meal") && !Contains(a, "flex") && Contains(a, "neighborhood"))
      && (r == FlyerExpress <==>
            && !Contains(a, "standard") && !Contains(a, "meal") && !Contains(a, "flex")
            && !Contains(a, "neighborhood") && Contains(a, "flyer"))
      && (r == Unclassified <==>
            && !Contains(a, "standard") && !Contains(a, "meal") && !Contains(a, "flex")
            && !Contains(a, "neighborhood") && !Contains(a, "flyer"))
  {
    var acct := AccountNameLower(t);
    FlyerExpressSaysFlyer(acct);
    if IsStandardPlan(acct) then Standard
    else if IsFlexPlan(acct) then Flex
    else if IsNeighborhoodPlan(acct) then Neighborhood
    else if IsFlyerExpress(acct) then FlyerExpress
    else Unclassified
  }

  /** The "flyer express" test adds nothing to the "flyer" test beside it. */
  lemma FlyerExpressSaysFlyer(nameLower: string)
    ensures IsFlyerExpress(nameLower) <==> Contains(nameLower, "flyer")
  {
    if Contains(nameLower, "flyer express") {
      assert "flyer express" == "flyer" + " express";
      ContainsExtension(nameLower, "flyer", " express");
    }
  }

  /** A "meal" account that also says "flex" (and not "standard") is a flex account. */
  lemma MealFlexAccountIsFlex(t: Transaction)
    requires Contains(AccountNameLower(t), "meal") && Contains(AccountNameLower(t), "flex")
    requires !Contains(AccountNameLower(t), "standard")
    ensures Classify(t) == Flex
  {
  }

  // Reference definitions: per-category sums over the list.

  /** Sum of the positive amounts booked under plan `p`. */
  function Spent(ts: seq<Transaction>, p: Plan): (r: real)
    ensures r >= 0.0
  {
    if ts == [] then 0.0
    else
      var t := ts[|ts| - 1];
      Spent(ts[..|ts| - 1], p) + (if Classify(t) == p && AmountOf(t) > 0.0 then AmountOf(t) else 0.0)
  }

  /** Sum of the absolute values of the negative amounts booked under plan `p`. */
  function Refunds(ts: seq<Transaction>, p: Plan): (r: real)
    ensures r >= 0.0
  {
    if ts == [] then 0.0
    else
      var t := ts[|ts| - 1];
      Refunds(ts[..|ts| - 1], p) + (if Classify(t) == p && AmountOf(t) < 0.0 then -AmountOf(t) else 0.0)
  }

  /** What a positive neighbourhood-plan purchase would have cost in cash: the plan takes 10%
      off everywhere except the Emporium. */
  function CashPrice(t: Transaction): real
  {
    if IsEmporium(t.locationName) then AmountOf(t) else AmountOf(t) / 0.9
  }

  function PreCash(ts: seq<Transaction>): (r: real)
    ensures r >= 0.0
  {
    if ts == [] then 0.0
    else
      var t := ts[|ts| - 1];
      PreCash(ts[..|ts| - 1]) + (if Classify(t) == Neighborhood && AmountOf(t) > 0.0 then CashPrice(t) else 0.0)
  }

  /** Sum of the positive neighbourhood-plan amounts spent outside the Emporium. */
  function DiscountedSpent(ts: seq<Transaction>): real
  {
    if ts == [] then 0.0
    else
      var t := ts[|ts| - 1];
      DiscountedSpent(ts[..|ts| - 1])
        + (if Classify(t) == Neighborhood && AmountOf(t) > 0.0 && !IsEmporium(t.locationName) then AmountOf(t) else 0.0)
  }

  function Max0(x: real): real { if x > 0.0 then x else 0.0 }

  function Net(ts: seq<Transaction>, p: Plan): real
  {
    Max0(Spent(ts, p) - Refunds(ts, p))
  }

  // The slide's computation.

  const StandardCost: real := 3395.0
  const FlexCost: real := 3395.0
  const FlexSpendPool: real := 2595.0

  datatype RequiredPlan = StandardRequired | FlexRequired

  /** The accumulators of the loop. */
  datatype Totals = Totals(
    spentStandard: real, refundsStandard: real,
    spentFlex: real, refundsFlex: real,
    spentNeighborhood: real, refundsNeighborhood: real,
    spentFlyer: real, refundsFlyer: real,
    neighborhoodPreCashTotal: real)

  datatype PlanSavings = PlanSavings(
    requiredPlanType: Option<RequiredPlan>,
    requiredPlanCost: real,
    spentOnRequiredPlan: real,
    savedIfNotRequired: real,
    neighborhoodSpent: real,
    neighborhoodCashEquivalent: real,
    neighborhoodDiscountSavings: real,
    onlyUsedFlyerExpress: bool,
    flexSpendPool: real,
    flexRemaining: real,
    savedIfSpendAllFlex: real,
    standardOverPlanSpending: real,
    standardPlanSaved: real,
    flyerSpent: real)

  function TotalsOf(ts: seq<Transaction>): Totals
  {
    Totals(
      Spent(ts, Standard), Refunds(ts, Standard),
      Spent(ts, Flex), Refunds(ts, Flex),
      Spent(ts, Neighborhood), Refunds(ts, Neighborhood),
      Spent(ts, FlyerExpress), Refunds(ts, FlyerExpress),
      PreCash(ts))
  }

  /** The figures derived from the accumulators once the loop is done. */
  function Derive(a: Totals): (s: PlanSavings)
    requires a.neighborhoodPreCashTotal >= 0.0
    // the required plan: standard if there is net standard spending, else flex if there is net flex spending
    ensures s.requiredPlanType == Some(StandardRequired) <==> a.spentStandard > a.refundsStandard
    ensures s.requiredPlanType == Some(FlexRequired) <==>
      a.spentStandard <= a.refundsStandard && a.spentFlex > a.refundsFlex
    ensures s.requiredPlanType == None ==> s.spentOnRequiredPlan == 0.0 && s.requiredPlanCost == 0.0
    ensures s.requiredPlanType.Some? ==> s.requiredPlanCost == 3395.0 && s.spentOnRequiredPlan > 0.0
    // bounds that follow from the plan-cost constants
    ensures 0.0 <= s.savedIfNotRequired <= 3395.0
    ensures 0.0 <= s.flexRemaining <= 2595.0
    ensures s.savedIfSpendAllFlex == 800.0 && s.flexSpendPool == 2595.0
    ensures s.standardOverPlanSpending == s.standardPlanSaved >= 0.0
    ensures s.requiredPlanType != Some(StandardRequired) ==> s.standardOverPlanSpending == 0.0
    ensures s.requiredPlanType != Some(FlexRequired) ==> s.flexRemaining == 2595.0
    // saving by not buying the plan and spending over the plan exclude each other
    ensures s.savedIfNotRequired == 0.0 || s.standardOverPlanSpending == 0.0
    ensures s.neighborhoodSpent >= 0.0 && s.flyerSpent >= 0.0 && s.neighborhoodDiscountSavings >= 0.0
    ensures s.neighborhoodCashEquivalent == a.neighborhoodPreCashTotal
    ensures s.onlyUsedFlyerExpress <==>
      && a.spentFlyer > a.refundsFlyer
      && a.spentStandard <= a.refundsStandard
      && a.spentFlex <= a.refundsFlex
      && a.spentNeighborhood <= a.refundsNeighborhood
  {
    var netStandard := Max0(a.spentStandard - a.refundsStandard);
    var netFlex := Max0(a.spentFlex - a.refundsFlex);
    var netNeighborhood := Max0(a.spentNeighborhood - a.refundsNeighborhood);
    var netFlyer := Max0(a.spentFlyer - a.refundsFlyer);
    var (requiredPlanType, spentOnRequiredPlan) :=
      if netStandard > 0.0 then (Some(StandardRequired), netStandard)
      else if netFlex > 0.0 then (Some(FlexRequired), netFlex)
      else (None, 0.0);
    var requiredPlanCost :=
      if requiredPlanType == Some(StandardRequired) then StandardCost
      else if requiredPlanType == Some(FlexRequired) then FlexCost
      else 0.0;
    var savedIfNotRequired := Max0(requiredPlanCost - spentOnRequiredPlan);
    var flexRemaining := Max0(FlexSpendPool - (if requiredPlanType == Some(FlexRequired) then spentOnRequiredPlan else 0.0));
    var savedIfSpendAllFlex := Max0(FlexCost - FlexSpendPool);
    var standardOverPlanSpending :=
      if requiredPlanType == Some(StandardRequired) then Max0(spentOnRequiredPlan - StandardCost) else 0.0;
    var standardPlanSaved :=
      if requiredPlanType == Some(StandardRequired) then Max0(spentOnRequiredPlan - StandardCost) else 0.0;
    var neighborhoodCashEquivalent := Max0(a.neighborhoodPreCashTotal);
    var neighborhoodSavings := Max0(neighborhoodCashEquivalent - netNeighborhood);
    var onlyUsedFlyerExpress := netFlyer > 0.0 && netStandard == 0.0 && netFlex == 0.0 && netNeighborhood == 0.0;
    PlanSavings(
      requiredPlanType, requiredPlanCost, spentOnRequiredPlan, savedIfNotRequired,
      netNeighborhood, neighborhoodCashEquivalent, neighborhoodSavings, onlyUsedFlyerExpress,
      FlexSpendPool, flexRemaining, savedIfSpendAllFlex, standardOverPlanSpending, standardPlanSaved,
      netFlyer)
  }

  /** The slide's figures for a transaction list. */
  function Savings(ts: seq<Transaction>): PlanSavings
  {
    Derive(TotalsOf(ts))
  }

  /** The `useMemo` block: one pass over the list updating eight accumulators and the
      neighbourhood cash estimate, then the derived figures. */
  method ComputePlanSavings(transactions: seq<Transaction>) returns (s: PlanSavings)
    ensures s == Savings(transactions)
  {
    var spentStandard, refundsStandard := 0.0, 0.0;
    var spentFlex, refundsFlex := 0.0, 0.0;
    var spentNeighborhood, refundsNeighborhood := 0.0, 0.0;
    var spentFlyer, refundsFlyer := 0.0, 0.0;
    var neighborhoodPreCashTotal := 0.0;
    for i := 0 to |transactions|
      invariant spentStandard == Spent(transactions[..i], Standard)
      invariant refundsStandard == Refunds(transactions[..i], Standard)
      invariant spentFlex == Spent(transactions[..i], Flex)
      invariant refundsFlex == Refunds(transactions[..i], Flex)
      invariant spentNeighborhood == Spent(transactions[..i], Neighborhood)
      invariant refundsNeighborhood == Refunds(transactions[..i], Neighborhood)
      invariant spentFlyer == Spent(transactions[..i], FlyerExpress)
      invariant refundsFlyer == Refunds(transactions[..i], FlyerExpress)
      invariant neighborhoodPreCashTotal == PreCash(transactions[..i])
    {
      assert transactions[..i + 1][..i] == transactions[..i];
      var t := transactions[i];
      var amt := AmountOf(t);
      var acct := AccountNameLower(t);
      if IsStandardPlan(acct) {
        if amt > 0.0 { spentStandard := spentStandard + amt; }
        else if amt < 0.0 { refundsStandard := refundsStandard - amt; }
      } else if IsFlexPlan(acct) {
        if amt > 0.0 { spentFlex := spentFlex + amt; }
        else if amt < 0.0 { refundsFlex := refundsFlex - amt; }
      } else if IsNeighborhoodPlan(acct) {
        if amt > 0.0 { spentNeighborhood := spentNeighborhood + amt; }
        else if amt < 0.0 { refundsNeighborhood := refundsNeighborhood - amt; }
        if amt > 0.0 {
          if IsEmporium(t.locationName) {
            neighborhoodPreCashTotal := neighborhoodPreCashTotal + amt;
          } else {
            neighborhoodPreCashTotal := neighborhoodPreCashTotal + amt / 0.9;
          }
        }
      } else if IsFlyerExpress(acct) {
        if amt > 0.0 { spentFlyer := spentFlyer + amt; }
        else if amt < 0.0 { refundsFlyer := refundsFlyer - amt; }
      }
    }
    assert transactions[..|transactions|] == transactions;
    s := Derive(Totals(
      spentStandard, refundsStandard, spentFlex, refundsFlex,
      spentNeighborhood, refundsNeighborhood, spentFlyer, refundsFlyer,
      neighborhoodPreCashTotal));
  }

  // Properties of the reference definitions.

  /** A transaction with a zero or non-numeric amount, or with an account no classifier
      recognises, changes none of the totals. */
  lemma NeutralTransactionIgnored(ts: seq<Transaction>, t: Transaction)
    requires AmountOf(t) == 0.0 || Classify(t) == Unclassified
    ensures TotalsOf(ts + [t]) == TotalsOf(ts)
  {
    assert (ts + [t])[..|ts|] == ts;
  }

  /** A transaction moves the totals of its own category only. */
  lemma OnlyOwnCategoryChanges(ts: seq<Transaction>, t: Transaction, p: Plan)
    requires p != Classify(t)
    ensures Spent(ts + [t], p) == Spent(ts, p) && Refunds(ts + [t], p) == Refunds(ts, p)
  {
    assert (ts + [t])[..|ts|] == ts;
  }

  /** The cash estimate is what was spent on the neighbourhood plan plus a ninth of what was
      spent at discounted locations (the 10% discount taken off the cash price). */
  lemma {:induction false} PreCashSplit(ts: seq<Transaction>)
    ensures PreCash(ts) == Spent(ts, Neighborhood) + DiscountedSpent(ts) / 9.0
  {
    if ts != [] {
      PreCashSplit(ts[..|ts| - 1]);
    }
  }

  /** Without neighbourhood refunds, the discount saving is exactly a ninth of the discounted
      spending. */
  lemma NeighborhoodSavingsIsANinth(ts: seq<Transaction>)
    requires Refunds(ts, Neighborhood) == 0.0
    ensures Savings(ts).neighborhoodCashEquivalent == Spent(ts, Neighborhood) + DiscountedSpent(ts) / 9.0
    ensures Savings(ts).neighborhoodDiscountSavings == DiscountedSpent(ts) / 9.0
  {
    PreCashSplit(ts);
    DiscountedSpentBounds(ts);
  }

  lemma {:induction false} DiscountedSpentBounds(ts: seq<Transaction>)
    ensures 0.0 <= DiscountedSpent(ts) <= Spent(ts, Neighborhood)
  {
    if ts != [] {
      DiscountedSpentBounds(ts[..|ts| - 1]);
    }
  }

  /** $90 paid with the neighbourhood plan away from the Emporium was worth $100 in cash, a
      saving of $10. */
  lemma NinetyDollarsAtTenPercentOff(t: Transaction)
    requires Classify(t) == Neighborhood && t.amount == Number(90.0) && !IsEmporium(t.locationName)
    ensures Savings([t]).neighborhoodSpent == 90.0
    ensures Savings([t]).neighborhoodCashEquivalent == 100.0
    ensures Savings([t]).neighborhoodDiscountSavings == 10.0
  {
    assert [t][..0] == [];
    assert Spent([t], Neighborhood) == 90.0;
    assert Refunds([t], Neighborhood) == 0.0;
    assert PreCash([t]) == 90.0 / 0.9 == 100.0;
  }

  /** The required plan as a function of the per-category nets. */
  lemma RequiredPlanFromNets(ts: seq<Transaction>)
    ensures Savings(ts).requiredPlanType == Some(StandardRequired) <==> Net(ts, Standard) > 0.0
    ensures Savings(ts).requiredPlanType == Some(FlexRequired) <==> Net(ts, Standard) == 0.0 && Net(ts, Flex) > 0.0
    ensures Savings(ts).requiredPlanType.Some? ==>
      Savings(ts).spentOnRequiredPlan == if Net(ts, Standard) > 0.0 then Net(ts, Standard) else Net(ts, Flex)
    ensures Savings(ts).onlyUsedFlyerExpress <==>
      Net(ts, FlyerExpress) > 0.0 && Net(ts, Standard) == 0.0 && Net(ts, Flex) == 0.0 && Net(ts, Neighborhood) == 0.0
  {
  }

  /** Every displayed figure as a function of the per-category sums over the list, refunds
      included: the saving if the plan were not required is what was left unspent of its
      $3395, the flex remainder is what is left of the $2595 pool (all of it without a flex
      plan), the overspend is what went beyond $3395 on a standard plan, and the neighbourhood
      saving is the cash estimate less the net neighbourhood spending. */
  lemma SavingsFigures(ts: seq<Transaction>)
    ensures Savings(ts).neighborhoodSpent == Net(ts, Neighborhood)
    ensures Savings(ts).flyerSpent == Net(ts, FlyerExpress)
    ensures Savings(ts).neighborhoodCashEquivalent == PreCash(ts)
    ensures Savings(ts).neighborhoodDiscountSavings == Max0(PreCash(ts) - Net(ts, Neighborhood))
    ensures Savings(ts).savedIfNotRequired ==
      if Net(ts, Standard) > 0.0 then Max0(3395.0 - Net(ts, Standard))
      else if Net(ts, Flex) > 0.0 then Max0(3395.0 - Net(ts, Flex))
      else 0.0
    ensures Savings(ts).flexRemaining ==
      if Net(ts, Standard) == 0.0 && Net(ts, Flex) > 0.0 then Max0(2595.0 - Net(ts, Flex)) else 2595.0
    ensures Savings(ts).standardOverPlanSpending ==
      if Net(ts, Standard) > 0.0 then Max0(Net(ts, Standard) - 3395.0) else 0.0
  {
  }

  /** With the standard plan required, the saving if not required and the overspend add up
      to the distance between the net standard spending and the plan's cost. */
  lemma StandardSavingOrOverspend(ts: seq<Transaction>)
    requires Net(ts, Standard) > 0.0
    ensures Savings(ts).savedIfNotRequired + Savings(ts).standardOverPlanSpending ==
      if Net(ts, Standard) <= 3395.0 then 3395.0 - Net(ts, Standard) else Net(ts, Standard) - 3395.0
  {
    SavingsFigures(ts);
  }

  // Which sections the slide shows.

  datatype Sections = Sections(required: bool, neighborhood: bool, flyerOnly: bool)

  /** `showRequiredSection`, `showNeighborhoodSection` and `showFlyerOnlyNote`; `totalCount` is
      the length of the normalised list (0 when there is no data). */
  function VisibleSections(s: PlanSavings, totalCount: int): (v: Sections)
    ensures !(v.required && v.neighborhood) && !(v.required && v.flyerOnly) && !(v.neighborhood && v.flyerOnly)
    ensures totalCount <= 0 ==> v == Sections(false, false, false)
  {
    var hasAny := totalCount > 0;
    var showRequiredSection := hasAny && s.requiredPlanCost > 0.0 &&
      (s.savedIfNotRequired > 0.0 || s.standardOverPlanSpending > 0.0 || s.requiredPlanType == Some(FlexRequired));
    var showNeighborhoodSection := hasAny && s.neighborhoodSpent > 0.0 && !showRequiredSection;
    var showFlyerOnlyNote := hasAny && !showRequiredSection && !showNeighborhoodSection && s.onlyUsedFlyerExpress;
    Sections(showRequiredSection, showNeighborhoodSection, showFlyerOnlyNote)
  }

  /** The required-plan section appears for a flex plan, and for a standard plan unless exactly
      the plan's cost was spent on it (then both the saving and the overspend are 0). */
  lemma RequiredSectionShown(ts: seq<Transaction>, totalCount: int)
    ensures VisibleSections(Savings(ts), totalCount).required <==>
      totalCount > 0 &&
      ((Net(ts, Standard) > 0.0 && Net(ts, Standard) != 3395.0) || (Net(ts, Standard) == 0.0 && Net(ts, Flex) > 0.0))
  {
  }
}
