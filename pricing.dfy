/** The plan cards of the plans page (src/Plans.jsx): which automatic
    discount rule a plan shows, the amount it deducts, the final price, and
    the editing form's list of included services. Prices are compared in
    exact rational arithmetic; the page's `toFixed(0)` display rounding is
    not modelled. */
module PlanPricing {
  import opened Wrappers
  import opened Models
  import opened Collections

  // -----------------------------------------------------------------------
  // Rule resolution

  /** A rule tied to the plan itself: active, not customer-specific, and
      its `plan` is the plan's id. */
  predicate ForPlan(r: Discount, planId: Id) {
    r.isActive && r.customer.None? && r.plan == Some(planId)
  }

  /** A rule tied to the plan's billing interval: active, not
      customer-specific, and its interval is exactly the plan's ("All" is a
      different string and never equal). */
  predicate ForIntervalOf(r: Discount, plan: Plan) {
    r.isActive && r.customer.None? && r.applicablePlanInterval == ForInterval(plan.billingInterval)
  }

  function PlanRuleQuery(planId: Id): Discount -> bool {
    (r: Discount) => ForPlan(r, planId)
  }

  function IntervalRuleQuery(plan: Plan): Discount -> bool {
    (r: Discount) => ForIntervalOf(r, plan)
  }

  /** Position of the rule the card uses: `discounts.find(plan rule) ||
      discounts.find(interval rule)`. A rule for the plan wins over any rule
      for its interval, and within each kind the first one wins. */
  function MatchingRule(discounts: seq<Discount>, planId: Id, plan: Plan): (r: Option<nat>)
    ensures r.Some? ==> r.value < |discounts|
    ensures (exists k :: 0 <= k < |discounts| && ForPlan(discounts[k], planId)) ==>
      && r.Some? && ForPlan(discounts[r.value], planId)
      && (forall k :: 0 <= k < r.value ==> !ForPlan(discounts[k], planId))
    ensures (forall k :: 0 <= k < |discounts| ==> !ForPlan(discounts[k], planId)) ==>
      && (r.Some? ==> ForIntervalOf(discounts[r.value], plan)
                      && forall k :: 0 <= k < r.value ==> !ForIntervalOf(discounts[k], plan))
      && (r.None? <==> forall k :: 0 <= k < |discounts| ==> !ForIntervalOf(discounts[k], plan))
  {
    match Find(discounts, PlanRuleQuery(planId))
    case Some(i) => Some(i)
    case None => Find(discounts, IntervalRuleQuery(plan))
  }

  /** Whatever rule is chosen is active, not customer-specific, and tied to
      the plan or to exactly its interval; in particular a rule whose
      interval is "All" is chosen only through its `plan`. */
  lemma ChosenRuleApplies(discounts: seq<Discount>, planId: Id, plan: Plan)
    requires MatchingRule(discounts, planId, plan).Some?
    ensures var rule := discounts[MatchingRule(discounts, planId, plan).value];
      && rule.isActive && rule.customer.None?
      && (rule.plan == Some(planId) || rule.applicablePlanInterval == ForInterval(plan.billingInterval))
      && (rule.applicablePlanInterval == AllIntervals ==> rule.plan == Some(planId))
  {
    if exists k :: 0 <= k < |discounts| && ForPlan(discounts[k], planId) {
    } else {
      assert forall k :: 0 <= k < |discounts| ==> !ForPlan(discounts[k], planId);
    }
  }

  // -----------------------------------------------------------------------
  // Amounts

  /** The flat deduction shown when no rule applies. */
  function FallbackDeduction(interval: BillingInterval): (d: int)
    ensures interval == Monthly ==> d == 100
    ensures interval == Quarterly ==> d == 200
    ensures interval == HalfYearly ==> d == 300
    ensures interval == Yearly ==> d == 400
  {
    match interval
    case Monthly => 100
    case Quarterly => 200
    case HalfYearly => 300
    case Yearly => 400
  }

  /** What a rule deducts from `base`: `base * value / 100` for a
      Percentage rule, `value` for any other. */
  function RuleDeduction(rule: Discount, base: real): (d: real)
    ensures rule.discountType != Percentage ==> d == rule.value as real
    ensures rule.discountType == Percentage ==> d == base * (rule.value as real) / 100.0
    ensures rule.discountType == Percentage && 0 <= rule.value <= 100 && base >= 0.0 ==> 0.0 <= d <= base
    ensures rule.discountType == Percentage && rule.value == 100 ==> d == base
  {
    if rule.discountType == Percentage then
      var v := rule.value as real;
      assert 0.0 <= v <= 100.0 && base >= 0.0 ==> 0.0 <= base * v <= base * 100.0;
      base * v / 100.0
    else rule.value as real
  }

  /** The "Auto Discount" amount on the card. */
  function Deduction(discounts: seq<Discount>, planId: Id, plan: Plan): (d: real)
    ensures MatchingRule(discounts, planId, plan).None? ==> 100.0 <= d <= 400.0
    ensures MatchingRule(discounts, planId, plan).None? ==>
      d == FallbackDeduction(plan.billingInterval) as real
    ensures MatchingRule(discounts, planId, plan).Some? ==>
      d == RuleDeduction(discounts[MatchingRule(discounts, planId, plan).value], plan.price as real)
  {
    match MatchingRule(discounts, planId, plan)
    case Some(i) => RuleDeduction(discounts[i], plan.price as real)
    case None => FallbackDeduction(plan.billingInterval) as real
  }

  /** `Math.max(0, base - deduction)` */
  function ClampedPrice(base: real, deduction: real): (r: real)
    ensures r >= 0.0
    ensures deduction >= 0.0 ==> r <= base || base < 0.0
    ensures deduction <= base ==> r == base - deduction
    ensures base <= deduction ==> r == 0.0
  {
    if base - deduction > 0.0 then base - deduction else 0.0
  }

  /** The "Final Price" on the card. */
  function FinalPrice(discounts: seq<Discount>, planId: Id, plan: Plan): (r: real)
    ensures r >= 0.0
    ensures var d := Deduction(discounts, planId, plan);
      r == if d <= plan.price as real then plan.price as real - d else 0.0
  {
    ClampedPrice(plan.price as real, Deduction(discounts, planId, plan))
  }

  /** With no applicable rule the final price is the plan price less the
      interval's flat amount, floored at zero. */
  lemma FallbackPrice(discounts: seq<Discount>, planId: Id, plan: Plan)
    requires forall k :: 0 <= k < |discounts| ==>
      !ForPlan(discounts[k], planId) && !ForIntervalOf(discounts[k], plan)
    ensures plan.billingInterval == Monthly ==> FinalPrice(discounts, planId, plan) == ClampedPrice(plan.price as real, 100.0)
    ensures plan.billingInterval == Quarterly ==> FinalPrice(discounts, planId, plan) == ClampedPrice(plan.price as real, 200.0)
    ensures plan.billingInterval == HalfYearly ==> FinalPrice(discounts, planId, plan) == ClampedPrice(plan.price as real, 300.0)
    ensures plan.billingInterval == Yearly ==> FinalPrice(discounts, planId, plan) == ClampedPrice(plan.price as real, 400.0)
  {
    assert MatchingRule(discounts, planId, plan).None?;
  }

  /** A percentage rule between 0 and 100 on a non-negative price leaves
      `price * (100 - value) / 100`, which lies between 0 and the price. */
  lemma PercentagePrice(discounts: seq<Discount>, planId: Id, plan: Plan)
    requires MatchingRule(discounts, planId, plan).Some?
    requires var rule := discounts[MatchingRule(discounts, planId, plan).value];
      rule.discountType == Percentage && 0 <= rule.value <= 100
    requires plan.price >= 0
    ensures var v := discounts[MatchingRule(discounts, planId, plan).value].value as real;
      FinalPrice(discounts, planId, plan) == (plan.price as real) * (100.0 - v) / 100.0
    ensures 0.0 <= FinalPrice(discounts, planId, plan) <= plan.price as real
  {
    var v := discounts[MatchingRule(discounts, planId, plan).value].value as real;
    var base := plan.price as real;
    assert Deduction(discounts, planId, plan) == base * v / 100.0;
    assert base * v / 100.0 <= base by {
      assert base * v <= base * 100.0;
    }
  }

  /** A fixed rule larger than the price brings the final price to zero,
      never below. */
  lemma FixedRuleFloorsAtZero(discounts: seq<Discount>, planId: Id, plan: Plan)
    requires MatchingRule(discounts, planId, plan).Some?
    requires var rule := discounts[MatchingRule(discounts, planId, plan).value];
      rule.discountType == Fixed && rule.value >= plan.price
    ensures FinalPrice(discounts, planId, plan) == 0.0
  {
  }

  // -----------------------------------------------------------------------
  // Included services of the plan form

  /** `toggleService`: removes the first occurrence of `id` when present,
      otherwise appends it. */
  function Toggled(s: seq<Id>, id: Id): (r: seq<Id>)
    ensures id !in s ==> r == s + [id]
    ensures id in s ==> |r| == |s| - 1 && multiset(r) == multiset(s) - multiset{id}
    ensures id in s ==> var i := IndexOf(s, id).value; r[..i] == s[..i] && r[i..] == s[i + 1..]
  {
    match IndexOf(s, id)
    case Some(i) =>
      assert s == s[..i] + [s[i]] + s[i + 1..];
      RemoveAt(s, i)
    case None => s + [id]
  }

  /** Toggling an absent service twice gives the list back unchanged. */
  lemma ToggleTwiceAbsent(s: seq<Id>, id: Id)
    requires id !in s
    ensures Toggled(Toggled(s, id), id) == s
  {
    assert (s + [id])[..|s|] == s;
    assert IndexOf(s + [id], id) == Some(|s|);
  }

  /** In a list without duplicates, toggling keeps it without duplicates
      and flips whether `id` is in it. */
  lemma ToggleKeepsNoDuplicates(s: seq<Id>, id: Id)
    requires NoDuplicates(s)
    ensures NoDuplicates(Toggled(s, id))
    ensures id in Toggled(s, id) <==> id !in s
  {
    var r := Toggled(s, id);
    if id in s {
      var i := IndexOf(s, id).value;
      forall k | 0 <= k < |r|
        ensures r[k] == s[Skip(k, i)]
      {
        if k < i { assert r[k] == r[..i][k]; } else { assert r[k] == r[i..][k - i]; }
      }
      forall a, b | 0 <= a < b < |r|
        ensures r[a] != r[b]
      {
        assert r[a] == s[Skip(a, i)] && r[b] == s[Skip(b, i)];
      }
      forall k | 0 <= k < |r|
        ensures r[k] != id
      {
        assert r[k] == s[Skip(k, i)] && s[i] == id;
      }
    } else {
      assert r == s + [id];
      forall a, b | 0 <= a < b < |r|
        ensures r[a] != r[b]
      {
        if b == |s| { assert r[a] == s[a]; }
      }
    }
  }

  /** Position in the original list of position `k` of the list with
      position `i` removed. */
  function Skip(k: nat, i: nat): (j: nat)
    ensures j != i && (j < i <==> k < i) && (j < i ==> j == k) && (j > i ==> j == k + 1)
  {
    if k < i then k else k + 1
  }

  /** Toggling a present service twice in a list without duplicates keeps
      the same services, now with `id` moved to the end. */
  lemma ToggleTwicePresent(s: seq<Id>, id: Id)
    requires NoDuplicates(s) && id in s
    ensures multiset(Toggled(Toggled(s, id), id)) == multiset(s)
    ensures NoDuplicates(Toggled(Toggled(s, id), id))
    ensures Toggled(Toggled(s, id), id)[|s| - 1] == id
  {
    ToggleKeepsNoDuplicates(s, id);
    ToggleKeepsNoDuplicates(Toggled(s, id), id);
    assert multiset{id} <= multiset(s);
  }

  /** The option checkboxes of the plan form. */
  datatype PlanOption = AutoClose | Closable | Pausable | Renewable

  /** `toggleOption`: flips one option. */
  function FlipOption(o: PlanOptions, opt: PlanOption): (r: PlanOptions)
    ensures r.autoClose == (o.autoClose != (opt == AutoClose))
    ensures r.closable == (o.closable != (opt == Closable))
    ensures r.pausable == (o.pausable != (opt == Pausable))
    ensures r.renewable == (o.renewable != (opt == Renewable))
  {
    match opt
    case AutoClose => o.(autoClose := !o.autoClose)
    case Closable => o.(closable := !o.closable)
    case Pausable => o.(pausable := !o.pausable)
    case Renewable => o.(renewable := !o.renewable)
  }

  /** Clicking the same checkbox twice gives the options back. */
  lemma FlipTwice(o: PlanOptions, opt: PlanOption)
    ensures FlipOption(FlipOption(o, opt), opt) == o
    ensures FlipOption(o, opt) != o
  {
  }

  /** The state of the plan editing form that its handlers change in place. */
  class PlanForm {
    var servicesIncluded: seq<Id>
    var options: PlanOptions

    /** The empty form: no services, and the option defaults of the Plan
        schema. */
    constructor ()
      ensures servicesIncluded == []
      ensures options == NewPlanOptions(PlanOptionsInput(None, None, None, None))
    {
      servicesIncluded := [];
      options := PlanOptions(false, true, true, true);
    }

    /** Checkbox of service `id`: the copy of the list is spliced or pushed
        and stored back. */
    method ToggleService(id: Id)
      modifies this
      ensures servicesIncluded == Toggled(old(servicesIncluded), id)
      ensures options == old(options)
    {
      var current := servicesIncluded;
      var idx := IndexOf(current, id);
      if idx.Some? {
        current := RemoveAt(current, idx.value);
      } else {
        current := current + [id];
      }
      servicesIncluded := current;
    }

    method ToggleOption(opt: PlanOption)
      modifies this
      ensures options == FlipOption(old(options), opt)
      ensures servicesIncluded == old(servicesIncluded)
    {
      options := FlipOption(options, opt);
    }
  }
}
