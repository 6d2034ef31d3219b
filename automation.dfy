/** Order automation rules of orders/services.py: the conjunctive condition check of
 *  AutomationService, the warehouse/priority/tag actions, and the loop that applies
 *  every active ORDER_PLACED rule of the order's supermarket in ascending priority. */
module Automation {
  import opened Wrappers
  import opened Seqs
  import opened OrderModels
  import opened EnhancedModels

  /** Outcome of evaluating a rule: its conditions hold, one fails, or evaluating
   *  them raises (an e-mail substring test against an order without an e-mail). */
  datatype Verdict = Holds | Fails | Raises

  predicate MeetsMinimum(order: EnhancedOrder, c: RuleConditions)
  {
    c.minOrderValue.None? || order.totalAmount >= c.minOrderValue.value
  }

  predicate MeetsChannel(channelType: ChannelType, c: RuleConditions)
  {
    c.channelTypes.None? || channelType in c.channelTypes.value
  }

  predicate MeetsEmail(order: EnhancedOrder, c: RuleConditions)
  {
    c.customerEmailContains.None? ||
    (order.customerEmail.Some? && Contains(order.customerEmail.value, c.customerEmailContains.value))
  }

  /** _evaluate_rule_conditions: the minimum order value, then the channel type, then
   *  the e-mail substring, each only when the rule names it; the first that fails
   *  decides. */
  function EvaluateRuleConditions(order: EnhancedOrder, channelType: ChannelType, c: RuleConditions): (r: Verdict)
    ensures r == Holds <==> MeetsMinimum(order, c) && MeetsChannel(channelType, c) && MeetsEmail(order, c)
    ensures r == Raises <==>
              MeetsMinimum(order, c) && MeetsChannel(channelType, c) &&
              c.customerEmailContains.Some? && order.customerEmail.None?
  {
    if c.minOrderValue.Some? && order.totalAmount < c.minOrderValue.value then Fails
    else if c.channelTypes.Some? && channelType !in c.channelTypes.value then Fails
    else if c.customerEmailContains.Some? then
      if order.customerEmail.None? then Raises
      else if !Contains(order.customerEmail.value, c.customerEmailContains.value) then Fails
      else Holds
    else Holds
  }

  const NoConditions := RuleConditions(None, None, None)

  /** A rule without conditions matches every order. */
  lemma {:induction false} NoConditionsHold(order: EnhancedOrder, channelType: ChannelType)
    ensures EvaluateRuleConditions(order, channelType, NoConditions) == Holds
  {
  }

  /** Conditions are conjunctive: dropping any one of them never turns a matching
   *  rule into one that does not match. */
  lemma {:induction false} DroppingConditionKeepsMatch(order: EnhancedOrder, channelType: ChannelType, c: RuleConditions)
    requires EvaluateRuleConditions(order, channelType, c) == Holds
    ensures EvaluateRuleConditions(order, channelType, c.(minOrderValue := None)) == Holds
    ensures EvaluateRuleConditions(order, channelType, c.(channelTypes := None)) == Holds
    ensures EvaluateRuleConditions(order, channelType, c.(customerEmailContains := None)) == Holds
  {
  }

  /** `list(set(current + new))`: every tag of either list, once each. */
  function MergeTags(current: seq<string>, added: seq<string>): (r: seq<string>)
    ensures NoDup(r)
    ensures forall t :: t in r <==> t in current || t in added
  {
    Dedup(current + added)
  }

  predicate WarehouseExists(warehouses: seq<Warehouse>, id: WarehouseId)
  {
    exists i :: 0 <= i < |warehouses| && warehouses[i].id == id
  }

  /** _execute_rule_actions: assign the warehouse when a warehouse with that id
   *  exists (a missing one is only logged), set the priority, and merge the tags. */
  function ExecuteRuleActions(order: EnhancedOrder, warehouses: seq<Warehouse>, a: RuleActions): (r: EnhancedOrder)
    ensures r.assignedWarehouse ==
              if a.assignWarehouse.Some? && WarehouseExists(warehouses, a.assignWarehouse.value)
              then a.assignWarehouse else order.assignedWarehouse
    ensures r.priority == if a.setPriority.Some? then a.setPriority else order.priority
    ensures a.addTags.None? ==> r.tags == order.tags
    ensures a.addTags.Some? ==> NoDup(r.tags) && forall t :: t in r.tags <==> t in order.tags || t in a.addTags.value
    ensures r == order.(assignedWarehouse := r.assignedWarehouse, priority := r.priority, tags := r.tags)
  {
    var o1 := if a.assignWarehouse.Some? && WarehouseExists(warehouses, a.assignWarehouse.value)
              then order.(assignedWarehouse := a.assignWarehouse) else order;
    var o2 := if a.setPriority.Some? then o1.(priority := a.setPriority) else o1;
    if a.addTags.Some? then o2.(tags := MergeTags(o2.tags, a.addTags.value)) else o2
  }

  /** The rules _apply_automation_rules fetches: active ORDER_PLACED rules of the
   *  supermarket, in ascending priority (ties keep table order). */
  function ApplicableRules(rules: seq<AutomationRule>, sm: SupermarketId): (r: seq<AutomationRule>)
  {
    SortBy(Filter(rules, (x: AutomationRule) => x.supermarket == sm && x.isActive && x.triggerEvent == OrderPlaced),
           (x: AutomationRule) => x.priority)
  }

  /** The applicable rules are exactly the matching ones, each once, lowest priority first. */
  lemma {:induction false} ApplicableRulesSelected(rules: seq<AutomationRule>, sm: SupermarketId)
    ensures SortedBy(ApplicableRules(rules, sm), (x: AutomationRule) => x.priority)
    ensures forall x :: x in ApplicableRules(rules, sm) <==>
              x in rules && x.supermarket == sm && x.isActive && x.triggerEvent == OrderPlaced
  {
    var f := Filter(rules, (x: AutomationRule) => x.supermarket == sm && x.isActive && x.triggerEvent == OrderPlaced);
    var r := SortBy(f, (x: AutomationRule) => x.priority);
    forall x ensures x in r <==> x in f {
      assert x in r <==> x in multiset(r);
      assert x in f <==> x in multiset(f);
    }
  }

  /** One rule's turn: its actions run only when its conditions hold; a failing or
   *  raising rule leaves the order as it was. */
  function ApplyRule(order: EnhancedOrder, channelType: ChannelType, warehouses: seq<Warehouse>,
                     rule: AutomationRule): EnhancedOrder
  {
    if EvaluateRuleConditions(order, channelType, rule.conditions) == Holds
    then ExecuteRuleActions(order, warehouses, rule.actions) else order
  }

  /** The order after the rules have had their turn, first to last. */
  function ApplyRules(order: EnhancedOrder, channelType: ChannelType, warehouses: seq<Warehouse>,
                      rules: seq<AutomationRule>): EnhancedOrder
  {
    if |rules| == 0 then order
    else ApplyRule(ApplyRules(order, channelType, warehouses, rules[..|rules| - 1]), channelType, warehouses,
                   rules[|rules| - 1])
  }

  /** The loop of _apply_automation_rules: each rule in turn; a rule whose
   *  evaluation raises is skipped and the loop goes on. */
  method ApplyEach(order: EnhancedOrder, channelType: ChannelType, warehouses: seq<Warehouse>,
                   selected: seq<AutomationRule>) returns (updated: EnhancedOrder)
    ensures updated == ApplyRules(order, channelType, warehouses, selected)
  {
    updated := order;
    var i := 0;
    while i < |selected|
      invariant i <= |selected|
      invariant updated == ApplyRules(order, channelType, warehouses, selected[..i])
    {
      assert selected[..i + 1][..i] == selected[..i];
      var rule := selected[i];
      var verdict := EvaluateRuleConditions(updated, channelType, rule.conditions);
      if verdict == Holds {
        updated := ExecuteRuleActions(updated, warehouses, rule.actions);
      }
      i := i + 1;
    }
    assert selected[..|selected|] == selected;
  }

  /** _apply_automation_rules: every applicable rule, lowest priority first. */
  method ApplyAutomationRules(order: EnhancedOrder, channelType: ChannelType, warehouses: seq<Warehouse>,
                              rules: seq<AutomationRule>) returns (updated: EnhancedOrder)
    ensures updated == ApplyRules(order, channelType, warehouses, ApplicableRules(rules, order.supermarket))
  {
    var selected := ApplicableRules(rules, order.supermarket);
    updated := ApplyEach(order, channelType, warehouses, selected);
  }

  /** _apply_automation_rules as written: line 337 looks _evaluate_rule_conditions
   *  up on MultiChannelOrderService, which does not define it (AutomationService
   *  does), so every rule's turn raises AttributeError, the except clause logs
   *  it, and the order leaves the loop as it entered. */
  function ApplyRulesAsWritten(order: EnhancedOrder, rules: seq<AutomationRule>): (r: EnhancedOrder)
    ensures r == order
  {
    if |rules| == 0 then order else ApplyRulesAsWritten(order, rules[..|rules| - 1])
  }

  /** A single matching rule that sets a new priority changes the order under the
   *  intended loop, and leaves it unchanged as written. */
  lemma {:induction false} AsWrittenIgnoresMatchingRule(order: EnhancedOrder, channelType: ChannelType,
                                                        warehouses: seq<Warehouse>, rule: AutomationRule)
    requires EvaluateRuleConditions(order, channelType, rule.conditions) == Holds
    requires rule.actions.setPriority.Some? && rule.actions.setPriority != order.priority
    ensures ApplyRules(order, channelType, warehouses, [rule]).priority == rule.actions.setPriority
    ensures ApplyRulesAsWritten(order, [rule]) == order
  {
    assert [rule][..0] == [];
  }

  /** Rules only touch the warehouse, the priority and the tags. */
  lemma {:induction false} RulesTouchOnlyActionFields(order: EnhancedOrder, channelType: ChannelType,
                                                      warehouses: seq<Warehouse>, rules: seq<AutomationRule>)
    ensures var r := ApplyRules(order, channelType, warehouses, rules);
            r == order.(assignedWarehouse := r.assignedWarehouse, priority := r.priority, tags := r.tags)
  {
    if |rules| > 0 {
      RulesTouchOnlyActionFields(order, channelType, warehouses, rules[..|rules| - 1]);
    }
  }

  /** A rule that does not match (its conditions fail or raise) can be taken out of
   *  the sequence without changing the outcome: the rules after it still run. */
  lemma {:induction false} NonMatchingRuleSkipped(order: EnhancedOrder, channelType: ChannelType,
                                                  warehouses: seq<Warehouse>, before: seq<AutomationRule>,
                                                  rule: AutomationRule, after: seq<AutomationRule>)
    requires EvaluateRuleConditions(ApplyRules(order, channelType, warehouses, before), channelType,
                                    rule.conditions) != Holds
    ensures ApplyRules(order, channelType, warehouses, before + [rule] + after) ==
            ApplyRules(order, channelType, warehouses, before + after)
  {
    if |after| == 0 {
      assert (before + [rule] + after)[..|before|] == before;
      assert before + after == before;
    } else {
      var front := after[..|after| - 1];
      NonMatchingRuleSkipped(order, channelType, warehouses, before, rule, front);
      assert (before + [rule] + after)[..|before + [rule] + after| - 1] == before + [rule] + front;
      assert (before + after)[..|before + after| - 1] == before + front;
    }
  }

  /** Some rule of the sequence has `t` among the tags it adds. */
  predicate AddedBySome(rules: seq<AutomationRule>, t: string)
  {
    exists k :: 0 <= k < |rules| && rules[k].actions.addTags.Some? && t in rules[k].actions.addTags.value
  }

  /** Tags stay free of duplicates and only grow: every tag kept is an old one or
   *  one some rule adds. */
  lemma {:induction false} RulesKeepTagsDistinct(order: EnhancedOrder, channelType: ChannelType,
                                                 warehouses: seq<Warehouse>, rules: seq<AutomationRule>)
    requires NoDup(order.tags)
    ensures var r := ApplyRules(order, channelType, warehouses, rules);
            NoDup(r.tags) &&
            (forall t :: t in order.tags ==> t in r.tags) &&
            (forall t :: t in r.tags ==> t in order.tags || AddedBySome(rules, t))
  {
    if |rules| > 0 {
      var front := rules[..|rules| - 1];
      RulesKeepTagsDistinct(order, channelType, warehouses, front);
      var r := ApplyRules(order, channelType, warehouses, rules);
      forall t | t in r.tags
        ensures t in order.tags || AddedBySome(rules, t)
      {
        var p := ApplyRules(order, channelType, warehouses, front);
        if t in p.tags && t !in order.tags {
          var k :| 0 <= k < |front| && front[k].actions.addTags.Some? && t in front[k].actions.addTags.value;
          assert rules[k] == front[k];
        } else if t !in p.tags {
          assert rules[|rules| - 1].actions.addTags.Some?;
        }
      }
    }
  }
}
