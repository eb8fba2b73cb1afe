/** What a step that meets no fault achieves, and which steps change nothing. */
module NetworkConvergence {
  import opened Text
  import opened Wrappers
  import opened NetworkPlan
  import opened NetworkPresence
  import opened NetworkMachine
  import opened NetworkSafety

  /** The listing holds the firewall's rules with the policy's tag and no others. */
  ghost predicate Faithful(listing: Option<seq<Rule>>, rules: seq<Rule>, tag: string) {
    listing.Some? && forall r :: r in listing.value <==> r in rules && r.tag == tag
  }

  /** The firewall when `d`'s plan is about to be applied. */
  function BeforeApply(c: Config, w: World, d: Policy): seq<Rule> {
    if w.lastEnforced.Some? && !EqualFold(w.lastEnforced.value.id, d.id)
    then RemoveAll(w.rules, Planned(c.hash, w.lastEnforced.value), |Planned(c.hash, w.lastEnforced.value)|)
    else w.rules
  }

  function AfterApply(c: Config, w: World, d: Policy): seq<Rule> {
    AddAll(BeforeApply(c, w, d), Planned(c.hash, d), |Planned(c.hash, d)|)
  }

  /** The host finds its firewall, refuses no rule, lists faithfully and writes the state file. */
  ghost predicate FaultFree(c: Config, w: World, d: Policy, host: Host) {
    && host.provider && host.rollbackProvider && host.saves
    && host.applyFailsAt >= |Planned(c.hash, d)|
    && (w.lastEnforced.Some? ==> host.removeFailsAt >= |Planned(c.hash, w.lastEnforced.value)|)
    && Faithful(host.listing, w.rules, RuleTag(d.id))
    && Faithful(host.verifyListing, AfterApply(c, w, d), RuleTag(d.id))
  }

  /** The short tag tells the remembered policy from `d` whenever their ids differ. */
  predicate TagsTell(w: World, d: Policy) {
    w.lastEnforced.Some? && !EqualFold(w.lastEnforced.value.id, d.id)
    ==> RuleTag(w.lastEnforced.value.id) != RuleTag(d.id)
  }

  lemma EmptyListingFails(h: Hash, plan: seq<Rule>)
    requires plan != []
    ensures Drift(h, plan, [], |plan|) != []
  {
    hide Drift, Identity, Fingerprint;
    DriftIsExact(h, plan, []);
    var r := plan[0];
    CountPositive(plan, r);
    assert ListingText([]) == "";
    assert |FINGERPRINT_KEY + Fingerprint(h, r)| > 0;
    assert !RulePresent(h, plan, [], r);
  }

  lemma BeforeApplyWithin(c: Config, w: World, d: Policy)
    requires NoLeak(c, w)
    ensures w.lastEnforced.None? || !EqualFold(w.lastEnforced.value.id, d.id) ==> Within(c.hash, BeforeApply(c, w, d), None)
  {
    hide Planned, EqualFold, RemoveAll, IsPolicyRule;
    if w.lastEnforced.Some? && !EqualFold(w.lastEnforced.value.id, d.id) {
      var plan := Planned(c.hash, w.lastEnforced.value);
      forall r ensures r in RemoveAll(w.rules, plan, |plan|) <==> r in w.rules && r !in plan {
        assert plan[..|plan|] == plan;
        RemoveAllMembers(w.rules, plan, |plan|, r);
      }
    }
  }

  /** When another policy (or none) is in force, a faithful listing shows none of `d`'s rules. */
  lemma OtherPolicyListsNothing(c: Config, w: World, d: Policy, listing: seq<Rule>)
    requires NoLeak(c, w) && TagsTell(w, d)
    requires w.lastEnforced.None? || !EqualFold(w.lastEnforced.value.id, d.id)
    requires Faithful(Some(listing), w.rules, RuleTag(d.id))
    ensures listing == []
  {
    hide Planned, EqualFold, RuleTag;
    if listing != [] {
      var r := listing[0];
      assert r in listing;
      TagIsPrefixed(d.id);
      assert IsPolicyRule(r);
      PlannedRuleShape(c.hash, w.lastEnforced.value, r);
      assert false;
    }
  }

  lemma AfterApplyMembers(c: Config, w: World, d: Policy, r: Rule)
    ensures r in AfterApply(c, w, d) <==> r in BeforeApply(c, w, d) || r in Planned(c.hash, d)
  {
    hide Planned, BeforeApply;
    var plan := Planned(c.hash, d);
    AddAllMembers(BeforeApply(c, w, d), plan, |plan|, r);
    assert plan[..|plan|] == plan;
  }

  lemma ApplyPlanConverges(c: Config, w: World, d: Policy, host: Host, start: Receipt)
    requires FaultFree(c, w, d, host)
    ensures var (receipt, after) := ApplyPlan(c, Planned(c.hash, d), BeforeApply(c, w, d), host, start);
            receipt.status == Applied && after == AfterApply(c, w, d)
  {
    hide Planned, BeforeApply, Drift, AddAll, RuleTag, IsPolicyRule;
    forall r | r in Planned(c.hash, d) ensures r in host.verifyListing.value {
      AfterApplyMembers(c, w, d, r);
      PlannedRuleShape(c.hash, d, r);
    }
    FullListingPasses(c.hash, d, host.verifyListing.value);
  }

  lemma AfterApplyExact(c: Config, w: World, d: Policy)
    requires Within(c.hash, BeforeApply(c, w, d), Some(d))
    ensures Exactly(c.hash, AfterApply(c, w, d), Some(d))
  {
    hide Planned, BeforeApply, AfterApply, IsPolicyRule;
    forall r ensures r in AfterApply(c, w, d) <==> r in BeforeApply(c, w, d) || r in Planned(c.hash, d) {
      AfterApplyMembers(c, w, d, r);
    }
  }

  /** The firewall already holds the plan when the listing of one's own policy passes the check. */
  lemma VerifiedIsExact(c: Config, w: World, d: Policy, listing: seq<Rule>)
    requires Within(c.hash, w.rules, Some(d)) && Distinguishable(c.hash, d)
    requires Faithful(Some(listing), w.rules, RuleTag(d.id))
    requires Drift(c.hash, Planned(c.hash, d), listing, |Planned(c.hash, d)|) == []
    ensures Exactly(c.hash, w.rules, Some(d))
  {
    hide Planned, Drift, Distinguishable, RuleTag;
    TagIsPrefixed(d.id);
    forall r | r in listing ensures r in Planned(c.hash, d) {
      assert IsPolicyRule(r);
    }
    hide IsPolicyRule;
    forall r | r in Planned(c.hash, d) ensures r in w.rules {
      PassingListingIsFull(c.hash, d, listing, r);
    }
  }

  lemma {:induction false} AddAllPresent(rules: seq<Rule>, plan: seq<Rule>, n: nat)
    requires n <= |plan| && forall r :: r in plan ==> r in rules
    ensures AddAll(rules, plan, n) == rules
  {
    if n > 0 { AddAllPresent(rules, plan, n - 1); }
  }

  lemma ActiveConverges(c: Config, w: World, d: Policy, host: Host, start: Receipt)
    requires c.enforce && NoLeak(c, w) && TagsTell(w, d) && FaultFree(c, w, d, host)
    requires Planned(c.hash, d) != [] && Distinguishable(c.hash, d)
    requires w.lastEnforced.Some? && EqualFold(w.lastEnforced.value.id, d.id)
             ==> RuleSet(c.hash, w.lastEnforced.value) == RuleSet(c.hash, d)
    ensures var (receipt, after) := BuildActive(c, d, w.lastEnforced, w.rules, host, start);
            receipt.status == Applied && Exactly(c.hash, after, Some(d)) && after == AfterApply(c, w, d)
  {
    hide Planned, Drift, Distinguishable, RuleTag, EqualFold, ApplyPlan, Within, Exactly, AfterApply,
         Faithful, UnsupportedControls, AppendUnique, RemoveAll, RuleSet;
    var plan := Planned(c.hash, d);
    forall s: Receipt
      ensures ApplyPlan(c, plan, BeforeApply(c, w, d), host, s).0.status == Applied
      ensures ApplyPlan(c, plan, BeforeApply(c, w, d), host, s).1 == AfterApply(c, w, d)
    {
      ApplyPlanConverges(c, w, d, host, s);
    }
    assert host.listing.Some? by { FaithfulIsSome(host.listing, w.rules, RuleTag(d.id)); }
    if w.lastEnforced.None? || !EqualFold(w.lastEnforced.value.id, d.id) {
      OtherPolicyListsNothing(c, w, d, host.listing.value);
      EmptyListingFails(c.hash, plan);
      BeforeApplyWithin(c, w, d);
      WithinSubset(c.hash, BeforeApply(c, w, d), None, d);
      AfterApplyExact(c, w, d);
    } else {
      assert BeforeApply(c, w, d) == w.rules;
      WithinSubset(c.hash, w.rules, w.lastEnforced, d);
      if Drift(c.hash, plan, host.listing.value, |plan|) == [] {
        VerifiedIsExact(c, w, d, host.listing.value);
        ExactIsSettled(c, w, d);
      } else {
        AfterApplyExact(c, w, d);
      }
    }
  }

  lemma ExactIsSettled(c: Config, w: World, d: Policy)
    requires Exactly(c.hash, w.rules, Some(d)) && BeforeApply(c, w, d) == w.rules
    ensures AfterApply(c, w, d) == w.rules
  {
    hide Planned, BeforeApply, AddAll;
    AddAllPresent(w.rules, Planned(c.hash, d), |Planned(c.hash, d)|);
  }

  lemma ActiveOutcome(c: Config, w: World, d: Policy, host: Host, start: Receipt)
    requires c.enforce && FaultFree(c, w, d, host) && Planned(c.hash, d) != []
    ensures var (receipt, after) := BuildActive(c, d, w.lastEnforced, w.rules, host, start);
            && receipt.status == Applied && receipt.signatureValid == start.signatureValid
            && after == if Drift(c.hash, Planned(c.hash, d), host.listing.value, |Planned(c.hash, d)|) == []
                        then BeforeApply(c, w, d) else AfterApply(c, w, d)
  {
    hide Planned, Drift, RuleTag, EqualFold, ApplyPlan, AfterApply, Faithful, UnsupportedControls, AppendUnique, RemoveAll;
    var plan := Planned(c.hash, d);
    forall s: Receipt
      ensures var (receipt, after) := ApplyPlan(c, plan, BeforeApply(c, w, d), host, s);
              receipt.status == Applied && after == AfterApply(c, w, d) && receipt.signatureValid == s.signatureValid
    {
      ApplyPlanConverges(c, w, d, host, s);
      ApplyPlanKeepsSignature(c, plan, BeforeApply(c, w, d), host, s);
    }
    FaithfulIsSome(host.listing, w.rules, RuleTag(d.id));
  }

  lemma ApplyPlanKeepsSignature(c: Config, plan: seq<Rule>, rules: seq<Rule>, host: Host, start: Receipt)
    ensures ApplyPlan(c, plan, rules, host, start).0.signatureValid == start.signatureValid
  {
    hide Drift, AppendUnique, AddAll;
  }

  /** A step without faults that enforces a trusted active policy always reports it applied. Its plan enters
      the firewall unless the listing already passes the check. */
  lemma EnforcingStepOutcome(c: Config, w: World, desired: Policy, now: int, host: Host)
    requires c.enforce
    requires var d := Normalize(desired);
             d.active && Trusted(c, d) && !Throttled(c, w, d, now) && Planned(c.hash, d) != [] && FaultFree(c, w, d, host)
    ensures var (w', receipt) := Evaluate(c, w, desired, now, host);
            var d := Normalize(desired);
            && receipt.Some? && receipt.value.status == Applied
            && w'.lastEnforced == Some(d) && w'.lastID == d.id && w'.lastAt == now && w'.lastStatus == Applied
            && w'.rules == if Drift(c.hash, Planned(c.hash, d), host.listing.value, |Planned(c.hash, d)|) == []
                           then BeforeApply(c, w, d) else AfterApply(c, w, d)
  {
    hide Trusted, Planned, BuildActive, Normalize, Blank, AppendUnique, EqualFold, Drift, BeforeApply, AfterApply, Faithful;
    ActiveOutcome(c, w, Normalize(desired), host, NewReceipt(Normalize(desired)).(signatureValid := true));
  }

  lemma FaithfulIsSome(listing: Option<seq<Rule>>, rules: seq<Rule>, tag: string)
    requires Faithful(listing, rules, tag)
    ensures listing.Some?
  {
  }

  /** One step without faults, from any reachable world, makes the network-policy rules exactly the
      plan of a trusted active policy, and remembers and saves that policy. */
  lemma EnforcingStepInstalls(c: Config, known: set<Policy>, w: World, desired: Policy, now: int, host: Host)
    requires c.enforce && Coherent(c, known) && Reachable(c, known, w)
    requires var d := Normalize(desired);
             d in known && d.active && Trusted(c, d) && !Throttled(c, w, d, now) && TagsTell(w, d)
             && Planned(c.hash, d) != [] && Distinguishable(c.hash, d) && FaultFree(c, w, d, host)
    ensures var (w', receipt) := Evaluate(c, w, desired, now, host);
            && receipt.Some? && receipt.value.status == Applied
            && Exactly(c.hash, w'.rules, Some(Normalize(desired))) && w'.rules == AfterApply(c, w, Normalize(desired))
            && w'.lastEnforced == Some(Normalize(desired))
            && (!Blank(c.stateDir) ==> w'.disk == Some(Normalize(desired)))
  {
    hide Coherent, Reachable, Trusted, Planned, Distinguishable, BuildActive, Exactly, Within, Normalize, Blank,
         AfterApply, AppendUnique, EqualFold, TagsTell, RuleSet;
    ReachableInv(c, known, w);
    var d := Normalize(desired);
    if w.lastEnforced.Some? {
      CoherentReplaces(c, known, w.lastEnforced.value, d);
    }
    ActiveConverges(c, w, d, host, NewReceipt(d).(signatureValid := true));
  }

  /** One step without faults with a trusted inactive policy leaves no network-policy rule and no
      remembered policy, and clears the state file when there was one to forget. */
  lemma EnforcingStepClears(c: Config, known: set<Policy>, w: World, desired: Policy, now: int, host: Host)
    requires c.enforce && Coherent(c, known) && Reachable(c, known, w)
    requires var d := Normalize(desired);
             !d.active && Trusted(c, d) && !Throttled(c, w, d, now) && host.rollbackProvider && host.saves
             && (w.lastEnforced.Some? ==> host.removeFailsAt >= |Planned(c.hash, w.lastEnforced.value)|)
    ensures var (w', receipt) := Evaluate(c, w, desired, now, host);
            && Exactly(c.hash, w'.rules, None) && w'.lastEnforced == None
            && w'.disk == (if w.lastEnforced.Some? && !Blank(c.stateDir) then None else w.disk)
            && receipt.Some? && receipt.value.status == if w.lastEnforced.Some? then RollbackApplied else NoOp
  {
    hide Coherent, Reachable, Trusted, Planned, BuildActive, Normalize, Blank, AppendUnique, RemoveAll, IsPolicyRule;
    ReachableInv(c, known, w);
    if w.lastEnforced.Some? {
      RollbackSafe(c, w.lastEnforced.value, w.rules, host);
    }
  }

  /** A policy that is not trusted, and any policy while enforcement is off, changes neither the
      firewall nor the remembered policy nor the state file. */
  lemma UntrustedOrDryRunChangesNothing(c: Config, w: World, desired: Policy, now: int, host: Host)
    requires w.lastEnforced.Some? ==> c.enforce
    requires !Trusted(c, Normalize(desired)) || !c.enforce
    ensures var w' := Evaluate(c, w, desired, now, host).0;
            w'.rules == w.rules && w'.lastEnforced == w.lastEnforced && w'.disk == w.disk
  {
    hide Trusted, Planned, Normalize, AppendUnique, Drift, UnsupportedControls;
  }

  // ---- Rules of others ----

  function Others(rules: seq<Rule>): seq<Rule> {
    if rules == [] then [] else
    Others(rules[..|rules| - 1]) + (if IsPolicyRule(rules[|rules| - 1]) then [] else [rules[|rules| - 1]])
  }

  lemma OthersAdded(rules: seq<Rule>, r: Rule)
    requires IsPolicyRule(r)
    ensures Others(Added(rules, r)) == Others(rules)
  {
    hide IsPolicyRule;
    assert (rules + [r])[..|rules|] == rules;
  }

  lemma {:induction false} OthersRemoved(rules: seq<Rule>, r: Rule)
    requires IsPolicyRule(r)
    ensures Others(Removed(rules, r)) == Others(rules)
  {
    hide IsPolicyRule;
    if rules != [] {
      var n := |rules| - 1;
      OthersRemoved(rules[..n], r);
      var front := Removed(rules[..n], r);
      assert (front + [rules[n]])[..|front|] == front;
      assert front + [] == front;
    }
  }

  lemma {:induction false} OthersAddAll(rules: seq<Rule>, plan: seq<Rule>, n: nat)
    requires n <= |plan| && forall r :: r in plan ==> IsPolicyRule(r)
    ensures Others(AddAll(rules, plan, n)) == Others(rules)
    ensures Others(RemoveAll(rules, plan, n)) == Others(rules)
  {
    hide IsPolicyRule, Others, Added, Removed;
    if n > 0 {
      OthersAddAll(rules, plan, n - 1);
      OthersAdded(AddAll(rules, plan, n - 1), plan[n - 1]);
      OthersRemoved(RemoveAll(rules, plan, n - 1), plan[n - 1]);
    }
  }

  lemma PlanIsPolicyRules(h: Hash, p: Policy)
    ensures forall r :: r in Planned(h, p) ==> IsPolicyRule(r)
  {
    hide Planned, IsPolicyRule;
    forall r | r in Planned(h, p) ensures IsPolicyRule(r) {
      PlannedRuleShape(h, p, r);
    }
  }

  lemma RollbackSparesOthers(c: Config, p: Policy, rules: seq<Rule>, host: Host)
    ensures Others(Rollback(c, p, rules, host).rules) == Others(rules)
  {
    hide Planned, IsPolicyRule, Others, RemoveAll;
    PlanIsPolicyRules(c.hash, p);
    OthersAddAll(rules, Planned(c.hash, p), Min(host.removeFailsAt, |Planned(c.hash, p)|));
  }

  lemma ApplySparesOthers(c: Config, d: Policy, rules: seq<Rule>, host: Host, start: Receipt)
    ensures Others(ApplyPlan(c, Planned(c.hash, d), rules, host, start).1) == Others(rules)
  {
    hide Planned, IsPolicyRule, Others, AddAll, Drift, AppendUnique;
    PlanIsPolicyRules(c.hash, d);
    OthersAddAll(rules, Planned(c.hash, d), Min(host.applyFailsAt, |Planned(c.hash, d)|));
  }

  lemma ActiveSparesOthers(c: Config, d: Policy, p: Option<Policy>, rules: seq<Rule>, host: Host, start: Receipt)
    ensures Others(BuildActive(c, d, p, rules, host, start).1) == Others(rules)
  {
    hide Planned, IsPolicyRule, Others, Drift, AppendUnique, UnsupportedControls, EqualFold, ApplyPlan, Rollback;
    var undone := if p.Some? && !EqualFold(p.value.id, d.id)
                  then Rollback(c, p.value, rules, host) else RollbackResult(rules, 0, true);
    if p.Some? { RollbackSparesOthers(c, p.value, rules, host); }
    forall s: Receipt ensures Others(ApplyPlan(c, Planned(c.hash, d), undone.rules, host, s).1) == Others(rules) {
      ApplySparesOthers(c, d, undone.rules, host, s);
    }
  }

  /** No call, whatever fails during it, adds, removes or reorders a rule that is not a network-policy rule. */
  lemma RulesOfOthersUntouched(c: Config, w: World, desired: Policy, now: int, host: Host)
    ensures Others(Evaluate(c, w, desired, now, host).0.rules) == Others(w.rules)
  {
    hide Trusted, Normalize, AppendUnique, Others, Save, BuildActive, Rollback;
    var d := Normalize(desired);
    ActiveSparesOthers(c, d, w.lastEnforced, w.rules, host, NewReceipt(d).(signatureValid := true));
    if w.lastEnforced.Some? { RollbackSparesOthers(c, w.lastEnforced.value, w.rules, host); }
  }
}
