/** What the installed rules do to a packet: rules are tried in the order in which they entered the
    firewall, so a step keeps the plan's decisions only as far as the rules it finds allow. */
module NetworkOrder {
  import opened Text
  import opened Wrappers
  import opened NetworkPlan
  import opened NetworkPresence
  import opened NetworkMachine
  import opened NetworkSafety
  import opened NetworkConvergence

  function PolicyOnly(rules: seq<Rule>): seq<Rule> {
    if rules == [] then [] else
    PolicyOnly(rules[..|rules| - 1]) + (if IsPolicyRule(rules[|rules| - 1]) then [rules[|rules| - 1]] else [])
  }

  lemma {:induction false} PolicyOnlyMembers(rules: seq<Rule>, r: Rule)
    ensures r in PolicyOnly(rules) <==> r in rules && IsPolicyRule(r)
  {
    hide IsPolicyRule;
    if rules != [] {
      var n := |rules| - 1;
      PolicyOnlyMembers(rules[..n], r);
      assert rules == rules[..n] + [rules[n]];
    }
  }

  lemma AddAllUnfolds(rules: seq<Rule>, plan: seq<Rule>, n: nat)
    requires n <= |plan|
    ensures AddAll(rules, plan, n) == if n == 0 then rules else Added(AddAll(rules, plan, n - 1), plan[n - 1])
  {
  }

  lemma {:induction false} PolicyOnlyAddAll(rules: seq<Rule>, plan: seq<Rule>, n: nat)
    requires n <= |plan| && forall r :: r in plan ==> IsPolicyRule(r)
    ensures PolicyOnly(AddAll(rules, plan, n)) == AddAll(PolicyOnly(rules), plan, n)
  {
    hide IsPolicyRule, AddAll;
    AddAllUnfolds(rules, plan, n);
    AddAllUnfolds(PolicyOnly(rules), plan, n);
    if n > 0 {
      PolicyOnlyAddAll(rules, plan, n - 1);
      var before, r := AddAll(rules, plan, n - 1), plan[n - 1];
      PolicyOnlyMembers(before, r);
      assert (before + [r])[..|before|] == before;
    }
  }

  lemma {:induction false} MemberMatches<Addr>(rules: seq<Rule>, r: Rule, direction: string, peer: Addr,
                                               covers: (string, Addr) -> bool)
    requires r in rules && Matches(r, direction, peer, covers)
    ensures FirstMatch(rules, direction, peer, covers).Some?
  {
    hide Matches;
    if !Matches(rules[0], direction, peer, covers) {
      assert r in rules[1..];
      MemberMatches(rules[1..], r, direction, peer, covers);
    }
  }

  /** Skipping a rule that is already listed earlier does not change which rule matches first. */
  lemma {:induction false} AddAllDecides<Addr>(rules: seq<Rule>, plan: seq<Rule>, n: nat, direction: string, peer: Addr,
                                               covers: (string, Addr) -> bool)
    requires n <= |plan|
    ensures FirstMatch(AddAll(rules, plan, n), direction, peer, covers)
            == FirstMatch(rules + plan[..n], direction, peer, covers)
  {
    hide Matches;
    if n == 0 {
      assert rules + plan[..0] == rules;
    } else {
      AddAllDecides(rules, plan, n - 1, direction, peer, covers);
      var before, r := AddAll(rules, plan, n - 1), plan[n - 1];
      assert rules + plan[..n] == (rules + plan[..n - 1]) + [r];
      FirstMatchAppend(rules + plan[..n - 1], [r], direction, peer, covers);
      FirstMatchAppend(before, [r], direction, peer, covers);
      if r in before && Matches(r, direction, peer, covers) {
        MemberMatches(before, r, direction, peer, covers);
      }
    }
  }

  lemma FreshRulesDecide<Addr(!new)>(c: Config, w: World, d: Policy, peer: Addr, covers: (string, Addr) -> bool)
    requires NoLeak(c, w) && CatchAll(covers)
    requires w.lastEnforced.None? || !EqualFold(w.lastEnforced.value.id, d.id)
    ensures FirstMatch(PolicyOnly(AfterApply(c, w, d)), "in", peer, covers)
            == if !BlocksInbound(d) then None
               else if Listed(EffectiveCidrs(d), peer, covers) then Some("allow") else Some("block")
    ensures FirstMatch(PolicyOnly(AfterApply(c, w, d)), "out", peer, covers)
            == if !BlocksOutbound(d) then None
               else if Listed(EffectiveCidrs(d), peer, covers) then Some("allow") else Some("block")
  {
    PlanDecidesPackets(c.hash, d, peer, covers);
    FreshInstallOrder(c, w, d);
    hide Planned, EqualFold, AfterApply, FirstMatch, AddAll, PolicyOnly, CatchAll, Listed, EffectiveCidrs,
         BlocksInbound, BlocksOutbound, NoLeak;
    var plan := Planned(c.hash, d);
    AddAllDecides([], plan, |plan|, "in", peer, covers);
    AddAllDecides([], plan, |plan|, "out", peer, covers);
    assert [] + plan[..|plan|] == plan;
  }

  lemma FreshInstallOrder(c: Config, w: World, d: Policy)
    requires NoLeak(c, w)
    requires w.lastEnforced.None? || !EqualFold(w.lastEnforced.value.id, d.id)
    ensures PolicyOnly(AfterApply(c, w, d)) == AddAll([], Planned(c.hash, d), |Planned(c.hash, d)|)
  {
    hide Planned, EqualFold, IsPolicyRule, BeforeApply, AddAll, PolicyOnly;
    var before, plan := BeforeApply(c, w, d), Planned(c.hash, d);
    BeforeApplyWithin(c, w, d);
    PlanIsPolicyRules(c.hash, d);
    PolicyOnlyAddAll(before, plan, |plan|);
    NoPolicyRules(before);
  }

  lemma {:induction false} NoPolicyRules(rules: seq<Rule>)
    requires forall r :: r in rules ==> !IsPolicyRule(r)
    ensures PolicyOnly(rules) == []
  {
    hide IsPolicyRule;
    if rules != [] {
      NoPolicyRules(rules[..|rules| - 1]);
    }
  }

  ghost predicate NoRepeats(plan: seq<Rule>) {
    forall i, j :: 0 <= i < j < |plan| ==> plan[i] != plan[j]
  }

  lemma {:induction false} RemoveHeads(plan: seq<Rule>, k: nat)
    requires NoRepeats(plan) && k <= |plan|
    ensures RemoveAll(plan, plan, k) == plan[k..]
  {
    if k > 0 {
      hide Removed;
      RemoveHeads(plan, k - 1);
      RemoveFirst(plan[k - 1..]);
    }
  }

  lemma {:induction false} RemoveFirst(s: seq<Rule>)
    requires s != [] && NoRepeats(s)
    ensures Removed(s, s[0]) == s[1..]
  {
    if |s| > 1 {
      var n := |s| - 1;
      RemoveFirst(s[..n]);
      assert s[..n][1..] + [s[n]] == s[1..];
    } else {
      assert s[..0] == [];
    }
  }

  lemma {:induction false} AddToTail(plan: seq<Rule>, k: nat, n: nat)
    requires NoRepeats(plan) && k <= |plan| && n <= |plan|
    ensures AddAll(plan[k..], plan, n) == plan[k..] + plan[..Min(k, n)]
  {
    if n == 0 {
      assert plan[k..] + plan[..0] == plan[k..];
    } else {
      AddToTail(plan, k, n - 1);
      if n - 1 < k {
        var before := plan[k..] + plan[..n - 1];
        assert plan[n - 1] !in before;
        assert before + [plan[n - 1]] == plan[k..] + plan[..n];
      } else {
        assert plan[n - 1] == plan[k..][n - 1 - k];
      }
    }
  }

  lemma RemovedComeBackLast(plan: seq<Rule>, k: nat)
    requires NoRepeats(plan) && k <= |plan|
    ensures AddAll(RemoveAll(plan, plan, k), plan, |plan|) == plan[k..] + plan[..k]
  {
    RemoveHeads(plan, k);
    AddToTail(plan, k, |plan|);
  }

  // ---- What a step leaves for packets ----

  /** The rules a step finds decide first, and its plan decides what they leave open. */
  lemma InstalledDecision<Addr>(c: Config, w: World, d: Policy, direction: string, peer: Addr, covers: (string, Addr) -> bool)
    ensures FirstMatch(PolicyOnly(AfterApply(c, w, d)), direction, peer, covers)
            == var before := FirstMatch(PolicyOnly(BeforeApply(c, w, d)), direction, peer, covers);
               if before.Some? then before else FirstMatch(Planned(c.hash, d), direction, peer, covers)
  {
    hide Planned, IsPolicyRule, BeforeApply, AddAll, PolicyOnly, FirstMatch;
    var before, plan := BeforeApply(c, w, d), Planned(c.hash, d);
    PlanIsPolicyRules(c.hash, d);
    PolicyOnlyAddAll(before, plan, |plan|);
    AddAllDecides(PolicyOnly(before), plan, |plan|, direction, peer, covers);
    assert plan[..|plan|] == plan;
    FirstMatchAppend(PolicyOnly(before), plan, direction, peer, covers);
  }

  /** Once a step without faults has applied a policy, from any reachable world, the rules in the firewall
      decide a packet as the plan does exactly when the rules the step found are silent or agree. */
  lemma InstalledPlanDecidesIff<Addr>(c: Config, known: set<Policy>, w: World, desired: Policy, now: int, host: Host,
                                      direction: string, peer: Addr, covers: (string, Addr) -> bool)
    requires c.enforce && Coherent(c, known) && Reachable(c, known, w)
    requires var d := Normalize(desired);
             d in known && d.active && Trusted(c, d) && !Throttled(c, w, d, now) && TagsTell(w, d)
             && Planned(c.hash, d) != [] && Distinguishable(c.hash, d) && FaultFree(c, w, d, host)
    ensures var d := Normalize(desired);
            var rules := Evaluate(c, w, desired, now, host).0.rules;
            var before := FirstMatch(PolicyOnly(BeforeApply(c, w, d)), direction, peer, covers);
            var wanted := FirstMatch(Planned(c.hash, d), direction, peer, covers);
            FirstMatch(PolicyOnly(rules), direction, peer, covers) == wanted <==> before.None? || before == wanted
  {
    hide *;
    EnforcingStepInstalls(c, known, w, desired, now, host);
    InstalledDecision(c, w, Normalize(desired), direction, peer, covers);
  }

  predicate Blocks(d: Policy, direction: string) {
    if direction == "in" then BlocksInbound(d) else BlocksOutbound(d)
  }

  lemma {:induction false} FirstMatchFound<Addr>(rules: seq<Rule>, direction: string, peer: Addr, covers: (string, Addr) -> bool)
    returns (r: Rule)
    requires FirstMatch(rules, direction, peer, covers).Some?
    ensures r in rules && Matches(r, direction, peer, covers) && FirstMatch(rules, direction, peer, covers) == Some(r.action)
  {
    hide Matches;
    if Matches(rules[0], direction, peer, covers) { r := rules[0]; } else { r := FirstMatchFound(rules[1..], direction, peer, covers); }
  }

  lemma AllowedInbound<Addr>(h: Hash, id: string, cidrs: seq<string>, r: Rule, peer: Addr, covers: (string, Addr) -> bool)
    requires r in InRules(h, id, cidrs) && r.action == "allow" && Matches(r, "in", peer, covers)
    ensures Listed(cidrs, peer, covers)
  {
    hide RuleTag, Fingerprint;
    var rules := InRules(h, id, cidrs);
    var i :| 0 <= i < |rules| && rules[i] == r;
    if i < |cidrs| {
      assert r == InRule(h, id, cidrs[i], "allow");
      assert cidrs[i] in cidrs;
    }
  }

  lemma AllowedOutbound<Addr>(h: Hash, id: string, cidrs: seq<string>, r: Rule, peer: Addr, covers: (string, Addr) -> bool)
    requires r in OutRules(h, id, cidrs) && r.action == "allow" && Matches(r, "out", peer, covers)
    ensures Listed(cidrs, peer, covers)
  {
    hide RuleTag, Fingerprint;
    var rules := OutRules(h, id, cidrs);
    var i :| 0 <= i < |rules| && rules[i] == r;
    if i < |cidrs| {
      assert r == OutRule(h, id, cidrs[i], "allow");
      assert cidrs[i] in cidrs;
    }
  }

  /** A planned rule that allows a packet names a CIDR of the allowlist. */
  lemma AllowedIsListed<Addr>(h: Hash, d: Policy, r: Rule, direction: string, peer: Addr, covers: (string, Addr) -> bool)
    requires r in Planned(h, d) && r.action == "allow" && Matches(r, direction, peer, covers)
    requires direction == "in" || direction == "out"
    ensures Listed(EffectiveCidrs(d), peer, covers)
  {
    hide EffectiveCidrs, InRules, OutRules, Listed, BlocksInbound, BlocksOutbound;
    var cidrs := EffectiveCidrs(d);
    DirectionsOfRules(h, d.id, cidrs);
    assert r.direction == direction;
    if direction == "in" {
      assert r in InRules(h, d.id, cidrs);
      AllowedInbound(h, d.id, cidrs, r, peer, covers);
    } else {
      assert r in OutRules(h, d.id, cidrs);
      AllowedOutbound(h, d.id, cidrs, r, peer, covers);
    }
  }

  lemma FoundRulesAreOwn(c: Config, known: set<Policy>, w: World, d: Policy, r: Rule)
    requires Coherent(c, known) && Reachable(c, known, w) && d in known && Trusted(c, d)
    requires r in PolicyOnly(BeforeApply(c, w, d))
    ensures r in Planned(c.hash, d)
  {
    hide Coherent, Reachable, Trusted, Planned, IsPolicyRule, RemoveAll, EqualFold, PolicyOnly;
    ReachableInv(c, known, w);
    PolicyOnlyMembers(BeforeApply(c, w, d), r);
    BeforeApplyWithin(c, w, d);
    if w.lastEnforced.Some? && EqualFold(w.lastEnforced.value.id, d.id) {
      CoherentReplaces(c, known, w.lastEnforced.value, d);
      assert r in RuleSet(c.hash, w.lastEnforced.value);
    }
  }

  lemma FoundDecision<Addr>(c: Config, known: set<Policy>, w: World, d: Policy, direction: string, peer: Addr,
                            covers: (string, Addr) -> bool)
    requires Coherent(c, known) && Reachable(c, known, w) && d in known && Trusted(c, d)
    requires direction == "in" || direction == "out"
    ensures var before := FirstMatch(PolicyOnly(BeforeApply(c, w, d)), direction, peer, covers);
            before.None? || before == Some("block") || (before == Some("allow") && Listed(EffectiveCidrs(d), peer, covers))
  {
    hide Coherent, Reachable, Trusted, Planned, BeforeApply, PolicyOnly, Listed, EffectiveCidrs, Matches, FirstMatch;
    if FirstMatch(PolicyOnly(BeforeApply(c, w, d)), direction, peer, covers).Some? {
      var r := FirstMatchFound(PolicyOnly(BeforeApply(c, w, d)), direction, peer, covers);
      FoundRulesAreOwn(c, known, w, d, r);
      PlannedRuleShape(c.hash, d, r);
      if r.action == "allow" { AllowedIsListed(c.hash, d, r, direction, peer, covers); }
    }
  }

  /** So in a default-block direction the firewall admits exactly the listed peers, except those that the
      rules the step found already block; an unlisted peer is never admitted. */
  lemma InstalledPolicyAdmits<Addr(!new)>(c: Config, known: set<Policy>, w: World, desired: Policy, now: int, host: Host,
                                          direction: string, peer: Addr, covers: (string, Addr) -> bool)
    requires c.enforce && Coherent(c, known) && Reachable(c, known, w) && CatchAll(covers)
    requires var d := Normalize(desired);
             d in known && d.active && Trusted(c, d) && !Throttled(c, w, d, now) && TagsTell(w, d)
             && Planned(c.hash, d) != [] && Distinguishable(c.hash, d) && FaultFree(c, w, d, host)
             && Blocks(d, direction)
    requires direction == "in" || direction == "out"
    ensures var d := Normalize(desired);
            var found := FirstMatch(PolicyOnly(BeforeApply(c, w, d)), direction, peer, covers);
            FirstMatch(PolicyOnly(Evaluate(c, w, desired, now, host).0.rules), direction, peer, covers)
            == if Listed(EffectiveCidrs(d), peer, covers) && found != Some("block") then Some("allow") else Some("block")
  {
    var d := Normalize(desired);
    hide *;
    EnforcingStepInstalls(c, known, w, desired, now, host);
    InstalledDecision(c, w, d, direction, peer, covers);
    FoundDecision(c, known, w, d, direction, peer, covers);
    PlanDecidesPackets(c.hash, d, peer, covers);
    assert if direction == "in" then BlocksInbound(d) else BlocksOutbound(d) by { BlocksIs(d, direction); }
  }

  lemma BlocksIs(d: Policy, direction: string)
    ensures Blocks(d, direction) == if direction == "in" then BlocksInbound(d) else BlocksOutbound(d)
  {
  }

  /** Once a policy is installed on a host that held none, or another policy's, the network-policy rules in the
      firewall, tried in order, admit a peer in a default-block direction exactly when it is on the effective
      allowlist, and leave other directions open. */
  lemma FreshInstallDecidesPackets<Addr(!new)>(c: Config, known: set<Policy>, w: World, desired: Policy, now: int,
                                               host: Host, peer: Addr, covers: (string, Addr) -> bool)
    requires c.enforce && Coherent(c, known) && Reachable(c, known, w) && CatchAll(covers)
    requires var d := Normalize(desired);
             d in known && d.active && Trusted(c, d) && !Throttled(c, w, d, now) && TagsTell(w, d)
             && Planned(c.hash, d) != [] && Distinguishable(c.hash, d) && FaultFree(c, w, d, host)
             && (w.lastEnforced.None? || !EqualFold(w.lastEnforced.value.id, d.id))
    ensures var d := Normalize(desired);
            var rules := PolicyOnly(Evaluate(c, w, desired, now, host).0.rules);
            && FirstMatch(rules, "in", peer, covers)
               == (if !BlocksInbound(d) then None
                   else if Listed(EffectiveCidrs(d), peer, covers) then Some("allow") else Some("block"))
            && FirstMatch(rules, "out", peer, covers)
               == (if !BlocksOutbound(d) then None
                   else if Listed(EffectiveCidrs(d), peer, covers) then Some("allow") else Some("block"))
  {
    hide *;
    EnforcingStepInstalls(c, known, w, desired, now, host);
    ReachableInv(c, known, w);
    InvNoLeak(c, known, w);
    FreshRulesDecide(c, w, Normalize(desired), peer, covers);
  }

  lemma InvNoLeak(c: Config, known: set<Policy>, w: World)
    requires Inv(c, known, w, false)
    ensures NoLeak(c, w)
  {
  }

  // ---- An interrupted rollback ----

  /** A call for another policy whose rollback stops after `k` rules. */
  ghost predicate Interrupts(c: Config, w: World, p: Policy, q: Policy, at: int, host: Host, k: nat) {
    && c.enforce && w.lastEnforced == Some(p) && w.rules == Planned(c.hash, p)
    && q == Normalize(q) && q.active && Trusted(c, q) && !Throttled(c, w, q, at) && Planned(c.hash, q) != []
    && !EqualFold(p.id, q.id)
    && host.provider && host.rollbackProvider && host.removeFailsAt == k < |Planned(c.hash, p)|
  }

  lemma InterruptedStep(c: Config, w: World, p: Policy, q: Policy, at: int, host: Host, k: nat)
    requires Interrupts(c, w, p, q, at, host, k) && NoRepeats(Planned(c.hash, p))
    ensures var (w', receipt) := Evaluate(c, w, q, at, host);
            && receipt.Some? && receipt.value.status == Failed
            && w'.rules == Planned(c.hash, p)[k..] && w'.lastEnforced == Some(p) && w'.lastID == q.id && w'.disk == w.disk
  {
    hide Planned, Trusted, Normalize, EqualFold, RemoveAll, AddAll, Drift, UnsupportedControls, AppendUnique, NoRepeats, Throttled;
    RemoveHeads(Planned(c.hash, p), k);
  }

  lemma TrimmedListingFails(c: Config, p: Policy, k: nat, listing: seq<Rule>)
    requires Distinguishable(c.hash, p) && NoRepeats(Planned(c.hash, p)) && 0 < k < |Planned(c.hash, p)|
    requires forall r :: r in listing ==> r in Planned(c.hash, p)[k..]
    ensures Drift(c.hash, Planned(c.hash, p), listing, |Planned(c.hash, p)|) != []
  {
    hide Planned, Drift, Distinguishable;
    var plan := Planned(c.hash, p);
    forall i | 0 <= i < |plan[k..]| ensures plan[k..][i] != plan[0] { assert plan[k + i] != plan[0]; }
    assert plan[0] !in listing;
    if Drift(c.hash, plan, listing, |plan|) == [] { PassingListingIsFull(c.hash, p, listing, plan[0]); }
  }

  /** Policy `p` is in force; a rollback of it for `q` stops after `k` rules; then `p` is sent again and nothing
      fails. The receipt says applied, and the removed rules stand last. */
  lemma InterruptedRollbackRotatesPlan(c: Config, w: World, p: Policy, q: Policy, at: int, broken: Host, k: nat,
                                       later: int, sound: Host)
    requires Interrupts(c, w, p, q, at, broken, k) && 0 < k
    requires NoRepeats(Planned(c.hash, p)) && Distinguishable(c.hash, p)
    requires p == Normalize(p) && p.active && Trusted(c, p)
    requires FaultFree(c, Evaluate(c, w, q, at, broken).0, p, sound)
    ensures var (w', receipt) := Evaluate(c, Evaluate(c, w, q, at, broken).0, p, later, sound);
            && receipt.Some? && receipt.value.status == Applied && w'.lastEnforced == Some(p)
            && w'.rules == Planned(c.hash, p)[k..] + Planned(c.hash, p)[..k]
  {
    hide Planned, Trusted, Evaluate, Drift, Distinguishable, NoRepeats, AddAll, RemoveAll, RuleTag, EqualFold, Normalize;
    InterruptedStep(c, w, p, q, at, broken, k);
    var w1, plan := Evaluate(c, w, q, at, broken).0, Planned(c.hash, p);
    IdFoldsToItself(p, q);
    assert BeforeApply(c, w1, p) == plan[k..];
    TrimmedListingFails(c, p, k, sound.listing.value);
    EnforcingStepOutcome(c, w1, p, later, sound);
    RemoveHeads(plan, k);
    RemovedComeBackLast(plan, k);
  }

  lemma IdFoldsToItself(p: Policy, q: Policy)
    ensures EqualFold(p.id, p.id) && (!EqualFold(p.id, q.id) ==> p.id != q.id)
  {
    EqualFoldReflexive(p.id);
  }

  /** A plan that blocks inbound only, rotated by some of its allow rules, admits a peer exactly when one of the
      other CIDRs covers it: a peer that only the rotated ones cover is listed and blocked. */
  lemma RotatedPlanDecides<Addr(!new)>(h: Hash, p: Policy, k: nat, peer: Addr, covers: (string, Addr) -> bool)
    requires CatchAll(covers) && BlocksInbound(p) && !BlocksOutbound(p) && k <= |EffectiveCidrs(p)|
    ensures k <= |Planned(h, p)|
    ensures FirstMatch(Planned(h, p)[k..] + Planned(h, p)[..k], "in", peer, covers)
            == if Listed(EffectiveCidrs(p)[k..], peer, covers) then Some("allow") else Some("block")
  {
    hide FirstMatch, InRule, EffectiveCidrs, Listed, BlocksInbound, BlocksOutbound;
    var cidrs, plan := EffectiveCidrs(p), Planned(h, p);
    assert plan == InRules(h, p.id, cidrs);
    assert plan[k..] == InRules(h, p.id, cidrs[k..]);
    InRulesDecide(h, p.id, cidrs[k..], peer, covers);
    FirstMatchAppend(plan[k..], plan[..k], "in", peer, covers);
  }
}
