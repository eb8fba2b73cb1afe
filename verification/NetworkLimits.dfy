/** The inputs for which the guarantees of enforcement stop, and the exact conditions under which they hold. */
module NetworkLimits {
  import opened Text
  import opened Wrappers
  import opened NetworkPlan
  import opened NetworkPresence
  import opened NetworkMachine
  import opened NetworkSafety
  import opened NetworkConvergence

  /** A host whose listings fail and that refuses nothing else. */
  function BlindHost(c: Config, d: Policy): Host {
    Host(true, true, None, None, 0, |Planned(c.hash, d)|, true)
  }

  /** When a trusted policy meets another one in force, no rule can leak, whatever the host does, exactly if the
      ids differ by more than letter case or every network-policy rule in the firewall is one of the new plan. */
  lemma LeakFreeIff(c: Config, w: World, p: Policy, desired: Policy, now: int)
    requires c.enforce && NoLeak(c, w) && w.lastEnforced == Some(p)
    requires var d := Normalize(desired);
             d.active && Trusted(c, d) && !Throttled(c, w, d, now) && Planned(c.hash, d) != []
    ensures (forall host: Host :: NoLeak(c, Evaluate(c, w, desired, now, host).0))
            <==> !EqualFold(p.id, Normalize(desired).id) || Within(c.hash, w.rules, Some(Normalize(desired)))
  {
    var d := Normalize(desired);
    if Covers(c.hash, w.rules, Some(p), d) {
      hide Trusted, Planned, Normalize, Evaluate, EqualFold, Within;
      forall host: Host ensures NoLeak(c, Evaluate(c, w, desired, now, host).0) {
        StepSafe(c, w, desired, now, host);
      }
    } else {
      hide Trusted, Planned, Normalize, AppendUnique, UnsupportedControls, EqualFold, AddAll, Save;
      var host := BlindHost(c, d);
      var w' := Evaluate(c, w, desired, now, host).0;
      var plan := Planned(c.hash, d);
      assert w'.rules == AddAll(w.rules, plan, |plan|) && w'.lastEnforced == Some(d);
      var r :| r in w.rules && IsPolicyRule(r) && r !in plan;
      AddAllMembers(w.rules, plan, |plan|, r);
      assert !NoLeak(c, w');
    }
  }

  /** Where the plan in force is there in full, that is: exactly if the ids differ by more than letter case or
      the new plan keeps every old rule. */
  lemma FullPlanLeakFreeIff(c: Config, w: World, p: Policy, desired: Policy, now: int)
    requires c.enforce && w.lastEnforced == Some(p) && Exactly(c.hash, w.rules, Some(p))
    requires var d := Normalize(desired);
             d.active && Trusted(c, d) && !Throttled(c, w, d, now) && Planned(c.hash, d) != []
    ensures (forall host: Host :: NoLeak(c, Evaluate(c, w, desired, now, host).0))
            <==> !EqualFold(p.id, Normalize(desired).id) || RuleSet(c.hash, p) <= RuleSet(c.hash, Normalize(desired))
  {
    hide Trusted, Planned, Normalize, Evaluate, EqualFold, Throttled;
    var d := Normalize(desired);
    ExactlyWithin(c.hash, w.rules, Some(p));
    LeakFreeIff(c, w, p, desired, now);
    FullPlanWithin(c.hash, w.rules, p, d);
  }

  lemma FullPlanWithin(h: Hash, rules: seq<Rule>, p: Policy, d: Policy)
    requires Exactly(h, rules, Some(p))
    ensures Within(h, rules, Some(d)) <==> RuleSet(h, p) <= RuleSet(h, d)
  {
    hide Planned, IsPolicyRule;
    PlanIsPolicyRules(h, p);
    if Within(h, rules, Some(d)) {
      forall r | r in RuleSet(h, p) ensures r in RuleSet(h, d) { assert r in rules; }
    } else {
      var r :| r in rules && IsPolicyRule(r) && r !in Planned(h, d);
      assert r in RuleSet(h, p) && r !in RuleSet(h, d);
    }
  }

  lemma ExactlyWithin(h: Hash, rules: seq<Rule>, owner: Option<Policy>)
    requires Exactly(h, rules, owner)
    ensures Within(h, rules, owner)
  {
  }

  /** Two spellings of one id never share a rule, so the condition above fails for every policy sent again
      under an id that differs in letter case alone. */
  lemma RespelledIdSharesNoRule(h: Hash, p: Policy, d: Policy)
    requires EqualFold(p.id, d.id) && p.id != d.id
    ensures RuleSet(h, p) !! RuleSet(h, d)
  {
    hide Planned, EqualFold;
    EqualFoldLength(p.id, d.id);
    hide EqualFold, Identity, RuleTag;
    forall r | r in RuleSet(h, p) ensures r !in RuleSet(h, d) {
      if r in RuleSet(h, d) {
        PlannedRuleShape(h, p, r);
        PlannedRuleShape(h, d, r);
        CommentNamesId(h, p.id, d.id, r);
        assert false;
      }
    }
  }

  lemma EqualFoldLength(a: string, b: string)
    requires EqualFold(a, b)
    ensures |a| == |b|
  {
  }

  lemma CommentNamesId(h: Hash, a: string, b: string, r: Rule)
    requires |a| == |b| && r == Commented(h, a, r) && r == Commented(h, b, r)
    ensures a == b
  {
    CommentText(h, a, r);
    CommentText(h, b, r);
    hide Commented;
    var n := |"control one network policy "|;
    assert r.comment[n..n + |a|] == a;
    assert r.comment[n..n + |b|] == b;
  }

  /** So when a policy is sent again under another spelling of its id, some host behaviour leaks rules exactly if the
      firewall holds a network-policy rule. */
  lemma RespelledIdLeaks(c: Config, w: World, p: Policy, desired: Policy, now: int)
    requires c.enforce && NoLeak(c, w) && w.lastEnforced == Some(p)
    requires var d := Normalize(desired);
             d.active && Trusted(c, d) && !Throttled(c, w, d, now) && Planned(c.hash, d) != []
             && EqualFold(p.id, d.id) && p.id != d.id
    ensures (exists host: Host :: !NoLeak(c, Evaluate(c, w, desired, now, host).0))
            <==> exists r :: r in w.rules && IsPolicyRule(r)
  {
    hide Planned, Trusted, Normalize, EqualFold, Evaluate, Throttled, IsPolicyRule;
    var d := Normalize(desired);
    RespelledIdSharesNoRule(c.hash, p, d);
    LeakFreeIff(c, w, p, desired, now);
    if r :| r in w.rules && IsPolicyRule(r) {
      assert r in RuleSet(c.hash, p) && r !in RuleSet(c.hash, d);
    }
  }

  /** A concrete case: one signed policy sent twice, the second time with its id in upper case. */
  lemma RespelledIdExample() returns (c: Config, p: Policy, w: World, d: Policy)
    ensures c.enforce && w.lastEnforced == Some(p) && w.rules == Planned(c.hash, p)
    ensures Trusted(c, p) && Trusted(c, d) && p.active && d == p.(id := "sha256:AB") && p.id == "sha256:ab"
    ensures exists host: Host :: !NoLeak(c, Evaluate(c, w, d, 1000, host).0)
  {
    hide Planned, Trusted, Normalize, EqualFold, Evaluate, IsPolicyRule, DesiredStateID, PayloadOf;
    c := Config(Hash(payload => "ab", identity => "0123456789abcdef"), Verifier(true, "", (id, signature) => true),
                true, 600, "/var/lib/controlone");
    p := Policy("v1", "enforcement", "sha256:ab", "whitelist", true, false, None, "", [], [], [], [],
                Intent("host_firewall", "block", "allow", ["10.0.0.0/8"], "unsupported", []), "sig", "ed25519", "");
    d := p.(id := "sha256:AB");
    w := World(p.id, 0, Applied, Some(p), Some(p), Planned(c.hash, p));
    FoldsToUpper();
    ExampleTrusted(c, p);
    ExampleTrusted(c, d);
    BlockPlanned(c.hash, p);
    BlockPlanned(c.hash, d);
    PlanIsExact(c.hash, p);
    assert p.id != d.id by { assert "sha256:ab"[7] != "sha256:AB"[7]; }
    assert Normalize(d) == d by {
      assert !IsSpace('s') && !IsSpace('B');
      IdNormalized(d);
    }
    PlanIsPolicyRules(c.hash, p);
    ExactlyWithin(c.hash, w.rules, Some(p));
    assert w.rules[0] in w.rules && IsPolicyRule(w.rules[0]);
    RespelledIdLeaks(c, w, p, d, 1000);
  }

  lemma IdNormalized(d: Policy)
    requires Trimmed(d.id) && d.id != ""
    ensures Normalize(d) == d
  {
    TrimFixed(d.id);
  }

  lemma PlanIsExact(h: Hash, p: Policy)
    ensures Exactly(h, Planned(h, p), Some(p))
  {
  }

  lemma BlockPlanned(h: Hash, p: Policy)
    requires p.enforcement.inbound == "block"
    ensures Planned(h, p) != []
  {
    hide InRule, OutRule;
  }

  lemma ExampleTrusted(c: Config, p: Policy)
    requires (forall x :: c.hash.digest(x) == "ab") && c.verifier.loaded && forall x, y :: c.verifier.verifies(x, y)
    requires EqualFold("sha256:ab", p.id) && p.keyID == "" && p.signature == "sig" && p.algorithm == "ed25519"
    ensures Trusted(c, p)
  {
    hide EqualFold, PayloadOf, Trim;
    assert !IsSpace('s') && !IsSpace('g') && !IsSpace('e') && !IsSpace('9');
    TrimFixed("sig");
    TrimFixed("ed25519");
    EqualFoldReflexive("ed25519");
    assert ID_PREFIX + "ab" == "sha256:ab";
  }

  lemma FoldsToUpper()
    ensures EqualFold("sha256:ab", "sha256:AB") && EqualFold("sha256:ab", "sha256:ab")
  {
    SameLower("sha256:ab", "sha256:AB");
    EqualFoldReflexive("sha256:ab");
  }

  lemma SameLower(a: string, b: string)
    requires |a| == |b| && forall i :: 0 <= i < |a| ==> LowerChar(a[i]) == LowerChar(b[i])
    ensures EqualFold(a, b)
  {
    hide Lower;
    assert Lower(a) == Lower(b);
  }

  // ---- Restarts ----

  /** The rules a step puts into the firewall: none if the listing passes the check, else the plan up to the rule that fails. */
  function Entered(c: Config, d: Policy, host: Host): seq<Rule> {
    var plan := Planned(c.hash, d);
    if host.listing.Some? && Drift(c.hash, plan, host.listing.value, |plan|) == [] then []
    else plan[..Min(host.applyFailsAt, |plan|)]
  }

  lemma RollbackShrinks(c: Config, p: Policy, rules: seq<Rule>, host: Host)
    ensures forall r :: r in Rollback(c, p, rules, host).rules ==> r in rules
  {
    hide Planned;
    if host.rollbackProvider {
      var plan := Planned(c.hash, p);
      forall r | r in Rollback(c, p, rules, host).rules ensures r in rules {
        RemoveAllMembers(rules, plan, Min(host.removeFailsAt, |plan|), r);
      }
    }
  }

  /** What a step that installs, even in part, leaves in the firewall. */
  ghost predicate Enters(c: Config, d: Policy, host: Host, rules: seq<Rule>, receipt: Receipt, after: seq<Rule>) {
    receipt.status == Applied || receipt.applied > 0 ==>
      && (forall r :: r in Entered(c, d, host) ==> r in after)
      && (forall r :: r in after ==> r in rules || r in Entered(c, d, host))
  }

  lemma ApplyPlanMembers(c: Config, d: Policy, rules: seq<Rule>, host: Host, start: Receipt)
    ensures var plan := Planned(c.hash, d);
            var after := ApplyPlan(c, plan, rules, host, start).1;
            forall r :: r in after <==> r in rules || r in plan[..Min(host.applyFailsAt, |plan|)]
  {
    hide Planned, Drift, AppendUnique;
    var plan := Planned(c.hash, d);
    var n := Min(host.applyFailsAt, |plan|);
    forall r ensures r in AddAll(rules, plan, n) <==> r in rules || r in plan[..n] { AddAllMembers(rules, plan, n, r); }
  }

  lemma BuildActiveEnters(c: Config, d: Policy, p: Option<Policy>, rules: seq<Rule>, host: Host, start: Receipt)
    requires c.enforce && start.applied == 0
    ensures var (receipt, after) := BuildActive(c, d, p, rules, host, start);
            Enters(c, d, host, rules, receipt, after)
  {
    hide Planned, Drift, AppendUnique, UnsupportedControls, EqualFold, ApplyPlan, Rollback;
    var undone := if p.Some? && !EqualFold(p.value.id, d.id)
                  then Rollback(c, p.value, rules, host) else RollbackResult(rules, 0, true);
    if p.Some? { RollbackShrinks(c, p.value, rules, host); }
    var plan := Planned(c.hash, d);
    forall s: Receipt
      ensures forall r :: r in ApplyPlan(c, plan, undone.rules, host, s).1
                          <==> r in undone.rules || r in plan[..Min(host.applyFailsAt, |plan|)]
    {
      ApplyPlanMembers(c, d, undone.rules, host, s);
    }
  }

  /** A step that remembers a policy it did not remember before. */
  lemma NewlyRemembered(c: Config, w: World, desired: Policy, now: int, host: Host)
    requires var d := Normalize(desired);
             c.enforce && w.lastEnforced != Some(d) && Evaluate(c, w, desired, now, host).0.lastEnforced == Some(d)
    ensures var d, w' := Normalize(desired), Evaluate(c, w, desired, now, host).0;
            && d.active && Trusted(c, d)
            && w'.disk == (if host.saves && !Blank(c.stateDir) then Some(d) else w.disk)
            && (forall r :: r in Entered(c, d, host) ==> r in w'.rules)
            && (forall r :: r in w'.rules ==> r in w.rules || r in Entered(c, d, host))
  {
    hide Planned, Trusted, Normalize, BuildActive, Rollback, AppendUnique, Blank, Entered, Throttled;
    var d := Normalize(desired);
    BuildActiveEnters(c, d, w.lastEnforced, w.rules, host, NewReceipt(d).(signatureValid := true));
  }

  /** From any world whose state file is up to date, after a step that remembers `d` and strands no rule: a restart
      keeps the firewall within the remembered policy exactly when the step could write the file, or put in only
      rules of the policy remembered before. A save skipped for want of a state directory counts as not written. */
  lemma RestartSafeIff(c: Config, w: World, desired: Policy, now: int, host: Host)
    requires c.enforce && NoLeak(c, w) && Restart(c, w).lastEnforced == w.lastEnforced
    requires var d := Normalize(desired);
             Covers(c.hash, w.rules, w.lastEnforced, d) && Evaluate(c, w, desired, now, host).0.lastEnforced == Some(d)
    ensures var d, w' := Normalize(desired), Evaluate(c, w, desired, now, host).0;
            && NoLeak(c, w')
            && (NoLeak(c, Restart(c, w')) <==>
                  (host.saves && !Blank(c.stateDir)) || Within(c.hash, Entered(c, d, host), w.lastEnforced))
  {
    hide Trusted, Planned, Normalize, Blank, IsPolicyRule, Evaluate, Entered, Covers;
    var d, w' := Normalize(desired), Evaluate(c, w, desired, now, host).0;
    StepSafe(c, w, desired, now, host);
    NormalizedIdNotBlank(desired);
    if w.lastEnforced == Some(d) {
      EnteredIsPlanned(c, d, host);
      SameRemembered(c, w, desired, now, host);
      assert Restart(c, w').lastEnforced == Some(d);
    } else {
      NewlyRemembered(c, w, desired, now, host);
      if host.saves && !Blank(c.stateDir) {
        assert Restart(c, w').lastEnforced == Some(d);
      } else {
        assert Restart(c, w').lastEnforced == w.lastEnforced;
        WithinEntered(c.hash, w.rules, w'.rules, Entered(c, d, host), w.lastEnforced);
      }
    }
  }

  lemma WithinEntered(h: Hash, before: seq<Rule>, after: seq<Rule>, entered: seq<Rule>, p: Option<Policy>)
    requires Within(h, before, p)
    requires (forall r :: r in entered ==> r in after) && forall r :: r in after ==> r in before || r in entered
    ensures Within(h, after, p) <==> Within(h, entered, p)
  {
    hide Planned, IsPolicyRule;
  }

  lemma EnteredIsPlanned(c: Config, d: Policy, host: Host)
    ensures Within(c.hash, Entered(c, d, host), Some(d))
  {
    hide Planned, Drift, IsPolicyRule;
  }

  lemma SameRemembered(c: Config, w: World, desired: Policy, now: int, host: Host)
    requires var d := Normalize(desired);
             w.lastEnforced == Some(d) && Evaluate(c, w, desired, now, host).0.lastEnforced == Some(d)
    ensures Evaluate(c, w, desired, now, host).0.disk in {w.disk, Some(Normalize(desired))}
  {
    hide BuildReceipt, Normalize, Blank, AppendUnique;
  }

  /** A step that puts rules into a firewall that held no network-policy rule. */
  ghost predicate FirstApplies(c: Config, rules: seq<Rule>, d: Policy, host: Host) {
    && c.enforce && d == Normalize(d) && d.active && Trusted(c, d) && Planned(c.hash, d) != []
    && host.provider && host.applyFailsAt > 0
    && (host.listing.Some? ==> Drift(c.hash, Planned(c.hash, d), host.listing.value, |Planned(c.hash, d)|) != [])
    && forall r :: r in rules ==> !IsPolicyRule(r)
  }

  lemma FirstStep(c: Config, rules: seq<Rule>, d: Policy, now: int, host: Host)
    requires FirstApplies(c, rules, d, host)
    ensures Evaluate(c, Start(rules), d, now, host).0.lastEnforced == Some(d)
  {
    hide Trusted, Planned, Normalize, AppendUnique, UnsupportedControls, AddAll, Blank, Drift, IsPolicyRule;
    NormalizedIdNotBlank(d);
    assert !Throttled(c, Start(rules), d, now) by { IdNotEmpty(d.id); }
  }

  /** So after a first step that put rules in: exactly when there is a state directory and it could be written. */
  lemma FirstRestartSafeIff(c: Config, rules: seq<Rule>, d: Policy, now: int, host: Host)
    requires FirstApplies(c, rules, d, host)
    ensures var w := Evaluate(c, Start(rules), d, now, host).0;
            && w.lastEnforced == Some(d) && NoLeak(c, w)
            && (NoLeak(c, Restart(c, w)) <==> host.saves && !Blank(c.stateDir))
  {
    hide Trusted, Planned, Normalize, Blank, Drift, IsPolicyRule, Evaluate;
    FirstStep(c, rules, d, now, host);
    RestartSafeIff(c, Start(rules), d, now, host);
    PlanIsPolicyRules(c.hash, d);
    var r := Planned(c.hash, d)[0];
    assert Entered(c, d, host)[0] == r && r in Planned(c.hash, d);
    assert r in Entered(c, d, host) && IsPolicyRule(r);
    assert !Within(c.hash, Entered(c, d, host), None);
  }

  lemma IdNotEmpty(id: string)
    requires !Blank(id)
    ensures id != ""
  {
  }

  // ---- Policies that share a tag ----

  lemma EmptyIsNotExact(h: Hash, rules: seq<Rule>, d: Policy)
    requires Within(h, rules, None) && Planned(h, d) != []
    ensures !Exactly(h, rules, Some(d))
  {
    hide Planned, IsPolicyRule;
    PlanIsPolicyRules(h, d);
    assert Planned(h, d)[0] in Planned(h, d);
  }

  /** A step without faults for a policy of another id than the one in force reports it applied in any case. It
      installs the plan exactly when the listing does not pass the check already; when it passes, which takes
      ids that share a tag, no network-policy rule is left. */
  lemma OtherPolicyInstalledIff(c: Config, w: World, desired: Policy, now: int, host: Host)
    requires c.enforce && NoLeak(c, w) && w.lastEnforced.Some?
    requires var d := Normalize(desired);
             d.active && Trusted(c, d) && !Throttled(c, w, d, now) && Planned(c.hash, d) != []
             && !EqualFold(w.lastEnforced.value.id, d.id) && FaultFree(c, w, d, host)
    ensures var (w', receipt) := Evaluate(c, w, desired, now, host);
            var d := Normalize(desired);
            var passes := Drift(c.hash, Planned(c.hash, d), host.listing.value, |Planned(c.hash, d)|) == [];
            && receipt.Some? && receipt.value.status == Applied && w'.lastEnforced == Some(d)
            && (Exactly(c.hash, w'.rules, Some(d)) <==> !passes)
            && (passes ==> Exactly(c.hash, w'.rules, None) && RuleTag(w.lastEnforced.value.id) == RuleTag(d.id))
  {
    hide Trusted, Planned, Normalize, Evaluate, RemoveAll, AddAll, Drift, EqualFold, IsPolicyRule, RuleTag, Within, Faithful;
    var d := Normalize(desired);
    assert host.listing.Some? by { FaithfulIsSome(host.listing, w.rules, RuleTag(d.id)); }
    EnforcingStepOutcome(c, w, desired, now, host);
    BeforeApplyWithin(c, w, d);
    WithinSubset(c.hash, BeforeApply(c, w, d), None, d);
    AfterApplyExact(c, w, d);
    EmptyIsNotExact(c.hash, BeforeApply(c, w, d), d);
    if Drift(c.hash, Planned(c.hash, d), host.listing.value, |Planned(c.hash, d)|) == []
       && RuleTag(w.lastEnforced.value.id) != RuleTag(d.id)
    {
      OtherPolicyListsNothing(c, w, d, host.listing.value);
      EmptyListingFails(c.hash, Planned(c.hash, d));
    }
  }

  lemma {:induction false} SameIdentitiesCount(a: seq<Rule>, b: seq<Rule>, key: string)
    requires |a| == |b| && forall i :: 0 <= i < |a| ==> Identity(a[i]) == Identity(b[i])
    ensures Count(a, key) == Count(b, key)
  {
    hide Identity;
    if a != [] { SameIdentitiesCount(a[..|a| - 1], b[..|b| - 1], key); }
  }

  lemma IdentityNotEmpty(h: Hash, p: Policy, r: Rule)
    requires r in Planned(h, p)
    ensures Identity(r) != ""
  {
    PlannedRuleShape(h, p, r);
    hide Planned, RuleTag, Decimal, Commented;
    WordsAreKept();
    assert Identity(r)[0] == 's';
  }

  lemma WordsAreKept()
    ensures Lower(Trim("in")) != "" && Lower(Trim("out")) != "" && Lower(Trim("allow")) != "" && Lower(Trim("block")) != ""
  {
    TrimFixed("in");
    TrimFixed("out");
    TrimFixed("allow");
    TrimFixed("block");
  }

  /** Rules of one shape whose ids share a tag have the same identities. */
  predicate SameShape(p: Policy, q: Policy) {
    && RuleTag(p.id) == RuleTag(q.id) && EffectiveCidrs(p) == EffectiveCidrs(q)
    && BlocksInbound(p) == BlocksInbound(q) && BlocksOutbound(p) == BlocksOutbound(q)
  }

  lemma SameShapeIdentities(h: Hash, p: Policy, q: Policy, i: nat)
    requires SameShape(p, q) && i < |Planned(h, p)|
    ensures |Planned(h, p)| == |Planned(h, q)| && Identity(Planned(h, p)[i]) == Identity(Planned(h, q)[i])
  {
    hide Identity, RuleTag, Fingerprint, EffectiveCidrs, BlocksInbound, BlocksOutbound;
    var cidrs := EffectiveCidrs(p);
    RulesIdentities(h, p.id, q.id, cidrs);
  }

  lemma RulesIdentities(h: Hash, a: string, b: string, cidrs: seq<string>)
    requires RuleTag(a) == RuleTag(b)
    ensures |InRules(h, a, cidrs)| == |InRules(h, b, cidrs)| == |OutRules(h, a, cidrs)| == |OutRules(h, b, cidrs)|
    ensures forall i :: 0 <= i < |InRules(h, a, cidrs)| ==> Identity(InRules(h, a, cidrs)[i]) == Identity(InRules(h, b, cidrs)[i])
    ensures forall i :: 0 <= i < |OutRules(h, a, cidrs)| ==> Identity(OutRules(h, a, cidrs)[i]) == Identity(OutRules(h, b, cidrs)[i])
  {
    hide Identity, InRules, OutRules;
    RuleCounts(h, a, cidrs);
    RuleCounts(h, b, cidrs);
    forall i | 0 <= i < |cidrs| + 2
      ensures Identity(InRules(h, a, cidrs)[i]) == Identity(InRules(h, b, cidrs)[i])
      ensures Identity(OutRules(h, a, cidrs)[i]) == Identity(OutRules(h, b, cidrs)[i])
    {
      RuleAt(h, a, cidrs, i);
      RuleAt(h, b, cidrs, i);
      SameTagIdentity(h, a, b, PeerAt(cidrs, i), ActionAt(cidrs, i));
    }
  }

  function PeerAt(cidrs: seq<string>, i: nat): string {
    if i < |cidrs| then cidrs[i] else if i == |cidrs| then ANY_V4 else ANY_V6
  }

  function ActionAt(cidrs: seq<string>, i: nat): string {
    if i < |cidrs| then "allow" else "block"
  }

  lemma RuleCounts(h: Hash, id: string, cidrs: seq<string>)
    ensures |InRules(h, id, cidrs)| == |OutRules(h, id, cidrs)| == |cidrs| + 2
  {
    hide InRule, OutRule;
  }

  lemma RuleAt(h: Hash, id: string, cidrs: seq<string>, i: nat)
    requires i < |cidrs| + 2
    ensures |InRules(h, id, cidrs)| == |OutRules(h, id, cidrs)| == |cidrs| + 2
    ensures InRules(h, id, cidrs)[i] == InRule(h, id, PeerAt(cidrs, i), ActionAt(cidrs, i))
    ensures OutRules(h, id, cidrs)[i] == OutRule(h, id, PeerAt(cidrs, i), ActionAt(cidrs, i))
  {
    hide InRule, OutRule;
  }

  lemma SameTagIdentity(h: Hash, a: string, b: string, peer: string, action: string)
    requires RuleTag(a) == RuleTag(b)
    ensures Identity(InRule(h, a, peer, action)) == Identity(InRule(h, b, peer, action))
    ensures Identity(OutRule(h, a, peer, action)) == Identity(OutRule(h, b, peer, action))
  {
    hide RuleTag, Commented, Identity;
    IdentityOfCommented(h, a, b, Rule(peer, "", 0, "", "in", action, RuleTag(a), ""));
    IdentityOfCommented(h, a, b, Rule("", peer, 0, "", "out", action, RuleTag(a), ""));
  }

  lemma IdentityOfCommented(h: Hash, a: string, b: string, r: Rule)
    ensures Identity(Commented(h, a, r)) == Identity(Commented(h, b, r))
  {
    hide Fingerprint;
    CommentIgnored(r, Commented(h, a, r).comment);
    CommentIgnored(r, Commented(h, b, r).comment);
  }

  /** The rules of one policy pass the check for another of the same shape whose id shares the tag. */
  lemma SharedTagPasses(h: Hash, p: Policy, q: Policy)
    requires SameShape(p, q)
    ensures Drift(h, Planned(h, q), Planned(h, p), |Planned(h, q)|) == []
  {
    hide Planned, Identity, Drift, SameShape, Contains;
    var a, b := Planned(h, p), Planned(h, q);
    if a != [] { SameShapeIdentities(h, p, q, 0); }
    SameShapeSymmetric(p, q);
    if b != [] { SameShapeIdentities(h, q, p, 0); }
    forall i | 0 <= i < |a| ensures Identity(a[i]) == Identity(b[i]) { SameShapeIdentities(h, p, q, i); }
    forall r | r in b ensures RulePresent(h, b, a, r) {
      SameIdentitiesCount(a, b, Identity(r));
      IdentityNotEmpty(h, q, r);
    }
    DriftIsExact(h, b, a);
  }

  lemma SameShapeSymmetric(p: Policy, q: Policy)
    requires SameShape(p, q)
    ensures SameShape(q, p)
  {
  }
}
