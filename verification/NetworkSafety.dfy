/** What enforcement guarantees over whole runs: no superseded policy leaves a rule behind, a step
    that meets no fault installs exactly the wanted policy, and rules of others are never touched. */
module NetworkSafety {
  import opened Text
  import opened Wrappers
  import opened NetworkPlan
  import opened NetworkPresence
  import opened NetworkMachine

  /** Every network-policy rule in the firewall belongs to the plan of `owner`. */
  ghost predicate Within(h: Hash, rules: seq<Rule>, owner: Option<Policy>) {
    forall r :: r in rules && IsPolicyRule(r) ==> owner.Some? && r in Planned(h, owner.value)
  }

  ghost predicate NoLeak(c: Config, w: World) {
    Within(c.hash, w.rules, w.lastEnforced)
  }

  /** The network-policy rules in the firewall are exactly the plan of `owner`. */
  ghost predicate Exactly(h: Hash, rules: seq<Rule>, owner: Option<Policy>) {
    && Within(h, rules, owner)
    && (owner.Some? ==> forall r :: r in Planned(h, owner.value) ==> r in rules)
  }

  // ---- Adding and removing lists of rules ----

  lemma {:induction false} AddAllMembers(rules: seq<Rule>, plan: seq<Rule>, n: nat, r: Rule)
    requires n <= |plan|
    ensures r in AddAll(rules, plan, n) <==> r in rules || r in plan[..n]
  {
    if n > 0 {
      AddAllMembers(rules, plan, n - 1, r);
      assert plan[..n] == plan[..n - 1] + [plan[n - 1]];
    }
  }

  lemma {:induction false} RemovedMembers(rules: seq<Rule>, x: Rule, r: Rule)
    ensures r in Removed(rules, x) <==> r in rules && r != x
  {
    if rules != [] {
      var n := |rules| - 1;
      RemovedMembers(rules[..n], x, r);
      assert rules == rules[..n] + [rules[n]];
    }
  }

  lemma {:induction false} RemoveAllMembers(rules: seq<Rule>, plan: seq<Rule>, n: nat, r: Rule)
    requires n <= |plan|
    ensures r in RemoveAll(rules, plan, n) <==> r in rules && r !in plan[..n]
  {
    hide Removed;
    if n > 0 {
      RemoveAllMembers(rules, plan, n - 1, r);
      RemovedMembers(RemoveAll(rules, plan, n - 1), plan[n - 1], r);
      assert plan[..n] == plan[..n - 1] + [plan[n - 1]];
    }
  }

  // ---- One step keeps the firewall within the remembered policy ----

  /** Installing `d` over `p` cannot strand a rule of `p`: either their ids differ, so `p` is rolled
      back first, or every rule of `p` is also one of `d`. */
  ghost predicate Replaces(h: Hash, p: Option<Policy>, d: Policy) {
    p.None? || !EqualFold(p.value.id, d.id) || RuleSet(h, p.value) <= RuleSet(h, d)
  }

  /** Installing `d` over `p` in this firewall cannot strand a rule: either `p` is rolled back first, or every
      network-policy rule there is also one of `d`. */
  ghost predicate Covers(h: Hash, rules: seq<Rule>, p: Option<Policy>, d: Policy) {
    p.None? || !EqualFold(p.value.id, d.id) || Within(h, rules, Some(d))
  }

  lemma ReplacesCovers(h: Hash, rules: seq<Rule>, p: Option<Policy>, d: Policy)
    requires Within(h, rules, p) && Replaces(h, p, d)
    ensures Covers(h, rules, p, d)
  {
    hide Planned, IsPolicyRule, EqualFold;
    if p.Some? && EqualFold(p.value.id, d.id) { WithinSubset(h, rules, p, d); }
  }

  lemma RollbackSafe(c: Config, p: Policy, rules: seq<Rule>, host: Host)
    requires Within(c.hash, rules, Some(p))
    ensures var u := Rollback(c, p, rules, host);
            Within(c.hash, u.rules, Some(p)) && (u.ok ==> Within(c.hash, u.rules, None))
  {
    hide Planned, IsPolicyRule;
    if host.rollbackProvider {
      var plan := Planned(c.hash, p);
      var n := Min(host.removeFailsAt, |plan|);
      forall r ensures r in RemoveAll(rules, plan, n) <==> r in rules && r !in plan[..n] {
        RemoveAllMembers(rules, plan, n, r);
      }
      assert plan[..|plan|] == plan;
    }
  }

  lemma WithinSubset(h: Hash, rules: seq<Rule>, p: Option<Policy>, d: Policy)
    requires Within(h, rules, p) && (p.None? || RuleSet(h, p.value) <= RuleSet(h, d))
    ensures Within(h, rules, Some(d))
  {
    hide Planned, IsPolicyRule;
    forall r | r in rules && IsPolicyRule(r) ensures r in Planned(h, d) {
      assert r in RuleSet(h, p.value);
    }
  }

  /** What a (possibly partial) application of `d`'s plan leaves behind. */
  ghost predicate ApplySafe(h: Hash, d: Policy, rules: seq<Rule>, start: Receipt, receipt: Receipt, after: seq<Rule>) {
    && receipt.status != RollbackApplied && receipt.signatureValid == start.signatureValid
    && (receipt.applied > 0 ==> Within(h, after, Some(d)))
    && (receipt.applied == 0 ==> after == rules)
    && (receipt.status == Applied ==> receipt.applied == |Planned(h, d)|)
  }

  lemma ApplyPlanSafe(c: Config, d: Policy, rules: seq<Rule>, host: Host, start: Receipt)
    requires Within(c.hash, rules, Some(d))
    ensures var (receipt, after) := ApplyPlan(c, Planned(c.hash, d), rules, host, start);
            ApplySafe(c.hash, d, rules, start, receipt, after)
  {
    hide Planned, IsPolicyRule, Drift, AppendUnique;
    var plan := Planned(c.hash, d);
    var n := Min(host.applyFailsAt, |plan|);
    forall r ensures r in AddAll(rules, plan, n) <==> r in rules || r in plan[..n] {
      AddAllMembers(rules, plan, n, r);
    }
  }

  lemma BuildActiveSafe(c: Config, d: Policy, p: Option<Policy>, rules: seq<Rule>, host: Host, start: Receipt)
    requires Within(c.hash, rules, p) && Covers(c.hash, rules, p, d)
    requires start.applied == 0
    ensures var (receipt, after) := BuildActive(c, d, p, rules, host, start);
            && receipt.status != RollbackApplied && receipt.signatureValid == start.signatureValid
            && (receipt.applied > 0 ==> c.enforce && Within(c.hash, after, Some(d)))
            && (receipt.applied == 0 ==> Within(c.hash, after, p))
            && (receipt.status == Applied ==> receipt.applied > 0)
  {
    hide Planned, IsPolicyRule, Drift, AppendUnique, UnsupportedControls, EqualFold, ApplyPlan, Rollback, Within;
    var undone := if p.Some? && !EqualFold(p.value.id, d.id)
                  then Rollback(c, p.value, rules, host) else RollbackResult(rules, 0, true);
    if p.Some? && !EqualFold(p.value.id, d.id) {
      RollbackSafe(c, p.value, rules, host);
      if undone.ok {
        WithinSubset(c.hash, undone.rules, None, d);
      }
    } else if p.None? {
      WithinSubset(c.hash, rules, p, d);
    }
    if undone.ok {
      forall s: Receipt
        ensures ApplySafe(c.hash, d, undone.rules, s, ApplyPlan(c, Planned(c.hash, d), undone.rules, host, s).0,
                          ApplyPlan(c, Planned(c.hash, d), undone.rules, host, s).1)
      {
        ApplyPlanSafe(c, d, undone.rules, host, s);
      }
    }
  }

  /** The world after a step, given that the policy it may install can replace the remembered one. */
  lemma StepSafe(c: Config, w: World, desired: Policy, now: int, host: Host)
    requires NoLeak(c, w) && (w.lastEnforced.Some? ==> c.enforce)
    requires Normalize(desired).active && Trusted(c, Normalize(desired))
             ==> Covers(c.hash, w.rules, w.lastEnforced, Normalize(desired))
    ensures var w' := Evaluate(c, w, desired, now, host).0;
            && NoLeak(c, w')
            && (w'.lastEnforced == w.lastEnforced || w'.lastEnforced.None?
                || (w'.lastEnforced == Some(Normalize(desired)) && c.enforce && Normalize(desired).active
                    && Trusted(c, Normalize(desired))))
  {
    hide Planned, IsPolicyRule, Within, Trusted, Normalize, BuildActive, Rollback, AppendUnique, Save, Covers;
    var d := Normalize(desired);
    if !Throttled(c, w, d, now) {
      if d.active && Trusted(c, d) && host.provider {
        BuildActiveSafe(c, d, w.lastEnforced, w.rules, host, NewReceipt(d).(signatureValid := true));
      }
      if !d.active && w.lastEnforced.Some? {
        RollbackSafe(c, w.lastEnforced.value, w.rules, host);
      }
    }
  }

  // ---- Whole runs ----

  /** What the agent relies on about the policies it is sent: trusted ones spell their id the way
      the agent computes it, and policies whose computed ids agree have one content. */
  ghost predicate Coherent(c: Config, known: set<Policy>) {
    && (forall p :: p in known && Trusted(c, p) ==> p.id == DesiredStateID(c.hash, p))
    && (forall p, q :: p in known && q in known && EqualFold(DesiredStateID(c.hash, p), DesiredStateID(c.hash, q))
                       ==> PayloadOf(p) == PayloadOf(q))
  }

  lemma CoherentReplaces(c: Config, known: set<Policy>, p: Policy, d: Policy)
    requires Coherent(c, known) && p in known && d in known && Trusted(c, p) && Trusted(c, d)
    ensures Replaces(c.hash, Some(p), d)
    ensures EqualFold(p.id, d.id) ==> RuleSet(c.hash, p) == RuleSet(c.hash, d)
  {
    hide Trusted, PayloadOf, Planned, EqualFold;
    if EqualFold(p.id, d.id) {
      assert PayloadOf(p) == PayloadOf(d);
      assert p.id == d.id;
      SamePayloadSamePlan(c.hash, p, d);
    }
  }

  datatype Event = Call(desired: Policy, now: int, host: Host) | Restarted

  function Next(c: Config, w: World, e: Event): World {
    match e
    case Call(desired, now, host) => Evaluate(c, w, desired, now, host).0
    case Restarted => Restart(c, w)
  }

  /** Whether the state file is up to date after a call: the last attempt to write it succeeded. */
  predicate SavedAfter(c: Config, w: World, saved: bool, desired: Policy, now: int, host: Host) {
    var d := Normalize(desired);
    if Throttled(c, w, d, now) then saved else
    var receipt := BuildReceipt(c, d, w.lastEnforced, w.rules, host).0;
    if Remembers(c, d, receipt) || receipt.status == RollbackApplied then host.saves else saved
  }

  /** Calls bring known policies; the agent restarts only with a state directory and when the last
      attempt to write the state file succeeded. */
  ghost predicate Permitted(c: Config, known: set<Policy>, w: World, saved: bool, e: Event) {
    match e
    case Call(desired, now, host) => Normalize(desired) in known
    case Restarted => saved && !Blank(c.stateDir)
  }

  ghost predicate Run(c: Config, known: set<Policy>, w: World, saved: bool, events: seq<Event>)
    decreases |events|
  {
    events == [] ||
    (Permitted(c, known, w, saved, events[0])
     && Run(c, known, Next(c, w, events[0]),
            match events[0] case Call(d, now, host) => SavedAfter(c, w, saved, d, now, host) case Restarted => saved,
            events[1..]))
  }

  function Final(c: Config, w: World, events: seq<Event>): World
    decreases |events|
  {
    if events == [] then w else Final(c, Next(c, w, events[0]), events[1..])
  }

  ghost predicate Inv(c: Config, known: set<Policy>, w: World, saved: bool) {
    && NoLeak(c, w)
    && (w.lastEnforced.Some? ==> var p := w.lastEnforced.value;
                                 c.enforce && p in known && p.active && Trusted(c, p) && !Blank(p.id))
    && (saved && !Blank(c.stateDir) && c.enforce ==> w.disk == w.lastEnforced)
    && (!c.enforce ==> w.lastEnforced.None?)
  }

  lemma NormalizedIdNotBlank(d: Policy)
    ensures !Blank(Normalize(d).id)
  {
    TrimIdempotent(d.id);
    BlankIff("unknown");
    assert !IsSpace("unknown"[0]);
  }

  lemma RestartRestores(c: Config, known: set<Policy>, w: World)
    requires Inv(c, known, w, true) && !Blank(c.stateDir)
    ensures Restart(c, w).lastEnforced == w.lastEnforced && Restart(c, w).rules == w.rules
    ensures Inv(c, known, Restart(c, w), true)
  {
    hide Trusted, Within, Blank;
  }

  lemma StepDisk(c: Config, w: World, saved: bool, desired: Policy, now: int, host: Host)
    requires saved && !Blank(c.stateDir) ==> w.disk == w.lastEnforced
    ensures var w' := Evaluate(c, w, desired, now, host).0;
            SavedAfter(c, w, saved, desired, now, host) && !Blank(c.stateDir) ==> w'.disk == w'.lastEnforced
  {
    hide BuildReceipt, Normalize, Blank, AppendUnique;
  }

  lemma NextKeepsInv(c: Config, known: set<Policy>, w: World, saved: bool, e: Event)
    requires Coherent(c, known) && Inv(c, known, w, saved) && Permitted(c, known, w, saved, e)
    ensures Inv(c, known, Next(c, w, e),
                match e case Call(d, now, host) => SavedAfter(c, w, saved, d, now, host) case Restarted => saved)
  {
    hide Trusted, Within, Blank, Evaluate, Restart, SavedAfter, Coherent, Normalize, Replaces, Covers, Planned, RuleSet;
    match e
    case Call(desired, now, host) =>
      var d := Normalize(desired);
      if d.active && Trusted(c, d) {
        if w.lastEnforced.Some? {
          CoherentReplaces(c, known, w.lastEnforced.value, d);
        } else {
          NothingToReplace(c.hash, d);
        }
        ReplacesCovers(c.hash, w.rules, w.lastEnforced, d);
      }
      StepSafe(c, w, desired, now, host);
      NormalizedIdNotBlank(desired);
      if c.enforce { StepDisk(c, w, saved, desired, now, host); }
    case Restarted =>
      RestartRestores(c, known, w);
  }

  lemma NothingToReplace(h: Hash, d: Policy)
    ensures Replaces(h, None, d)
  {
  }

  lemma {:induction false} RunKeepsInv(c: Config, known: set<Policy>, w: World, saved: bool, events: seq<Event>)
    requires Coherent(c, known) && Inv(c, known, w, saved) && Run(c, known, w, saved, events)
    ensures Inv(c, known, Final(c, w, events), false)
    decreases |events|
  {
    hide Coherent, Permitted, Next, SavedAfter, Within;
    if events != [] {
      NextKeepsInv(c, known, w, saved, events[0]);
      RunKeepsInv(c, known, Next(c, w, events[0]),
                  match events[0] case Call(d, now, host) => SavedAfter(c, w, saved, d, now, host) case Restarted => saved,
                  events[1..]);
    }
  }

  /** A world that some run from a host without network-policy rules ends in. */
  ghost predicate Reachable(c: Config, known: set<Policy>, w: World) {
    exists rules, events :: (forall r :: r in rules ==> !IsPolicyRule(r))
                            && Run(c, known, Start(rules), true, events) && Final(c, Start(rules), events) == w
  }

  lemma ReachableInv(c: Config, known: set<Policy>, w: World)
    requires Coherent(c, known) && Reachable(c, known, w)
    ensures Inv(c, known, w, false)
  {
    hide IsPolicyRule, Coherent, Run, Final;
    var rules, events :| (forall r :: r in rules ==> !IsPolicyRule(r))
                         && Run(c, known, Start(rules), true, events) && Final(c, Start(rules), events) == w;
    RunKeepsInv(c, known, Start(rules), true, events);
  }

  /** In every run from a host without network-policy rules, whatever fails along the way, every
      network-policy rule in the firewall belongs to the policy the agent remembers. */
  lemma NoPolicyLeaksOverRuns(c: Config, known: set<Policy>, w: World)
    requires Coherent(c, known) && Reachable(c, known, w)
    ensures NoLeak(c, w)
  {
    hide Coherent, Reachable;
    ReachableInv(c, known, w);
  }
}
