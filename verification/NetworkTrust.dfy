/** Which policies the agent acts on, check by check: what one failed check means for the receipt, the firewall and
    the agent's memory, what it means for a restart, and which repeated calls are suppressed. */
module NetworkTrust {
  import opened Text
  import opened Wrappers
  import opened NetworkPlan
  import opened NetworkPresence
  import opened NetworkMachine
  import Sorting

  // ---- The checks ----

  datatype Check = IdIsDigest | IsSigned | IsEd25519 | KeyLoaded | KeyMatches | Verifies

  predicate Passes(c: Config, d: Policy, check: Check) {
    match check
    case IdIsDigest => EqualFold(ID_PREFIX + c.hash.digest(PayloadOf(d)), d.id)
    case IsSigned => !Blank(d.signature)
    case IsEd25519 => EqualFold(Trim(d.algorithm), "ed25519")
    case KeyLoaded => c.verifier.loaded
    case KeyMatches => d.keyID == "" || c.verifier.keyID == "" || EqualFold(d.keyID, c.verifier.keyID)
    case Verifies => c.verifier.verifies(d.id, Trim(d.signature))
  }

  ghost predicate PassesAll(c: Config, d: Policy) {
    forall check :: Passes(c, d, check)
  }

  lemma TrustIsAllChecks(c: Config, d: Policy)
    ensures Trusted(c, d) <==> PassesAll(c, d)
  {
    hide EqualFold, Trim, PayloadOf;
    if PassesAll(c, d) {
      assert Passes(c, d, IdIsDigest) && Passes(c, d, IsSigned) && Passes(c, d, IsEd25519);
      assert Passes(c, d, KeyLoaded) && Passes(c, d, KeyMatches) && Passes(c, d, Verifies);
    }
  }

  /** One failed check is enough: an active policy is reported failed for its signature, and neither the firewall nor
      the remembered policy nor the state file changes. */
  lemma FailedCheckRefuses(c: Config, w: World, desired: Policy, now: int, host: Host, check: Check)
    requires !Passes(c, Normalize(desired), check)
    requires Normalize(desired).active && !Throttled(c, w, Normalize(desired), now)
    ensures var (w', receipt) := Evaluate(c, w, desired, now, host);
            && receipt.Some? && receipt.value.status == Failed && receipt.value.missing == ["policy_signature"]
            && receipt.value.applied == receipt.value.removed == 0
            && w'.rules == w.rules && w'.lastEnforced == w.lastEnforced && w'.disk == w.disk
  {
    hide Trusted, Passes, Normalize, AppendUnique, Planned, BuildActive;
    TrustIsAllChecks(c, Normalize(desired));
  }

  lemma ApplyVouches(c: Config, plan: seq<Rule>, rules: seq<Rule>, host: Host, start: Receipt)
    ensures ApplyPlan(c, plan, rules, host, start).0.signatureValid == start.signatureValid
  {
    hide AppendUnique, Drift, AddAll;
  }

  lemma ActiveVouches(c: Config, d: Policy, p: Option<Policy>, rules: seq<Rule>, host: Host, start: Receipt)
    ensures BuildActive(c, d, p, rules, host, start).0.signatureValid == start.signatureValid
  {
    hide AppendUnique, Drift, ApplyPlan, Rollback, Planned, UnsupportedControls, EqualFold;
    var undone := if p.Some? && !EqualFold(p.value.id, d.id)
                  then Rollback(c, p.value, rules, host) else RollbackResult(rules, 0, true);
    var plan := Planned(c.hash, d);
    var drift := if host.listing.Some? then Drift(c.hash, plan, host.listing.value, |plan|) else [];
    var status := if host.listing.Some? && drift != [] then DriftDetected else PlannedDryRun;
    ApplyVouches(c, plan, undone.rules, host,
                 start.(planned := |plan|, missing := UnsupportedControls(d), drift := drift, status := status,
                        dryRun := false, rollbackAvailable := true, removed := undone.removed));
  }

  lemma BuildVouches(c: Config, d: Policy, p: Option<Policy>, rules: seq<Rule>, host: Host)
    ensures BuildReceipt(c, d, p, rules, host).0.signatureValid <==> Trusted(c, d)
  {
    hide Trusted, BuildActive, Rollback, Trim;
    ActiveVouches(c, d, p, rules, host, NewReceipt(d).(signatureValid := true));
  }

  /** A receipt vouches for the signature exactly when every check passed. */
  lemma ReceiptVouchesIff(c: Config, w: World, desired: Policy, now: int, host: Host)
    requires !Throttled(c, w, Normalize(desired), now)
    ensures var receipt := Evaluate(c, w, desired, now, host).1;
            receipt.Some? && (receipt.value.signatureValid <==> PassesAll(c, Normalize(desired)))
  {
    hide Trusted, PassesAll, Normalize, AppendUnique, BuildReceipt, Throttled;
    TrustIsAllChecks(c, Normalize(desired));
    BuildVouches(c, Normalize(desired), w.lastEnforced, w.rules, host);
  }

  /** An inactive policy that fails a check does not undo the one in force. */
  lemma FailedCheckKeepsForce(c: Config, w: World, desired: Policy, now: int, host: Host, check: Check)
    requires !Passes(c, Normalize(desired), check) && !Normalize(desired).active
    ensures var (w', receipt) := Evaluate(c, w, desired, now, host);
            && w'.rules == w.rules && w'.lastEnforced == w.lastEnforced && w'.disk == w.disk
            && (receipt.Some? && c.enforce && w.lastEnforced.Some?
                ==> receipt.value.status == Failed && receipt.value.missing == ["policy_signature"])
  {
    hide Trusted, Passes, Normalize, AppendUnique, Planned, BuildActive, Throttled;
    TrustIsAllChecks(c, Normalize(desired));
  }

  /** A restart takes a policy from the state file exactly when there is a state directory, enforcement is on, and the
      saved policy has an id, is active and passes every check. */
  lemma RestartLoadsIff(c: Config, w: World, d: Policy)
    ensures Restart(c, w).lastEnforced == Some(d)
            <==> c.enforce && !Blank(c.stateDir) && w.disk == Some(d) && !Blank(d.id) && d.active && PassesAll(c, d)
  {
    hide Trusted, PassesAll, Blank;
    TrustIsAllChecks(c, d);
  }

  // ---- What the digest covers ----

  /** Policies with one payload agree on everything but their id, their signature and the order of their lists, with
      an absent expiry counting as an empty one. */
  lemma SamePayloadSamePolicy(p: Policy, q: Policy)
    requires PayloadOf(p) == PayloadOf(q)
    ensures p.schemaVersion == q.schemaVersion && p.policyClass == q.policyClass && p.mode == q.mode
    ensures p.active == q.active && p.localOnly == q.localOnly && p.reason == q.reason
    ensures p.expiresAt == q.expiresAt || {p.expiresAt, q.expiresAt} == {None, Some("")}
    ensures p.enforcement.engine == q.enforcement.engine && p.enforcement.scope == q.enforcement.scope
    ensures p.enforcement.inbound == q.enforcement.inbound && p.enforcement.outbound == q.enforcement.outbound
    ensures multiset(p.applications) == multiset(q.applications) && multiset(p.cidrs) == multiset(q.cidrs)
    ensures multiset(p.sourceRefs) == multiset(q.sourceRefs) && multiset(p.templateErrors) == multiset(q.templateErrors)
    ensures multiset(p.enforcement.cidrs) == multiset(q.enforcement.cidrs)
    ensures multiset(p.enforcement.unsupported) == multiset(q.enforcement.unsupported)
  {
    hide Sorting.SortStrings;
    SortedAlike(p.applications, q.applications);
    SortedAlike(p.cidrs, q.cidrs);
    SortedAlike(p.sourceRefs, q.sourceRefs);
    SortedAlike(p.templateErrors, q.templateErrors);
    SortedAlike(p.enforcement.cidrs, q.enforcement.cidrs);
    SortedAlike(p.enforcement.unsupported, q.enforcement.unsupported);
  }

  lemma SortedAlike(s: seq<string>, t: seq<string>)
    ensures Sorting.SortStrings(s) == Sorting.SortStrings(t) ==> multiset(s) == multiset(t)
  {
    Sorting.SortStringsSorts(s);
    Sorting.SortStringsSorts(t);
  }

  // ---- Repeated calls ----

  /** After a call that gave a receipt, the next call is suppressed exactly when it brings the same id, the receipt did
      not report a failure, and less than the interval has passed. A suppressed call changes nothing. */
  lemma RepeatSuppressedIff(c: Config, w: World, first: Policy, at: int, host: Host, second: Policy, now: int, later: Host)
    requires Evaluate(c, w, first, at, host).1.Some?
    ensures var (w1, receipt) := Evaluate(c, w, first, at, host);
            var (w2, again) := Evaluate(c, w1, second, now, later);
            && (again.None? <==> Normalize(second).id == Normalize(first).id && receipt.value.status != Failed
                                 && now - at < c.interval)
            && (again.None? ==> w2 == w1)
  {
    hide BuildReceipt, Normalize, AppendUnique, Save;
  }

  // ---- Calls that only report ----

  /** While enforcement is off, an active policy that passes every check is reported: unsupported without a firewall or
      without rules, drifted when a listing came and a planned rule is missing from it, planned otherwise. */
  lemma DryRunReports(c: Config, w: World, desired: Policy, now: int, host: Host)
    requires var d := Normalize(desired);
             !c.enforce && d.active && PassesAll(c, d) && !Throttled(c, w, d, now) && w.lastEnforced.None?
    ensures var d, receipt := Normalize(desired), Evaluate(c, w, desired, now, host).1.value;
            var plan := Planned(c.hash, d);
            && receipt.dryRun && receipt.applied == receipt.removed == 0
            && receipt.status == (if !host.provider || plan == [] then Unsupported
                                  else if host.listing.Some? && exists r :: r in plan && !RulePresent(c.hash, plan, host.listing.value, r)
                                  then DriftDetected else PlannedDryRun)
  {
    hide Trusted, PassesAll, Normalize, AppendUnique, Planned, UnsupportedControls, Rollback, RulePresent, Drift, Throttled;
    var d := Normalize(desired);
    TrustIsAllChecks(c, d);
    if host.listing.Some? { DriftIsExact(c.hash, Planned(c.hash, d), host.listing.value); }
  }
}
