/** The applier as the agent runs it: variables updated in place and counting loops over rules. */
module NetworkApplier {
  import opened Text
  import opened Wrappers
  import opened NetworkPlan
  import opened NetworkPresence
  import opened NetworkMachine

  /** The host firewall's contract: a call succeeds or leaves the rules alone, adding a rule that is
      there and removing one that is not change nothing. */
  class Firewall {
    var rules: seq<Rule>

    constructor (rules: seq<Rule>)
      ensures this.rules == rules
    {
      this.rules := rules;
    }

    method Apply(r: Rule, fails: bool) returns (ok: bool)
      modifies this
      ensures ok == !fails && rules == if fails then old(rules) else Added(old(rules), r)
    {
      ok := !fails;
      if ok && r !in rules {
        rules := rules + [r];
      }
    }

    method Remove(r: Rule, fails: bool) returns (ok: bool)
      modifies this
      ensures ok == !fails && rules == if fails then old(rules) else Removed(old(rules), r)
    {
      ok := !fails;
      if ok {
        var kept := [];
        for i := 0 to |rules|
          invariant kept == Removed(rules[..i], r)
        {
          assert rules[..i + 1][..i] == rules[..i];
          if rules[i] != r {
            kept := kept + [rules[i]];
          }
        }
        assert rules[..|rules|] == rules;
        rules := kept;
      }
    }
  }

  class Applier {
    const config: Config
    const firewall: Firewall
    var lastDesiredStateID: string
    var lastReceiptAt: int
    var lastReceiptStatus: Status
    var lastEnforced: Option<Policy>
    var disk: Option<Policy>  // the policy in the agent's state file

    ghost function State(): World
      reads this, firewall
    {
      World(lastDesiredStateID, lastReceiptAt, lastReceiptStatus, lastEnforced, disk, firewall.rules)
    }

    /** A starting agent: nothing remembered except what the state file holds. */
    constructor (config: Config, firewall: Firewall, disk: Option<Policy>)
      ensures this.config == config && this.firewall == firewall
      ensures forall w: World :: w.disk == disk && w.rules == firewall.rules ==> State() == Restart(config, w)
    {
      this.config := config;
      this.firewall := firewall;
      this.lastDesiredStateID := "";
      this.lastReceiptAt := 0;
      this.lastReceiptStatus := Unset;
      this.lastEnforced := if config.enforce then Load(config, disk) else None;
      this.disk := disk;
    }

    method ApplyRules(plan: seq<Rule>, host: Host) returns (applied: nat, ok: bool)
      modifies firewall
      ensures applied == Min(host.applyFailsAt, |plan|) && ok == (applied == |plan|)
      ensures firewall.rules == AddAll(old(firewall.rules), plan, applied)
    {
      applied := 0;
      while applied < |plan|
        invariant applied <= |plan| && applied <= host.applyFailsAt
        invariant firewall.rules == AddAll(old(firewall.rules), plan, applied)
      {
        var done := firewall.Apply(plan[applied], applied == host.applyFailsAt);
        if !done {
          return applied, false;
        }
        applied := applied + 1;
      }
      ok := true;
    }

    method RollbackRules(previous: Policy, host: Host) returns (removed: nat, ok: bool)
      modifies firewall
      ensures RollbackResult(firewall.rules, removed, ok) == Rollback(config, previous, old(firewall.rules), host)
    {
      hide Planned, Removed;
      removed := 0;
      if !host.rollbackProvider {
        return 0, false;
      }
      var plan := Planned(config.hash, previous);
      while removed < |plan|
        invariant removed <= |plan| && removed <= host.removeFailsAt
        invariant firewall.rules == RemoveAll(old(firewall.rules), plan, removed)
      {
        var done := firewall.Remove(plan[removed], removed == host.removeFailsAt);
        if !done {
          return removed, false;
        }
        removed := removed + 1;
      }
      ok := true;
    }

    method Build(d: Policy, previous: Option<Policy>, host: Host) returns (receipt: Receipt)
      modifies firewall
      ensures (receipt, firewall.rules) == BuildReceipt(config, d, previous, old(firewall.rules), host)
    {
      hide Drift, Planned, Trusted, EqualFold, AppendUnique, Trim, AddAll, RemoveAll;
      receipt := NewReceipt(d);
      var trusted := Trusted(config, d);
      if !trusted && (d.active || (config.enforce && previous.Some?)) {
        receipt := receipt.(status := Failed, missing := ["policy_signature"]);
        return;
      }
      receipt := receipt.(signatureValid := trusted);
      if !d.active {
        if config.enforce && previous.Some? {
          var removed, ok := RollbackRules(previous.value, host);
          receipt := receipt.(dryRun := false, removed := removed, status := if ok then RollbackApplied else Failed);
          return;
        }
        receipt := receipt.(status := NoOp);
        return;
      }
      if !host.provider {
        receipt := receipt.(status := Unsupported, missing := ["host_firewall_backend"]);
        return;
      }
      receipt := BuildForActive(d, previous, host, receipt);
    }

    method BuildForActive(d: Policy, previous: Option<Policy>, host: Host, start: Receipt) returns (receipt: Receipt)
      modifies firewall
      ensures (receipt, firewall.rules) == BuildActive(config, d, previous, old(firewall.rules), host, start)
    {
      hide Drift, Planned, EqualFold, AppendUnique, UnsupportedControls, Rollback, ApplyPlan;
      receipt := start;
      var plan := Planned(config.hash, d);
      receipt := receipt.(planned := |plan|, missing := UnsupportedControls(d));
      if |plan| == 0 {
        receipt := receipt.(status := Unsupported, missing := AppendUnique(receipt.missing, "firewall_rule_shape"));
        return;
      }
      var verified := false;
      if host.listing.Some? {
        var drift;
        verified, drift := PlannedRulesPresent(config.hash, plan, host.listing.value);
        receipt := receipt.(drift := drift);
        if !verified {
          receipt := receipt.(status := DriftDetected);
        } else {
          receipt := receipt.(status := PlannedDryRun);
        }
      } else {
        receipt := receipt.(drift := [], status := PlannedDryRun);
      }
      if !config.enforce {
        return;
      }
      receipt := receipt.(dryRun := false, rollbackAvailable := true, removed := 0);
      if previous.Some? && !EqualFold(previous.value.id, d.id) {
        var removed, ok := RollbackRules(previous.value, host);
        receipt := receipt.(removed := removed);
        if !ok {
          receipt := receipt.(status := Failed);
          return;
        }
      }
      if verified {
        receipt := receipt.(status := Applied, applied := |plan|, drift := []);
        return;
      }
      receipt := ApplyAndVerify(plan, host, receipt);
    }

    method ApplyAndVerify(plan: seq<Rule>, host: Host, start: Receipt) returns (receipt: Receipt)
      modifies firewall
      ensures (receipt, firewall.rules) == ApplyPlan(config, plan, old(firewall.rules), host, start)
    {
      hide Drift, AppendUnique, AddAll;
      receipt := start;
      var applied, ok := ApplyRules(plan, host);
      receipt := receipt.(applied := applied);
      if !ok {
        receipt := receipt.(status := Failed);
        return;
      }
      receipt := receipt.(status := Applied, drift := []);
      if host.verifyListing.None? {
        receipt := receipt.(status := Failed, missing := AppendUnique(receipt.missing, "firewall_rule_verification"));
        return;
      }
      var present, drift := PlannedRulesPresent(config.hash, plan, host.verifyListing.value);
      if !present {
        receipt := receipt.(status := Failed, drift := drift,
                            missing := AppendUnique(receipt.missing, "firewall_rule_verification"));
      }
    }

    method Save(value: Option<Policy>, saves: bool) returns (ok: bool)
      modifies this`disk
      ensures (disk, ok) == NetworkMachine.Save(config, old(disk), value, saves)
    {
      hide Blank;
      if Blank(config.stateDir) {
        return true;
      }
      if saves {
        disk := value;
      }
      ok := saves;
    }

    /** One call of the applier; `None` stands for a message that does not decode. */
    method Call(desired: Option<Policy>, now: int, host: Host) returns (receipt: Option<Receipt>)
      modifies this, firewall
      ensures desired.None? ==> State() == old(State()) && receipt.Some? && receipt.value.status == Failed
      ensures desired.Some? ==> (State(), receipt) == Evaluate(config, old(State()), desired.value, now, host)
    {
      hide BuildReceipt, Trim, AppendUnique, Blank;
      if desired.None? {
        return Some(Receipt("", Failed, false, 0, 0, 0, [], [], false, false, false));
      }
      var d := Normalize(desired.value);
      var previous := lastEnforced;
      if d.id == lastDesiredStateID && lastReceiptStatus != Failed && now - lastReceiptAt < config.interval {
        return None;
      }
      lastDesiredStateID := d.id;
      lastReceiptAt := now;
      var r := Build(d, previous, host);
      if Remembers(config, d, r) {
        var ok := Save(Some(d), host.saves);
        if !ok {
          r := PersistenceFailed(r);
        }
        lastEnforced := Some(d);
      } else if r.status == RollbackApplied {
        var ok := Save(None, host.saves);
        if !ok {
          r := PersistenceFailed(r);
        }
        lastEnforced := None;
      }
      lastReceiptStatus := r.status;
      receipt := Some(r);
    }
  }
}
