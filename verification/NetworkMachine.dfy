/** The enforcement state machine: how one evaluation of a desired state moves the agent's memory,
    its saved state and the host firewall, whatever the host answers along the way. */
module NetworkMachine {
  import opened Text
  import opened Wrappers
  import opened NetworkPlan
  import opened NetworkPresence

  /** The loaded public key; `verifies` decodes and checks a signature over an id. */
  datatype Verifier = Verifier(loaded: bool, keyID: string, verifies: (string, string) -> bool)

  datatype Config = Config(hash: Hash, verifier: Verifier, enforce: bool, interval: int, stateDir: string)

  /** What the host answers to one evaluation: whether a firewall backend is found (once for the
      policy, once for a rollback), what the two listings return, at which rule Remove and Apply
      fail if they do, and whether the state file could be written. */
  datatype Host = Host(provider: bool, rollbackProvider: bool,
                       listing: Option<seq<Rule>>, verifyListing: Option<seq<Rule>>,
                       removeFailsAt: nat, applyFailsAt: nat, saves: bool)

  datatype Status = Unset | PlannedDryRun | Failed | NoOp | RollbackApplied | Unsupported | DriftDetected | Applied

  datatype Receipt = Receipt(id: string, status: Status, dryRun: bool, planned: nat, applied: nat,
                             removed: nat, missing: seq<string>, drift: seq<string>,
                             signaturePresent: bool, signatureValid: bool, rollbackAvailable: bool)

  /** The applier's variables, the policy in the state file, and the rules of the host firewall in order. */
  datatype World = World(lastID: string, lastAt: int, lastStatus: Status, lastEnforced: Option<Policy>,
                         disk: Option<Policy>, rules: seq<Rule>)

  predicate Trusted(c: Config, p: Policy) {
    && EqualFold(DesiredStateID(c.hash, p), p.id)
    && Trim(p.signature) != ""
    && EqualFold(Trim(p.algorithm), "ed25519")
    && c.verifier.loaded
    && (p.keyID == "" || c.verifier.keyID == "" || EqualFold(p.keyID, c.verifier.keyID))
    && c.verifier.verifies(p.id, Trim(p.signature))
  }

  // ---- The firewall ----

  function Added(rules: seq<Rule>, r: Rule): seq<Rule> {
    if r in rules then rules else rules + [r]
  }

  function Removed(rules: seq<Rule>, r: Rule): seq<Rule> {
    if rules == [] then [] else
    Removed(rules[..|rules| - 1], r) + (if rules[|rules| - 1] == r then [] else [rules[|rules| - 1]])
  }

  /** The firewall after the first `n` rules of a plan were applied. */
  function AddAll(rules: seq<Rule>, plan: seq<Rule>, n: nat): seq<Rule>
    requires n <= |plan|
  {
    if n == 0 then rules else Added(AddAll(rules, plan, n - 1), plan[n - 1])
  }

  function RemoveAll(rules: seq<Rule>, plan: seq<Rule>, n: nat): seq<Rule>
    requires n <= |plan|
  {
    if n == 0 then rules else Removed(RemoveAll(rules, plan, n - 1), plan[n - 1])
  }

  // ---- One evaluation ----

  function Min(a: nat, b: nat): nat {
    if a <= b then a else b
  }

  datatype RollbackResult = RollbackResult(rules: seq<Rule>, removed: nat, ok: bool)

  function Rollback(c: Config, previous: Policy, rules: seq<Rule>, host: Host): RollbackResult {
    if !host.rollbackProvider then RollbackResult(rules, 0, false) else
    var plan := Planned(c.hash, previous);
    var n := Min(host.removeFailsAt, |plan|);
    RollbackResult(RemoveAll(rules, plan, n), n, n == |plan|)
  }

  function NewReceipt(d: Policy): Receipt {
    Receipt(d.id, PlannedDryRun, true, 0, 0, 0, [], [], Trim(d.signature) != "", false, false)
  }

  /** The controls a policy asks for that host firewalls cannot give. */
  function UnsupportedControls(d: Policy): seq<string> {
    if d.enforcement.scope == "unsupported" && d.applications != []
    then AppendUnique(d.enforcement.unsupported, "application_allowlist") else d.enforcement.unsupported
  }

  function BuildReceipt(c: Config, d: Policy, previous: Option<Policy>, rules: seq<Rule>, host: Host): (Receipt, seq<Rule>) {
    var receipt := NewReceipt(d);
    if !Trusted(c, d) && (d.active || (c.enforce && previous.Some?)) then
      (receipt.(status := Failed, missing := ["policy_signature"]), rules)
    else
      var receipt := receipt.(signatureValid := Trusted(c, d));
      if !d.active then
        if c.enforce && previous.Some? then
          var undone := Rollback(c, previous.value, rules, host);
          (receipt.(dryRun := false, removed := undone.removed,
                    status := if undone.ok then RollbackApplied else Failed), undone.rules)
        else
          (receipt.(status := NoOp), rules)
      else if !host.provider then
        (receipt.(status := Unsupported, missing := ["host_firewall_backend"]), rules)
      else
        BuildActive(c, d, previous, rules, host, receipt)
  }

  function BuildActive(c: Config, d: Policy, previous: Option<Policy>, rules: seq<Rule>, host: Host,
                       start: Receipt): (Receipt, seq<Rule>) {
    var plan := Planned(c.hash, d);
    var receipt := start.(planned := |plan|, missing := UnsupportedControls(d));
    if plan == [] then
      (receipt.(status := Unsupported, missing := AppendUnique(receipt.missing, "firewall_rule_shape")), rules)
    else
      var drift := if host.listing.Some? then Drift(c.hash, plan, host.listing.value, |plan|) else [];
      var verified := host.listing.Some? && drift == [];
      var receipt := receipt.(drift := drift,
                              status := if host.listing.Some? && !verified then DriftDetected else PlannedDryRun);
      if !c.enforce then
        (receipt, rules)
      else
        var undone := if previous.Some? && !EqualFold(previous.value.id, d.id)
                      then Rollback(c, previous.value, rules, host) else RollbackResult(rules, 0, true);
        var receipt := receipt.(dryRun := false, rollbackAvailable := true, removed := undone.removed);
        if !undone.ok then
          (receipt.(status := Failed), undone.rules)
        else if verified then
          (receipt.(status := Applied, applied := |plan|, drift := []), undone.rules)
        else
          ApplyPlan(c, plan, undone.rules, host, receipt)
  }

  function ApplyPlan(c: Config, plan: seq<Rule>, rules: seq<Rule>, host: Host, receipt: Receipt): (Receipt, seq<Rule>) {
    var n := Min(host.applyFailsAt, |plan|);
    var after := AddAll(rules, plan, n);
    if n < |plan| then
      (receipt.(status := Failed, applied := n), after)
    else if host.verifyListing.None? then
      (receipt.(status := Failed, applied := n, drift := [],
                missing := AppendUnique(receipt.missing, "firewall_rule_verification")), after)
    else
      var drift := Drift(c.hash, plan, host.verifyListing.value, |plan|);
      if drift != [] then
        (receipt.(status := Failed, applied := n, drift := drift,
                  missing := AppendUnique(receipt.missing, "firewall_rule_verification")), after)
      else
        (receipt.(status := Applied, applied := n, drift := []), after)
  }

  function Normalize(d: Policy): Policy {
    var id := Trim(d.id);
    d.(id := if id == "" then "unknown" else id)
  }

  predicate Throttled(c: Config, w: World, d: Policy, now: int) {
    d.id == w.lastID && w.lastStatus != Failed && now - w.lastAt < c.interval
  }

  predicate Remembers(c: Config, d: Policy, receipt: Receipt) {
    receipt.status == Applied || (c.enforce && d.active && receipt.signatureValid && receipt.applied > 0)
  }

  /** The state file after a save, and whether the save reported success. Without a state
      directory nothing is written and success is reported. */
  function Save(c: Config, disk: Option<Policy>, value: Option<Policy>, saves: bool): (Option<Policy>, bool) {
    if Blank(c.stateDir) then (disk, true) else if saves then (value, true) else (disk, false)
  }

  function PersistenceFailed(receipt: Receipt): Receipt {
    receipt.(status := Failed, missing := AppendUnique(receipt.missing, "network_policy_state_persistence"))
  }

  /** One call of the applier with a desired state that decoded; `None` when it is suppressed. */
  function Evaluate(c: Config, w: World, desired: Policy, now: int, host: Host): (World, Option<Receipt>) {
    var d := Normalize(desired);
    if Throttled(c, w, d, now) then (w, None) else
    var (receipt, rules) := BuildReceipt(c, d, w.lastEnforced, w.rules, host);
    var w := w.(lastID := d.id, lastAt := now, rules := rules);
    if Remembers(c, d, receipt) then
      var (disk, ok) := Save(c, w.disk, Some(d), host.saves);
      var receipt := if ok then receipt else PersistenceFailed(receipt);
      (w.(lastEnforced := Some(d), disk := disk, lastStatus := receipt.status), Some(receipt))
    else if receipt.status == RollbackApplied then
      var (disk, ok) := Save(c, w.disk, None, host.saves);
      var receipt := if ok then receipt else PersistenceFailed(receipt);
      (w.(lastEnforced := None, disk := disk, lastStatus := receipt.status), Some(receipt))
    else
      (w.(lastStatus := receipt.status), Some(receipt))
  }

  /** What a starting agent takes from the state file. */
  function Load(c: Config, disk: Option<Policy>): Option<Policy> {
    if Blank(c.stateDir) || disk.None? || Blank(disk.value.id) || !disk.value.active || !Trusted(c, disk.value)
    then None else disk
  }

  function Restart(c: Config, w: World): World {
    World("", 0, Unset, if c.enforce then Load(c, w.disk) else None, w.disk, w.rules)
  }

  function Start(rules: seq<Rule>): World {
    World("", 0, Unset, None, None, rules)
  }
}
