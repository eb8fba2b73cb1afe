/** Concrete runs of the enforcement machine: two signed policies with one allowlist entry, whose ids differ
    but share their short tag. */
module NetworkExamples {
  import opened Text
  import opened Wrappers
  import opened NetworkPlan
  import opened NetworkPresence
  import opened NetworkMachine
  import opened NetworkSafety
  import opened NetworkConvergence
  import opened NetworkOrder
  import opened NetworkLimits
  import opened NetworkTrust

  const SHARED := "0123456789abcdef"

  function Digest(p: Payload): string {
    SHARED + if p.reason == "" then "0" else "1"
  }

  /** Tells rules apart by the first character of their source. */
  function Print(identity: string): string {
    if |identity| > 4 && identity[4] == '1' then "aaaaaaaaaaaaaaaa"
    else if |identity| > 4 && identity[4] == '0' then "bbbbbbbbbbbbbbbb"
    else "cccccccccccccccc"
  }

  const CONFIG := Config(Hash(Digest, Print), Verifier(true, "", (id, signature) => true), true, 600, "/var/lib/controlone")

  const CIDR := "10.0.0.0/8"

  function IdOf(reason: string): string {
    ID_PREFIX + (SHARED + if reason == "" then "0" else "1")
  }

  function Sent(reason: string): Policy {
    Policy("v1", "enforcement", IdOf(reason), "whitelist", true, false, None, reason, [], [], [], [],
           Intent("host_firewall", "block", "allow", [CIDR], "unsupported", []), "sig", "ed25519", "")
  }

  const P := Sent("")
  const Q := Sent("again")

  function Peer(cidr: string, peer: int): bool {
    true
  }

  // ---- The two policies ----

  lemma IdFacts(reason: string)
    ensures |IdOf(reason)| == 24 && IdOf(reason)[0] == 's' && IdOf(reason)[23] == (if reason == "" then '0' else '1')
    ensures Trim(IdOf(reason)) == IdOf(reason) && '=' !in IdOf(reason)
  {
    TrimFixed(IdOf(reason));
  }

  lemma SentIsTrusted(reason: string)
    ensures Trusted(CONFIG, Sent(reason)) && Normalize(Sent(reason)) == Sent(reason)
  {
    hide EqualFold, Trim, PayloadOf, IdOf;
    IdFacts(reason);
    TrimFixed("sig");
    TrimFixed("ed25519");
    EqualFoldReflexive("ed25519");
    EqualFoldReflexive(IdOf(reason));
    SentId(reason);
  }

  lemma SentId(reason: string)
    ensures DesiredStateID(CONFIG.hash, Sent(reason)) == IdOf(reason)
  {
    hide Trim;
    assert PayloadOf(Sent(reason)).reason == reason;
  }

  lemma IdsDiffer()
    ensures !EqualFold(P.id, Q.id) && P.id != Q.id && P != Q
  {
    hide Trim, IdOf;
    IdFacts("");
    IdFacts("again");
    assert LowerChar(P.id[23]) != LowerChar(Q.id[23]);
  }

  lemma SentTag(reason: string)
    ensures RuleTag(IdOf(reason)) == RULE_TAG_PREFIX + SHARED
  {
    hide Trim;
    IdFacts(reason);
    var body := SHARED + if reason == "" then "0" else "1";
    assert IdOf(reason)[..|ID_PREFIX|] == ID_PREFIX && IdOf(reason)[|ID_PREFIX|..] == body;
    assert body[..16] == SHARED;
  }

  lemma SentBlocks(reason: string)
    ensures BlocksInbound(Sent(reason)) && !BlocksOutbound(Sent(reason)) && EffectiveCidrs(Sent(reason)) == [CIDR]
  {
    hide IdOf;
    EqualFoldReflexive("block");
    assert Lower("allow")[0] == 'a' && Lower("block")[0] == 'b';
  }

  lemma ShapesAgree()
    ensures SameShape(P, Q)
  {
    hide RuleTag, BlocksInbound, BlocksOutbound, EffectiveCidrs, IdOf;
    SentTag("");
    SentTag("again");
    SentBlocks("");
    SentBlocks("again");
  }

  // ---- Their rules ----

  function Allow(reason: string): Rule {
    InRule(CONFIG.hash, IdOf(reason), CIDR, "allow")
  }

  function Block4(reason: string): Rule {
    InRule(CONFIG.hash, IdOf(reason), ANY_V4, "block")
  }

  function Block6(reason: string): Rule {
    InRule(CONFIG.hash, IdOf(reason), ANY_V6, "block")
  }

  lemma SentPlan(reason: string)
    ensures Planned(CONFIG.hash, Sent(reason)) == [Allow(reason), Block4(reason), Block6(reason)]
  {
    hide BlocksInbound, BlocksOutbound, EffectiveCidrs, InRule, OutRule, IdOf;
    SentBlocks(reason);
    assert [CIDR][1..] == [];
    var rules := InRules(CONFIG.hash, IdOf(reason), [CIDR]);
    assert rules == [Allow(reason), Block4(reason), Block6(reason)];
  }

  lemma SourceTrimmed()
    ensures Trim(CIDR) == CIDR && Trim(ANY_V4) == ANY_V4 && Trim(ANY_V6) == ANY_V6
  {
    TrimFixed(CIDR);
    TrimFixed(ANY_V4);
    TrimFixed(ANY_V6);
  }

  lemma IdentityHead(r: Rule)
    requires Identity(r) != "" && Trim(r.source) == r.source && r.source != ""
    ensures |Identity(r)| > 4 && Identity(r)[4] == r.source[0]
  {
    hide Trim, Lower, Decimal;
  }

  lemma FingerprintOf(reason: string, peer: string, action: string)
    requires Trim(peer) == peer && peer != "" && (action == "allow" || action == "block")
    ensures var r := InRule(CONFIG.hash, IdOf(reason), peer, action);
            Fingerprint(CONFIG.hash, r) == Print(['s', 'r', 'c', '=', peer[0]]) && r.source == peer
  {
    hide Trim, RuleTag, IdOf, Decimal, Identity, Commented;
    var bare := Rule(peer, "", 0, "", "in", action, RuleTag(IdOf(reason)), "");
    var r := InRule(CONFIG.hash, IdOf(reason), peer, action);
    assert r == Commented(CONFIG.hash, IdOf(reason), bare);
    CommentedSource(CONFIG.hash, IdOf(reason), bare);
    CommentIgnored(bare, r.comment);
    assert Identity(r) == Identity(bare) by { CommentedIs(CONFIG.hash, IdOf(reason), bare); }
    BareIdentity(bare);
    IdentityHead(bare);
  }

  lemma CommentedSource(h: Hash, id: string, r: Rule)
    ensures Commented(h, id, r).source == r.source
  {
  }

  lemma CommentedIs(h: Hash, id: string, r: Rule)
    ensures Commented(h, id, r) == r.(comment := Commented(h, id, r).comment)
  {
  }

  lemma BareIdentity(r: Rule)
    requires r.direction == "in" && (r.action == "allow" || r.action == "block")
    ensures Identity(r) != ""
  {
    hide Trim, Lower, Decimal;
    WordsAreKept();
    assert Identity(r)[0] == 's';
  }

  lemma SentDistinguishable(reason: string)
    ensures Distinguishable(CONFIG.hash, Sent(reason)) && NoRepeats(Planned(CONFIG.hash, Sent(reason)))
  {
    hide Trim, InRule, Planned, IdOf, Fingerprint;
    IdFacts(reason);
    SentPlan(reason);
    SourceTrimmed();
    FingerprintOf(reason, CIDR, "allow");
    FingerprintOf(reason, ANY_V4, "block");
    FingerprintOf(reason, ANY_V6, "block");
    assert CIDR[0] == '1' && ANY_V4[0] == '0' && ANY_V6[0] == ':';
    assert "aaaaaaaaaaaaaaaa"[0] == 'a' && "bbbbbbbbbbbbbbbb"[0] == 'b' && "cccccccccccccccc"[0] == 'c';
  }

  // ---- The hosts ----

  function Sound(listing: seq<Rule>, verify: seq<Rule>): Host {
    Host(true, true, Some(listing), Some(verify), 3, 3, true)
  }

  /** Refuses the second removal. */
  const BROKEN := Host(true, true, None, None, 1, 3, true)

  function PlanOf(p: Policy): seq<Rule> {
    Planned(CONFIG.hash, p)
  }

  const INSTALL := Sound([], PlanOf(P))

  const FIRST := Evaluate(CONFIG, Start([]), P, 0, INSTALL)

  lemma PlansHaveThree()
    ensures |PlanOf(P)| == 3 && |PlanOf(Q)| == 3
  {
    hide Planned;
    SentPlan("");
    SentPlan("again");
  }

  lemma FreshPlan(reason: string)
    ensures AddAll([], PlanOf(Sent(reason)), 3) == PlanOf(Sent(reason))
  {
    hide Planned, IdOf, AddAll;
    SentDistinguishable(reason);
    SentPlan(reason);
    var plan := PlanOf(Sent(reason));
    AddToTail(plan, 3, 3);
    assert plan[3..] == [] && plan[..3] == plan && [] + plan == plan;
  }

  lemma TagsInPlan(reason: string, r: Rule)
    requires r in PlanOf(Sent(reason))
    ensures r.tag == RULE_TAG_PREFIX + SHARED
  {
    hide Planned, IdOf, RuleTag;
    PlannedRuleShape(CONFIG.hash, Sent(reason), r);
    SentTag(reason);
  }

  lemma NotThrottled(w: World, d: Policy, now: int)
    requires w.lastID != d.id
    ensures !Throttled(CONFIG, w, d, now)
  {
  }

  /** The first call installs `P`. */
  lemma FirstInstalls()
    ensures FIRST.1.Some? && FIRST.1.value.status == Applied
    ensures FIRST.0.rules == PlanOf(P) && FIRST.0.lastEnforced == Some(P) && FIRST.0.lastID == P.id
    ensures NoLeak(CONFIG, FIRST.0)
  {
    hide Planned, IdOf, AddAll, Trusted, Normalize, Evaluate, Drift, RuleTag, IsPolicyRule;
    SentIsTrusted("");
    IdFacts("");
    PlansHaveThree();
    FreshPlan("");
    SentTag("");
    forall r | r in PlanOf(P) ensures r.tag == RuleTag(P.id) { TagsInPlan("", r); }
    var w := Start([]);
    assert AfterApply(CONFIG, w, P) == PlanOf(P);
    assert Faithful(Some([]), [], RuleTag(P.id));
    EmptyListingFails(CONFIG.hash, PlanOf(P));
    NotThrottled(w, P, 0);
    EnforcingStepOutcome(CONFIG, w, P, 0, INSTALL);
    PlanIsExact(CONFIG.hash, P);
  }

  // ---- A shared tag ----

  lemma OthersRulesGone()
    ensures BeforeApply(CONFIG, FIRST.0, Q) == [] && AfterApply(CONFIG, FIRST.0, Q) == PlanOf(Q)
  {
    hide Planned, IdOf, AddAll, RemoveAll, EqualFold, Evaluate;
    FirstInstalls();
    IdsDiffer();
    PlansHaveThree();
    SentDistinguishable("");
    RemoveHeads(PlanOf(P), 3);
    FreshPlan("again");
  }

  /** `P` is in force, `Q` is sent, nothing fails and both listings are faithful. The receipt says applied, and no
      network-policy rule is left. */
  lemma SharedTagRun()
    ensures FIRST.0.rules == PlanOf(P) && FIRST.0.lastEnforced == Some(P) && PlanOf(Q) != []
    ensures FaultFree(CONFIG, FIRST.0, Q, Sound(PlanOf(P), PlanOf(Q)))
    ensures var (w, receipt) := Evaluate(CONFIG, FIRST.0, Q, 1000, Sound(PlanOf(P), PlanOf(Q)));
            && receipt.Some? && receipt.value.status == Applied && w.lastEnforced == Some(Q)
            && Exactly(CONFIG.hash, w.rules, None) && !Exactly(CONFIG.hash, w.rules, Some(Q))
  {
    hide Planned, IdOf, AddAll, RemoveAll, Trusted, Normalize, Evaluate, Drift, RuleTag, IsPolicyRule, EqualFold,
      SameShape, Within, BeforeApply, AfterApply;
    FirstInstalls();
    IdsDiffer();
    OthersRulesGone();
    PlansHaveThree();
    SentIsTrusted("again");
    SentTag("again");
    forall r | r in PlanOf(P) ensures r.tag == RuleTag(Q.id) { TagsInPlan("", r); }
    forall r | r in PlanOf(Q) ensures r.tag == RuleTag(Q.id) { TagsInPlan("again", r); }
    ShapesAgree();
    SharedTagPasses(CONFIG.hash, P, Q);
    NotThrottled(FIRST.0, Q, 1000);
    OtherPolicyInstalledIff(CONFIG, FIRST.0, Q, 1000, Sound(PlanOf(P), PlanOf(Q)));
  }

  // ---- An interrupted rollback ----

  const SECOND := Evaluate(CONFIG, FIRST.0, Q, 1000, BROKEN)

  const AGAIN := Sound(PlanOf(P)[1..], PlanOf(P))

  lemma SecondInterrupts()
    ensures Interrupts(CONFIG, FIRST.0, P, Q, 1000, BROKEN, 1)
    ensures SECOND.1.Some? && SECOND.1.value.status == Failed
    ensures SECOND.0.rules == PlanOf(P)[1..] && SECOND.0.lastEnforced == Some(P) && SECOND.0.lastID == Q.id
  {
    hide Planned, IdOf, Trusted, Normalize, Evaluate, EqualFold;
    FirstInstalls();
    IdsDiffer();
    PlansHaveThree();
    SentIsTrusted("again");
    NotThrottled(FIRST.0, Q, 1000);
    SentDistinguishable("");
    InterruptedStep(CONFIG, FIRST.0, P, Q, 1000, BROKEN, 1);
  }

  lemma AgainIsSound()
    ensures FaultFree(CONFIG, SECOND.0, P, AGAIN)
  {
    hide Planned, IdOf, AddAll, Evaluate, RuleTag, EqualFold;
    SecondInterrupts();
    PlansHaveThree();
    SentTag("");
    IdFoldsToItself(P, Q);
    var plan := PlanOf(P);
    forall r | r in plan ensures r.tag == RuleTag(P.id) { TagsInPlan("", r); }
    forall r | r in plan[1..] ensures r in plan {}
    forall r ensures r in AfterApply(CONFIG, SECOND.0, P) <==> r in plan {
      AfterApplyMembers(CONFIG, SECOND.0, P, r);
    }
  }

  /** `P` is in force; the rollback for `Q` is refused its second removal; `P` is sent again and nothing fails. The
      receipt says applied, and a peer on `P`'s allowlist is blocked. */
  lemma InterruptedRun(peer: int)
    ensures Listed(EffectiveCidrs(P), peer, Peer)
    ensures FirstMatch(PlanOf(P), "in", peer, Peer) == Some("allow")
    ensures FaultFree(CONFIG, SECOND.0, P, AGAIN)
    ensures var (w, receipt) := Evaluate(CONFIG, SECOND.0, P, 2000, AGAIN);
            && receipt.Some? && receipt.value.status == Applied && w.lastEnforced == Some(P)
            && FirstMatch(w.rules, "in", peer, Peer) == Some("block")
  {
    hide Planned, IdOf, Trusted, Normalize, Evaluate, EqualFold, FirstMatch, BlocksInbound, BlocksOutbound, EffectiveCidrs,
      Distinguishable, NoRepeats, Faithful;
    SecondInterrupts();
    AgainIsSound();
    SentIsTrusted("");
    SentDistinguishable("");
    SentBlocks("");
    assert Listed([CIDR], peer, Peer) by { assert CIDR in [CIDR]; }
    assert [CIDR][1..] == [];
    PlanDecidesPackets(CONFIG.hash, P, peer, Peer);
    InterruptedRollbackRotatesPlan(CONFIG, FIRST.0, P, Q, 1000, BROKEN, 1, 2000, AGAIN);
    RotatedPlanDecides(CONFIG.hash, P, 1, peer, Peer);
  }

  const SENT := [Call(P, 0, INSTALL), Call(Q, 1000, BROKEN), Call(P, 2000, AGAIN)]

  /** The calls above make a run the general results speak of, from a host without rules. */
  lemma RunIsPermitted()
    ensures Coherent(CONFIG, {P, Q})
    ensures Run(CONFIG, {P, Q}, Start([]), true, SENT)
  {
    hide IdOf, Trusted, Normalize, Evaluate, EqualFold, DesiredStateID, PayloadOf, Planned, SavedAfter;
    SentIsTrusted("");
    SentIsTrusted("again");
    SentId("");
    SentId("again");
    IdsDiffer();
    EqualFoldSymmetric(P.id, Q.id);
    assert SENT[1..] == [Call(Q, 1000, BROKEN), Call(P, 2000, AGAIN)] && SENT[1..][1..] == [Call(P, 2000, AGAIN)]
           && SENT[1..][1..][1..] == [];
    assert forall w, saved :: Run(CONFIG, {P, Q}, w, saved, []);
    assert forall w, saved :: Run(CONFIG, {P, Q}, w, saved, [Call(P, 2000, AGAIN)]);
    assert forall w, saved :: Run(CONFIG, {P, Q}, w, saved, [Call(Q, 1000, BROKEN), Call(P, 2000, AGAIN)]);
  }

  lemma EqualFoldSymmetric(a: string, b: string)
    ensures EqualFold(a, b) == EqualFold(b, a)
  {
  }

  // ---- Policies that are refused ----

  const DENYING := CONFIG.(verifier := Verifier(true, "", (id, signature) => false))

  /** `P` with a signature the key does not verify. The host would do all that is asked, and nothing is touched. */
  lemma ForgedRefused(rules: seq<Rule>, host: Host)
    ensures forall check :: Passes(DENYING, P, check) <==> check != Verifies
    ensures var (w, receipt) := Evaluate(DENYING, Start(rules), P, 0, host);
            && receipt.Some? && receipt.value.status == Failed && receipt.value.missing == ["policy_signature"]
            && w.rules == rules && w.lastEnforced == None && w.disk == None
  {
    hide Evaluate, Passes, IdOf, Normalize, Throttled, PassesAll, Trusted;
    SentPasses("");
    SentIsTrusted("");
    IdFacts("");
    assert !Throttled(DENYING, Start(rules), P, 0) by { FirstNotThrottled(DENYING, rules); }
    FailedCheckRefuses(DENYING, Start(rules), P, 0, host, Verifies);
  }

  lemma FirstNotThrottled(c: Config, rules: seq<Rule>)
    ensures !Throttled(c, Start(rules), P, 0)
  {
    hide IdOf;
    IdFacts("");
  }

  lemma SentPasses(reason: string)
    ensures forall check :: Passes(DENYING, Sent(reason), check) <==> check != Verifies
  {
    hide EqualFold, Trim, PayloadOf, IdOf, Passes, Trusted;
    SentIsTrusted(reason);
    TrustIsAllChecks(CONFIG, Sent(reason));
    forall check | check != Verifies ensures Passes(DENYING, Sent(reason), check) {
      assert Passes(CONFIG, Sent(reason), check);
      SameChecks(reason, check);
    }
    NotVerified(reason);
  }

  lemma SameChecks(reason: string, check: Check)
    requires check != Verifies
    ensures Passes(DENYING, Sent(reason), check) == Passes(CONFIG, Sent(reason), check)
  {
    hide EqualFold, Trim, PayloadOf, IdOf;
  }

  lemma NotVerified(reason: string)
    ensures !Passes(DENYING, Sent(reason), Verifies)
  {
    hide Trim, IdOf;
  }

  const TAMPERED := P.(reason := "again")

  /** `P` with its reason changed and its id and signature kept: the digest no longer is the id. */
  lemma TamperedRefused(rules: seq<Rule>, host: Host)
    ensures !Passes(CONFIG, TAMPERED, IdIsDigest)
    ensures var (w, receipt) := Evaluate(CONFIG, Start(rules), TAMPERED, 0, host);
            && receipt.Some? && receipt.value.status == Failed && receipt.value.missing == ["policy_signature"]
            && w.rules == rules && w.lastEnforced == None && w.disk == None
  {
    hide Evaluate, Passes, IdOf, Normalize, Trusted, EqualFold, PayloadOf;
    TamperedDigest();
    IdsDiffer();
    EqualFoldSymmetric(P.id, Q.id);
    assert !Passes(CONFIG, TAMPERED, IdIsDigest) by { TamperedFails(); }
    assert Normalize(TAMPERED) == TAMPERED by { TamperedNormal(); }
    assert !Throttled(CONFIG, Start(rules), TAMPERED, 0) by { FirstNotThrottled(CONFIG, rules); }
    FailedCheckRefuses(CONFIG, Start(rules), TAMPERED, 0, host, IdIsDigest);
  }

  lemma TamperedDigest()
    ensures ID_PREFIX + CONFIG.hash.digest(PayloadOf(TAMPERED)) == Q.id
  {
    hide Trim;
    assert PayloadOf(TAMPERED).reason == "again";
  }

  lemma TamperedFails()
    ensures !Passes(CONFIG, TAMPERED, IdIsDigest)
  {
    hide EqualFold, PayloadOf, IdOf;
    TamperedDigest();
    IdsDiffer();
    EqualFoldSymmetric(P.id, Q.id);
  }

  lemma TamperedNormal()
    ensures Normalize(TAMPERED) == TAMPERED
  {
    hide IdOf;
    IdFacts("");
  }
}
