/** What a signed network policy asks of the host firewall: the planned rules, their identity,
    tag and fingerprint, and the desired-state id that names the policy. */
module NetworkPlan {
  import opened Text
  import opened Wrappers
  import Sorting

  const RULE_TAG_PREFIX := "controlone:network_policy:"
  const FINGERPRINT_KEY := "controlone_rule_fp="
  const ID_PREFIX := "sha256:"
  const ANY_V4 := "0.0.0.0/0"
  const ANY_V6 := "::/0"

  datatype Rule = Rule(source: string, dest: string, port: nat, protocol: string,
                       direction: string, action: string, tag: string, comment: string)

  datatype Intent = Intent(engine: string, inbound: string, outbound: string, cidrs: seq<string>,
                           scope: string, unsupported: seq<string>)

  datatype Policy = Policy(schemaVersion: string, policyClass: string, id: string, mode: string,
                           active: bool, localOnly: bool, expiresAt: Option<string>, reason: string,
                           applications: seq<string>, cidrs: seq<string>, sourceRefs: seq<string>,
                           templateErrors: seq<string>, enforcement: Intent,
                           signature: string, algorithm: string, keyID: string)

  /** The fields that the desired-state id covers. */
  datatype Payload = Payload(schemaVersion: string, policyClass: string, mode: string, active: bool,
                             localOnly: bool, expiresAt: string, reason: string,
                             applications: seq<string>, cidrs: seq<string>, sourceRefs: seq<string>,
                             templateErrors: seq<string>, enforcement: Intent)

  /** SHA-256 as the agent uses it: over a payload for ids, and over a rule identity, cut to eight
      bytes and printed in hexadecimal, for fingerprints. */
  datatype Hash = Hash(digest: Payload -> string, fingerprint: string -> string)

  // ---- The desired-state id ----

  function PayloadOf(p: Policy): Payload {
    Payload(p.schemaVersion, p.policyClass, p.mode, p.active, p.localOnly,
            if p.expiresAt.Some? then p.expiresAt.value else "", p.reason,
            Sorting.SortStrings(p.applications), Sorting.SortStrings(p.cidrs),
            Sorting.SortStrings(p.sourceRefs), Sorting.SortStrings(p.templateErrors),
            p.enforcement.(cidrs := Sorting.SortStrings(p.enforcement.cidrs),
                           unsupported := Sorting.SortStrings(p.enforcement.unsupported)))
  }

  function DesiredStateID(h: Hash, p: Policy): string {
    ID_PREFIX + h.digest(PayloadOf(p))
  }

  // ---- Rules ----

  function RuleTag(id: string): string {
    var t := Trim(id);
    var body := if HasPrefix(t, ID_PREFIX) then t[|ID_PREFIX|..] else t;
    var cut := if |body| > 16 then body[..16] else body;
    RULE_TAG_PREFIX + (if cut == "" then "unknown" else cut)
  }

  function Identity(r: Rule): string {
    var action := Lower(Trim(r.action));
    var direction := Lower(Trim(r.direction));
    if action == "" || direction == "" then "" else
    "src=" + Trim(r.source) + "|dst=" + Trim(r.dest) + "|port=" + Decimal(r.port)
    + "|proto=" + Lower(Trim(r.protocol)) + "|dir=" + direction + "|action=" + action
    + "|tag=" + Trim(r.tag)
  }

  function Fingerprint(h: Hash, r: Rule): string {
    h.fingerprint(Identity(r))
  }

  function Commented(h: Hash, id: string, r: Rule): Rule {
    r.(comment := "control one network policy " + id + " " + FINGERPRINT_KEY + Fingerprint(h, r))
  }

  function InRule(h: Hash, id: string, peer: string, action: string): Rule {
    Commented(h, id, Rule(peer, "", 0, "", "in", action, RuleTag(id), ""))
  }

  function OutRule(h: Hash, id: string, peer: string, action: string): Rule {
    Commented(h, id, Rule("", peer, 0, "", "out", action, RuleTag(id), ""))
  }

  function Map<T, U>(f: T -> U, s: seq<T>): (r: seq<U>)
    ensures |r| == |s|
    ensures forall i :: 0 <= i < |s| ==> r[i] == f(s[i])
  {
    if s == [] then [] else [f(s[0])] + Map(f, s[1..])
  }

  function EffectiveCidrs(p: Policy): seq<string> {
    if p.enforcement.cidrs == [] then p.cidrs else p.enforcement.cidrs
  }

  predicate BlocksInbound(p: Policy) {
    EqualFold(p.enforcement.inbound, "block")
  }

  predicate BlocksOutbound(p: Policy) {
    EqualFold(p.enforcement.outbound, "block")
  }

  function InRules(h: Hash, id: string, cidrs: seq<string>): seq<Rule> {
    Map(peer => InRule(h, id, peer, "allow"), cidrs)
    + [InRule(h, id, ANY_V4, "block"), InRule(h, id, ANY_V6, "block")]
  }

  function OutRules(h: Hash, id: string, cidrs: seq<string>): seq<Rule> {
    Map(peer => OutRule(h, id, peer, "allow"), cidrs)
    + [OutRule(h, id, ANY_V4, "block"), OutRule(h, id, ANY_V6, "block")]
  }

  function Planned(h: Hash, p: Policy): seq<Rule> {
    (if BlocksInbound(p) then InRules(h, p.id, EffectiveCidrs(p)) else [])
    + (if BlocksOutbound(p) then OutRules(h, p.id, EffectiveCidrs(p)) else [])
  }

  /** The planned rules as a set. */
  ghost function RuleSet(h: Hash, p: Policy): set<Rule> {
    set r | r in Planned(h, p)
  }

  predicate IsPolicyRule(r: Rule) {
    HasPrefix(r.tag, RULE_TAG_PREFIX)
  }

  /** Every planned rule carries its own policy's tag and a comment naming id and fingerprint. */
  lemma PlannedRuleShape(h: Hash, p: Policy, r: Rule)
    requires r in Planned(h, p)
    ensures r.tag == RuleTag(p.id) && IsPolicyRule(r)
    ensures r == Commented(h, p.id, r)
    ensures (r.direction == "in" && r.dest == "") || (r.direction == "out" && r.source == "")
    ensures r.action == "allow" || r.action == "block"
  {
    PlannedRuleIs(h, p, r);
    var peer, action :| (r == InRule(h, p.id, peer, action) || r == OutRule(h, p.id, peer, action))
                        && (action == "allow" || action == "block");
    TagIsPrefixed(p.id);
    hide RuleTag, Identity;
    if r == InRule(h, p.id, peer, action) {
      CommentIgnored(Rule(peer, "", 0, "", "in", action, RuleTag(p.id), ""), r.comment);
    } else {
      CommentIgnored(Rule("", peer, 0, "", "out", action, RuleTag(p.id), ""), r.comment);
    }
  }

  lemma PlannedRuleIs(h: Hash, p: Policy, r: Rule)
    requires r in Planned(h, p)
    ensures exists peer, action ::
      (r == InRule(h, p.id, peer, action) || r == OutRule(h, p.id, peer, action))
      && (action == "allow" || action == "block")
  {
    hide InRule, OutRule, BlocksInbound, BlocksOutbound, EffectiveCidrs;
    var ins, outs := InRules(h, p.id, EffectiveCidrs(p)), OutRules(h, p.id, EffectiveCidrs(p));
    assert r in ins || r in outs;
    if r in ins {
      var i :| 0 <= i < |ins| && ins[i] == r;
      if i < |EffectiveCidrs(p)| { assert r == InRule(h, p.id, EffectiveCidrs(p)[i], "allow"); }
    } else {
      var i :| 0 <= i < |outs| && outs[i] == r;
      if i < |EffectiveCidrs(p)| { assert r == OutRule(h, p.id, EffectiveCidrs(p)[i], "allow"); }
    }
  }

  lemma CommentIgnored(r: Rule, comment: string)
    ensures Identity(r.(comment := comment)) == Identity(r)
  {
  }

  lemma TagIsPrefixed(id: string)
    ensures HasPrefix(RuleTag(id), RULE_TAG_PREFIX)
  {
  }

  // ---- Order of the lists does not matter ----

  lemma MapRemove<T, U>(f: T -> U, t: seq<T>, i: nat)
    requires i < |t|
    ensures multiset(Map(f, t)) == multiset(Map(f, t[..i] + t[i + 1..])) + multiset{f(t[i])}
  {
    hide Map;
    var m := Map(f, t);
    Sorting.RemoveAt(m, i);
    assert Map(f, t[..i] + t[i + 1..]) == m[..i] + m[i + 1..];
  }

  lemma MapHead<T, U>(f: T -> U, s: seq<T>)
    requires s != []
    ensures multiset(Map(f, s)) == multiset(Map(f, s[1..])) + multiset{f(s[0])}
  {
    MapRemove(f, s, 0);
    assert s[..0] + s[1..] == s[1..];
  }

  lemma {:induction false} MapMultiset<T, U>(f: T -> U, s: seq<T>, t: seq<T>)
    requires multiset(s) == multiset(t)
    ensures multiset(Map(f, s)) == multiset(Map(f, t))
    decreases |s|
  {
    Sorting.SameLength(s, t);
    if s == [] {
      assert t == [];
    } else {
      hide Map;
      var i := Sorting.RemoveHead(s, t);
      var rest := t[..i] + t[i + 1..];
      MapMultiset(f, s[1..], rest);
      MapHead(f, s);
      MapRemove(f, t, i);
    }
  }

  /** `q` lists the same entries as `p`, in any order, and agrees with it on all else. */
  ghost predicate SameUpToListOrder(p: Policy, q: Policy) {
    && q == p.(applications := q.applications, cidrs := q.cidrs, sourceRefs := q.sourceRefs,
               templateErrors := q.templateErrors,
               enforcement := p.enforcement.(cidrs := q.enforcement.cidrs,
                                             unsupported := q.enforcement.unsupported))
    && multiset(p.applications) == multiset(q.applications)
    && multiset(p.cidrs) == multiset(q.cidrs)
    && multiset(p.sourceRefs) == multiset(q.sourceRefs)
    && multiset(p.templateErrors) == multiset(q.templateErrors)
    && multiset(p.enforcement.cidrs) == multiset(q.enforcement.cidrs)
    && multiset(p.enforcement.unsupported) == multiset(q.enforcement.unsupported)
  }

  lemma ListOrderIrrelevantToPayload(p: Policy, q: Policy)
    requires SameUpToListOrder(p, q)
    ensures PayloadOf(p) == PayloadOf(q)
  {
    Sorting.SortStringsPermutation(p.applications, q.applications);
    Sorting.SortStringsPermutation(p.cidrs, q.cidrs);
    Sorting.SortStringsPermutation(p.sourceRefs, q.sourceRefs);
    Sorting.SortStringsPermutation(p.templateErrors, q.templateErrors);
    Sorting.SortStringsPermutation(p.enforcement.cidrs, q.enforcement.cidrs);
    Sorting.SortStringsPermutation(p.enforcement.unsupported, q.enforcement.unsupported);
  }

  lemma EffectiveCidrsFromPayload(p: Policy, q: Policy)
    requires PayloadOf(p) == PayloadOf(q)
    ensures multiset(EffectiveCidrs(p)) == multiset(EffectiveCidrs(q))
  {
    hide Sorting.SortStrings;
    Sorting.SortStringsSorts(p.cidrs);
    Sorting.SortStringsSorts(q.cidrs);
    Sorting.SortStringsSorts(p.enforcement.cidrs);
    Sorting.SortStringsSorts(q.enforcement.cidrs);
    Sorting.SameLength(p.enforcement.cidrs, q.enforcement.cidrs);
  }

  lemma CidrOrderIrrelevant(h: Hash, id: string, a: seq<string>, b: seq<string>)
    requires multiset(a) == multiset(b)
    ensures multiset(InRules(h, id, a)) == multiset(InRules(h, id, b))
    ensures multiset(OutRules(h, id, a)) == multiset(OutRules(h, id, b))
  {
    hide Map, InRule, OutRule;
    MapMultiset(peer => InRule(h, id, peer, "allow"), a, b);
    MapMultiset(peer => OutRule(h, id, peer, "allow"), a, b);
  }

  /** Policies with one payload and one id plan the same rules, whatever the list order. */
  lemma SamePayloadSamePlan(h: Hash, p: Policy, q: Policy)
    requires PayloadOf(p) == PayloadOf(q) && p.id == q.id
    ensures multiset(Planned(h, p)) == multiset(Planned(h, q))
    ensures RuleSet(h, p) == RuleSet(h, q)
  {
    EffectiveCidrsFromPayload(p, q);
    assert p.enforcement.inbound == q.enforcement.inbound;
    assert p.enforcement.outbound == q.enforcement.outbound;
    hide PayloadOf, EffectiveCidrs, InRules, OutRules, EqualFold;
    CidrOrderIrrelevant(h, p.id, EffectiveCidrs(p), EffectiveCidrs(q));
    assert multiset(Planned(h, p)) == multiset(Planned(h, q)) by {
      var ins, outs := InRules(h, p.id, EffectiveCidrs(p)), OutRules(h, p.id, EffectiveCidrs(p));
      var ins', outs' := InRules(h, q.id, EffectiveCidrs(q)), OutRules(h, q.id, EffectiveCidrs(q));
      MultisetOfSum(if BlocksInbound(p) then ins else [], if BlocksOutbound(p) then outs else []);
      MultisetOfSum(if BlocksInbound(q) then ins' else [], if BlocksOutbound(q) then outs' else []);
    }
    SameRuleSet(h, p, q);
  }

  lemma MultisetOfSum<T>(a: seq<T>, b: seq<T>)
    ensures multiset(a + b) == multiset(a) + multiset(b)
  {
  }

  lemma SameRuleSet(h: Hash, p: Policy, q: Policy)
    requires multiset(Planned(h, p)) == multiset(Planned(h, q))
    ensures RuleSet(h, p) == RuleSet(h, q)
  {
    hide Planned;
    forall r ensures r in Planned(h, p) <==> r in Planned(h, q) {
      Sorting.SameMembers(Planned(h, p), Planned(h, q), r);
    }
  }

  /** Permuting a policy's lists changes neither its desired-state id nor the rules it plans. */
  lemma ListOrderIrrelevant(h: Hash, p: Policy, q: Policy)
    requires SameUpToListOrder(p, q)
    ensures DesiredStateID(h, p) == DesiredStateID(h, q)
    ensures multiset(Planned(h, p)) == multiset(Planned(h, q))
  {
    ListOrderIrrelevantToPayload(p, q);
    SamePayloadSamePlan(h, p, q);
  }

  // ---- What the rules mean to a packet ----

  /** Rules are tried in order and the first match decides. `covers` says whether a CIDR contains
      an address; an empty address in a rule stands for any peer. */
  predicate Matches<Addr>(r: Rule, direction: string, peer: Addr, covers: (string, Addr) -> bool) {
    && r.direction == direction
    && (r.source == "" || covers(r.source, peer) || direction != "in")
    && (r.dest == "" || covers(r.dest, peer) || direction != "out")
  }

  function FirstMatch<Addr>(rules: seq<Rule>, direction: string, peer: Addr,
                            covers: (string, Addr) -> bool): Option<string> {
    if rules == [] then None
    else if Matches(rules[0], direction, peer, covers) then Some(rules[0].action)
    else FirstMatch(rules[1..], direction, peer, covers)
  }

  predicate Listed<Addr>(cidrs: seq<string>, peer: Addr, covers: (string, Addr) -> bool) {
    exists c :: c in cidrs && (c == "" || covers(c, peer))
  }

  /** Each address belongs to one of the two families' catch-all ranges. */
  ghost predicate CatchAll<Addr(!new)>(covers: (string, Addr) -> bool) {
    forall a :: covers(ANY_V4, a) || covers(ANY_V6, a)
  }

  lemma {:induction false} FirstMatchAppend<Addr>(a: seq<Rule>, b: seq<Rule>, direction: string, peer: Addr,
                                                  covers: (string, Addr) -> bool)
    ensures FirstMatch(a + b, direction, peer, covers)
            == var m := FirstMatch(a, direction, peer, covers);
               if m.Some? then m else FirstMatch(b, direction, peer, covers)
  {
    if a == [] {
      assert a + b == b;
    } else {
      assert (a + b)[1..] == a[1..] + b;
      FirstMatchAppend(a[1..], b, direction, peer, covers);
    }
  }

  lemma {:induction false} OtherDirection<Addr>(rules: seq<Rule>, direction: string, peer: Addr,
                                                covers: (string, Addr) -> bool)
    requires forall r :: r in rules ==> r.direction != direction
    ensures FirstMatch(rules, direction, peer, covers) == None
  {
    if rules != [] {
      assert forall r :: r in rules[1..] ==> r in rules;
      OtherDirection(rules[1..], direction, peer, covers);
    }
  }

  lemma ListedCons<Addr>(cidrs: seq<string>, peer: Addr, covers: (string, Addr) -> bool)
    requires cidrs != []
    ensures Listed(cidrs, peer, covers)
            <==> cidrs[0] == "" || covers(cidrs[0], peer) || Listed(cidrs[1..], peer, covers)
  {
    assert cidrs[0] in cidrs;
    if Listed(cidrs, peer, covers) {
      var c :| c in cidrs && (c == "" || covers(c, peer));
      assert c == cidrs[0] || c in cidrs[1..];
    }
    if Listed(cidrs[1..], peer, covers) {
      var c :| c in cidrs[1..] && (c == "" || covers(c, peer));
      assert c in cidrs;
    }
  }

  lemma {:induction false} AllowRulesDecide<Addr>(h: Hash, id: string, cidrs: seq<string>, peer: Addr,
                                                  covers: (string, Addr) -> bool)
    ensures var rules := Map(c => InRule(h, id, c, "allow"), cidrs);
            FirstMatch(rules, "in", peer, covers) == if Listed(cidrs, peer, covers) then Some("allow") else None
    ensures var rules := Map(c => OutRule(h, id, c, "allow"), cidrs);
            FirstMatch(rules, "out", peer, covers) == if Listed(cidrs, peer, covers) then Some("allow") else None
  {
    hide RuleTag, Fingerprint;
    if cidrs != [] {
      AllowRulesDecide(h, id, cidrs[1..], peer, covers);
      var ins, outs := Map(c => InRule(h, id, c, "allow"), cidrs), Map(c => OutRule(h, id, c, "allow"), cidrs);
      assert ins[0] == InRule(h, id, cidrs[0], "allow") && outs[0] == OutRule(h, id, cidrs[0], "allow");
      assert ins[1..] == Map(c => InRule(h, id, c, "allow"), cidrs[1..]);
      assert outs[1..] == Map(c => OutRule(h, id, c, "allow"), cidrs[1..]);
      ListedCons(cidrs, peer, covers);
    }
  }

  lemma DirectionsOfRules(h: Hash, id: string, cidrs: seq<string>)
    ensures forall r :: r in InRules(h, id, cidrs) ==> r.direction == "in"
    ensures forall r :: r in OutRules(h, id, cidrs) ==> r.direction == "out"
  {
    hide RuleTag, Fingerprint;
  }

  lemma InRulesDecide<Addr(!new)>(h: Hash, id: string, cidrs: seq<string>, peer: Addr,
                                  covers: (string, Addr) -> bool)
    requires CatchAll(covers)
    ensures FirstMatch(InRules(h, id, cidrs), "in", peer, covers)
            == if Listed(cidrs, peer, covers) then Some("allow") else Some("block")
    ensures FirstMatch(OutRules(h, id, cidrs), "out", peer, covers)
            == if Listed(cidrs, peer, covers) then Some("allow") else Some("block")
  {
    AllowRulesDecide(h, id, cidrs, peer, covers);
    BlockRulesDecide(h, id, peer, covers);
    hide FirstMatch, InRule, OutRule, Listed, Map;
    FirstMatchAppend(Map(c => InRule(h, id, c, "allow"), cidrs),
                     [InRule(h, id, ANY_V4, "block"), InRule(h, id, ANY_V6, "block")], "in", peer, covers);
    FirstMatchAppend(Map(c => OutRule(h, id, c, "allow"), cidrs),
                     [OutRule(h, id, ANY_V4, "block"), OutRule(h, id, ANY_V6, "block")], "out", peer, covers);
  }

  /** In a direction whose default is to block, a packet passes exactly when its peer is on the
      effective allowlist; in any other direction the plan does not decide. */
  lemma PlanDecidesPackets<Addr(!new)>(h: Hash, p: Policy, peer: Addr, covers: (string, Addr) -> bool)
    requires CatchAll(covers)
    ensures FirstMatch(Planned(h, p), "in", peer, covers)
            == if !BlocksInbound(p) then None
               else if Listed(EffectiveCidrs(p), peer, covers) then Some("allow") else Some("block")
    ensures FirstMatch(Planned(h, p), "out", peer, covers)
            == if !BlocksOutbound(p) then None
               else if Listed(EffectiveCidrs(p), peer, covers) then Some("allow") else Some("block")
  {
    var cidrs := EffectiveCidrs(p);
    DirectionsOfRules(h, p.id, cidrs);
    InRulesDecide(h, p.id, cidrs, peer, covers);
    hide InRules, OutRules, Listed, EffectiveCidrs, BlocksInbound, BlocksOutbound;
    var inbound := if BlocksInbound(p) then InRules(h, p.id, cidrs) else [];
    var outbound := if BlocksOutbound(p) then OutRules(h, p.id, cidrs) else [];
    assert Planned(h, p) == inbound + outbound;
    OtherDirection(inbound, "out", peer, covers);
    OtherDirection(outbound, "in", peer, covers);
    hide FirstMatch;
    FirstMatchAppend(inbound, outbound, "in", peer, covers);
    FirstMatchAppend(inbound, outbound, "out", peer, covers);
  }

  /** The same in the words of the policy: its enforcement intent blocks a direction where it spells "block" in any case,
      and the peers let through are the intent's own list, or else the policy's. */
  lemma PolicyDecidesPackets<Addr(!new)>(h: Hash, p: Policy, peer: Addr, covers: (string, Addr) -> bool)
    requires CatchAll(covers)
    ensures var e := p.enforcement;
            var peers := if |e.cidrs| > 0 then e.cidrs else p.cidrs;
            var verdict := if Listed(peers, peer, covers) then "allow" else "block";
            && FirstMatch(Planned(h, p), "in", peer, covers) == (if Lower(e.inbound) == "block" then Some(verdict) else None)
            && FirstMatch(Planned(h, p), "out", peer, covers) == (if Lower(e.outbound) == "block" then Some(verdict) else None)
  {
    hide FirstMatch, Planned, Lower;
    PlanDecidesPackets(h, p, peer, covers);
    BlockWord(p.enforcement.inbound);
    BlockWord(p.enforcement.outbound);
    hide EqualFold, Listed;
  }

  lemma BlockWord(s: string)
    ensures EqualFold(s, "block") <==> Lower(s) == "block"
  {
    assert Lower("block") == "block";
  }

  lemma BlockRulesDecide<Addr(!new)>(h: Hash, id: string, peer: Addr, covers: (string, Addr) -> bool)
    requires CatchAll(covers)
    ensures FirstMatch([InRule(h, id, ANY_V4, "block"), InRule(h, id, ANY_V6, "block")], "in", peer, covers)
            == Some("block")
    ensures FirstMatch([OutRule(h, id, ANY_V4, "block"), OutRule(h, id, ANY_V6, "block")], "out", peer, covers)
            == Some("block")
  {
    var i4, i6 := InRule(h, id, ANY_V4, "block"), InRule(h, id, ANY_V6, "block");
    var o4, o6 := OutRule(h, id, ANY_V4, "block"), OutRule(h, id, ANY_V6, "block");
    assert [i4, i6][1..] == [i6] && [o4, o6][1..] == [o6];
    assert FirstMatch([i4, i6], "in", peer, covers)
        == if Matches(i4, "in", peer, covers) then Some("block") else FirstMatch([i6], "in", peer, covers);
    assert FirstMatch([o4, o6], "out", peer, covers)
        == if Matches(o4, "out", peer, covers) then Some("block") else FirstMatch([o6], "out", peer, covers);
    assert covers(ANY_V4, peer) || covers(ANY_V6, peer);
  }
}
