/** When a test is allowed, stated without the order of the checks, and how the answer moves when the
    engagement or the request changes. */
module AuthorizationLaws {
  import opened Basics
  import opened Authorization

  // ----- the declarative conjunction

  ghost predicate Approved(e: Engagement, t: Test, q: Request) {
    exists a :: a in q.approvals && ApprovalMatches(a, e, t, q)
  }

  ghost predicate InScope(e: Engagement, t: Test, q: Request) {
    && !AnyRule(q, e.denied)
    && (AnyRule(q, e.allowed) || (AnyRule(q, e.conditional) && Approved(e, t, q)))
  }

  predicate ProgramOnline(e: Engagement, q: Request) {
    e.program.Some? && e.program.value.requiresOnline ==>
      var b := e.program.value;
      && q.attestation.Some?
      && var a := q.attestation.value;
      && a.programId == b.programId && a.source == b.source
      && a.observedAt <= q.now + 30.0
      && (if q.now < a.observedAt + b.maxAge then a.status == Online
          else q.lease.Some? && q.leaseValid == Some(true))
  }

  // Every guardrail cleared, none matched, and nothing else mentioned.
  predicate ExclusionsCleared(e: Engagement, q: Request) {
    e.exclusions != [] ==> q.exclusionMatches == {} && q.clears == Ids(e.exclusions)
  }

  predicate AssetSatisfied(c: Asset, q: Request) {
    && !AnyPath(q.path, c.deniedPaths)
    && (c.allowedPaths == [] || AnyPath(q.path, c.allowedPaths))
    && (c.allowedPorts == [] || q.port in c.allowedPorts)
    && (c.allowedMethods == [] || (q.httpMethod.Some? && q.httpMethod.value in c.allowedMethods))
    && (c.allowedIdentities == [] || (q.identity.Some? && q.identity.value in c.allowedIdentities))
  }

  ghost predicate AssetsSatisfied(e: Engagement, q: Request) {
    forall c :: c in e.assets && q.matches(c.selector) ==> AssetSatisfied(c, q)
  }

  ghost predicate RiskPermitted(e: Engagement, t: Test, q: Request) {
    var d := DecisionFor(e.methods, t.risk);
    d != Deny && (d == ApprovalRequired ==> Approved(e, t, q))
  }

  /** Approvals do not appear here: a matching approval already admits the requested rate. */
  ghost predicate RatePermitted(e: Engagement, q: Request) {
    q.rps.Some? ==>
      && q.rps.value <= e.maxRps
      && forall c :: c in e.assets && q.matches(c.selector) && c.maxRps.Some? ==> q.rps.value <= c.maxRps.value
  }

  ghost predicate MayTest(e: Engagement, t: Test, q: Request) {
    && InScope(e, t, q) && ProgramOnline(e, q) && ExclusionsCleared(e, q) && AssetsSatisfied(e, q)
    && t.requiredContext <= q.context
    && RiskPermitted(e, t, q) && RatePermitted(e, q)
  }

  // ----- each gate passes exactly when its condition holds

  lemma ApprovedExact(e: Engagement, t: Test, q: Request)
    ensures ValidApprovals(e, t, q, q.approvals) != [] <==> Approved(e, t, q)
  {
    ValidApprovalsExact(e, t, q, q.approvals);
    var valid := ValidApprovals(e, t, q, q.approvals);
    if valid != [] {
      assert valid[0] in valid;
    }
  }

  /** The four exclusion checks amount to: nothing matched, and exactly the known ids cleared. */
  lemma ExclusionGateExact(e: Engagement, q: Request)
    ensures ExclusionDecision(e, q) == None <==> ExclusionsCleared(e, q)
  {
    var ids := Ids(e.exclusions);
    EmptyDifference(q.clears + q.exclusionMatches, ids);
    EmptyDifference(ids, q.clears);
    if e.exclusions != [] && ExclusionDecision(e, q) == None {
      assert q.exclusionMatches <= ids;
      assert q.exclusionMatches == ids * q.exclusionMatches;
    }
  }

  lemma EmptyDifference(a: set<string>, b: set<string>)
    ensures a - b == {} <==> a <= b
  {
    assert forall x :: x in a && x !in b ==> x in a - b;
  }

  lemma {:induction false} AssetGateExact(cs: seq<Asset>, q: Request)
    ensures AssetDecision(cs, q) == None <==> forall c :: c in cs ==> AssetSatisfied(c, q)
  {
    if cs != [] {
      AssetGateExact(cs[1..], q);
      assert cs == [cs[0]] + cs[1..];
      assert OneAssetDecision(cs[0], q) == None <==> AssetSatisfied(cs[0], q);
    }
  }

  /** With a requested rate, approvals drop out of the rate condition. */
  lemma RateGateExact(e: Engagement, t: Test, q: Request)
    ensures (q.rps.Some? && exists x :: x in RateLimits(e, t, q) && x < q.rps.value) <==> !RatePermitted(e, q)
  {
    var matching := MatchingAssets(q, e.assets);
    var valid := ValidApprovals(e, t, q, q.approvals);
    AssetRatesExact(matching);
    ApprovalRatesExact(valid);
    MatchingAssetsExact(q, e.assets);
    ValidApprovalsExact(e, t, q, q.approvals);
    var limits := RateLimits(e, t, q);
    assert forall x :: x in limits <==> x == e.maxRps || x in AssetRates(matching) || x in ApprovalRates(valid);
    assert e.maxRps in limits;
    if q.rps.Some? && !RatePermitted(e, q) && q.rps.value <= e.maxRps {
      var c :| c in e.assets && q.matches(c.selector) && c.maxRps.Some? && q.rps.value > c.maxRps.value;
      assert c.maxRps.value in limits;
    }
  }

  // ----- main results

  /** The waterfall allows exactly the declared conjunction. */
  lemma AllowIsExact(e: Engagement, t: Test, q: Request)
    ensures Decide(e, t, q) == Allow <==> MayTest(e, t, q)
  {
    ApprovedExact(e, t, q);
    ExclusionGateExact(e, q);
    MatchingAssetsExact(q, e.assets);
    AssetGateExact(MatchingAssets(q, e.assets), q);
    AssetsNeverAllow(MatchingAssets(q, e.assets), q);
    RateGateExact(e, t, q);
    OperationalGateExact(e, q);
    var approved := ValidApprovals(e, t, q, q.approvals) != [];
    assert ScopeDecision(e, q, approved) == None <==> InScope(e, t, q);
    assert RiskDecision(e, t, approved) == None <==> RiskPermitted(e, t, q);
    assert AssetDecision(MatchingAssets(q, e.assets), q) == None <==> AssetsSatisfied(e, q);
    assert forall x :: x in t.requiredContext && x !in q.context ==> x in t.requiredContext - q.context;
    assert t.requiredContext - q.context == {} <==> t.requiredContext <= q.context;
  }

  lemma OperationalGateExact(e: Engagement, q: Request)
    ensures OperationalDecision(e, q) == None <==> ProgramOnline(e, q)
    ensures OperationalDecision(e, q) != Some(Allow)
  {
  }

  lemma {:induction false} ValidApprovalsSubset(e: Engagement, t: Test, q: Request, more: Request)
    requires more == q.(approvals := more.approvals) && forall a :: a in q.approvals ==> a in more.approvals
    ensures forall x :: x in RateLimits(e, t, q) ==> x in RateLimits(e, t, more)
  {
    ValidApprovalsExact(e, t, q, q.approvals);
    ValidApprovalsExact(e, t, more, more.approvals);
    ApprovalRatesExact(ValidApprovals(e, t, q, q.approvals));
    ApprovalRatesExact(ValidApprovals(e, t, more, more.approvals));
    SameMatchingAssets(q, more, e.assets);
    assert forall a :: ApprovalMatches(a, e, t, q) ==> ApprovalMatches(a, e, t, more);
  }

  lemma {:induction false} SameMatchingAssets(q: Request, more: Request, assets: seq<Asset>)
    requires more.matches == q.matches
    ensures MatchingAssets(more, assets) == MatchingAssets(q, assets)
  {
    if assets != [] {
      SameMatchingAssets(q, more, assets[..|assets| - 1]);
    }
  }

  /** Adding approvals never takes an allow away, and can only lower the effective rate. */
  lemma MoreApprovalsNeverHurt(e: Engagement, t: Test, q: Request, more: Request, rate: real, rateMore: real)
    requires more == q.(approvals := more.approvals) && forall a :: a in q.approvals ==> a in more.approvals
    requires IsMinimum(rate, RateLimits(e, t, q)) && IsMinimum(rateMore, RateLimits(e, t, more))
    ensures Decide(e, t, q) == Allow ==> Decide(e, t, more) == Allow
    ensures rateMore <= rate
  {
    AllowIsExact(e, t, q);
    AllowIsExact(e, t, more);
    assert forall a :: ApprovalMatches(a, e, t, q) ==> ApprovalMatches(a, e, t, more);
    ValidApprovalsSubset(e, t, q, more);
  }

  /** Adding denied scope rules or asset constraints never turns anything else into an allow. */
  lemma MoreConstraintsNeverHelp(e: Engagement, stricter: Engagement, t: Test, q: Request)
    requires stricter == e.(denied := stricter.denied, assets := stricter.assets)
    requires forall r :: r in e.denied ==> r in stricter.denied
    requires forall c :: c in e.assets ==> c in stricter.assets
    ensures Decide(stricter, t, q) == Allow ==> Decide(e, t, q) == Allow
  {
    AllowIsExact(e, t, q);
    AllowIsExact(stricter, t, q);
    forall i | 0 <= i < |e.denied| && q.matches(e.denied[i]) ensures AnyRule(q, stricter.denied) {
      assert e.denied[i] in stricter.denied;
    }
    assert forall a :: ApprovalMatches(a, e, t, q) == ApprovalMatches(a, stricter, t, q);
  }

  /** The order of the asset constraints never changes whether the test is allowed, nor its rate. */
  lemma AssetOrderIsIrrelevantToAllow(e: Engagement, p: Engagement, t: Test, q: Request, rate: real)
    requires p == e.(assets := p.assets) && multiset(p.assets) == multiset(e.assets)
    ensures Decide(p, t, q) == Allow <==> Decide(e, t, q) == Allow
    ensures IsMinimum(rate, RateLimits(e, t, q)) <==> IsMinimum(rate, RateLimits(p, t, q))
  {
    assert forall c :: c in e.assets <==> c in multiset(e.assets);
    assert forall c :: c in p.assets <==> c in multiset(p.assets);
    MoreConstraintsNeverHelp(e, p, t, q);
    MoreConstraintsNeverHelp(p, e, t, q);
    MatchingAssetsExact(q, e.assets);
    MatchingAssetsExact(q, p.assets);
    AssetRatesExact(MatchingAssets(q, e.assets));
    AssetRatesExact(MatchingAssets(q, p.assets));
    SameValidApprovals(e, p, t, q, q.approvals);
    assert forall x :: x in RateLimits(e, t, q) <==> x in RateLimits(p, t, q);
  }

  lemma {:induction false} SameValidApprovals(
    e: Engagement, p: Engagement, t: Test, q: Request, approvals: seq<Approval>)
    requires p.id == e.id
    ensures ValidApprovals(p, t, q, approvals) == ValidApprovals(e, t, q, approvals)
  {
    if approvals != [] {
      SameValidApprovals(e, p, t, q, approvals[..|approvals| - 1]);
    }
  }

  // ----- the order of asset constraints and the kind of refusal

  ghost predicate SameAssets(e: Engagement, assets: seq<Asset>) {
    multiset(assets) == multiset(e.assets)
  }

  /** Some order of the same constraints gives another decision. */
  ghost predicate OrderMatters(e: Engagement, t: Test, q: Request) {
    exists assets :: SameAssets(e, assets) && Decide(e.(assets := assets), t, q) != Decide(e, t, q)
  }

  ghost predicate ReachesAssets(e: Engagement, t: Test, q: Request) {
    InScope(e, t, q) && ProgramOnline(e, q) && ExclusionsCleared(e, q)
  }

  // Why one constraint objects: a field it forbids, or a field the request leaves open before that.
  predicate Objects(c: Asset, q: Request, d: Decision) {
    q.matches(c.selector) && OneAssetDecision(c, q) == Some(d)
  }

  ghost predicate ObjectionsDiffer(e: Engagement, q: Request) {
    exists c, d :: c in e.assets && d in e.assets && Objects(c, q, Deny) && Objects(d, q, InsufficientContext)
  }

  lemma OneAssetRefusals(c: Asset, q: Request)
    ensures OneAssetDecision(c, q) in {None, Some(Deny), Some(InsufficientContext)}
  {
  }

  /** The asset gate's decision is that of some objecting constraint. */
  lemma {:induction false} SomeAssetDecides(cs: seq<Asset>, q: Request)
    ensures AssetDecision(cs, q).Some? ==> exists c :: c in cs && OneAssetDecision(c, q) == AssetDecision(cs, q)
  {
    if cs != [] {
      if OneAssetDecision(cs[0], q).Some? {
        assert cs[0] in cs;
      } else {
        SomeAssetDecides(cs[1..], q);
      }
    }
  }

  // What the decision is once the gates before the assets have passed.
  lemma DecideFromAssets(e: Engagement, t: Test, q: Request)
    requires ReachesAssets(e, t, q)
    ensures Decide(e, t, q) == (var d := AssetDecision(MatchingAssets(q, e.assets), q);
                                if d.Some? then d.value else TailDecision(e, t, q))
  {
    ApprovedExact(e, t, q);
    ExclusionGateExact(e, q);
    OperationalGateExact(e, q);
  }

  lemma DecideBeforeAssets(e: Engagement, t: Test, q: Request, assets: seq<Asset>)
    requires !ReachesAssets(e, t, q)
    ensures Decide(e.(assets := assets), t, q) == Decide(e, t, q)
  {
    ApprovedExact(e, t, q);
    ExclusionGateExact(e, q);
    OperationalGateExact(e, q);
    SameValidApprovals(e, e.(assets := assets), t, q, q.approvals);
  }

  /** After the asset gate the order no longer matters. */
  lemma TailIgnoresOrder(e: Engagement, t: Test, q: Request, assets: seq<Asset>)
    requires SameAssets(e, assets)
    ensures TailDecision(e.(assets := assets), t, q) == TailDecision(e, t, q)
  {
    var p := e.(assets := assets);
    SameElements(assets, e.assets);
    MatchingAssetsExact(q, e.assets);
    MatchingAssetsExact(q, assets);
    AssetRatesExact(MatchingAssets(q, e.assets));
    AssetRatesExact(MatchingAssets(q, assets));
    SameValidApprovals(e, p, t, q, q.approvals);
    assert forall x :: x in RateLimits(e, t, q) <==> x in RateLimits(p, t, q);
  }

  lemma SameElements(a: seq<Asset>, b: seq<Asset>)
    requires multiset(a) == multiset(b)
    ensures forall c :: c in a <==> c in b
  {
    assert forall c :: c in a <==> c in multiset(a);
    assert forall c :: c in b <==> c in multiset(b);
  }

  lemma ReorderingNeedsDifference(e: Engagement, t: Test, q: Request, assets: seq<Asset>)
    requires SameAssets(e, assets) && Decide(e.(assets := assets), t, q) != Decide(e, t, q)
    ensures ReachesAssets(e, t, q) && ObjectionsDiffer(e, q)
  {
    var p := e.(assets := assets);
    if !ReachesAssets(e, t, q) {
      DecideBeforeAssets(e, t, q, assets);
    } else {
      SameElements(assets, e.assets);
      MatchingAssetsExact(q, e.assets);
      MatchingAssetsExact(q, assets);
      assert forall a :: ApprovalMatches(a, e, t, q) == ApprovalMatches(a, p, t, q);
      DecideFromAssets(e, t, q);
      DecideFromAssets(p, t, q);
      TailIgnoresOrder(e, t, q, assets);
      DifferentRefusals(e, q, MatchingAssets(q, e.assets), MatchingAssets(q, assets));
    }
  }

  lemma DifferentRefusals(e: Engagement, q: Request, a: seq<Asset>, b: seq<Asset>)
    requires forall c :: c in a <==> c in b
    requires forall c :: c in a ==> c in e.assets && q.matches(c.selector)
    requires AssetDecision(a, q) != AssetDecision(b, q)
    ensures ObjectionsDiffer(e, q)
  {
    AssetGateExact(a, q);
    AssetGateExact(b, q);
    SomeAssetDecides(a, q);
    SomeAssetDecides(b, q);
    var c :| c in a && OneAssetDecision(c, q) == AssetDecision(a, q);
    var d :| d in b && OneAssetDecision(d, q) == AssetDecision(b, q);
    OneAssetRefusals(c, q);
    OneAssetRefusals(d, q);
    assert || (Objects(c, q, Deny) && Objects(d, q, InsufficientContext))
           || (Objects(d, q, Deny) && Objects(c, q, InsufficientContext));
  }

  // The constraints with one of them moved to the front.
  function MovedFirst(assets: seq<Asset>, i: nat): seq<Asset>
    requires i < |assets|
  {
    [assets[i]] + assets[..i] + assets[i + 1..]
  }

  lemma FirstObjectionDecides(e: Engagement, t: Test, q: Request, c: Asset, d: Decision) returns (assets: seq<Asset>)
    requires ReachesAssets(e, t, q) && c in e.assets && Objects(c, q, d)
    ensures SameAssets(e, assets) && Decide(e.(assets := assets), t, q) == d
  {
    var i :| 0 <= i < |e.assets| && e.assets[i] == c;
    assets := MovedFirst(e.assets, i);
    assert e.assets == e.assets[..i] + [e.assets[i]] + e.assets[i + 1..];
    var p := e.(assets := assets);
    assert forall a :: ApprovalMatches(a, e, t, q) == ApprovalMatches(a, p, t, q);
    DecideFromAssets(p, t, q);
    FirstMatching(q, assets);
  }

  lemma {:induction false} FirstMatching(q: Request, assets: seq<Asset>)
    requires assets != [] && q.matches(assets[0].selector)
    ensures MatchingAssets(q, assets) != [] && MatchingAssets(q, assets)[0] == assets[0]
  {
    if |assets| > 1 {
      FirstMatching(q, assets[..|assets| - 1]);
    } else {
      assert assets[..0] == [];
    }
  }

  /** The order of the constraints changes the decision, never into or out of ALLOW, exactly when the
      earlier gates pass and one matching constraint denies while another lacks context. */
  lemma AssetOrderChangesRefusal(e: Engagement, t: Test, q: Request)
    ensures OrderMatters(e, t, q) <==> ReachesAssets(e, t, q) && ObjectionsDiffer(e, q)
  {
    forall assets | SameAssets(e, assets) && Decide(e.(assets := assets), t, q) != Decide(e, t, q)
      ensures ReachesAssets(e, t, q) && ObjectionsDiffer(e, q)
    {
      ReorderingNeedsDifference(e, t, q, assets);
    }
    if ReachesAssets(e, t, q) && ObjectionsDiffer(e, q) {
      var c, d :| c in e.assets && d in e.assets && Objects(c, q, Deny) && Objects(d, q, InsufficientContext);
      var denied := FirstObjectionDecides(e, t, q, c, Deny);
      var unclear := FirstObjectionDecides(e, t, q, d, InsufficientContext);
    }
  }

  lemma IdsAppend(exclusions: seq<string>, id: string)
    ensures Ids(exclusions + [id]) == Ids(exclusions) + {id}
  {
    var more := exclusions + [id];
    assert more[|exclusions|] == id;
    forall x | x in Ids(exclusions) ensures x in Ids(more) {
      var i :| 0 <= i < |exclusions| && exclusions[i] == x;
      assert more[i] == x;
    }
  }

  // The clearances already name the new exclusion, which was unknown until it was added.
  predicate NamedEarly(e: Engagement, id: string, q: Request) {
    && e.exclusions != [] && q.exclusionMatches == {}
    && id !in Ids(e.exclusions) && q.clears == Ids(e.exclusions) + {id}
  }

  /** At the gate itself: adding an exclusion opens it in exactly one family. */
  lemma AddedExclusionOpensGate(e: Engagement, id: string, q: Request)
    ensures var stricter := e.(exclusions := e.exclusions + [id]);
            (ExclusionDecision(e, q) != None && ExclusionDecision(stricter, q) == None) <==> NamedEarly(e, id, q)
  {
    var stricter := e.(exclusions := e.exclusions + [id]);
    ExclusionGateExact(e, q);
    ExclusionGateExact(stricter, q);
    IdsAppend(e.exclusions, id);
    assert stricter.exclusions != [];
  }

  // Everything an ALLOW needs besides the exclusions.
  ghost predicate MayTestOtherwise(e: Engagement, t: Test, q: Request) {
    && InScope(e, t, q) && ProgramOnline(e, q) && AssetsSatisfied(e, q)
    && t.requiredContext <= q.context
    && RiskPermitted(e, t, q) && RatePermitted(e, q)
  }

  /** At the decision: adding a semantic exclusion turns a refusal into ALLOW exactly when the clearances
      named it early and everything else was already permitted. */
  lemma AddedExclusionAllows(e: Engagement, id: string, t: Test, q: Request)
    ensures var stricter := e.(exclusions := e.exclusions + [id]);
            (Decide(e, t, q) != Allow && Decide(stricter, t, q) == Allow)
            <==> NamedEarly(e, id, q) && MayTestOtherwise(e, t, q)
  {
    var stricter := e.(exclusions := e.exclusions + [id]);
    AllowIsExact(e, t, q);
    AllowIsExact(stricter, t, q);
    AddedExclusionOpensGate(e, id, q);
    ExclusionGateExact(e, q);
    ExclusionGateExact(stricter, q);
    assert forall a :: ApprovalMatches(a, e, t, q) == ApprovalMatches(a, stricter, t, q);
  }

  // ----- both traps, met by a concrete request

  const RULE := Rule("host", "a.example")

  function Open(assets: seq<Asset>, exclusions: seq<string>): Engagement {
    Engagement("e", [], [RULE], [], MethodPolicy(Allow, Allow, Allow, Allow), 10.0, assets, exclusions, None)
  }

  const PROBE := Test("t", Passive, {})

  function Ask(clears: set<string>): Request {
    Request(r => r == RULE, "/x", 443, None, None, {}, [], None, clears, {}, None, None, None, 0.0)
  }

  lemma RuleMatches(clears: set<string>)
    ensures AnyRule(Ask(clears), [RULE]) && !AnyRule(Ask(clears), [])
  {
    assert Ask(clears).matches([RULE][0]);
  }

  /** One exclusion refuses the request, two allow it. */
  lemma AddedExclusionWitness()
    ensures Decide(Open([], ["x"]), PROBE, Ask({"x", "y"})) != Allow
    ensures Decide(Open([], ["x", "y"]), PROBE, Ask({"x", "y"})) == Allow
  {
    var e, q := Open([], ["x"]), Ask({"x", "y"});
    RuleMatches({"x", "y"});
    assert Ids(e.exclusions) == {"x"} by {
      assert e.exclusions[0] == "x";
    }
    assert "x" != "y" by {
      assert "x"[0] != "y"[0];
    }
    assert e.exclusions + ["y"] == ["x", "y"];
    AddedExclusionAllows(e, "y", PROBE, q);
  }

  /** The same two constraints refuse in two ways. */
  lemma AssetOrderWitness()
    ensures var wantsIdentity := Asset(RULE, [], [], [], [], ["user"], None);
            var deniesPath := Asset(RULE, [], ["/"], [], [], [], None);
            && Decide(Open([wantsIdentity, deniesPath], []), PROBE, Ask({})) == InsufficientContext
            && Decide(Open([deniesPath, wantsIdentity], []), PROBE, Ask({})) == Deny
  {
    var a, b := Asset(RULE, [], [], [], [], ["user"], None), Asset(RULE, [], ["/"], [], [], [], None);
    var q := Ask({});
    RuleMatches({});
    assert PathMatches(q.path, b.deniedPaths[0]);
    assert OneAssetDecision(b, q) == Some(Deny) && OneAssetDecision(a, q) == Some(InsufficientContext);
    DecideFromAssets(Open([a, b], []), PROBE, q);
    DecideFromAssets(Open([b, a], []), PROBE, q);
    FirstMatching(q, [a, b]);
    FirstMatching(q, [b, a]);
  }
}
