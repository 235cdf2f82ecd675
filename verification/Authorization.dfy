/** The authorization decision for one test against one target. */
module Authorization {
  import opened Basics

  datatype Decision = Allow | Deny | ApprovalRequired | InsufficientContext

  datatype Risk = Passive | SafeActive | StateChanging | Intrusive

  datatype Rule = Rule(kind: string, value: string)

  datatype Asset = Asset(
    selector: Rule, allowedPaths: seq<string>, deniedPaths: seq<string>, allowedPorts: seq<int>,
    allowedMethods: seq<string>, allowedIdentities: seq<string>, maxRps: Option<real>)

  datatype Status = Online | Offline | Unknown

  datatype Binding = Binding(programId: string, source: string, requiresOnline: bool, maxAge: real)

  datatype Attestation = Attestation(programId: string, source: string, status: Status, observedAt: real)

  datatype MethodPolicy = MethodPolicy(
    passive: Decision, safeActive: Decision, stateChanging: Decision, intrusive: Decision)

  datatype Engagement = Engagement(
    id: string, denied: seq<Rule>, allowed: seq<Rule>, conditional: seq<Rule>,
    methods: MethodPolicy, maxRps: real, assets: seq<Asset>, exclusions: seq<string>, program: Option<Binding>)

  datatype Test = Test(id: string, risk: Risk, requiredContext: set<string>)

  datatype Approval = Approval(
    id: string, engagement: string, issuedAt: real, expiresAt: real, targets: seq<Rule>,
    testIds: seq<string>, risks: seq<Risk>, identities: seq<string>, maxRps: Option<real>)

  /** `matches` is the rule matcher at the request's target; `leaseValid` is what the durable lease
      store answers, None when no store is named. */
  datatype Request = Request(
    matches: Rule -> bool, path: string, port: int, httpMethod: Option<string>, identity: Option<string>,
    context: set<string>, approvals: seq<Approval>, rps: Option<real>,
    clears: set<string>, exclusionMatches: set<string>,
    attestation: Option<Attestation>, lease: Option<real>, leaseValid: Option<bool>, now: real)

  // ----- matching

  predicate AnyRule(q: Request, rules: seq<Rule>) {
    exists i :: 0 <= i < |rules| && q.matches(rules[i])
  }

  function TrimSlashes(s: string): string {
    if s != [] && s[|s| - 1] == '/' then TrimSlashes(s[..|s| - 1]) else s
  }

  predicate PathMatches(path: string, prefix: string) {
    prefix == "/" || path == TrimSlashes(prefix) || TrimSlashes(prefix) + "/" <= path
  }

  predicate AnyPath(path: string, prefixes: seq<string>) {
    exists i :: 0 <= i < |prefixes| && PathMatches(path, prefixes[i])
  }

  predicate ApprovalMatches(a: Approval, e: Engagement, t: Test, q: Request) {
    && a.engagement == e.id && a.issuedAt <= q.now < a.expiresAt
    && AnyRule(q, a.targets)
    && (a.testIds == [] || t.id in a.testIds)
    && (a.risks == [] || t.risk in a.risks)
    && (a.identities == [] || (q.identity.Some? && q.identity.value in a.identities))
    && !(a.maxRps.Some? && q.rps.Some? && q.rps.value > a.maxRps.value)
  }

  function ValidApprovals(e: Engagement, t: Test, q: Request, approvals: seq<Approval>): seq<Approval> {
    if approvals == [] then []
    else
      var rest := ValidApprovals(e, t, q, approvals[..|approvals| - 1]);
      var a := approvals[|approvals| - 1];
      if ApprovalMatches(a, e, t, q) then rest + [a] else rest
  }

  function MatchingAssets(q: Request, assets: seq<Asset>): seq<Asset> {
    if assets == [] then []
    else
      var rest := MatchingAssets(q, assets[..|assets| - 1]);
      var c := assets[|assets| - 1];
      if q.matches(c.selector) then rest + [c] else rest
  }

  lemma {:induction false} ValidApprovalsExact(e: Engagement, t: Test, q: Request, approvals: seq<Approval>)
    ensures forall a :: a in ValidApprovals(e, t, q, approvals) <==> a in approvals && ApprovalMatches(a, e, t, q)
  {
    if approvals != [] {
      ValidApprovalsExact(e, t, q, approvals[..|approvals| - 1]);
      assert approvals == approvals[..|approvals| - 1] + [approvals[|approvals| - 1]];
    }
  }

  lemma {:induction false} MatchingAssetsExact(q: Request, assets: seq<Asset>)
    ensures forall c :: c in MatchingAssets(q, assets) <==> c in assets && q.matches(c.selector)
  {
    if assets != [] {
      MatchingAssetsExact(q, assets[..|assets| - 1]);
      assert assets == assets[..|assets| - 1] + [assets[|assets| - 1]];
    }
  }

  // ----- the gates, in the order the code tries them; None means the gate passes

  function ScopeDecision(e: Engagement, q: Request, approved: bool): Option<Decision> {
    if AnyRule(q, e.denied) then Some(Deny)
    else if AnyRule(q, e.conditional) && !AnyRule(q, e.allowed) then
      if approved then None else Some(ApprovalRequired)
    else if AnyRule(q, e.allowed) then None
    else Some(Deny)
  }

  function OperationalDecision(e: Engagement, q: Request): Option<Decision> {
    if e.program.None? || !e.program.value.requiresOnline then None
    else if q.attestation.None? then Some(InsufficientContext)
    else
      var b, a := e.program.value, q.attestation.value;
      if a.programId != b.programId || a.source != b.source then Some(InsufficientContext)
      else if a.observedAt > q.now + 30.0 then Some(InsufficientContext)
      else if q.now >= a.observedAt + b.maxAge then
        if q.lease.Some? && q.leaseValid == Some(true) then None else Some(InsufficientContext)
      else if a.status == Offline then Some(Deny)
      else if a.status != Online then Some(InsufficientContext)
      else None
  }

  function Ids(exclusions: seq<string>): set<string> {
    set i | 0 <= i < |exclusions| :: exclusions[i]
  }

  function ExclusionDecision(e: Engagement, q: Request): Option<Decision> {
    if e.exclusions == [] then None
    else if q.clears * q.exclusionMatches != {} then Some(InsufficientContext)
    else if (q.clears + q.exclusionMatches) - Ids(e.exclusions) != {} then Some(InsufficientContext)
    else if Ids(e.exclusions) * q.exclusionMatches != {} then Some(Deny)
    else if Ids(e.exclusions) - q.clears != {} then Some(InsufficientContext)
    else None
  }

  function OneAssetDecision(c: Asset, q: Request): Option<Decision> {
    if AnyPath(q.path, c.deniedPaths) then Some(Deny)
    else if c.allowedPaths != [] && !AnyPath(q.path, c.allowedPaths) then Some(Deny)
    else if c.allowedPorts != [] && q.port !in c.allowedPorts then Some(Deny)
    else if c.allowedMethods != [] && q.httpMethod.None? then Some(InsufficientContext)
    else if c.allowedMethods != [] && q.httpMethod.value !in c.allowedMethods then Some(Deny)
    else if c.allowedIdentities != [] && q.identity.None? then Some(InsufficientContext)
    else if c.allowedIdentities != [] && q.identity.value !in c.allowedIdentities then Some(Deny)
    else None
  }

  // The first matching constraint that objects decides.
  function AssetDecision(cs: seq<Asset>, q: Request): Option<Decision> {
    if cs == [] then None
    else if OneAssetDecision(cs[0], q).Some? then OneAssetDecision(cs[0], q)
    else AssetDecision(cs[1..], q)
  }

  function DecisionFor(m: MethodPolicy, r: Risk): Decision {
    match r
    case Passive => m.passive
    case SafeActive => m.safeActive
    case StateChanging => m.stateChanging
    case Intrusive => m.intrusive
  }

  function RiskDecision(e: Engagement, t: Test, approved: bool): Option<Decision> {
    var d := DecisionFor(e.methods, t.risk);
    if d == Deny then Some(Deny)
    else if d == ApprovalRequired && !approved then Some(ApprovalRequired)
    else None
  }

  // ----- rates

  function AssetRates(cs: seq<Asset>): seq<real> {
    if cs == [] then []
    else
      var rest := AssetRates(cs[..|cs| - 1]);
      if cs[|cs| - 1].maxRps.Some? then rest + [cs[|cs| - 1].maxRps.value] else rest
  }

  function ApprovalRates(approvals: seq<Approval>): seq<real> {
    if approvals == [] then []
    else
      var rest := ApprovalRates(approvals[..|approvals| - 1]);
      if approvals[|approvals| - 1].maxRps.Some? then rest + [approvals[|approvals| - 1].maxRps.value] else rest
  }

  lemma {:induction false} AssetRatesExact(cs: seq<Asset>)
    ensures forall r :: r in AssetRates(cs) <==> exists c :: c in cs && c.maxRps == Some(r)
  {
    if cs != [] {
      AssetRatesExact(cs[..|cs| - 1]);
      assert cs == cs[..|cs| - 1] + [cs[|cs| - 1]];
    }
  }

  lemma {:induction false} ApprovalRatesExact(approvals: seq<Approval>)
    ensures forall r :: r in ApprovalRates(approvals) <==> exists a :: a in approvals && a.maxRps == Some(r)
  {
    if approvals != [] {
      ApprovalRatesExact(approvals[..|approvals| - 1]);
      assert approvals == approvals[..|approvals| - 1] + [approvals[|approvals| - 1]];
    }
  }

  function RateLimits(e: Engagement, t: Test, q: Request): seq<real> {
    [e.maxRps] + AssetRates(MatchingAssets(q, e.assets)) + ApprovalRates(ValidApprovals(e, t, q, q.approvals))
  }

  ghost predicate IsMinimum(r: real, limits: seq<real>) {
    r in limits && forall x :: x in limits ==> r <= x
  }

  // ----- the whole waterfall

  function Decide(e: Engagement, t: Test, q: Request): Decision {
    var approved := ValidApprovals(e, t, q, q.approvals) != [];
    if ScopeDecision(e, q, approved).Some? then ScopeDecision(e, q, approved).value
    else if OperationalDecision(e, q).Some? then OperationalDecision(e, q).value
    else if ExclusionDecision(e, q).Some? then ExclusionDecision(e, q).value
    else if AssetDecision(MatchingAssets(q, e.assets), q).Some? then AssetDecision(MatchingAssets(q, e.assets), q).value
    else TailDecision(e, t, q)
  }

  function TailDecision(e: Engagement, t: Test, q: Request): Decision {
    var approved := ValidApprovals(e, t, q, q.approvals) != [];
    if t.requiredContext - q.context != {} then InsufficientContext
    else if RiskDecision(e, t, approved).Some? then RiskDecision(e, t, approved).value
    else if q.rps.Some? && exists x :: x in RateLimits(e, t, q) && x < q.rps.value then Deny
    else Allow
  }

  datatype Verdict = Pass | Fail | Review

  datatype Gate = TargetScope | OperationalStatus | OperationalLease | SemanticExclusions | AssetConstraints
                | RequiredContext | RiskPolicy | RateLimit

  datatype Check = Check(gate: Gate, verdict: Verdict)

  predicate AllPass(checks: seq<Check>) {
    forall c :: c in checks ==> c.verdict == Pass
  }

  lemma AllPassConcat(a: seq<Check>, b: seq<Check>)
    ensures AllPass(a + b) <==> AllPass(a) && AllPass(b)
  {
    assert forall c :: c in a + b <==> c in a || c in b;
  }

  lemma AllPassOne(c: Check)
    ensures AllPass([c]) <==> c.verdict == Pass
  {
    assert c in [c];
  }

  datatype AuthorizationResult = AuthorizationResult(
    decision: Decision, checks: seq<Check>, missing: set<string>, approvalIds: seq<string>, rate: Option<real>)

  /** The last recorded check speaks for the decision. */
  predicate Explained(r: AuthorizationResult) {
    && r.checks != []
    && var last := r.checks[|r.checks| - 1].verdict;
       match r.decision
       case Allow => last == Pass
       case Deny => last == Fail
       case ApprovalRequired => last == Review
       case InsufficientContext => last != Pass
  }

  function IdsOfApprovals(approvals: seq<Approval>): seq<string> {
    seq(|approvals|, i requires 0 <= i < |approvals| => approvals[i].id)
  }

  function AsCheck(g: Gate, d: Decision): Check {
    Check(g, if d == Deny then Fail else Review)
  }

  method Minimum(limits: seq<real>) returns (r: real)
    requires limits != []
    ensures IsMinimum(r, limits)
  {
    r := limits[0];
    for i := 1 to |limits|
      invariant r in limits && forall j :: 0 <= j < i ==> r <= limits[j]
    {
      if limits[i] < r {
        r := limits[i];
      }
    }
  }

  method CheckAssets(cs: seq<Asset>, q: Request) returns (d: Option<Decision>)
    ensures d == AssetDecision(cs, q)
  {
    for i := 0 to |cs|
      invariant AssetDecision(cs, q) == AssetDecision(cs[i..], q)
    {
      var c := cs[i];
      assert cs[i..][0] == c && cs[i..][1..] == cs[i + 1..];
      if AnyPath(q.path, c.deniedPaths) {
        return Some(Deny);
      }
      if c.allowedPaths != [] && !AnyPath(q.path, c.allowedPaths) {
        return Some(Deny);
      }
      if c.allowedPorts != [] && q.port !in c.allowedPorts {
        return Some(Deny);
      }
      if c.allowedMethods != [] {
        if q.httpMethod.None? {
          return Some(InsufficientContext);
        }
        if q.httpMethod.value !in c.allowedMethods {
          return Some(Deny);
        }
      }
      if c.allowedIdentities != [] {
        if q.identity.None? {
          return Some(InsufficientContext);
        }
        if q.identity.value !in c.allowedIdentities {
          return Some(Deny);
        }
      }
    }
    d := None;
  }

  method CheckOperational(e: Engagement, q: Request) returns (d: Option<Decision>, checks: seq<Check>)
    ensures d == OperationalDecision(e, q)
    ensures d.None? <==> AllPass(checks)
    ensures d.Some? ==> checks != [] && checks[|checks| - 1].verdict == if d.value == Deny then Fail else Review
    ensures d.Some? ==> d.value in {Deny, InsufficientContext}
  {
    if e.program.None? || !e.program.value.requiresOnline {
      return None, [];
    }
    var review := Check(OperationalStatus, Review);
    AllPassOne(review);
    AllPassOne(Check(OperationalStatus, Fail));
    if q.attestation.None? {
      return Some(InsufficientContext), [review];
    }
    var b, a := e.program.value, q.attestation.value;
    if a.programId != b.programId || a.source != b.source || a.observedAt > q.now + 30.0 {
      return Some(InsufficientContext), [review];
    }
    if q.now >= a.observedAt + b.maxAge {
      checks := [];
      if q.lease.Some? {
        if q.leaseValid == Some(true) {
          return None, [Check(OperationalStatus, Pass)];
        }
        checks := [Check(OperationalLease, Review)];
      }
      AllPassConcat(checks, [review]);
      return Some(InsufficientContext), checks + [review];
    }
    if a.status == Offline {
      return Some(Deny), [Check(OperationalStatus, Fail)];
    }
    if a.status != Online {
      return Some(InsufficientContext), [review];
    }
    return None, [Check(OperationalStatus, Pass)];
  }

  /** The waterfall with its early returns. The decision is allow exactly when no recorded check
      failed, and the effective rate is the least of all limits that apply. */
  method AuthorizeTest(e: Engagement, t: Test, q: Request) returns (r: AuthorizationResult)
    ensures r.decision == Decide(e, t, q)
    ensures r.decision == Allow <==> AllPass(r.checks)
    ensures Explained(r)
    ensures r.decision == Allow ==> r.rate.Some?
    ensures r.rate.Some? ==> IsMinimum(r.rate.value, RateLimits(e, t, q))
    ensures r.approvalIds == if r.rate.Some? then IdsOfApprovals(ValidApprovals(e, t, q, q.approvals)) else []
    ensures r.missing != {} ==> r.decision == InsufficientContext && r.missing == t.requiredContext - q.context
  {
    var approvals := ValidApprovals(e, t, q, q.approvals);
    var approved := approvals != [];
    var scope := ScopeDecision(e, q, approved);
    if scope.Some? {
      r := Stopped(scope.value, [], AsCheck(TargetScope, scope.value));
      return;
    }
    var checks := [Check(TargetScope, Pass)];
    var operational, operationalChecks := CheckOperational(e, q);
    AllPassConcat(checks, operationalChecks);
    checks := checks + operationalChecks;
    if operational.Some? {
      return AuthorizationResult(operational.value, checks, {}, [], None);
    }
    var semantic := ExclusionDecision(e, q);
    if semantic.Some? {
      r := Stopped(semantic.value, checks, AsCheck(SemanticExclusions, semantic.value));
      return;
    }
    checks := PassIf(e.exclusions != [], checks, SemanticExclusions);
    var matching := MatchingAssets(q, e.assets);
    var asset := CheckAssets(matching, q);
    AssetsNeverAllow(matching, q);
    if asset.Some? {
      r := Stopped(asset.value, checks, AsCheck(AssetConstraints, asset.value));
      return;
    }
    checks := PassIf(matching != [], checks, AssetConstraints);
    r := FinishAuthorization(e, t, q, approvals, checks);
  }

  method Stopped(d: Decision, checks: seq<Check>, last: Check) returns (r: AuthorizationResult)
    requires d != Allow && last.verdict != Pass
    ensures r.decision == d && !AllPass(r.checks) && r.rate == None && r.missing == {}
    ensures r.checks == checks + [last] && r.approvalIds == []
  {
    AllPassConcat(checks, [last]);
    AllPassOne(last);
    r := AuthorizationResult(d, checks + [last], {}, [], None);
  }

  method PassIf(c: bool, checks: seq<Check>, g: Gate) returns (r: seq<Check>)
    requires AllPass(checks)
    ensures AllPass(r) && r == if c then checks + [Check(g, Pass)] else checks
  {
    AllPassConcat(checks, [Check(g, Pass)]);
    r := if c then checks + [Check(g, Pass)] else checks;
  }

  /** Context, risk policy and rate: the gates after the asset constraints. */
  method FinishAuthorization(e: Engagement, t: Test, q: Request, approvals: seq<Approval>, before: seq<Check>)
    returns (r: AuthorizationResult)
    requires approvals == ValidApprovals(e, t, q, q.approvals) && AllPass(before)
    ensures r.decision == TailDecision(e, t, q)
    ensures r.decision == Allow <==> AllPass(r.checks)
    ensures Explained(r)
    ensures r.decision == Allow ==> r.rate.Some?
    ensures r.rate.Some? ==> IsMinimum(r.rate.value, RateLimits(e, t, q))
    ensures r.approvalIds == if r.rate.Some? then IdsOfApprovals(approvals) else []
    ensures r.missing == t.requiredContext - q.context && (r.missing != {} ==> r.decision == InsufficientContext)
  {
    var missing := t.requiredContext - q.context;
    if missing != {} {
      r := Stopped(InsufficientContext, before, Check(RequiredContext, Fail));
      r := r.(missing := missing);
      return;
    }
    var checks := PassIf(true, before, RequiredContext);
    var risk := RiskDecision(e, t, approvals != []);
    if risk.Some? {
      r := Stopped(risk.value, checks, AsCheck(RiskPolicy, risk.value));
      return;
    }
    checks := PassIf(true, checks, RiskPolicy);
    var rate := Minimum(RateLimits(e, t, q));
    var approvalIds := IdsOfApprovals(approvals);
    if q.rps.Some? && q.rps.value > rate {
      r := Stopped(Deny, checks, Check(RateLimit, Fail));
      r := r.(approvalIds := approvalIds, rate := Some(rate));
      return;
    }
    checks := PassIf(true, checks, RateLimit);
    r := AuthorizationResult(Allow, checks, {}, approvalIds, Some(rate));
  }

  lemma AssetsNeverAllow(cs: seq<Asset>, q: Request)
    ensures AssetDecision(cs, q) != Some(Allow)
  {
  }
}
