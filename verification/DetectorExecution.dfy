/** The detector run service: gates, reservation, launch, classification and closing. */
module DetectorExecution {
  import opened Basics
  import opened DetectorAccounting

  // The run id is a hash of these six fields, taken as injective.
  datatype RunKey = RunKey(
    campaign: string, program: string, revision: string, detector: string, target: string, attempt: nat)

  datatype Opportunity = Opportunity(detector: string, program: string, target: string)

  datatype Request = Request(
    campaign: string, campaignActive: bool,
    program: string, programRevision: string, currentRevision: string,
    target: string, detector: string, attempt: nat,
    authorityValid: bool,          // operational lease and upstream permit, checked under one handler
    opportunity: Opportunity,
    policyAllows: bool, targetInScope: bool, semanticReviewComplete: bool,
    runtimeQualified: bool, fieldReady: bool, digestPinned: bool, digestQualified: bool,
    adapterAvailable: bool,
    detectorMaximum: nat, globalRemaining: nat, programRemaining: nat, detectorRemaining: nat)

  function KeyOf(r: Request): RunKey {
    RunKey(r.campaign, r.program, r.programRevision, r.detector, r.target, r.attempt)
  }

  datatype Blocker =
    | CampaignInactive | RevisionChanged | AuthorityInvalid
    | DetectorMismatch | ProgramMismatch | TargetMismatch
    | PolicyDenied | OutOfScope | ReviewIncomplete | RuntimeNotReady | DigestUnbound | AdapterMissing

  function When(c: bool, b: Blocker): seq<Blocker> {
    if c then [b] else []
  }

  function Blockers(r: Request): seq<Blocker> {
    When(!r.campaignActive, CampaignInactive)
    + When(r.programRevision != r.currentRevision, RevisionChanged)
    + When(!r.authorityValid, AuthorityInvalid)
    + When(r.opportunity.detector != r.detector, DetectorMismatch)
    + When(r.opportunity.program != r.program, ProgramMismatch)
    + When(r.opportunity.target != r.target, TargetMismatch)
    + When(!r.policyAllows, PolicyDenied)
    + When(!r.targetInScope, OutOfScope)
    + When(!r.semanticReviewComplete, ReviewIncomplete)
    + When(!(r.runtimeQualified && r.fieldReady), RuntimeNotReady)
    + When(!(r.digestPinned && r.digestQualified), DigestUnbound)
    + When(!r.adapterAvailable, AdapterMissing)
  }

  /** What a launch presupposes, stated without reference to the order of the checks. */
  predicate MayLaunch(r: Request) {
    && r.campaignActive && r.authorityValid && r.policyAllows && r.targetInScope
    && r.semanticReviewComplete && r.runtimeQualified && r.fieldReady
    && r.digestPinned && r.digestQualified && r.adapterAvailable
    && r.programRevision == r.currentRevision
    && r.opportunity == Opportunity(r.detector, r.program, r.target)
  }

  lemma NoBlockersIffMayLaunch(r: Request)
    ensures Blockers(r) == [] <==> MayLaunch(r)
  {
    var bs := Blockers(r);
    if MayLaunch(r) {
      assert bs == [];
    } else {
      assert |bs| > 0;
    }
  }

  function Min(a: nat, b: nat): nat {
    if a < b then a else b
  }

  function Ceiling(r: Request): nat {
    Min(r.detectorMaximum, Min(r.globalRemaining, Min(r.programRemaining, r.detectorRemaining)))
  }

  // ----- reservations

  datatype BudgetState = Open | Committed | Failed | Unknown

  datatype Reservation = Reservation(reserved: nat, consumed: int, state: BudgetState)

  datatype StoreError = Insufficient | Duplicate | NotReconcilable

  class DetectorBudgetStore {
    var rows: map<RunKey, Reservation>

    constructor ()
      ensures rows == map[]
    {
      rows := map[];
    }

    method Reserve(key: RunKey, available: nat, amount: nat) returns (r: Result<(), StoreError>)
      modifies this
      ensures r == if amount > available then Err(Insufficient)
                   else if key in old(rows) then Err(Duplicate) else Ok(())
      ensures rows == if r.Ok? then old(rows)[key := Reservation(amount, 0, Open)] else old(rows)
    {
      if amount > available {
        return Err(Insufficient);
      }
      if key in rows {
        return Err(Duplicate);
      }
      rows := rows[key := Reservation(amount, 0, Open)];
      r := Ok(());
    }

    /** Only an open reservation can be closed, once, and never for more than it holds. */
    method CloseAs(key: RunKey, consumed: int, state: BudgetState) returns (r: Result<(), StoreError>)
      modifies this
      ensures r.Ok? <==> key in old(rows) && old(rows)[key].state == Open && consumed <= old(rows)[key].reserved
      ensures r.Err? ==> r.error == NotReconcilable && rows == old(rows)
      ensures r.Ok? ==> rows == old(rows)[key := Reservation(old(rows)[key].reserved, consumed, state)]
    {
      if key !in rows || rows[key].state != Open || consumed > rows[key].reserved {
        return Err(NotReconcilable);
      }
      rows := rows[key := rows[key].(consumed := consumed, state := state)];
      r := Ok(());
    }

    method Reconcile(key: RunKey, consumed: int) returns (r: Result<(), StoreError>)
      modifies this
      ensures r.Ok? <==> key in old(rows) && old(rows)[key].state == Open && consumed <= old(rows)[key].reserved
      ensures r.Err? ==> rows == old(rows)
      ensures r.Ok? ==> rows == old(rows)[key := Reservation(old(rows)[key].reserved, consumed, Committed)]
    {
      r := CloseAs(key, consumed, Committed);
    }

    method CloseFailed(key: RunKey, consumed: int, uncertain: bool) returns (r: Result<(), StoreError>)
      modifies this
      ensures r.Ok? <==> key in old(rows) && old(rows)[key].state == Open && consumed <= old(rows)[key].reserved
      ensures r.Err? ==> rows == old(rows)
      ensures r.Ok? ==> rows == old(rows)[key :=
                Reservation(old(rows)[key].reserved, consumed, if uncertain then Unknown else Failed)]
    {
      r := CloseAs(key, consumed, if uncertain then Unknown else Failed);
    }
  }

  // ----- how one adapter outcome is settled

  datatype AdapterOutcome =
    | Returned(accounting: Accounting, uncertain: bool)
    | TypedError(accounting: Accounting, networkStarted: bool, retryable: bool, blockedBeforeIo: bool)
    | UntypedError

  datatype Status = Completed | BlockedBeforeIo | RunFailed | UnknownOutcome

  datatype Settlement = Settlement(
    state: BudgetState, consumed: int, status: Status, retryable: bool, accounting: Accounting)

  const UNTYPED := Settlement(Unknown, 0, UnknownOutcome, false, NOTHING)

  // None: closing the budget raises inside the except clause, and the reservation stays open.
  function Settle(outcome: AdapterOutcome, ceiling: nat): Option<Settlement> {
    match outcome
    case Returned(a, uncertain) =>
      if Validate(a, ceiling).Some? then Some(UNTYPED)
      else if uncertain then Some(Settlement(Unknown, a.forwarded, UnknownOutcome, false, a))
      else Some(Settlement(Committed, a.forwarded, Completed, false, a))
    case TypedError(a, started, retryable, blocked) =>
      var uncertain := started && a.forwarded > a.responses;
      if a.forwarded > ceiling then None
      else Some(Settlement(
        if uncertain then Unknown else Failed, a.forwarded,
        if uncertain then UnknownOutcome else if blocked then BlockedBeforeIo else RunFailed,
        retryable && !uncertain, a))
    case UntypedError => Some(UNTYPED)
  }

  /** Every outcome closes the budget within its reservation, and the budget state tells the run's
      status, except exactly one family: a typed error whose accounting exceeds the reservation. */
  lemma SettlementIsFaithful(outcome: AdapterOutcome, ceiling: nat)
    ensures Settle(outcome, ceiling) == None <==> outcome.TypedError? && outcome.accounting.forwarded > ceiling
    ensures Settle(outcome, ceiling).Some? ==>
              var s := Settle(outcome, ceiling).value;
              && s.consumed <= ceiling && s.state != Open
              && (s.state == Committed <==> s.status == Completed)
              && (s.state == Unknown <==> s.status == UnknownOutcome)
              && (s.state == Failed <==> s.status == RunFailed || s.status == BlockedBeforeIo)
              && (s.retryable ==> s.state == Failed)
  {
  }

  // ----- the service

  datatype RunResult = RunResult(status: Status, accounting: Accounting, retryable: bool)

  datatype Raise = ReservationRejected | RunRootExists | CloseFailedRaised

  class DetectorExecutionService {
    const budgets: DetectorBudgetStore
    var roots: set<RunKey>
    var results: map<RunKey, RunResult>
    ghost var launches: seq<RunKey>

    /** Every run directory and every launch has its reservation; no key was launched twice. */
    ghost predicate Valid()
      reads this, budgets
    {
      && roots == budgets.rows.Keys
      && results.Keys <= roots
      && Distinct(launches)
      && forall k :: k in launches ==> k in roots
    }

    constructor ()
      ensures Valid() && fresh(budgets) && launches == [] && budgets.rows == map[]
    {
      budgets := new DetectorBudgetStore();
      roots := {};
      results := map[];
      launches := [];
    }

    /** One call. `stillCurrent` is the second, post-reservation lease check; `outcome` is what the
        adapter does if it is launched. */
    method Execute(request: Request, stillCurrent: bool, outcome: AdapterOutcome)
      returns (r: Result<RunResult, Raise>)
      requires Valid()
      modifies this, budgets
      ensures Valid()
      // Gate-blocked calls leave no trace and may be repeated.
      ensures !MayLaunch(request) || Ceiling(request) == 0 ==>
                && r == Ok(RunResult(BlockedBeforeIo, NOTHING, false))
                && budgets.rows == old(budgets.rows) && launches == old(launches)
                && roots == old(roots) && results == old(results)
      // A key is served once: the second call raises before it can launch anything.
      ensures MayLaunch(request) && Ceiling(request) > 0 && KeyOf(request) in old(budgets.rows) ==>
                && r == Err(ReservationRejected)
                && budgets.rows == old(budgets.rows) && launches == old(launches)
                && roots == old(roots) && results == old(results)
      ensures MayLaunch(request) && Ceiling(request) > 0 && KeyOf(request) !in old(budgets.rows) ==>
                Served(request, stillCurrent, outcome, r, old(budgets.rows), old(results), old(launches))
    {
      var key := KeyOf(request);
      var blockers := Blockers(request);
      NoBlockersIffMayLaunch(request);
      var ceiling := Ceiling(request);
      if blockers != [] || ceiling <= 0 {
        return Ok(RunResult(BlockedBeforeIo, NOTHING, false));
      }
      var available := Min(request.globalRemaining, Min(request.programRemaining, request.detectorRemaining));
      var reserved := budgets.Reserve(key, available, ceiling);
      if reserved.Err? {
        return Err(ReservationRejected);
      }
      assert key !in roots;
      roots := roots + {key};
      if !stillCurrent {
        var closed := budgets.CloseFailed(key, 0, false);
        r := Ok(RunResult(BlockedBeforeIo, NOTHING, false));
        results := results[key := r.value];
        return;
      }
      launches := launches + [key];
      r := Close(key, ceiling, outcome);
    }

    /** The try block around the adapter: validate, close the budget, persist the result. */
    method Close(key: RunKey, ceiling: nat, outcome: AdapterOutcome) returns (r: Result<RunResult, Raise>)
      requires key in budgets.rows && budgets.rows[key] == Reservation(ceiling, 0, Open)
      modifies this`results, budgets
      ensures match Settle(outcome, ceiling)
              case None => r == Err(CloseFailedRaised) && budgets.rows == old(budgets.rows) && results == old(results)
              case Some(s) =>
                && r == Ok(RunResult(s.status, s.accounting, s.retryable))
                && results == old(results)[key := r.value]
                && budgets.rows == old(budgets.rows)[key := Reservation(ceiling, s.consumed, s.state)]
    {
      var closed;
      match outcome {
      case Returned(a, uncertain) =>
        if Validate(a, ceiling).None? {
          if uncertain {
            closed := budgets.CloseFailed(key, a.forwarded, true);
          } else {
            closed := budgets.Reconcile(key, a.forwarded);
          }
          r := Ok(RunResult(if uncertain then UnknownOutcome else Completed, a, false));
        } else {
          closed := budgets.CloseFailed(key, 0, true);
          r := Ok(RunResult(UnknownOutcome, NOTHING, false));
        }
      case TypedError(a, started, retryable, blocked) =>
        var uncertain := started && a.forwarded > a.responses;
        closed := budgets.CloseFailed(key, a.forwarded, uncertain);
        if closed.Err? {
          return Err(CloseFailedRaised);
        }
        r := Ok(RunResult(
          if uncertain then UnknownOutcome else if blocked then BlockedBeforeIo else RunFailed,
          a, retryable && !uncertain));
      case UntypedError =>
        closed := budgets.CloseFailed(key, 0, true);
        r := Ok(RunResult(UnknownOutcome, NOTHING, false));
      }
      results := results[key := r.value];
    }

    /** What one served call leaves behind: exactly one new reservation, closed unless closing raised,
        and exactly one launch unless the lease was lost first. */
    ghost predicate Served(request: Request, stillCurrent: bool, outcome: AdapterOutcome,
                           r: Result<RunResult, Raise>, before: map<RunKey, Reservation>,
                           beforeResults: map<RunKey, RunResult>, earlier: seq<RunKey>)
      reads this, budgets
    {
      var key, ceiling := KeyOf(request), Ceiling(request);
      && budgets.rows.Keys == before.Keys + {key}
      && (forall k :: k in before ==> budgets.rows[k] == before[k])
      && launches == (if stillCurrent then earlier + [key] else earlier)
      && results == (if r.Ok? then beforeResults[key := r.value] else beforeResults)
      && (if !stillCurrent then
            && r == Ok(RunResult(BlockedBeforeIo, NOTHING, false))
            && budgets.rows[key] == Reservation(ceiling, 0, Failed)
          else match Settle(outcome, ceiling)
            case None => r == Err(CloseFailedRaised) && budgets.rows[key] == Reservation(ceiling, 0, Open)
            case Some(s) =>
              && r == Ok(RunResult(s.status, s.accounting, s.retryable))
              && budgets.rows[key] == Reservation(ceiling, s.consumed, s.state))
    }
  }
}
