/** Single-use execution permits: consume and revoke under a file lock, after an unlocked look. */
module PermitLifecycle {
  import opened Basics

  datatype Status = Available | Consumed | Revoked

  // The state file. A permit without an entry is available.
  type Permits = map<string, Status>

  function StatusOf(ps: Permits, id: string): Status {
    if id in ps then ps[id] else Available
  }

  datatype Rejection = WasRevoked | WasConsumed

  // The locked section of a consume.
  function ConsumeLocked(ps: Permits, id: string): Result<Permits, Rejection> {
    match StatusOf(ps, id)
    case Revoked => Err(WasRevoked)
    case Consumed => Err(WasConsumed)
    case Available => Ok(ps[id := Consumed])
  }

  // The locked section of a revocation; revoking twice is allowed.
  function RevokeLocked(ps: Permits, id: string): Result<Permits, Rejection> {
    if StatusOf(ps, id) == Consumed then Err(WasConsumed) else Ok(ps[id := Revoked])
  }

  // ----- the sequential operations

  datatype ConsumeResult = ConsumeResult(accepted: bool, verified: bool, status: Status)

  class PermitStore {
    var permits: Permits

    constructor ()
      ensures permits == map[]
    {
      permits := map[];
    }

    method Revoke(id: string) returns (r: Result<(), Rejection>)
      modifies this
      ensures r.Ok? <==> StatusOf(old(permits), id) != Consumed
      ensures r.Ok? ==> permits == old(permits)[id := Revoked]
      ensures r.Err? ==> permits == old(permits)
    {
      if id in permits && permits[id] == Consumed {
        return Err(WasConsumed);
      }
      permits := permits[id := Revoked];
      r := Ok(());
    }

    method ConsumeState(id: string) returns (r: Result<(), Rejection>)
      modifies this
      ensures r.Ok? <==> StatusOf(old(permits), id) == Available
      ensures r.Ok? ==> permits == old(permits)[id := Consumed]
      ensures r.Err? ==> permits == old(permits)
                         && r.error == (if StatusOf(old(permits), id) == Revoked then WasRevoked else WasConsumed)
    {
      if id in permits {
        if permits[id] == Revoked {
          return Err(WasRevoked);
        }
        if permits[id] == Consumed {
          return Err(WasConsumed);
        }
      }
      permits := permits[id := Consumed];
      r := Ok(());
    }

    /** Uninterrupted, a consume is accepted exactly when the permit is available and verifies. */
    method Consume(id: string, verifies: bool) returns (r: ConsumeResult)
      modifies this
      ensures r.accepted <==> StatusOf(old(permits), id) == Available && verifies
      ensures permits == if r.accepted then old(permits)[id := Consumed] else old(permits)
      ensures r.status == StatusOf(permits, id)
      ensures r.verified <==> r.accepted
    {
      var status := StatusOf(permits, id);
      if status == Revoked || status == Consumed {
        return ConsumeResult(false, false, status);
      }
      if !verifies {
        return ConsumeResult(false, false, Available);
      }
      var taken := ConsumeState(id);
      if taken.Err? {
        return ConsumeResult(false, true, StatusOf(permits, id));
      }
      r := ConsumeResult(true, true, Consumed);
    }
  }

  // ----- interleaved callers

  datatype Pc =
    | Looked(id: string)               // saw the permit available, lock not yet taken
    | Verifying(id: string)            // permit verified, about to lock
    | Failed(id: string)               // the locked check raised; about to read the latest status
    | Taken(id: string)                // consumption written, not yet reported
    | Revoking(id: string)
    | Withdrawn(id: string)            // revocation written, not yet reported

  datatype Outcome =
    | Accepted(id: string)
    | Rejected(id: string, status: Status)
    | Unverified(id: string)
    | RevokeDone(id: string)
    | RevokeRefused(id: string)

  datatype State = State(
    permits: Permits,                  // durable
    callers: map<nat, Pc>,
    consumptions: seq<string>,         // history: locked sections that wrote CONSUMED
    outcomes: seq<Outcome>)            // history: what callers were told

  datatype Event =
    | Look(c: nat, id: string)         // unlocked read
    | Verify(c: nat, ok: bool)
    | LockAndConsume(c: nat)
    | ReadLatest(c: nat)
    | AskRevoke(c: nat, id: string)
    | LockAndRevoke(c: nat)
    | Report(c: nat)
    | Die(c: nat)

  predicate Enabled(s: State, e: Event) {
    match e
    case Look(c, _) => c !in s.callers
    case AskRevoke(c, _) => c !in s.callers
    case Verify(c, _) => c in s.callers && s.callers[c].Looked?
    case LockAndConsume(c) => c in s.callers && s.callers[c].Verifying?
    case ReadLatest(c) => c in s.callers && s.callers[c].Failed?
    case LockAndRevoke(c) => c in s.callers && s.callers[c].Revoking?
    case Report(c) => c in s.callers && (s.callers[c].Taken? || s.callers[c].Withdrawn?)
    case Die(c) => c in s.callers
  }

  function Return(s: State, c: nat, o: Outcome): State {
    s.(callers := s.callers - {c}, outcomes := s.outcomes + [o])
  }

  function Apply(s: State, e: Event): State
    requires Enabled(s, e)
  {
    match e
    case Look(c, id) =>
      var seen := StatusOf(s.permits, id);
      if seen == Available then s.(callers := s.callers[c := Looked(id)])
      else s.(outcomes := s.outcomes + [Rejected(id, seen)])
    case Verify(c, ok) =>
      if ok then s.(callers := s.callers[c := Verifying(s.callers[c].id)])
      else Return(s, c, Unverified(s.callers[c].id))
    case LockAndConsume(c) =>
      var id := s.callers[c].id;
      (match ConsumeLocked(s.permits, id)
       case Ok(ps) =>
         s.(permits := ps, callers := s.callers[c := Taken(id)], consumptions := s.consumptions + [id])
       case Err(_) => s.(callers := s.callers[c := Failed(id)]))
    case ReadLatest(c) =>
      var id := s.callers[c].id;
      Return(s, c, Rejected(id, StatusOf(s.permits, id)))
    case AskRevoke(c, id) => s.(callers := s.callers[c := Revoking(id)])
    case LockAndRevoke(c) =>
      var id := s.callers[c].id;
      (match RevokeLocked(s.permits, id)
       case Ok(ps) => s.(permits := ps, callers := s.callers[c := Withdrawn(id)])
       case Err(_) => Return(s, c, RevokeRefused(id)))
    case Report(c) =>
      var id := s.callers[c].id;
      Return(s, c, if s.callers[c].Taken? then Accepted(id) else RevokeDone(id))
    case Die(c) => s.(callers := s.callers - {c})
  }

  function Run(s: State, es: seq<Event>): Option<State> {
    if es == [] then Some(s)
    else
      var p := Run(s, es[..|es| - 1]);
      if p.Some? && Enabled(p.value, es[|es| - 1]) then Some(Apply(p.value, es[|es| - 1])) else None
  }

  function Initial(): State {
    State(map[], map[], [], [])
  }

  /** CONSUMED and REVOKED are absorbing, although the first status check is unlocked. */
  lemma {:induction false} FinalStatusIsAbsorbing(s: State, es: seq<Event>, id: string)
    requires Run(s, es).Some? && StatusOf(s.permits, id) != Available
    ensures StatusOf(Run(s, es).value.permits, id) == StatusOf(s.permits, id)
  {
    if es != [] {
      FinalStatusIsAbsorbing(s, es[..|es| - 1], id);
    }
  }

  // The state file bears out everything any caller was told, or is about to be told.
  ghost predicate Truthful(s: State) {
    && (forall o :: o in s.outcomes ==>
          match o
          case Accepted(id) => StatusOf(s.permits, id) == Consumed
          case RevokeDone(id) => StatusOf(s.permits, id) == Revoked
          case Rejected(id, status) => status != Available && StatusOf(s.permits, id) == status
          case RevokeRefused(id) => StatusOf(s.permits, id) == Consumed
          case Unverified(_) => true)
    && (forall c :: c in s.callers ==>
          match s.callers[c]
          case Failed(id) => StatusOf(s.permits, id) != Available
          case Taken(id) => StatusOf(s.permits, id) == Consumed
          case Withdrawn(id) => StatusOf(s.permits, id) == Revoked
          case _ => true)
  }

  // Each accepted answer has its own consumption, and each permit at most one.
  ghost predicate OneConsumption(s: State) {
    && Distinct(s.consumptions)
    && (forall id :: id in s.consumptions <==> StatusOf(s.permits, id) == Consumed)
    && (forall c :: c in s.callers && s.callers[c].Taken? ==> Accepted(s.callers[c].id) !in s.outcomes)
    && (forall c, d :: c in s.callers && d in s.callers && c != d && s.callers[c].Taken? && s.callers[d].Taken? ==>
          s.callers[c].id != s.callers[d].id)
    && (forall i, j :: 0 <= i < j < |s.outcomes| && s.outcomes[i].Accepted? ==> s.outcomes[i] != s.outcomes[j])
  }

  lemma StepKeepsTruth(s: State, e: Event)
    requires Truthful(s) && Enabled(s, e)
    ensures Truthful(Apply(s, e))
  {
    var s' := Apply(s, e);
    if e.LockAndConsume? || e.LockAndRevoke? {
      assert forall x :: x != s.callers[e.c].id ==> StatusOf(s'.permits, x) == StatusOf(s.permits, x);
    }
  }

  lemma StepKeepsOneConsumption(s: State, e: Event)
    requires Truthful(s) && OneConsumption(s) && Enabled(s, e)
    ensures OneConsumption(Apply(s, e))
  {
    if e.LockAndConsume? {
      ConsumeKeepsOneConsumption(s, e.c);
    } else if e.LockAndRevoke? {
      RevokeKeepsOneConsumption(s, e.c);
    }
  }

  lemma ConsumeKeepsOneConsumption(s: State, c: nat)
    requires Truthful(s) && OneConsumption(s) && Enabled(s, LockAndConsume(c))
    ensures OneConsumption(Apply(s, LockAndConsume(c)))
  {
    var s' := Apply(s, LockAndConsume(c));
    assert forall x :: x != s.callers[c].id ==> StatusOf(s'.permits, x) == StatusOf(s.permits, x);
  }

  lemma RevokeKeepsOneConsumption(s: State, c: nat)
    requires Truthful(s) && OneConsumption(s) && Enabled(s, LockAndRevoke(c))
    ensures OneConsumption(Apply(s, LockAndRevoke(c)))
  {
    var s' := Apply(s, LockAndRevoke(c));
    assert forall x :: x != s.callers[c].id ==> StatusOf(s'.permits, x) == StatusOf(s.permits, x);
  }

  lemma {:induction false} RunIsTruthful(es: seq<Event>)
    requires Run(Initial(), es).Some?
    ensures Truthful(Run(Initial(), es).value) && OneConsumption(Run(Initial(), es).value)
  {
    if es != [] {
      var p := Run(Initial(), es[..|es| - 1]).value;
      RunIsTruthful(es[..|es| - 1]);
      StepKeepsTruth(p, es[|es| - 1]);
      StepKeepsOneConsumption(p, es[|es| - 1]);
    }
  }

  /** Exactly once: under every interleaving of consumers and revokers, with any of them dying
      anywhere, a permit's consumption is written at most once and reported at most once, and the
      state file says consumed exactly when it was written. */
  lemma ConsumedAtMostOnce(es: seq<Event>, id: string)
    requires Run(Initial(), es).Some?
    ensures var s := Run(Initial(), es).value;
            && Distinct(s.consumptions)
            && (id in s.consumptions <==> StatusOf(s.permits, id) == Consumed)
            && (Accepted(id) in s.outcomes ==> id in s.consumptions)
            && forall i, j :: 0 <= i < j < |s.outcomes| && s.outcomes[i] == Accepted(id) ==>
                 s.outcomes[j] != Accepted(id)
  {
    RunIsTruthful(es);
  }

  /** No consume is accepted once a revocation was reported, and no revocation once a consume was,
      in either order. */
  lemma AcceptedAndRevokedExclude(es: seq<Event>, id: string)
    requires Run(Initial(), es).Some?
    ensures var s := Run(Initial(), es).value;
            && !(id in s.consumptions && RevokeDone(id) in s.outcomes)
            && !(Accepted(id) in s.outcomes && RevokeDone(id) in s.outcomes)
  {
    RunIsTruthful(es);
  }

  /** A rejected consumer is always told the permit's final status, even when it lost the race after
      seeing the permit available; a refused revoker always lost to a written consumption. */
  lemma RejectionsAreTruthful(es: seq<Event>, o: Outcome)
    requires Run(Initial(), es).Some? && o in Run(Initial(), es).value.outcomes
    ensures var s := Run(Initial(), es).value;
            && (o.Rejected? ==> o.status == StatusOf(s.permits, o.id) && o.status != Available)
            && (o.RevokeRefused? ==> o.id in s.consumptions)
  {
    RunIsTruthful(es);
  }
}
