/** The proxy object itself: one handler in program order is one path of the protocol. */
module CountingProxy {
  import opened Basics
  import opened ProxyLedger
  import opened ProxyProtocol
  import opened ProxySafety

  /** What the request gates and the target do. These are the proxy's environment. */
  datatype IoOutcome = Answered | OsError | OtherError

  datatype Reply =
    | TooMany            // 429: budget or concurrency
    | Forbidden          // 403: any other denial
    | FromTarget         // the target's own response
    | BadGateway         // 502: OSError
    | Raised             // the exception leaves the handler

  /** Some run leads from `a` to `b`. */
  ghost predicate Reaches(law: Law, a: State, b: State) {
    exists es: seq<Event> :: RunFrom(law, a, es) == Some(b)
  }

  lemma ReachesSelf(law: Law, a: State)
    ensures Reaches(law, a, a)
  {
    assert RunFrom(law, a, []) == Some(a);
  }

  lemma ReachesStep(law: Law, a: State, b: State, e: Event)
    requires Reaches(law, a, b) && Enabled(b, e)
    ensures Reaches(law, a, Apply(law, b, e))
  {
    var es: seq<Event> :| RunFrom(law, a, es) == Some(b);
    RunExtends(law, a, es, e);
  }

  /** Every guarantee proved of runs holds of any state a process can record. */
  lemma ReachableIsSafe(law: Law, s: State)
    requires Reaches(law, Initial(), s)
    ensures LedgerSafe(law, s)
  {
    var es: seq<Event> :| RunFrom(law, Initial(), es) == Some(s);
    RunSafe(law, es);
  }

  class Proxy {
    const owner: Owner
    const limits: Limits
    const accounting: ProxyAccounting
    var sequence: nat
    var lastForwarded: real
    var circuitFailures: nat
    var clock: real
    ghost var view: State

    /** The recorded state agrees with the fields and is reachable, hence safe (ReachableIsSafe). */
    ghost predicate Linked(law: Law)
      reads this, accounting
    {
      && law(owner) == limits
      && view.up && view.owner == owner
      && view.table == accounting.rows
      && view.sequence == sequence && view.lastForwarded == lastForwarded
      && view.circuitFailures == circuitFailures && view.now == clock
      && Reaches(law, Initial(), view)
    }

    ghost predicate Valid(law: Law)
      reads this, accounting
    {
      Linked(law) && view.handlers == map[]
    }

    ghost predicate At(law: Law, pc: Pc)
      reads this, accounting
    {
      Linked(law) && view.handlers == map[0 := pc]
    }

    /** A process start: volatile state is fresh, the ledger is whatever earlier processes left. */
    constructor (owner: Owner, limits: Limits, accounting: ProxyAccounting, clock: real,
                 ghost law: Law, ghost prior: State)
      requires law(owner) == limits && Reaches(law, Initial(), prior)
      requires prior.table == accounting.rows && prior.now == clock
      ensures Valid(law) && this.owner == owner && this.accounting == accounting
      ensures accounting.rows == old(accounting.rows)
      ensures view == Apply(law, prior, Event.Start(owner))
    {
      this.owner := owner;
      this.limits := limits;
      this.accounting := accounting;
      this.sequence := CountAll(accounting.rows, FORWARDED + {BlockedBeforeIo});
      this.lastForwarded := 0.0;
      this.circuitFailures := 0;
      this.clock := clock;
      this.view := Apply(law, prior, Event.Start(owner));
      ReachesStep(law, Initial(), prior, Event.Start(owner));
    }

    // Extends the recorded run by one event.
    ghost method Record(law: Law, start: State, e: Event)
      requires Reaches(law, start, view) && Reaches(law, Initial(), view) && Enabled(view, e)
      modifies this`view
      ensures view == Apply(law, old(view), e)
      ensures Reaches(law, start, view) && Reaches(law, Initial(), view)
    {
      ReachesStep(law, start, view, e);
      ReachesStep(law, Initial(), view, e);
      view := Apply(law, view, e);
    }

    /** The gates, the circuit breaker and the durable admission. */
    method Authorize(id: string, gatesPass: bool, ghost law: Law, ghost start: State)
      returns (admission: Option<Admission>)
      requires Valid(law) && Reaches(law, start, view)
      modifies this`sequence, this`view, accounting
      ensures Reaches(law, start, view)
      ensures admission == Some(Granted) ==>
                At(law, Admitted(id)) && accounting.rows == old(accounting.rows)[id := Row(owner, Reserved)]
      ensures admission != Some(Granted) ==>
                Valid(law) && accounting.rows == AfterStart(old(accounting.rows), id, owner, BlockedBeforeIo)
      ensures admission == if gatesPass && circuitFailures < 3
                           then Some(AdmissionOf(old(accounting.rows), id, owner, limits)) else None
    {
      Draw(id, law, start);
      if !gatesPass || circuitFailures >= 3 {
        Refuse(id, law, start);
        return None;
      }
      var outcome;
      outcome := Reserve(id, law, start);
      admission := Some(outcome);
    }

    // Draw a request id.
    method Draw(id: string, ghost law: Law, ghost start: State)
      requires Valid(law) && Reaches(law, start, view)
      modifies this`sequence, this`view
      ensures At(law, Drawn(id)) && Reaches(law, start, view)
    {
      sequence := sequence + 1;
      Record(law, start, Arrive(0, id));
    }

    method Refuse(id: string, ghost law: Law, ghost start: State)
      requires At(law, Drawn(id)) && Reaches(law, start, view)
      modifies this`view, accounting
      ensures Valid(law) && Reaches(law, start, view)
      ensures accounting.rows == AfterStart(old(accounting.rows), id, owner, BlockedBeforeIo)
    {
      var inserted := accounting.Start(id, owner, BlockedBeforeIo);
      Record(law, start, Deny(0));
    }

    // The gates and the circuit breaker let the request through.
    ghost method Pass(id: string, law: Law, start: State)
      requires At(law, Drawn(id)) && circuitFailures < 3 && Reaches(law, start, view)
      modifies this`view
      ensures At(law, Cleared(id)) && Reaches(law, start, view)
    {
      Record(law, start, Clear(0));
    }

    method Reserve(id: string, ghost law: Law, ghost start: State)
      returns (outcome: Admission)
      requires At(law, Drawn(id)) && circuitFailures < 3 && Reaches(law, start, view)
      modifies this`view, accounting
      ensures Reaches(law, start, view)
      ensures outcome == AdmissionOf(old(accounting.rows), id, owner, limits)
      ensures accounting.rows == AfterAdmit(old(accounting.rows), id, owner, limits)
      ensures if outcome.Granted? then At(law, Admitted(id)) else Valid(law)
    {
      Pass(id, law, start);
      outcome := accounting.Admit(id, owner, limits, law);
      Record(law, start, Event.Admit(0));
    }

    /** One whole request, in program order. `delayFails` and `io` are the environment's choices;
        `slack` is how much longer than asked the sleep lasted. */
    method Forward(id: string, gatesPass: bool, delayFails: bool, slack: real, io: IoOutcome, ghost law: Law)
      returns (reply: Reply)
      requires Valid(law) && slack >= 0.0
      modifies this, accounting
      ensures Valid(law)
      ensures Reaches(law, old(view), view)
      ensures reply.FromTarget? || reply.BadGateway? ==>
                id in accounting.rows && accounting.rows[id].owner == owner
      ensures reply.FromTarget? ==> accounting.rows[id].state == ResponseReceived && circuitFailures == 0
      ensures reply.BadGateway? ==>
                accounting.rows[id].state == FailedAfterIo && circuitFailures == old(circuitFailures) + 1
      ensures reply.TooMany? || reply.Forbidden? ==>
                accounting.rows == AfterStart(old(accounting.rows), id, owner, BlockedBeforeIo)
      ensures reply.Forbidden? <==> id !in old(accounting.rows) && !(gatesPass && old(circuitFailures) < 3)
      ensures reply.TooMany? <==>
                && gatesPass && old(circuitFailures) < 3
                && AdmissionOf(old(accounting.rows), id, owner, limits) in {BudgetExhausted, ConcurrencyExceeded}
      ensures reply.FromTarget? ==> !delayFails && io.Answered?
      ensures reply.BadGateway? ==> delayFails || io.OsError?
      ensures reply.Raised? <==>
                if gatesPass && old(circuitFailures) < 3 && id !in old(accounting.rows) then
                  AdmissionOf(old(accounting.rows), id, owner, limits).Granted? && !delayFails && io.OtherError?
                else id in old(accounting.rows)
      ensures reply.Raised? && id !in old(accounting.rows) ==>
                accounting.rows == old(accounting.rows)[id := Row(owner, Forwarding)]
      ensures forall x :: x in old(accounting.rows) ==>
                x in accounting.rows && accounting.rows[x] == old(accounting.rows[x])
    {
      ghost var start := view;
      ReachesSelf(law, view);
      var duplicate := id in accounting.rows;
      var admission: Option<Admission>;
      admission := Authorize(id, gatesPass, law, start);
      if admission != Some(Granted) {
        reply := if duplicate then Raised
                 else if admission == Some(BudgetExhausted) || admission == Some(ConcurrencyExceeded) then TooMany
                 else Forbidden;
        return;
      }
      reply := ForwardAdmitted(id, delayFails, slack, io, law, start);
    }

    /** From the durable reservation to the closed row. */
    method ForwardAdmitted(id: string, delayFails: bool, slack: real, io: IoOutcome,
                           ghost law: Law, ghost start: State)
      returns (reply: Reply)
      requires At(law, Admitted(id)) && slack >= 0.0
      requires id in accounting.rows && accounting.rows[id] == Row(owner, Reserved)
      requires Reaches(law, start, view)
      modifies this, accounting
      ensures Valid(law) && Reaches(law, start, view)
      ensures reply == if delayFails then BadGateway
                       else match io case Answered => FromTarget case OsError => BadGateway case OtherError => Raised
      ensures accounting.rows == old(accounting.rows)[id := Row(owner,
                if reply.FromTarget? then ResponseReceived
                else if reply.BadGateway? then FailedAfterIo else Forwarding)]
      ensures circuitFailures == if reply.FromTarget? then 0
                                 else if reply.BadGateway? then old(circuitFailures) + 1 else old(circuitFailures)
    {
      ghost var wakeAt;
      wakeAt := Delay(id, slack, law, start);
      if delayFails {
        Fail(id, Waiting(id, wakeAt), law, start);
        return BadGateway;
      }
      Commit(id, wakeAt, law, start);
      reply := Exchange(id, io, law, start);
    }

    /** The exchange with the target, and what each way it can end writes. */
    method Exchange(id: string, io: IoOutcome, ghost law: Law, ghost start: State) returns (reply: Reply)
      requires At(law, InFlight(id)) && id in accounting.rows && Reaches(law, start, view)
      modifies this`circuitFailures, this`view, accounting
      ensures Valid(law) && Reaches(law, start, view)
      ensures reply == match io case Answered => FromTarget case OsError => BadGateway case OtherError => Raised
      ensures accounting.rows == match io
                                 case Answered => AfterFinish(old(accounting.rows), id, ResponseReceived)
                                 case OsError => AfterFinish(old(accounting.rows), id, FailedAfterIo)
                                 case OtherError => old(accounting.rows)
      ensures circuitFailures == match io
                                 case Answered => 0
                                 case OsError => old(circuitFailures) + 1
                                 case OtherError => old(circuitFailures)
    {
      match io
      case Answered =>
        Close(id, law, start);
        reply := FromTarget;
      case OsError =>
        Fail(id, InFlight(id), law, start);
        reply := BadGateway;
      case OtherError =>
        Record(law, start, Abandon(0));
        reply := Raised;
    }

    /** Sleep out what is left of the interval since the last forwarded request. */
    method Delay(id: string, slack: real, ghost law: Law, ghost start: State)
      returns (ghost wakeAt: real)
      requires At(law, Admitted(id)) && slack >= 0.0 && Reaches(law, start, view)
      modifies this`clock, this`view
      ensures At(law, Waiting(id, wakeAt)) && Reaches(law, start, view)
      ensures clock >= wakeAt && clock >= old(clock) && clock >= lastForwarded + 1.0 / limits.maxRps
    {
      var interval := 1.0 / limits.maxRps;
      var delay := Max(0.0, lastForwarded + interval - clock);
      Record(law, start, ReadDelay(0));
      wakeAt := clock + delay;
      assert view.handlers == map[0 := Waiting(id, wakeAt)];
      clock := clock + delay + slack;
      Record(law, start, Tick(delay + slack));
    }

    /** Commit the I/O boundary, stamp it, open the connection: in this order. */
    method Commit(id: string, ghost wakeAt: real, ghost law: Law, ghost start: State)
      requires At(law, Waiting(id, wakeAt)) && clock >= wakeAt && Reaches(law, start, view)
      requires Markable(accounting.rows, id)
      modifies this`lastForwarded, this`view, accounting
      ensures At(law, InFlight(id)) && Reaches(law, start, view)
      ensures accounting.rows == AfterMark(old(accounting.rows), id) && lastForwarded == clock
    {
      Boundary(id, wakeAt, law, start);
      lastForwarded := clock;
      Record(law, start, Stamp(0));
      Record(law, start, BeginIo(0));
    }

    method Boundary(id: string, ghost wakeAt: real, ghost law: Law, ghost start: State)
      requires At(law, Waiting(id, wakeAt)) && clock >= wakeAt && Reaches(law, start, view)
      requires Markable(accounting.rows, id)
      modifies this`view, accounting
      ensures At(law, Marked(id)) && Reaches(law, start, view)
      ensures accounting.rows == AfterMark(old(accounting.rows), id)
    {
      var marked := accounting.MarkForwarding(id);
      Record(law, start, Mark(0));
    }

    method Close(id: string, ghost law: Law, ghost start: State)
      requires At(law, InFlight(id)) && Reaches(law, start, view)
      modifies this`circuitFailures, this`view, accounting
      ensures Valid(law) && Reaches(law, start, view)
      ensures accounting.rows == AfterFinish(old(accounting.rows), id, ResponseReceived) && circuitFailures == 0
    {
      circuitFailures := 0;
      Record(law, start, Respond(0));
      accounting.Finish(id, ResponseReceived);
      Record(law, start, FinishOk(0));
    }

    /** The except clause: count the failure, close the row. */
    method Fail(id: string, ghost pc: Pc, ghost law: Law, ghost start: State)
      requires At(law, pc) && pc.id == id && (pc.Waiting? || pc.InFlight?) && Reaches(law, start, view)
      modifies this`circuitFailures, this`view, accounting
      ensures Valid(law) && Reaches(law, start, view)
      ensures circuitFailures == old(circuitFailures) + 1
      ensures accounting.rows == AfterFinish(old(accounting.rows), id, FailedAfterIo)
    {
      circuitFailures := circuitFailures + 1;
      Record(law, start, Fault(0));
      accounting.Finish(id, FailedAfterIo);
      Record(law, start, FinishFailed(0));
    }
  }
}
