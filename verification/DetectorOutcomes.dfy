/** The composition of permit ceiling, proxy run, adapter reading and settlement. The adapter may read
    the ledger while the proxy is still serving, so a run is split at the reading. */
module DetectorOutcomes {
  import opened Basics
  import opened DetectorAccounting
  import opened DetectorExecution
  import opened LedgerTail
  import opened LiveReading
  import PL = ProxyLedger
  import PP = ProxyProtocol
  import PS = ProxySafety
  import ProxyWitness

  /** How a worker run ends, as the Docker adapter sees it. */
  datatype WorkerEnd =
    | SetupFailed(retryable: bool, blocked: bool)   // before any worker: typed, with an empty accounting
    | TimedOut                                      // read while the proxy is up
    | Exited(accepted: bool, ioReported: bool)      // read while the proxy is up
    | WorkerKilled                                  // acceptance fault: the proxy is removed, then the ledger is read
    | FaultInjected                                 // acceptance fault after a normal exit: typed, not retryable
    | CrashPollExpired                              // acceptance-fault branch only
    | Untyped                                       // any exception the adapter does not wrap

  function Classify(end: WorkerEnd, a: Accounting): AdapterOutcome {
    match end
    case SetupFailed(retryable, blocked) => TypedError(NOTHING, false, retryable, blocked)
    case TimedOut => TypedError(a, true, true, false)
    case Exited(accepted, ioReported) =>
      if !accepted then TypedError(a, a.forwarded > 0, a.forwarded == 0, false)
      else if a.unknown != 0 then Returned(a, true)
      else if a.attempted == 0 && ioReported then TypedError(a, false, true, true)
      else Returned(a, false)
    case WorkerKilled => TypedError(a, a.forwarded > 0, false, false)
    case FaultInjected => TypedError(a, a.forwarded > 0, false, false)
    case CrashPollExpired => TypedError(a, false, true, true)
    case Untyped => UntypedError
  }

  /** The endings that report the ledger they read. */
  predicate Reports(end: WorkerEnd) {
    !end.SetupFailed? && !end.Untyped?
  }

  /** A permit that carries the ceiling, and one run root that serves only it. */
  ghost predicate Serves(law: PL.Law, es: seq<PP.Event>, tail: seq<PP.Event>, owner: PL.Owner, ceiling: nat) {
    && ReadThenGone(law, es, tail)
    && OnlyStarts(es, owner) && OnlyStarts(tail, owner)
    && law(owner).maxRequests == ceiling
  }

  /** The settlement of a run, from the ledger as it was when the adapter read it. */
  function SettledAt(end: WorkerEnd, t: PL.Table, ceiling: nat): Option<Settlement> {
    Settle(Classify(end, ReadLedger(t)), ceiling)
  }

  // Counts are never negative, and nothing is answered that was not forwarded.
  predicate Countable(a: Accounting) {
    0 <= a.responses && 0 <= a.blocked && 0 <= a.failed && 0 <= a.unknown
  }

  lemma WorkerSettles(end: WorkerEnd, a: Accounting, ceiling: nat)
    requires Validate(a, ceiling) == None && Countable(a)
    ensures Settle(Classify(end, a), ceiling).Some?
    ensures var settled := Settle(Classify(end, a), ceiling).value;
            && 0 <= settled.consumed <= ceiling
            && settled.consumed == (if Reports(end) then a.forwarded else 0)
            && (Reports(end) ==> settled.accounting == a)
            && (settled.status == Completed ==> a.unknown == 0 && end.Exited?)
            && (settled.retryable && (end.TimedOut? || end.Exited?) ==> a.forwarded == a.responses)
  {
  }

  /** The run and its continuation are one run of the proxy under the same permit. */
  lemma WholeRun(law: PL.Law, es: seq<PP.Event>, tail: seq<PP.Event>, owner: PL.Owner, ceiling: nat)
    requires Serves(law, es, tail, owner, ceiling)
    ensures PP.Run(law, es + tail) == Some(AtEnd(law, es, tail)) && OnlyStarts(es + tail, owner)
  {
    PP.RunsCompose(law, PP.Initial(), es, tail);
  }

  /** The whole chain. For every run up to the reading and every continuation until the proxy is gone:
      closing never raises; the final ledger still fits the reservation and exceeds the reading by
      exactly what crossed afterwards; and a retryable settlement after which nothing crossed leaves no
      contact without its durable response. */
  lemma EndToEnd(law: PL.Law, es: seq<PP.Event>, tail: seq<PP.Event>, owner: PL.Owner, ceiling: nat, end: WorkerEnd)
    requires Serves(law, es, tail, owner, ceiling)
    ensures var s, s' := AtReading(law, es), AtEnd(law, es, tail);
            && SettledAt(end, s.table, ceiling).Some?
            && var settled := SettledAt(end, s.table, ceiling).value;
            && 0 <= settled.consumed <= ceiling
            && ReadLedger(s'.table).forwarded == ReadLedger(s.table).forwarded + Crossings(law, s, tail) <= ceiling
            && (Reports(end) ==> settled.consumed == ReadLedger(s.table).forwarded)
            && (settled.status == Completed ==> end.Exited? && ReadLedger(s.table).unknown == 0)
            && (settled.retryable && (end.TimedOut? || end.Exited?) && Crossings(law, s, tail) == 0 ==>
                  forall id :: id in s'.ioBegun ==> id in s'.table && s'.table[id].state == PL.ResponseReceived)
  {
    var a := ReadLedger(AtReading(law, es).table);
    LedgerAlwaysValidates(law, es, owner, ceiling);
    WorkerSettles(end, a, ceiling);
    ReadingMissesTheTail(law, es, tail);
    WholeRun(law, es, tail, owner, ceiling);
    LedgerAlwaysValidates(law, es + tail, owner, ceiling);
    if a.forwarded == a.responses && Crossings(law, AtReading(law, es), tail) == 0 {
      AnsweredReadingStaysAnswered(law, es, tail);
    }
  }

  /** When the recorded consumption is what the proxy leaves behind, for every ending and every run: an
      ending that reports its reading, exactly when nothing crossed after it; an ending that records
      zero, exactly when nothing ever crossed. */
  lemma ConsumptionIsExact(
    law: PL.Law, es: seq<PP.Event>, tail: seq<PP.Event>, owner: PL.Owner, ceiling: nat, end: WorkerEnd)
    requires Serves(law, es, tail, owner, ceiling)
    ensures var s := AtReading(law, es);
            && SettledAt(end, s.table, ceiling).Some?
            && (SettledAt(end, s.table, ceiling).value.consumed == ReadLedger(AtEnd(law, es, tail).table).forwarded
                <==> Crossings(law, s, tail) == 0 && (Reports(end) || Crossings(law, PP.Initial(), es) == 0))
  {
    LedgerAlwaysValidates(law, es, owner, ceiling);
    WorkerSettles(end, ReadLedger(AtReading(law, es).table), ceiling);
    ReadingMissesTheTail(law, es, tail);
    ReadingCountsCrossings(law, es);
  }

  /** A setup failure comes before any worker, so no request can have reached the proxy: its zero is
      what the proxy leaves behind, and nothing was contacted. */
  lemma SetupFailureIsExact(
    law: PL.Law, es: seq<PP.Event>, tail: seq<PP.Event>, owner: PL.Owner, ceiling: nat, end: WorkerEnd)
    requires Serves(law, es, tail, owner, ceiling) && end.SetupFailed?
    requires NoArrival(es) && NoArrival(tail)
    ensures SettledAt(end, AtReading(law, es).table, ceiling).Some?
    ensures var s' := AtEnd(law, es, tail);
            && SettledAt(end, AtReading(law, es).table, ceiling).value.consumed == ReadLedger(s'.table).forwarded == 0
            && s'.ioBegun == {}
  {
    WholeRun(law, es, tail, owner, ceiling);
    NothingArrivedNothingWritten(law, es + tail);
    EmptyLedgerReadsNothing();
  }

  // ----- when a fully answered reading is final

  /** A fully answered reading shows no row still forwarding, so no live handler is past its commit. */
  lemma AnsweredMeansNothingOpen(law: PL.Law, es: seq<PP.Event>, owner: PL.Owner)
    requires PP.Run(law, es).Some? && OnlyStarts(es, owner)
    requires var a := ReadLedger(AtReading(law, es).table); a.forwarded == a.responses
    ensures PS.LedgerSafe(law, AtReading(law, es)) && NothingOpen(AtReading(law, es))
  {
    var s := AtReading(law, es);
    PS.RunSafe(law, es);
    RowsBelongToPermit(law, es, owner);
    forall h | h in s.handlers ensures !PastCommit(s.handlers[h]) {
      if PastCommit(s.handlers[h]) {
        EqualCountsMeanAnswered(s.table, s.handlers[h].id);
      }
    }
  }

  /** Whatever the same process still does, the recorded consumption is what it leaves behind. */
  ghost predicate StaysFinal(law: PL.Law, es: seq<PP.Event>, consumed: int)
    requires PP.Run(law, es).Some?
  {
    forall tail :: ReadThenGone(law, es, tail) && PP.NoRestart(tail) ==>
      ReadLedger(AtEnd(law, es, tail).table).forwarded == consumed
  }

  lemma CrossingTailEndsFinality(law: PL.Law, es: seq<PP.Event>)
    requires PP.Run(law, es).Some? && SomeTailCrosses(law, AtReading(law, es))
    ensures !StaysFinal(law, es, ReadLedger(AtReading(law, es).table).forwarded)
  {
    var s := AtReading(law, es);
    var tail :| PP.RunFrom(law, s, tail).Some? && PP.NoRestart(tail) && Crossings(law, s, tail) > 0;
    assert ReadThenGone(law, es, tail);
    ReadingMissesTheTail(law, es, tail);
  }

  lemma QuietReadingStaysFinal(law: PL.Law, es: seq<PP.Event>)
    requires PP.Run(law, es).Some? && NothingOpen(AtReading(law, es)) && !CanCross(law, AtReading(law, es))
    ensures StaysFinal(law, es, ReadLedger(AtReading(law, es).table).forwarded)
  {
    PS.RunSafe(law, es);
    forall tail | ReadThenGone(law, es, tail) && PP.NoRestart(tail)
      ensures ReadLedger(AtEnd(law, es, tail).table).forwarded == ReadLedger(AtReading(law, es).table).forwarded
    {
      QuietForever(law, AtReading(law, es), tail);
      ReadingMissesTheTail(law, es, tail);
    }
  }

  lemma ReportedConsumption(law: PL.Law, es: seq<PP.Event>, owner: PL.Owner, ceiling: nat, end: WorkerEnd)
    requires Serves(law, es, [], owner, ceiling) && Reports(end)
    ensures SettledAt(end, AtReading(law, es).table, ceiling).Some?
    ensures SettledAt(end, AtReading(law, es).table, ceiling).value.consumed
         == ReadLedger(AtReading(law, es).table).forwarded
  {
    LedgerAlwaysValidates(law, es, owner, ceiling);
    WorkerSettles(end, ReadLedger(AtReading(law, es).table), ceiling);
  }

  /** The condition at the reading: a settlement from a fully answered reading, as every retryable one of
      a timeout or an exit is, stays final exactly when no reservation is still held and no request could
      still get one. */
  lemma AnsweredReadingIsFinalIff(law: PL.Law, es: seq<PP.Event>, owner: PL.Owner, ceiling: nat, end: WorkerEnd)
    requires Serves(law, es, [], owner, ceiling) && Reports(end)
    requires var a := ReadLedger(AtReading(law, es).table); a.forwarded == a.responses
    ensures SettledAt(end, AtReading(law, es).table, ceiling).Some?
    ensures StaysFinal(law, es, SettledAt(end, AtReading(law, es).table, ceiling).value.consumed)
            <==> !CanCross(law, AtReading(law, es))
  {
    ReportedConsumption(law, es, owner, ceiling, end);
    AnsweredMeansNothingOpen(law, es, owner);
    TailCrossesIffItCan(law, AtReading(law, es));
    if CanCross(law, AtReading(law, es)) {
      CrossingTailEndsFinality(law, es);
    } else {
      QuietReadingStaysFinal(law, es);
    }
  }

  /** Every retryable settlement of a timeout or an exit comes from a fully answered reading. */
  lemma RetryableMeansAnswered(law: PL.Law, es: seq<PP.Event>, owner: PL.Owner, ceiling: nat, end: WorkerEnd)
    requires Serves(law, es, [], owner, ceiling) && (end.TimedOut? || end.Exited?)
    ensures SettledAt(end, AtReading(law, es).table, ceiling).Some?
    ensures SettledAt(end, AtReading(law, es).table, ceiling).value.retryable ==>
              var a := ReadLedger(AtReading(law, es).table); a.forwarded == a.responses
  {
    LedgerAlwaysValidates(law, es, owner, ceiling);
    WorkerSettles(end, ReadLedger(AtReading(law, es).table), ceiling);
  }

  /** Removing the proxy first makes every reporting ending exact, and an answered reading final: a
      removed proxy holds no reservation and can take no request. */
  lemma RemovedThenReadIsExact(
    law: PL.Law, es: seq<PP.Event>, tail: seq<PP.Event>, owner: PL.Owner, ceiling: nat, end: WorkerEnd)
    requires Serves(law, es, tail, owner, ceiling) && Removed(AtReading(law, es)) && Reports(end)
    requires PP.NoRestart(tail)
    ensures SettledAt(end, AtReading(law, es).table, ceiling).Some?
    ensures var settled := SettledAt(end, AtReading(law, es).table, ceiling).value;
            && settled.consumed == ReadLedger(AtEnd(law, es, tail).table).forwarded
            && settled.accounting == ReadLedger(AtEnd(law, es, tail).table)
  {
    PS.RunSafe(law, es);
    assert NothingOpen(AtReading(law, es)) && !CanCross(law, AtReading(law, es));
    QuietForever(law, AtReading(law, es), tail);
    ConsumptionIsExact(law, es, tail, owner, ceiling, end);
    RemovedProxyIsFinal(law, AtReading(law, es), tail);
    LedgerAlwaysValidates(law, es, owner, ceiling);
    WorkerSettles(end, ReadLedger(AtReading(law, es).table), ceiling);
  }

  /** Reading a live proxy is not safe: for every permit with room for one request there is a run whose
      timeout and whose failed exit are both settled as retryable with nothing consumed, and whose
      continuation contacts the target and leaves that contact unanswered. */
  lemma RetryableRunCanStillTouchTarget(law: PL.Law, owner: PL.Owner)
    returns (es: seq<PP.Event>, tail: seq<PP.Event>)
    requires law(owner).maxRequests >= 1 && law(owner).maxConcurrency >= 1
    ensures Serves(law, es, tail, owner, law(owner).maxRequests) && PP.NoRestart(tail)
    ensures forall end :: end == TimedOut || end == Exited(false, false) ==>
              var settled := SettledAt(end, AtReading(law, es).table, law(owner).maxRequests);
              settled.Some? && settled.value.retryable && settled.value.consumed == 0
    ensures LeavesOpenContact(AtEnd(law, es, tail))
  {
    es, tail := LiveReadingCanBeOvertaken(law, owner);
    var s' := AtEnd(law, es, tail);
    var id :| id in s'.ioBegun && id in s'.table && s'.table[id].state == PL.Forwarding;
    forall end | end == TimedOut || end == Exited(false, false)
      ensures SettledAt(end, AtReading(law, es).table, law(owner).maxRequests)
           == Some(Settlement(Failed, 0, RunFailed, true, NOTHING))
    {
      EmptyReadingIsRetried(end, AtReading(law, es).table, law(owner).maxRequests);
    }
  }

  /** Some contact with the target has no durable response. */
  ghost predicate LeavesOpenContact(s: PP.State) {
    exists id :: id in s.ioBegun && (id in s.table ==> s.table[id].state != PL.ResponseReceived)
  }

  /** A timeout is settled as retryable, and the same proxy then leaves an unanswered contact. */
  ghost predicate RetriedOverOpenContact(law: PL.Law, owner: PL.Owner, es: seq<PP.Event>, tail: seq<PP.Event>) {
    && Serves(law, es, tail, owner, law(owner).maxRequests) && PP.NoRestart(tail)
    && SettledAt(TimedOut, AtReading(law, es).table, law(owner).maxRequests).Some?
    && SettledAt(TimedOut, AtReading(law, es).table, law(owner).maxRequests).value.retryable
    && LeavesOpenContact(AtEnd(law, es, tail))
  }

  /** The condition on the permit: this can happen to exactly the permits with room for one request. */
  lemma RetryableTimeoutIsUnsafeIff(law: PL.Law, owner: PL.Owner)
    ensures (exists es, tail :: RetriedOverOpenContact(law, owner, es, tail))
            <==> law(owner).maxRequests >= 1 && law(owner).maxConcurrency >= 1
  {
    if law(owner).maxRequests >= 1 && law(owner).maxConcurrency >= 1 {
      var es, tail := RetryableRunCanStillTouchTarget(law, owner);
      assert RetriedOverOpenContact(law, owner, es, tail);
    }
    forall es, tail | RetriedOverOpenContact(law, owner, es, tail)
      ensures law(owner).maxRequests >= 1 && law(owner).maxConcurrency >= 1
    {
      ContactNeedsRoom(law, es, tail, owner);
    }
  }

  lemma ContactNeedsRoom(law: PL.Law, es: seq<PP.Event>, tail: seq<PP.Event>, owner: PL.Owner)
    requires Serves(law, es, tail, owner, law(owner).maxRequests) && AtEnd(law, es, tail).ioBegun != {}
    ensures law(owner).maxRequests >= 1 && law(owner).maxConcurrency >= 1
  {
    WholeRun(law, es, tail, owner, law(owner).maxRequests);
    var id :| id in AtEnd(law, es, tail).ioBegun;
    PS.IoIsWrittenAhead(law, es + tail, id);
    RowsBelongToPermit(law, es + tail, owner);
    ProxyWitness.OccupiedNeedsRoom(law, es + tail, id);
  }

  lemma EmptyReadingIsRetried(end: WorkerEnd, t: PL.Table, ceiling: nat)
    requires ReadLedger(t) == NOTHING && (end == TimedOut || end == Exited(false, false))
    ensures SettledAt(end, t, ceiling) == Some(Settlement(Failed, 0, RunFailed, true, NOTHING))
  {
  }

  /** A run whose ledger shows one unanswered request, for every permit with room for one. */
  lemma OpenRequestRun(law: PL.Law, owner: PL.Owner) returns (es: seq<PP.Event>)
    requires law(owner).maxRequests >= 1 && law(owner).maxConcurrency >= 1
    ensures Serves(law, es, [], owner, law(owner).maxRequests)
    ensures ReadLedger(AtReading(law, es).table) == Accounting(1, 1, 0, 0, 0, 1)
  {
    var tail;
    es, tail := LiveReadingCanBeOvertaken(law, owner);
    WholeRun(law, es, tail, owner, law(owner).maxRequests);
    es := es + tail;
  }

  /** An untyped failure does lose consumption: on such a run one request was forwarded and none recorded. */
  lemma UntypedFailureForgetsConsumption(law: PL.Law, owner: PL.Owner) returns (es: seq<PP.Event>)
    requires law(owner).maxRequests >= 1 && law(owner).maxConcurrency >= 1
    ensures Serves(law, es, [], owner, law(owner).maxRequests)
    ensures SettledAt(Untyped, AtReading(law, es).table, law(owner).maxRequests).Some?
    ensures SettledAt(Untyped, AtReading(law, es).table, law(owner).maxRequests).value.consumed == 0
    ensures ReadLedger(AtReading(law, es).table).forwarded == 1
  {
    es := OpenRequestRun(law, owner);
  }

  /** A retryable result has every request it reports answered, except in exactly one family: the
      acceptance-fault branch on a ledger that shows an unanswered request. */
  lemma RetryableIsAnsweredUnlessFault(law: PL.Law, es: seq<PP.Event>, owner: PL.Owner, ceiling: nat, end: WorkerEnd)
    requires Serves(law, es, [], owner, ceiling)
    ensures var a := ReadLedger(AtReading(law, es).table);
            && SettledAt(end, AtReading(law, es).table, ceiling).Some?
            && var s := SettledAt(end, AtReading(law, es).table, ceiling).value;
            (s.retryable ==> s.accounting.forwarded == s.accounting.responses)
            <==> !(end.CrashPollExpired? && a.forwarded > a.responses)
  {
    LedgerAlwaysValidates(law, es, owner, ceiling);
    RetryableReading(end, ReadLedger(AtReading(law, es).table), ceiling);
  }

  lemma RetryableReading(end: WorkerEnd, a: Accounting, ceiling: nat)
    requires Validate(a, ceiling) == None && Countable(a)
    ensures Settle(Classify(end, a), ceiling).Some?
    ensures var s := Settle(Classify(end, a), ceiling).value;
            (s.retryable ==> s.accounting.forwarded == s.accounting.responses)
            <==> !(end.CrashPollExpired? && a.forwarded > a.responses)
  {
  }

  /** That family is not empty: some run of every permit with room for one request is in it. */
  lemma FaultBranchRetriesOpenRequest(law: PL.Law, owner: PL.Owner) returns (es: seq<PP.Event>)
    requires law(owner).maxRequests >= 1 && law(owner).maxConcurrency >= 1
    ensures Serves(law, es, [], owner, law(owner).maxRequests)
    ensures var s := SettledAt(CrashPollExpired, AtReading(law, es).table, law(owner).maxRequests);
            s.Some? && s.value.retryable && s.value.accounting.forwarded > s.value.accounting.responses
  {
    es := OpenRequestRun(law, owner);
  }
}
