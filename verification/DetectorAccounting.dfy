/** What the adapter, the service and the recovery read out of one proxy ledger. */
module DetectorAccounting {
  import opened Basics
  import opened ProxyLedger
  import opened ProxyProtocol
  import opened ProxySafety

  datatype Accounting = Accounting(
    attempted: int, forwarded: int, responses: int, blocked: int, failed: int, unknown: int)

  const NOTHING := Accounting(0, 0, 0, 0, 0, 0)

  datatype Violation = OverCeiling | AttemptedMismatch | ForwardedMismatch

  // validate_invariants: the first check that would raise, if any.
  function Validate(a: Accounting, ceiling: int): Option<Violation> {
    if a.forwarded > ceiling then Some(OverCeiling)
    else if a.attempted != a.forwarded + a.blocked then Some(AttemptedMismatch)
    else if a.forwarded != a.responses + a.failed + a.unknown then Some(ForwardedMismatch)
    else None
  }

  // The adapter's reading: a leftover reservation is not counted at all.
  function ReadLedger(t: Table): Accounting {
    var responses := CountAll(t, {ResponseReceived});
    var failed := CountAll(t, {FailedAfterIo});
    var unknown := CountAll(t, {Forwarding});
    var blocked := CountAll(t, {BlockedBeforeIo});
    var forwarded := responses + failed + unknown;
    Accounting(forwarded + blocked, forwarded, responses, blocked, failed, unknown)
  }

  /** The proxy's summary and the adapter's accounting agree on everything that crossed the boundary,
      and differ in blocked and attempted by exactly the leftover reservations. */
  lemma TwoReadingsOfOneLedger(t: Table)
    ensures var s, a := Summarize(t), ReadLedger(t);
            && s.forwarded == a.forwarded && s.responses == a.responses
            && s.failed == a.failed && s.unknown == a.unknown
            && s.blocked - a.blocked == CountAll(t, {Reserved})
            && s.attempted - a.attempted == CountAll(t, {Reserved})
            && a.forwarded == CountAll(t, FORWARDED)
            && |t| == a.attempted + CountAll(t, {Reserved})
  {
    SummaryReconciles(t);
  }

  // ----- one run root serves one permit

  ghost predicate OnlyStarts(es: seq<Event>, owner: Owner) {
    forall i :: 0 <= i < |es| && es[i].Start? ==> es[i].owner == owner
  }

  lemma {:induction false} RowsBelongToPermit(law: Law, es: seq<Event>, owner: Owner)
    requires Run(law, es).Some? && OnlyStarts(es, owner)
    ensures var s := Run(law, es).value;
            && (s.up ==> s.owner == owner)
            && (s.handlers != map[] ==> s.up)
            && forall id :: id in s.table ==> s.table[id].owner == owner
  {
    if es != [] {
      var last := |es| - 1;
      RowsBelongToPermit(law, es[..last], owner);
      var p := Run(law, es[..last]).value;
      assert es[last].Start? ==> es[last].owner == owner;
      match es[last]
      case Admit(h) =>
        assert ApplyAdmit(law, p, h).table == AfterAdmit(p.table, p.handlers[h].id, p.owner, law(p.owner));
      case _ =>
    }
  }

  /** End to end: when the permit carries the ceiling, every ledger any run can leave behind gives an
      accounting the service's validation accepts and whose consumption fits the reservation. */
  lemma LedgerAlwaysValidates(law: Law, es: seq<Event>, owner: Owner, ceiling: nat)
    requires Run(law, es).Some? && OnlyStarts(es, owner) && law(owner).maxRequests == ceiling
    ensures var t := Run(law, es).value.table;
            && Validate(ReadLedger(t), ceiling) == None
            && 0 <= ReadLedger(t).forwarded <= ceiling
            && Summarize(t).forwarded == ReadLedger(t).forwarded
  {
    var t := Run(law, es).value.table;
    CeilingsHold(law, es, owner);
    RowsBelongToPermit(law, es, owner);
    TwoReadingsOfOneLedger(t);
    Disjoint(t, FORWARDED, {Reserved});
    assert FORWARDED + {Reserved} == OCCUPYING;
    assert IdsIn(t, OCCUPYING) == Ids(t, owner, OCCUPYING);
  }

  // ----- recovery

  /** The recovery's decision after a crash: retry exactly when nothing was forwarded. */
  predicate RetryAfterCrash(t: Table) {
    ReadLedger(t).forwarded == 0
  }

  /** A recovery that retries never follows a run that touched the target, wherever that run died. */
  lemma RetryNeverFollowsIo(law: Law, es: seq<Event>)
    requires Run(law, es).Some? && RetryAfterCrash(Run(law, es).value.table)
    ensures Run(law, es).value.ioBegun == {}
  {
    TwoReadingsOfOneLedger(Run(law, es).value.table);
    NothingForwardedMeansNoIo(law, es);
  }

  lemma EqualCountsMeanAnswered(t: Table, id: string)
    requires ReadLedger(t).forwarded == ReadLedger(t).responses && id in IdsIn(t, FORWARDED)
    ensures t[id].state == ResponseReceived
  {
    assert IdsIn(t, {Forwarding}) == {} && IdsIn(t, {FailedAfterIo}) == {};
    assert id !in IdsIn(t, {Forwarding}) && id !in IdsIn(t, {FailedAfterIo});
  }

  /** If every forwarded request was answered, each target contact has its durable response. */
  lemma AllAnsweredMeansNoOpenIo(law: Law, es: seq<Event>)
    requires Run(law, es).Some?
    requires var a := ReadLedger(Run(law, es).value.table); a.forwarded == a.responses
    ensures var s := Run(law, es).value;
            forall id :: id in s.ioBegun ==> id in s.table && s.table[id].state == ResponseReceived
  {
    RunSafe(law, es);
    var s := Run(law, es).value;
    forall id | id in s.ioBegun
      ensures id in s.table && s.table[id].state == ResponseReceived
    {
      EqualCountsMeanAnswered(s.table, id);
    }
  }

  // ----- campaign totals over many ledgers

  datatype Totals = Totals(attempted: nat, forwarded: nat, responses: nat, blocked: nat, failed: nat)

  function SumOver(ts: seq<Table>, f: Table -> nat): nat {
    if ts == [] then 0 else SumOver(ts[..|ts| - 1], f) + f(ts[|ts| - 1])
  }

  /** The consolidated report: totals accumulated ledger by ledger. */
  method ConsolidateTotals(ts: seq<Table>) returns (r: Totals)
    ensures r.attempted == SumOver(ts, t => |t|)
    ensures r.forwarded == SumOver(ts, t => CountAll(t, FORWARDED))
    ensures r.blocked == SumOver(ts, t => CountAll(t, {BlockedBeforeIo}))
    ensures r.responses == SumOver(ts, t => CountAll(t, {ResponseReceived}))
    ensures r.failed == SumOver(ts, t => CountAll(t, {FailedAfterIo}))
    ensures r.attempted == r.forwarded + r.blocked + SumOver(ts, t => CountAll(t, {Reserved}))
  {
    r := Totals(0, 0, 0, 0, 0);
    for i := 0 to |ts|
      invariant r.attempted == SumOver(ts[..i], t => |t|)
      invariant r.forwarded == SumOver(ts[..i], t => CountAll(t, FORWARDED))
      invariant r.blocked == SumOver(ts[..i], t => CountAll(t, {BlockedBeforeIo}))
      invariant r.responses == SumOver(ts[..i], t => CountAll(t, {ResponseReceived}))
      invariant r.failed == SumOver(ts[..i], t => CountAll(t, {FailedAfterIo}))
      invariant r.attempted == r.forwarded + r.blocked + SumOver(ts[..i], t => CountAll(t, {Reserved}))
    {
      var t := ts[i];
      assert ts[..i + 1][..i] == ts[..i];
      TwoReadingsOfOneLedger(t);
      r := Totals(
        r.attempted + |t|,
        r.forwarded + CountAll(t, {ResponseReceived}) + CountAll(t, {FailedAfterIo}) + CountAll(t, {Forwarding}),
        r.responses + CountAll(t, {ResponseReceived}),
        r.blocked + CountAll(t, {BlockedBeforeIo}),
        r.failed + CountAll(t, {FailedAfterIo}));
    }
    assert ts[..|ts|] == ts;
  }
}
