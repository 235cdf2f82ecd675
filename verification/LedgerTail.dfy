/** How much a run adds to the ledger's forwarded count, and what a reading taken before the proxy is
    gone can miss. */
module LedgerTail {
  import opened ProxyLedger
  import opened ProxyProtocol
  import opened ProxySafety
  import opened DetectorAccounting
  import ProxyWitness

  /** The events that turn a reservation into a forwarded row: the commit, and the failure close of a
      handler whose rate delay itself failed. */
  predicate Crosses(s: State, e: Event)
    requires Enabled(s, e)
  {
    e.Mark? || (e.FinishFailed? && s.handlers[e.h].asleep)
  }

  ghost function Crossings(law: Law, s: State, es: seq<Event>): nat
    requires RunFrom(law, s, es).Some?
  {
    if es == [] then 0
    else
      var last := |es| - 1;
      Crossings(law, s, es[..last]) + if Crosses(RunFrom(law, s, es[..last]).value, es[last]) then 1 else 0
  }

  lemma StepCountsCrossing(law: Law, s: State, e: Event)
    requires LedgerSafe(law, s) && Enabled(s, e)
    ensures CountAll(Apply(law, s, e).table, FORWARDED) == CountAll(s.table, FORWARDED) + if Crosses(s, e) then 1 else 0
  {
    match e
    case Mark(h) => MarkCrosses(law, s, h);
    case FinishOk(h) => FinishCountsCrossing(law, s, h, ResponseReceived);
    case FinishFailed(h) => FinishCountsCrossing(law, s, h, FailedAfterIo);
    case Admit(h) => AdmitCrossesNothing(law, s, h);
    case Deny(h) => PutCountAll(s.table, s.handlers[h].id, Row(s.owner, BlockedBeforeIo), FORWARDED);
    case _ =>
  }

  lemma MarkCrosses(law: Law, s: State, h: nat)
    requires LedgerSafe(law, s) && h in s.handlers && s.handlers[h].Waiting?
    ensures CountAll(ApplyMark(s, h).table, FORWARDED) == CountAll(s.table, FORWARDED) + 1
  {
    var id := s.handlers[h].id;
    PutCountAll(s.table, id, s.table[id].(state := Forwarding), FORWARDED);
  }

  lemma AdmitCrossesNothing(law: Law, s: State, h: nat)
    requires h in s.handlers
    ensures CountAll(ApplyAdmit(law, s, h).table, FORWARDED) == CountAll(s.table, FORWARDED)
  {
    var id := s.handlers[h].id;
    PutCountAll(s.table, id, Row(s.owner, Reserved), FORWARDED);
    PutCountAll(s.table, id, Row(s.owner, BlockedBeforeIo), FORWARDED);
    assert ApplyAdmit(law, s, h).table == AfterAdmit(s.table, id, s.owner, law(s.owner));
  }

  lemma FinishCountsCrossing(law: Law, s: State, h: nat, outcome: RowState)
    requires LedgerSafe(law, s) && h in s.handlers && outcome in FINISHED
    requires s.handlers[h].Responded? || s.handlers[h].Caught?
    ensures CountAll(ApplyFinish(s, h, outcome).table, FORWARDED)
         == CountAll(s.table, FORWARDED) + if s.handlers[h].Caught? && s.handlers[h].asleep then 1 else 0
  {
    var id := s.handlers[h].id;
    PutCountAll(s.table, id, s.table[id].(state := outcome), FORWARDED);
  }

  /** Conservation: a run adds exactly its crossings to the forwarded count, under every interleaving,
      crash and restart. */
  lemma {:induction false} ForwardedCountsCrossings(law: Law, s: State, es: seq<Event>)
    requires LedgerSafe(law, s) && RunFrom(law, s, es).Some?
    ensures var s' := RunFrom(law, s, es).value;
            && LedgerSafe(law, s')
            && CountAll(s'.table, FORWARDED) == CountAll(s.table, FORWARDED) + Crossings(law, s, es)
  {
    if es != [] {
      var last := |es| - 1;
      var p := RunFrom(law, s, es[..last]).value;
      ForwardedCountsCrossings(law, s, es[..last]);
      StepKeepsLedgerSafe(law, p, es[last]);
      StepCountsCrossing(law, p, es[last]);
    }
  }

  /** What the adapter reads as forwarded is the number of crossings since the ledger was created. */
  lemma ReadingCountsCrossings(law: Law, es: seq<Event>)
    requires Run(law, es).Some?
    ensures ReadLedger(Run(law, es).value.table).forwarded == Crossings(law, Initial(), es)
  {
    InitiallySafe(law);
    ForwardedCountsCrossings(law, Initial(), es);
    assert IdsIn(map[], FORWARDED) == {};
    TwoReadingsOfOneLedger(Run(law, es).value.table);
  }

  /** Forwarded rows stay forwarded, and finished rows stay exactly as they are. */
  lemma {:induction false} ForwardedRowsStay(law: Law, s: State, es: seq<Event>, id: string)
    requires LedgerSafe(law, s) && RunFrom(law, s, es).Some? && id in s.table
    ensures var s' := RunFrom(law, s, es).value;
            && LedgerSafe(law, s') && id in s'.table
            && (s.table[id].state in FORWARDED ==> s'.table[id].state in FORWARDED)
            && (s.table[id].state in FINISHED ==> s'.table[id].state == s.table[id].state)
  {
    if es != [] {
      var last := |es| - 1;
      var p := RunFrom(law, s, es[..last]).value;
      ForwardedRowsStay(law, s, es[..last], id);
      StepKeepsLedgerSafe(law, p, es[last]);
      StepMovesRowsForward(law, p, es[last], id);
    }
  }

  // ----- the reading, and the rest of the proxy's life

  /** `es` is the run up to the reading, `tail` what the proxy still does before it is removed. */
  ghost predicate ReadThenGone(law: Law, es: seq<Event>, tail: seq<Event>) {
    Run(law, es).Some? && RunFrom(law, Run(law, es).value, tail).Some?
  }

  ghost function AtReading(law: Law, es: seq<Event>): State
    requires Run(law, es).Some?
  {
    Run(law, es).value
  }

  ghost function AtEnd(law: Law, es: seq<Event>, tail: seq<Event>): State
    requires ReadThenGone(law, es, tail)
  {
    RunFrom(law, Run(law, es).value, tail).value
  }

  /** The final ledger shows the reading plus the crossings it missed, so the reading covers the final
      ledger exactly when nothing crossed after it. */
  lemma ReadingMissesTheTail(law: Law, es: seq<Event>, tail: seq<Event>)
    requires ReadThenGone(law, es, tail)
    ensures var a, a' := ReadLedger(AtReading(law, es).table), ReadLedger(AtEnd(law, es, tail).table);
            && a'.forwarded == a.forwarded + Crossings(law, AtReading(law, es), tail)
            && (a'.forwarded == a.forwarded <==> Crossings(law, AtReading(law, es), tail) == 0)
  {
    RunSafe(law, es);
    ForwardedCountsCrossings(law, AtReading(law, es), tail);
    TwoReadingsOfOneLedger(AtReading(law, es).table);
    TwoReadingsOfOneLedger(AtEnd(law, es, tail).table);
  }

  /** If the reading shows every forwarded request answered and nothing crossed after it, every contact
      the proxy ever made has its durable response. */
  lemma AnsweredReadingStaysAnswered(law: Law, es: seq<Event>, tail: seq<Event>)
    requires ReadThenGone(law, es, tail) && Crossings(law, AtReading(law, es), tail) == 0
    requires var a := ReadLedger(AtReading(law, es).table); a.forwarded == a.responses
    ensures var s' := AtEnd(law, es, tail);
            forall id :: id in s'.ioBegun ==> id in s'.table && s'.table[id].state == ResponseReceived
  {
    var s, s' := AtReading(law, es), AtEnd(law, es, tail);
    RunSafe(law, es);
    ForwardedCountsCrossings(law, s, tail);
    NothingNewForwarded(law, s, tail);
    forall id | id in s'.ioBegun ensures id in s'.table && s'.table[id].state == ResponseReceived {
      assert id in IdsIn(s'.table, FORWARDED);
      EqualCountsMeanAnswered(s.table, id);
      ForwardedRowsStay(law, s, tail, id);
    }
  }

  /** Without a crossing the forwarded rows are the same rows. */
  lemma NothingNewForwarded(law: Law, s: State, es: seq<Event>)
    requires LedgerSafe(law, s) && RunFrom(law, s, es).Some? && Crossings(law, s, es) == 0
    ensures IdsIn(RunFrom(law, s, es).value.table, FORWARDED) == IdsIn(s.table, FORWARDED)
  {
    ForwardedCountsCrossings(law, s, es);
    var ids, ids' := IdsIn(s.table, FORWARDED), IdsIn(RunFrom(law, s, es).value.table, FORWARDED);
    forall id | id in ids ensures id in ids' {
      ForwardedRowsStay(law, s, es, id);
    }
    assert ids' == ids + (ids' - ids);
  }

  // ----- a proxy no request has reached

  ghost predicate NoArrival(es: seq<Event>) {
    forall i :: 0 <= i < |es| ==> !es[i].Arrive?
  }

  lemma EmptyLedgerReadsNothing()
    ensures ReadLedger(map[]) == NOTHING
  {
    forall state: RowState ensures CountAll(map[], {state}) == 0 {
      assert IdsIn(map[], {state}) == {};
    }
  }

  /** Until a request arrives the ledger is empty, whatever starts, stops and crashes. */
  lemma {:induction false} NothingArrivedNothingWritten(law: Law, es: seq<Event>)
    requires Run(law, es).Some? && NoArrival(es)
    ensures var s := Run(law, es).value; s.handlers == map[] && s.table == map[] && s.ioBegun == {}
  {
    if es != [] {
      NothingArrivedNothingWritten(law, es[..|es| - 1]);
    }
  }

  // ----- the safe order: remove the proxy, then read

  ghost predicate Removed(s: State) {
    !s.up && s.handlers == map[]
  }

  /** A removed proxy that is not started again changes nothing. */
  lemma {:induction false} RemovedProxyIsFinal(law: Law, s: State, tail: seq<Event>)
    requires Removed(s) && RunFrom(law, s, tail).Some?
    requires NoRestart(tail)
    ensures var s' := RunFrom(law, s, tail).value;
            Removed(s') && s'.table == s.table && s'.ioBegun == s.ioBegun && Crossings(law, s, tail) == 0
  {
    if tail != [] {
      RemovedProxyIsFinal(law, s, tail[..|tail| - 1]);
    }
  }

  /** So a recovery that reads a dead proxy's ledger and retries never meets a contact, then or later. */
  lemma RetryAfterRemovalNeverFollowsIo(law: Law, es: seq<Event>, tail: seq<Event>)
    requires ReadThenGone(law, es, tail) && Removed(AtReading(law, es))
    requires RetryAfterCrash(AtReading(law, es).table) && NoRestart(tail)
    ensures AtEnd(law, es, tail).ioBegun == {}
  {
    RetryNeverFollowsIo(law, es);
    RemovedProxyIsFinal(law, AtReading(law, es), tail);
  }

  /** While the proxy is up, the same reading proves nothing: every permit with room for one request has
      a run that reads nothing forwarded and then contacts the target. */
  lemma LiveReadingCanBeOvertaken(law: Law, o: Owner) returns (es: seq<Event>, tail: seq<Event>)
    requires law(o).maxRequests >= 1 && law(o).maxConcurrency >= 1
    ensures ReadThenGone(law, es, tail) && OnlyStarts(es, o) && NoRestart(tail)
    ensures ReadLedger(AtReading(law, es).table) == NOTHING
    ensures var s' := AtEnd(law, es, tail);
            && ReadLedger(s'.table) == Accounting(1, 1, 0, 0, 0, 1)
            && exists id :: id in s'.ioBegun && id in s'.table && s'.table[id].state == Forwarding
  {
    es, tail := ProxyWitness.CommitAfterReading(law, o);
    var t, t' := AtReading(law, es).table, AtEnd(law, es, tail).table;
    forall st: RowState ensures CountAll(t, {st}) == if st == Reserved then 1 else 0 {
      assert IdsIn(t, {st}) == if st == Reserved then {"a"} else {};
    }
    forall st: RowState ensures CountAll(t', {st}) == if st == Forwarding then 1 else 0 {
      assert IdsIn(t', {st}) == if st == Forwarding then {"a"} else {};
    }
    assert "a" in AtEnd(law, es, tail).ioBegun;
  }
}
