/** Exactly when the ledger of a live proxy can still change what was read from it. */
module LiveReading {
  import opened Basics
  import opened ProxyLedger
  import opened ProxyProtocol
  import opened ProxySafety
  import opened LedgerTail
  import ProxyWitness

  // A handler that holds a reservation and has not committed.
  predicate Uncommitted(pc: Pc) {
    pc.Admitted? || pc.Waiting? || (pc.Caught? && pc.asleep)
  }

  predicate PastCommit(pc: Pc) {
    Owns(pc) && !Uncommitted(pc)
  }

  /** No live handler is past its commit, and only a running process has handlers. */
  ghost predicate NothingOpen(s: State) {
    && (s.handlers != map[] ==> s.up)
    && forall h :: h in s.handlers ==> !PastCommit(s.handlers[h])
  }

  predicate SomeUncommitted(s: State) {
    exists h :: h in s.handlers && Uncommitted(s.handlers[h])
  }

  // A handler past the circuit breaker whose request id is still free.
  predicate SomeCleared(s: State) {
    exists h :: h in s.handlers && s.handlers[h].Cleared? && s.handlers[h].id !in s.table
  }

  predicate HasRoom(law: Law, s: State) {
    && Count(s.table, s.owner, OCCUPYING) < law(s.owner).maxRequests
    && Count(s.table, s.owner, ACTIVE) < law(s.owner).maxConcurrency
  }

  /** What can be checked at the reading: a reservation is still held, or a request could still get one. */
  predicate CanCross(law: Law, s: State) {
    SomeUncommitted(s) || (s.up && HasRoom(law, s) && (s.circuitFailures < 3 || SomeCleared(s)))
  }

  // ----- no: nothing ever crosses

  /** When nothing can cross, no step crosses, and nothing can cross afterwards. */
  lemma StepStaysQuiet(law: Law, s: State, e: Event)
    requires LedgerSafe(law, s) && NothingOpen(s) && !CanCross(law, s)
    requires Enabled(s, e) && !e.Start?
    ensures !Crosses(s, e)
    ensures var s' := Apply(law, s, e); NothingOpen(s') && !CanCross(law, s')
  {
    assert forall h :: h in s.handlers ==> s.handlers[h].Drawn? || s.handlers[h].Cleared?;
    match e
    case Admit(h) => AdmitStaysQuiet(law, s, h);
    case Deny(h) => DenyStaysQuiet(law, s, h);
    case _ =>
  }

  lemma BlockedTakesNoRoom(law: Law, s: State, id: string, t: Table)
    requires t == AfterStart(s.table, id, s.owner, BlockedBeforeIo)
    ensures HasRoom(law, s.(table := t)) <==> HasRoom(law, s)
  {
    PutCount(s.table, id, Row(s.owner, BlockedBeforeIo), s.owner, OCCUPYING);
    PutCount(s.table, id, Row(s.owner, BlockedBeforeIo), s.owner, ACTIVE);
  }

  lemma AdmitStaysQuiet(law: Law, s: State, h: nat)
    requires NothingOpen(s) && !CanCross(law, s) && h in s.handlers && s.handlers[h].Cleared?
    ensures var s' := ApplyAdmit(law, s, h); NothingOpen(s') && !CanCross(law, s')
  {
    var id := s.handlers[h].id;
    var s' := ApplyAdmit(law, s, h);
    assert !AdmissionOf(s.table, id, s.owner, law(s.owner)).Granted?;
    assert s'.table == AfterStart(s.table, id, s.owner, BlockedBeforeIo) && s' == Leave(s, h).(table := s'.table);
    BlockedTakesNoRoom(law, s, id, s'.table);
  }

  lemma DenyStaysQuiet(law: Law, s: State, h: nat)
    requires NothingOpen(s) && !CanCross(law, s) && h in s.handlers
    ensures var s' := ApplyDeny(s, h); NothingOpen(s') && !CanCross(law, s')
  {
    BlockedTakesNoRoom(law, s, s.handlers[h].id, ApplyDeny(s, h).table);
  }

  lemma {:induction false} QuietForever(law: Law, s: State, tail: seq<Event>)
    requires LedgerSafe(law, s) && NothingOpen(s) && !CanCross(law, s)
    requires RunFrom(law, s, tail).Some? && NoRestart(tail)
    ensures Crossings(law, s, tail) == 0
    ensures var s' := RunFrom(law, s, tail).value; LedgerSafe(law, s') && NothingOpen(s') && !CanCross(law, s')
  {
    if tail != [] {
      var last := |tail| - 1;
      QuietForever(law, s, tail[..last]);
      var p := RunFrom(law, s, tail[..last]).value;
      StepStaysQuiet(law, p, tail[last]);
      StepKeepsLedgerSafe(law, p, tail[last]);
    }
  }

  // ----- yes: some continuation crosses

  ghost predicate SomeTailCrosses(law: Law, s: State) {
    exists tail :: RunFrom(law, s, tail).Some? && NoRestart(tail) && Crossings(law, s, tail) > 0
  }

  lemma LastEventCrosses(law: Law, s: State, es: seq<Event>, p: State, e: Event)
    requires RunFrom(law, s, es) == Some(p) && NoRestart(es) && Enabled(p, e) && Crosses(p, e)
    ensures SomeTailCrosses(law, s)
  {
    var tail, p' := ProxyWitness.Then(law, s, es, p, e);
    assert tail[..|tail| - 1] == es && tail[|tail| - 1] == e;
  }

  lemma WaitingCrosses(law: Law, s: State, es: seq<Event>, p: State, h: nat)
    requires RunFrom(law, s, es) == Some(p) && NoRestart(es) && h in p.handlers && p.handlers[h].Waiting?
    ensures SomeTailCrosses(law, s)
  {
    var es', p' := ProxyWitness.Then(law, s, es, p, Tick(Max(0.0, p.handlers[h].wakeAt - p.now)));
    LastEventCrosses(law, s, es', p', Mark(h));
  }

  lemma AdmittedCrosses(law: Law, s: State, es: seq<Event>, p: State, h: nat)
    requires RunFrom(law, s, es) == Some(p) && NoRestart(es) && h in p.handlers && p.handlers[h].Admitted?
    ensures SomeTailCrosses(law, s)
  {
    var es', p' := ProxyWitness.Then(law, s, es, p, ReadDelay(h));
    WaitingCrosses(law, s, es', p', h);
  }

  lemma ClearedCrosses(law: Law, s: State, es: seq<Event>, p: State, h: nat)
    requires RunFrom(law, s, es) == Some(p) && NoRestart(es) && HasRoom(law, p)
    requires h in p.handlers && p.handlers[h].Cleared? && p.handlers[h].id !in p.table
    ensures SomeTailCrosses(law, s)
  {
    var es', p' := ProxyWitness.Then(law, s, es, p, Event.Admit(h));
    assert p' == ApplyAdmit(law, p, h);
    AdmittedCrosses(law, s, es', p', h);
  }

  lemma {:induction false} SomeBound(ids: set<string>) returns (n: nat)
    ensures forall id :: id in ids ==> |id| < n
  {
    if ids == {} {
      n := 0;
    } else {
      var id :| id in ids;
      n := SomeBound(ids - {id});
      n := if n > |id| then n else |id| + 1;
    }
  }

  // Some request id the ledger has not seen.
  lemma FreshId(t: Table) returns (id: string)
    ensures id !in t
  {
    var n := SomeBound(t.Keys);
    id := seq(n, _ => 'x');
  }

  lemma ArrivalCrosses(law: Law, s: State)
    requires s.up && HasRoom(law, s) && s.circuitFailures < 3
    ensures SomeTailCrosses(law, s)
  {
    var h := FreeSlot(s.handlers.Keys);
    var id := FreshId(s.table);
    var es, p := ProxyWitness.Then(law, s, [], s, Arrive(h, id));
    es, p := ProxyWitness.Then(law, s, es, p, Clear(h));
    ClearedCrosses(law, s, es, p, h);
  }

  /** The exact condition at the reading: some continuation of the same process crosses the I/O boundary
      exactly when a reservation is still held or a request could still get one. */
  lemma TailCrossesIffItCan(law: Law, s: State)
    requires LedgerSafe(law, s) && NothingOpen(s)
    ensures SomeTailCrosses(law, s) <==> CanCross(law, s)
  {
    if SomeUncommitted(s) {
      var h :| h in s.handlers && Uncommitted(s.handlers[h]);
      match s.handlers[h]
      case Admitted(_) => AdmittedCrosses(law, s, [], s, h);
      case Waiting(_, _) => WaitingCrosses(law, s, [], s, h);
      case _ => LastEventCrosses(law, s, [], s, FinishFailed(h));
    } else if CanCross(law, s) && s.circuitFailures < 3 {
      ArrivalCrosses(law, s);
    } else if CanCross(law, s) {
      var h :| h in s.handlers && s.handlers[h].Cleared? && s.handlers[h].id !in s.table;
      ClearedCrosses(law, s, [], s, h);
    } else {
      forall tail | RunFrom(law, s, tail).Some? && NoRestart(tail) ensures Crossings(law, s, tail) == 0 {
        QuietForever(law, s, tail);
      }
    }
  }
}
