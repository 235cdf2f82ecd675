/** Where a proxy gets stuck: the open circuit, the stranded row, and the permit with no slot left. */
module ProxyDeadEnds {
  import opened Basics
  import opened ProxyLedger
  import opened ProxyProtocol
  import opened ProxySafety
  import ProxyWitness

  // ----- the circuit breaker

  // Past the circuit breaker, with the target's answer still to come.
  predicate AwaitsAnswer(pc: Pc) {
    pc.Cleared? || pc.Admitted? || pc.Waiting? || pc.Marked? || pc.Stamped? || pc.InFlight?
  }

  ghost predicate OpenCircuit(s: State) {
    s.circuitFailures >= 3 && forall h :: h in s.handlers ==> !AwaitsAnswer(s.handlers[h])
  }

  /** Nothing admitted, committed or contacted: every new row is blocked. */
  ghost predicate NothingNew(s: State, s': State) {
    && s'.commits == s.commits && s'.ioBegun == s.ioBegun
    && forall id :: id in s'.table && id !in s.table ==> s'.table[id].state == BlockedBeforeIo
  }

  lemma StepKeepsCircuitOpen(law: Law, s: State, e: Event)
    requires OpenCircuit(s) && Enabled(s, e) && !e.Start?
    ensures OpenCircuit(Apply(law, s, e)) && NothingNew(s, Apply(law, s, e))
    ensures forall id :: id in s.table ==> id in Apply(law, s, e).table
  {
  }

  /** Three failures with no answer outstanding close the proxy until it is restarted: only an answer
      resets the count, and no request gets past it any more. */
  lemma {:induction false} OpenCircuitStaysOpen(law: Law, s: State, es: seq<Event>)
    requires LedgerSafe(law, s) && OpenCircuit(s) && RunFrom(law, s, es).Some? && NoRestart(es)
    ensures var s' := RunFrom(law, s, es).value; LedgerSafe(law, s') && OpenCircuit(s') && NothingNew(s, s')
  {
    if es != [] {
      var last := |es| - 1;
      var p := RunFrom(law, s, es[..last]).value;
      OpenCircuitStaysOpen(law, s, es[..last]);
      StepKeepsCircuitOpen(law, p, es[last]);
      StepKeepsLedgerSafe(law, p, es[last]);
      forall id | id in p.table && id !in s.table
        ensures Apply(law, p, es[last]).table[id].state == BlockedBeforeIo
      {
        StepMovesRowsForward(law, p, es[last], id);
      }
    }
  }

  // ----- the stranded row

  ghost predicate Finishes(law: Law, s: State, id: string) {
    exists es :: RunFrom(law, s, es).Some? && FinishedIn(RunFrom(law, s, es).value, id)
  }

  predicate FinishedIn(s: State, id: string) {
    id in s.table && s.table[id].state in FINISHED
  }

  ghost predicate OwnedBy(s: State, h: nat, id: string) {
    h in s.handlers && Owns(s.handlers[h]) && s.handlers[h].id == id
  }

  /** A handler past its commit can still close its row. */
  lemma LiveHandlerFinishes(law: Law, s: State, es: seq<Event>, p: State, h: nat, id: string)
    requires RunFrom(law, s, es) == Some(p) && OwnedBy(p, h, id) && id in p.table
    requires !p.handlers[h].Admitted? && !p.handlers[h].Waiting?
    ensures Finishes(law, s, id)
  {
    match p.handlers[h]
    case Marked(_) =>
      var es', p' := ProxyWitness.Then(law, s, es, p, Stamp(h));
      StampedHandlerFinishes(law, s, es', p', h, id);
    case Caught(_, _) =>
      var es', p' := ProxyWitness.Then(law, s, es, p, FinishFailed(h));
      assert FinishedIn(p', id);
    case Responded(_) =>
      var es', p' := ProxyWitness.Then(law, s, es, p, FinishOk(h));
      assert FinishedIn(p', id);
    case _ => StampedHandlerFinishes(law, s, es, p, h, id);
  }

  lemma StampedHandlerFinishes(law: Law, s: State, es: seq<Event>, p: State, h: nat, id: string)
    requires RunFrom(law, s, es) == Some(p) && OwnedBy(p, h, id) && id in p.table
    requires p.handlers[h].Stamped? || p.handlers[h].InFlight?
    ensures Finishes(law, s, id)
  {
    var es', p' := ProxyWitness.Then(law, s, es, p, Fault(h));
    es', p' := ProxyWitness.Then(law, s, es', p', FinishFailed(h));
    assert FinishedIn(p', id);
  }

  /** A forwarding row is closed in some continuation, restarts included, exactly when a live handler
      still owns it. */
  lemma FinishesIffOwned(law: Law, s: State, id: string)
    requires LedgerSafe(law, s) && id in s.table && s.table[id].state == Forwarding
    ensures Finishes(law, s, id) <==> exists h :: OwnedBy(s, h, id)
  {
    if h :| OwnedBy(s, h, id) {
      LiveHandlerFinishes(law, s, [], s, h, id);
    } else {
      forall h | h in s.handlers && Owns(s.handlers[h]) ensures s.handlers[h].id != id {
        assert !OwnedBy(s, h, id);
      }
      forall es | RunFrom(law, s, es).Some? ensures !FinishedIn(RunFrom(law, s, es).value, id) {
        StrandedRowIsStuck(law, s, es, id);
      }
    }
  }

  // ----- the permit with no slot left

  /** Forwarding rows of one permit that no live handler owns. */
  ghost predicate AllStranded(s: State, o: Owner, ids: set<string>) {
    forall id :: id in ids ==> id in s.table && s.table[id] == Row(o, Forwarding) && Orphan(s, id)
  }

  /** As many stranded rows as the permit has slots end admission under it for good: whatever runs,
      crashes and restarts follow, no request of that permit is admitted again. */
  lemma StrandedRowsEndAdmission(law: Law, s: State, es: seq<Event>, o: Owner, ids: set<string>, id: string)
    requires LedgerSafe(law, s) && RunFrom(law, s, es).Some?
    requires AllStranded(s, o, ids) && |ids| >= law(o).maxConcurrency
    ensures !AdmissionOf(RunFrom(law, s, es).value.table, id, o, law(o)).Granted?
  {
    var t := RunFrom(law, s, es).value.table;
    forall x | x in ids ensures x in Ids(t, o, ACTIVE) {
      StrandedRowIsStuck(law, s, es, x);
    }
    var active := Ids(t, o, ACTIVE);
    assert active == (active - ids) + ids;
  }
}
