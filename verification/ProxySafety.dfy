/** What every step of the proxy protocol keeps, and what follows for every run. */
module ProxySafety {
  import opened Basics
  import opened ProxyLedger
  import opened ProxyProtocol

  // ----- the invariant, piece by piece

  /** The handler past admission owns a row. */
  predicate Owns(pc: Pc) {
    !pc.Drawn? && !pc.Cleared?
  }

  /** The states its row may be in. */
  function RowStates(pc: Pc): set<RowState> {
    match pc
    case Drawn(_) => {}
    case Cleared(_) => {}
    case Admitted(_) => {Reserved}
    case Waiting(_, _) => {Reserved}
    case Caught(_, asleep) => if asleep then {Reserved} else {Forwarding}
    case _ => {Forwarding}
  }

  ghost predicate HandlersMatchRows(s: State) {
    forall h :: h in s.handlers && Owns(s.handlers[h]) ==>
      var id := s.handlers[h].id;
      id in s.table && s.table[id].owner == s.owner && s.table[id].state in RowStates(s.handlers[h])
  }

  ghost predicate OneHandlerPerRow(s: State) {
    forall h, k :: h in s.handlers && k in s.handlers && h != k && Owns(s.handlers[h]) && Owns(s.handlers[k]) ==>
      s.handlers[h].id != s.handlers[k].id
  }

  ghost predicate WriteAhead(s: State) {
    forall id :: id in s.ioBegun ==> id in s.table && s.table[id].state in FORWARDED
  }

  ghost predicate FinishedOnce(s: State) {
    && Distinct(s.finished)
    && forall id :: id in s.finished ==> id in s.table && s.table[id].state in FINISHED
  }

  ghost predicate LedgerSafe(law: Law, s: State) {
    && Bounded(law, s.table)
    && HandlersMatchRows(s)
    && OneHandlerPerRow(s)
    && WriteAhead(s)
    && FinishedOnce(s)
  }

  // ----- preservation

  /** A row that no live handler owns may not be rewritten; a handler may rewrite only its own. */
  lemma AdmitKeeps(law: Law, s: State, h: nat)
    requires LedgerSafe(law, s) && Enabled(s, Event.Admit(h))
    ensures LedgerSafe(law, Apply(law, s, Event.Admit(h)))
  {
    var id := s.handlers[h].id;
    var s' := Apply(law, s, Event.Admit(h));
    AdmitBounded(law, s.table, id, s.owner);
    assert forall x :: x in s.table ==> x in s'.table && s'.table[x] == s.table[x];
    if AdmissionOf(s.table, id, s.owner, law(s.owner)).Granted? {
      assert s'.handlers == s.handlers[h := Admitted(id)];
      assert forall k :: k in s.handlers && Owns(s.handlers[k]) ==> s.handlers[k].id != id;
    } else {
      assert s'.handlers == s.handlers - {h};
    }
  }

  lemma MarkKeeps(law: Law, s: State, h: nat)
    requires LedgerSafe(law, s) && Enabled(s, Event.Mark(h))
    ensures LedgerSafe(law, Apply(law, s, Event.Mark(h)))
  {
    MarkBounded(law, s.table, s.handlers[h].id);
  }

  lemma FinishKeeps(law: Law, s: State, h: nat, outcome: RowState)
    requires LedgerSafe(law, s) && outcome in FINISHED
    requires h in s.handlers && (s.handlers[h].Responded? || s.handlers[h].Caught?)
    ensures LedgerSafe(law, ApplyFinish(s, h, outcome))
  {
    var id := s.handlers[h].id;
    FinishBounded(law, s.table, id, outcome);
    assert id !in s.finished;
  }

  lemma DenyKeeps(law: Law, s: State, h: nat)
    requires LedgerSafe(law, s) && h in s.handlers && !Owns(s.handlers[h])
    ensures LedgerSafe(law, ApplyDeny(s, h))
  {
    DenyBounded(law, s.table, s.handlers[h].id, s.owner);
  }

  /** A handler may move on when its row is already in a state its next position allows. */
  lemma GotoKeeps(law: Law, s: State, h: nat, pc: Pc)
    requires LedgerSafe(law, s) && h in s.handlers && pc.id == s.handlers[h].id
    requires Owns(pc) ==> Owns(s.handlers[h]) && RowStates(s.handlers[h]) <= RowStates(pc)
    ensures LedgerSafe(law, Goto(s, h, pc))
  {
  }

  lemma QuietKeeps(law: Law, s: State, e: Event)
    requires LedgerSafe(law, s) && Enabled(s, e)
    requires e.Clear? || e.ReadDelay? || e.Stamp? || e.BeginIo? || e.Respond? || e.Fault?
    ensures LedgerSafe(law, Apply(law, s, e))
  {
    GotoKeeps(law, s, e.h, Apply(law, s, e).handlers[e.h]);
  }

  lemma VolatileKeeps(law: Law, s: State, e: Event)
    requires LedgerSafe(law, s) && Enabled(s, e)
    requires e.Tick? || e.Start? || e.Crash? || e.Arrive? || e.Abandon?
    ensures LedgerSafe(law, Apply(law, s, e))
  {
    assert forall k :: k in Apply(law, s, e).handlers && Owns(Apply(law, s, e).handlers[k]) ==>
      k in s.handlers && Apply(law, s, e).handlers[k] == s.handlers[k];
  }

  /** No step of any handler, no crash and no restart breaks the ledger's safety. */
  lemma StepKeepsLedgerSafe(law: Law, s: State, e: Event)
    requires LedgerSafe(law, s) && Enabled(s, e)
    ensures LedgerSafe(law, Apply(law, s, e))
  {
    match e
    case Admit(h) => AdmitKeeps(law, s, h);
    case Mark(h) => MarkKeeps(law, s, h);
    case FinishOk(h) => FinishKeeps(law, s, h, ResponseReceived);
    case FinishFailed(h) => FinishKeeps(law, s, h, FailedAfterIo);
    case Deny(h) => DenyKeeps(law, s, h);
    case Tick(_) => VolatileKeeps(law, s, e);
    case Start(_) => VolatileKeeps(law, s, e);
    case Crash => VolatileKeeps(law, s, e);
    case Arrive(_, _) => VolatileKeeps(law, s, e);
    case Abandon(_) => VolatileKeeps(law, s, e);
    case _ => QuietKeeps(law, s, e);
  }

  lemma InitiallySafe(law: Law)
    ensures LedgerSafe(law, Initial())
  {
    forall o: Owner
      ensures Count(map[], o, OCCUPYING) <= law(o).maxRequests && Count(map[], o, ACTIVE) <= law(o).maxConcurrency
    {
      assert Ids(map[], o, OCCUPYING) == {} && Ids(map[], o, ACTIVE) == {};
    }
  }

  lemma {:induction false} RunSafe(law: Law, es: seq<Event>)
    requires Run(law, es).Some?
    ensures LedgerSafe(law, Run(law, es).value)
  {
    if es == [] {
      InitiallySafe(law);
    } else {
      var last := |es| - 1;
      RunSafe(law, es[..last]);
      StepKeepsLedgerSafe(law, Run(law, es[..last]).value, es[last]);
    }
  }

  // ----- main results

  /** Budget and concurrency: in every state of every run, under any interleaving, crash and
      restart, no owner has more occupying rows than its request ceiling, nor more active rows
      than its concurrency ceiling. */
  lemma CeilingsHold(law: Law, es: seq<Event>, owner: Owner)
    requires Run(law, es).Some?
    ensures var t := Run(law, es).value.table;
            && Count(t, owner, OCCUPYING) <= law(owner).maxRequests
            && Count(t, owner, ACTIVE) <= law(owner).maxConcurrency
  {
    RunSafe(law, es);
  }

  /** Write-ahead: I/O to the target never begins before its row is durably forwarding, and the
      row can only move on to a finished state, whatever crashes. */
  lemma IoIsWrittenAhead(law: Law, es: seq<Event>, id: string)
    requires Run(law, es).Some? && id in Run(law, es).value.ioBegun
    ensures var t := Run(law, es).value.table;
            id in t && t[id].state in FORWARDED
  {
    RunSafe(law, es);
  }

  /** If the durable ledger shows nothing forwarded, the target was never touched. */
  lemma NothingForwardedMeansNoIo(law: Law, es: seq<Event>)
    requires Run(law, es).Some? && CountAll(Run(law, es).value.table, FORWARDED) == 0
    ensures Run(law, es).value.ioBegun == {}
  {
    RunSafe(law, es);
    var s := Run(law, es).value;
    assert forall id :: id in s.ioBegun ==> id in IdsIn(s.table, FORWARDED);
  }

  /** Each request is finished at most once, and by its own row's last write. */
  lemma EachRequestFinishedOnce(law: Law, es: seq<Event>)
    requires Run(law, es).Some?
    ensures Distinct(Run(law, es).value.finished)
    ensures forall id :: id in Run(law, es).value.finished ==>
              id in Run(law, es).value.table && Run(law, es).value.table[id].state in FINISHED
  {
    RunSafe(law, es);
  }

  // ----- rows only move forward

  predicate MayBecome(a: RowState, b: RowState) {
    || a == b
    || (a == Reserved && b in {Forwarding, FailedAfterIo})
    || (a == Forwarding && b in FINISHED)
  }

  /** Rows are never deleted, never change owner, and move only along
      reserved -> forwarding -> response_received | failed_after_io
      (or reserved -> failed_after_io when the rate delay itself fails). */
  lemma StepMovesRowsForward(law: Law, s: State, e: Event, id: string)
    requires LedgerSafe(law, s) && Enabled(s, e) && id in s.table
    ensures var t' := Apply(law, s, e).table;
            id in t' && t'[id].owner == s.table[id].owner && MayBecome(s.table[id].state, t'[id].state)
  {
    match e
    case FinishOk(h) => assert s.table[s.handlers[h].id].state == Forwarding;
    case FinishFailed(h) => assert s.table[s.handlers[h].id].state in ACTIVE;
    case _ =>
  }

  // No live handler owns this row.
  ghost predicate Orphan(s: State, id: string) {
    forall h :: h in s.handlers && Owns(s.handlers[h]) ==> s.handlers[h].id != id
  }

  lemma StepKeepsOrphan(law: Law, s: State, e: Event, id: string)
    requires LedgerSafe(law, s) && Enabled(s, e)
    requires id in s.table && s.table[id].state == Forwarding && Orphan(s, id)
    ensures var s' := Apply(law, s, e);
            id in s'.table && s'.table[id] == s.table[id] && Orphan(s', id)
  {
    match e
    case Admit(h) => AdmitKeepsOrphan(law, s, h, id);
    case FinishOk(h) => FinishKeepsOrphan(law, s, h, ResponseReceived, id);
    case FinishFailed(h) => FinishKeepsOrphan(law, s, h, FailedAfterIo, id);
    case _ =>
  }

  lemma AdmitKeepsOrphan(law: Law, s: State, h: nat, id: string)
    requires LedgerSafe(law, s) && h in s.handlers && id in s.table && Orphan(s, id)
    ensures var s' := ApplyAdmit(law, s, h);
            id in s'.table && s'.table[id] == s.table[id] && Orphan(s', id)
  {
    assert ApplyAdmit(law, s, h).table == AfterAdmit(s.table, s.handlers[h].id, s.owner, law(s.owner));
  }

  lemma FinishKeepsOrphan(law: Law, s: State, h: nat, outcome: RowState, id: string)
    requires LedgerSafe(law, s) && h in s.handlers && Owns(s.handlers[h]) && id in s.table && Orphan(s, id)
    ensures var s' := ApplyFinish(s, h, outcome);
            id in s'.table && s'.table[id] == s.table[id] && Orphan(s', id)
  {
    assert s.handlers[h].id != id;
  }

  /** A row left forwarding by a dead handler stays forwarding through every later run: it holds
      its budget and concurrency slots for good. */
  lemma {:induction false} StrandedRowIsStuck(law: Law, s: State, es: seq<Event>, id: string)
    requires LedgerSafe(law, s) && RunFrom(law, s, es).Some?
    requires id in s.table && s.table[id].state == Forwarding && Orphan(s, id)
    ensures var s' := RunFrom(law, s, es).value;
            id in s'.table && s'.table[id] == s.table[id] && Orphan(s', id) && LedgerSafe(law, s')
  {
    if es != [] {
      var before := RunFrom(law, s, es[..|es| - 1]).value;
      StrandedRowIsStuck(law, s, es[..|es| - 1], id);
      StepKeepsLedgerSafe(law, before, es[|es| - 1]);
      StepKeepsOrphan(law, before, es[|es| - 1], id);
    }
  }
}
