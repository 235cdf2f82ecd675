/** The counting proxy's durable request table and the transactions on it. */
module ProxyLedger {

  datatype RowState = Reserved | Forwarding | ResponseReceived | FailedAfterIo | BlockedBeforeIo

  // A permit/run pair. Every count that gates admission is taken per owner.
  datatype Owner = Owner(permitId: string, runId: string)

  datatype Row = Row(owner: Owner, state: RowState)

  // The primary key of the table is the request id.
  type Table = map<string, Row>

  type PosReal = x: real | x > 0.0 witness 1.0

  // What a signed permit fixes for its owner.
  datatype Limits = Limits(maxRequests: nat, maxConcurrency: nat, maxRps: PosReal)

  // The limits each signed permit carries. Signatures make them a function of the owner.
  type Law = Owner -> Limits

  const OCCUPYING: set<RowState> := {Reserved, Forwarding, ResponseReceived, FailedAfterIo}
  const ACTIVE: set<RowState> := {Reserved, Forwarding}
  const FORWARDED: set<RowState> := {Forwarding, ResponseReceived, FailedAfterIo}
  const FINISHED: set<RowState> := {ResponseReceived, FailedAfterIo}

  function Ids(t: Table, owner: Owner, states: set<RowState>): set<string> {
    set id | id in t && t[id].owner == owner && t[id].state in states
  }

  function IdsIn(t: Table, states: set<RowState>): set<string> {
    set id | id in t && t[id].state in states
  }

  // SELECT count(*) ... WHERE permit_id=? AND detector_run_id=? AND state IN ...
  function Count(t: Table, owner: Owner, states: set<RowState>): nat {
    |Ids(t, owner, states)|
  }

  // SELECT count(*) ... WHERE state IN ...
  function CountAll(t: Table, states: set<RowState>): nat {
    |IdsIn(t, states)|
  }

  /** No owner ever holds more budget or concurrency slots than its permit grants. */
  ghost predicate Bounded(law: Law, t: Table) {
    forall o: Owner ::
      Count(t, o, OCCUPYING) <= law(o).maxRequests && Count(t, o, ACTIVE) <= law(o).maxConcurrency
  }

  // ----- transactions, on values

  datatype Admission = Granted | BudgetExhausted | ConcurrencyExceeded | DuplicateId

  function AdmissionOf(t: Table, id: string, owner: Owner, limits: Limits): Admission {
    if id in t then DuplicateId
    else if Count(t, owner, OCCUPYING) >= limits.maxRequests then BudgetExhausted
    else if Count(t, owner, ACTIVE) >= limits.maxConcurrency then ConcurrencyExceeded
    else Granted
  }

  function AfterAdmit(t: Table, id: string, owner: Owner, limits: Limits): Table {
    match AdmissionOf(t, id, owner, limits)
    case DuplicateId => t
    case Granted => t[id := Row(owner, Reserved)]
    case _ => t[id := Row(owner, BlockedBeforeIo)]
  }

  predicate Markable(t: Table, id: string) {
    id in t && t[id].state == Reserved
  }

  function AfterMark(t: Table, id: string): Table {
    if Markable(t, id) then t[id := t[id].(state := Forwarding)] else t
  }

  // The update carries no guard on the old state: callers must own the row.
  function AfterFinish(t: Table, id: string, outcome: RowState): Table {
    if id in t then t[id := t[id].(state := outcome)] else t
  }

  function AfterStart(t: Table, id: string, owner: Owner, state: RowState): Table {
    if id in t then t else t[id := Row(owner, state)]
  }

  // ----- how one write moves a count

  lemma PutIds(t: Table, id: string, row: Row, o: Owner, states: set<RowState>)
    ensures Ids(t[id := row], o, states)
         == Ids(t, o, states) - {id} + (if row.owner == o && row.state in states then {id} else {})
  {
  }

  /** Writing a fresh or already counted row never breaks a bound unless it adds a reservation
      beyond the limit. */
  lemma PutBounded(law: Law, t: Table, id: string, row: Row)
    requires Bounded(law, t)
    requires id in t ==> row.owner == t[id].owner
    requires row.state in OCCUPYING ==>
               (id in t && t[id].state in OCCUPYING) || Count(t, row.owner, OCCUPYING) < law(row.owner).maxRequests
    requires row.state in ACTIVE ==>
               (id in t && t[id].state in ACTIVE) || Count(t, row.owner, ACTIVE) < law(row.owner).maxConcurrency
    ensures Bounded(law, t[id := row])
  {
    var t' := t[id := row];
    forall o: Owner
      ensures Count(t', o, OCCUPYING) <= law(o).maxRequests && Count(t', o, ACTIVE) <= law(o).maxConcurrency
    {
      PutCount(t, id, row, o, OCCUPYING);
      PutCount(t, id, row, o, ACTIVE);
    }
  }

  lemma PutCount(t: Table, id: string, row: Row, o: Owner, states: set<RowState>)
    ensures var before, after := Count(t, o, states), Count(t[id := row], o, states);
            && after == before
                        - (if id in Ids(t, o, states) then 1 else 0)
                        + (if row.owner == o && row.state in states then 1 else 0)
  {
    PutIds(t, id, row, o, states);
    var ids := Ids(t, o, states);
    if id in ids {
      assert |ids - {id}| == |ids| - 1;
    } else {
      assert ids - {id} == ids;
    }
  }

  lemma PutIdsIn(t: Table, id: string, row: Row, states: set<RowState>)
    ensures IdsIn(t[id := row], states) == IdsIn(t, states) - {id} + (if row.state in states then {id} else {})
  {
  }

  lemma PutCountAll(t: Table, id: string, row: Row, states: set<RowState>)
    ensures CountAll(t[id := row], states)
         == CountAll(t, states) - (if id in IdsIn(t, states) then 1 else 0) + (if row.state in states then 1 else 0)
  {
    PutIdsIn(t, id, row, states);
    var ids := IdsIn(t, states);
    if id in ids {
      assert |ids - {id}| == |ids| - 1;
    } else {
      assert ids - {id} == ids;
    }
  }

  /** Admission is the only write that takes a slot, and it keeps every owner within its permit. */
  lemma AdmitBounded(law: Law, t: Table, id: string, owner: Owner)
    requires Bounded(law, t)
    ensures Bounded(law, AfterAdmit(t, id, owner, law(owner)))
  {
    match AdmissionOf(t, id, owner, law(owner))
    case DuplicateId =>
    case Granted => PutBounded(law, t, id, Row(owner, Reserved));
    case _ => PutBounded(law, t, id, Row(owner, BlockedBeforeIo));
  }

  lemma MarkBounded(law: Law, t: Table, id: string)
    requires Bounded(law, t)
    ensures Bounded(law, AfterMark(t, id))
  {
    if Markable(t, id) {
      PutBounded(law, t, id, t[id].(state := Forwarding));
    }
  }

  lemma FinishBounded(law: Law, t: Table, id: string, outcome: RowState)
    requires Bounded(law, t) && outcome in FINISHED
    requires id in t ==> t[id].state in OCCUPYING
    ensures Bounded(law, AfterFinish(t, id, outcome))
  {
    if id in t {
      PutBounded(law, t, id, t[id].(state := outcome));
    }
  }

  lemma DenyBounded(law: Law, t: Table, id: string, owner: Owner)
    requires Bounded(law, t)
    ensures Bounded(law, AfterStart(t, id, owner, BlockedBeforeIo))
  {
    if id !in t {
      PutBounded(law, t, id, Row(owner, BlockedBeforeIo));
    }
  }

  // ----- the two readings of one table

  datatype Summary = Summary(
    attempted: nat, forwarded: nat, responses: nat, blocked: nat, failed: nat, unknown: nat)

  // The proxy's own reading: a leftover reservation counts as blocked before I/O.
  function Summarize(t: Table): Summary {
    Summary(
      |t|,
      CountAll(t, {Forwarding}) + CountAll(t, {ResponseReceived}) + CountAll(t, {FailedAfterIo}),
      CountAll(t, {ResponseReceived}),
      CountAll(t, {BlockedBeforeIo}) + CountAll(t, {Reserved}),
      CountAll(t, {FailedAfterIo}),
      CountAll(t, {Forwarding}))
  }

  lemma Disjoint(t: Table, a: set<RowState>, b: set<RowState>)
    requires a !! b
    ensures CountAll(t, a + b) == CountAll(t, a) + CountAll(t, b)
  {
    assert IdsIn(t, a + b) == IdsIn(t, a) + IdsIn(t, b);
    assert IdsIn(t, a) !! IdsIn(t, b);
  }

  lemma ForwardedSplit(t: Table)
    ensures CountAll(t, FORWARDED)
         == CountAll(t, {Forwarding}) + CountAll(t, {ResponseReceived}) + CountAll(t, {FailedAfterIo})
  {
    Disjoint(t, {Forwarding}, {ResponseReceived});
    Disjoint(t, {Forwarding, ResponseReceived}, {FailedAfterIo});
    assert {Forwarding} + {ResponseReceived} == {Forwarding, ResponseReceived};
    assert {Forwarding, ResponseReceived} + {FailedAfterIo} == FORWARDED;
  }

  /** Conservation: every row is counted as forwarded or as blocked, and never as both. */
  lemma SummaryReconciles(t: Table)
    ensures var s := Summarize(t);
            && s.attempted == s.forwarded + s.blocked
            && s.forwarded == s.responses + s.failed + s.unknown
            && s.forwarded == CountAll(t, FORWARDED)
  {
    ForwardedSplit(t);
    Disjoint(t, {BlockedBeforeIo}, {Reserved});
    Disjoint(t, FORWARDED, {BlockedBeforeIo, Reserved});
    assert {BlockedBeforeIo} + {Reserved} == {BlockedBeforeIo, Reserved};
    var all := FORWARDED + {BlockedBeforeIo, Reserved};
    forall s: RowState ensures s in all {
      match s
      case Reserved =>
      case Forwarding =>
      case ResponseReceived =>
      case FailedAfterIo =>
      case BlockedBeforeIo =>
    }
    assert IdsIn(t, all) == t.Keys;
    assert |t.Keys| == |t|;
  }

  /** The durable ledger object: a single table, changed by one transaction per method. */
  class ProxyAccounting {
    var rows: Table

    constructor ()
      ensures rows == map[]
    {
      rows := map[];
    }

    method Start(id: string, owner: Owner, state: RowState) returns (inserted: bool)
      modifies this
      ensures inserted <==> id !in old(rows)
      ensures rows == AfterStart(old(rows), id, owner, state)
    {
      inserted := id !in rows;
      if inserted {
        rows := rows[id := Row(owner, state)];
      }
    }

    method Admit(id: string, owner: Owner, limits: Limits, ghost law: Law) returns (outcome: Admission)
      requires law(owner) == limits
      modifies this
      ensures outcome == AdmissionOf(old(rows), id, owner, limits)
      ensures rows == AfterAdmit(old(rows), id, owner, limits)
      ensures Bounded(law, old(rows)) ==> Bounded(law, rows)
    {
      var budgetUsed := Count(rows, owner, OCCUPYING);
      var active := Count(rows, owner, ACTIVE);
      ghost var before := rows;
      if id in rows {
        return DuplicateId;
      }
      outcome := Granted;
      if budgetUsed >= limits.maxRequests {
        outcome := BudgetExhausted;
      } else if active >= limits.maxConcurrency {
        outcome := ConcurrencyExceeded;
      }
      rows := rows[id := Row(owner, if outcome == Granted then Reserved else BlockedBeforeIo)];
      if Bounded(law, before) {
        AdmitBounded(law, before, id, owner);
      }
    }

    method MarkForwarding(id: string) returns (marked: bool)
      modifies this
      ensures marked <==> Markable(old(rows), id)
      ensures rows == AfterMark(old(rows), id)
    {
      marked := id in rows && rows[id].state == Reserved;
      if marked {
        rows := rows[id := rows[id].(state := Forwarding)];
      }
    }

    method Finish(id: string, outcome: RowState)
      modifies this
      ensures rows == AfterFinish(old(rows), id, outcome)
    {
      if id in rows {
        rows := rows[id := rows[id].(state := outcome)];
      }
    }
  }
}
