/** Request handlers of one proxy process, interleaved at every lock and transaction boundary,
    with crashes and restarts between any two steps. */
module ProxyProtocol {
  import opened Basics
  import opened ProxyLedger

  /** Where a handler stands. The order of the constructors is the order of the code. */
  datatype Pc =
    | Drawn(id: string)                  // request id drawn, nothing written
    | Cleared(id: string)                // gates and circuit breaker passed
    | Admitted(id: string)               // row reserved
    | Waiting(id: string, wakeAt: real)  // sleeping out the rate delay
    | Marked(id: string)                 // forwarding committed
    | Stamped(id: string)                // last_forwarded recorded, connection not yet opened
    | InFlight(id: string)               // target I/O has begun
    | Responded(id: string)              // response read, circuit reset
    | Caught(id: string, asleep: bool)   // OSError caught, circuit counted, row not yet closed; where it hit is history

  /** A committed I/O boundary. Recorded history, never read by a step. */
  datatype Commit = Commit(id: string, owner: Owner, lifetime: nat, slot: nat, time: real)

  datatype State = State(
    table: Table,                 // durable
    up: bool,
    owner: Owner,                 // binding of the permit this process serves
    lifetime: nat,
    sequence: nat,                // volatile
    lastForwarded: real,          // volatile
    circuitFailures: nat,         // volatile
    handlers: map<nat, Pc>,       // volatile
    now: real,
    // history
    ioBegun: set<string>,
    finished: seq<string>,
    slots: map<string, nat>,
    commits: seq<Commit>)

  datatype Event =
    | Tick(dt: real)
    | Start(owner: Owner)         // crash, if running, then a fresh process on the same ledger
    | Crash
    | Arrive(h: nat, id: string)
    | Deny(h: nat)
    | Clear(h: nat)
    | Admit(h: nat)
    | ReadDelay(h: nat)
    | Mark(h: nat)
    | Stamp(h: nat)
    | BeginIo(h: nat)
    | Respond(h: nat)
    | FinishOk(h: nat)
    | Fault(h: nat)               // an OSError reaches the handler's except clause
    | FinishFailed(h: nat)
    | Abandon(h: nat)             // any other exception: the row stays as it is

  function Initial(): State {
    State(map[], false, Owner("", ""), 0, 0, 0.0, 0, map[], 0.0, {}, [], map[], [])
  }

  predicate Enabled(s: State, e: Event) {
    match e
    case Tick(dt) => dt >= 0.0
    case Start(_) => true
    case Crash => s.up
    case Arrive(h, _) => s.up && h !in s.handlers
    case Deny(h) => h in s.handlers && s.handlers[h].Drawn?
    case Clear(h) => h in s.handlers && s.handlers[h].Drawn? && s.circuitFailures < 3
    case Admit(h) => h in s.handlers && s.handlers[h].Cleared?
    case ReadDelay(h) => h in s.handlers && s.handlers[h].Admitted?
    case Mark(h) => h in s.handlers && s.handlers[h].Waiting? && s.now >= s.handlers[h].wakeAt
    case Stamp(h) => h in s.handlers && s.handlers[h].Marked?
    case BeginIo(h) => h in s.handlers && s.handlers[h].Stamped?
    case Respond(h) => h in s.handlers && s.handlers[h].InFlight?
    case FinishOk(h) => h in s.handlers && s.handlers[h].Responded?
    case Fault(h) =>
      h in s.handlers && var pc := s.handlers[h];
      pc.Waiting? || pc.Stamped? || pc.InFlight? || pc.Responded?
    case FinishFailed(h) => h in s.handlers && s.handlers[h].Caught?
    case Abandon(h) => h in s.handlers
  }

  function Interval(l: Limits): real {
    1.0 / l.maxRps
  }

  function Max(a: real, b: real): real {
    if a < b then b else a
  }

  // ----- concurrency slots: history that makes the rate argument compositional

  function UsedSlots(s: State): set<nat> {
    set id | id in Ids(s.table, s.owner, ACTIVE) && id in s.slots :: s.slots[id]
  }

  lemma {:induction false} SomeSlotFree(used: set<nat>)
    ensures exists n: nat :: n !in used && n <= |used|
  {
    if forall n: nat :: n <= |used| ==> n in used {
      PrefixCardinality(used, |used| + 1);
    }
  }

  lemma {:induction false} PrefixCardinality(used: set<nat>, n: nat)
    requires forall k: nat :: k < n ==> k in used
    ensures |used| >= n
  {
    if n > 0 {
      PrefixCardinality(used - {n - 1}, n - 1);
    }
  }

  ghost function FreeSlot(used: set<nat>): (n: nat)
    ensures n !in used && n <= |used|
  {
    SomeSlotFree(used);
    var n: nat :| n !in used && n <= |used|;
    n
  }

  // ----- steps

  function Leave(s: State, h: nat): State {
    s.(handlers := s.handlers - {h})
  }

  function Goto(s: State, h: nat, pc: Pc): State {
    s.(handlers := s.handlers[h := pc])
  }

  ghost function Apply(law: Law, s: State, e: Event): State
    requires Enabled(s, e)
  {
    match e
    case Tick(dt) => s.(now := s.now + dt)
    case Crash => s.(up := false, handlers := map[])
    case Start(owner) =>
      s.(up := true, owner := owner, lifetime := s.lifetime + 1, handlers := map[],
         sequence := CountAll(s.table, FORWARDED + {BlockedBeforeIo}),
         lastForwarded := 0.0, circuitFailures := 0)
    case Arrive(h, id) => Goto(s, h, Drawn(id)).(sequence := s.sequence + 1)
    case Deny(h) => ApplyDeny(s, h)
    case Clear(h) => Goto(s, h, Cleared(s.handlers[h].id))
    case Admit(h) => ApplyAdmit(law, s, h)
    case ReadDelay(h) =>
      Goto(s, h, Waiting(s.handlers[h].id, Max(s.now, s.lastForwarded + Interval(law(s.owner)))))
    case Mark(h) => ApplyMark(s, h)
    case Stamp(h) => Goto(s, h, Stamped(s.handlers[h].id)).(lastForwarded := s.now)
    case BeginIo(h) =>
      Goto(s, h, InFlight(s.handlers[h].id)).(ioBegun := s.ioBegun + {s.handlers[h].id})
    case Respond(h) => Goto(s, h, Responded(s.handlers[h].id)).(circuitFailures := 0)
    case FinishOk(h) => ApplyFinish(s, h, ResponseReceived)
    case Fault(h) =>
      Goto(s, h, Caught(s.handlers[h].id, s.handlers[h].Waiting?)).(circuitFailures := s.circuitFailures + 1)
    case FinishFailed(h) => ApplyFinish(s, h, FailedAfterIo)
    case Abandon(h) => Leave(s, h)
  }

  function ApplyDeny(s: State, h: nat): State
    requires h in s.handlers
  {
    Leave(s, h).(table := AfterStart(s.table, s.handlers[h].id, s.owner, BlockedBeforeIo))
  }

  ghost function ApplyAdmit(law: Law, s: State, h: nat): State
    requires h in s.handlers
  {
    var id := s.handlers[h].id;
    var s' := s.(table := AfterAdmit(s.table, id, s.owner, law(s.owner)));
    if AdmissionOf(s.table, id, s.owner, law(s.owner)).Granted? then
      Goto(s', h, Admitted(id)).(slots := s.slots[id := FreeSlot(UsedSlots(s))])
    else
      Leave(s', h)
  }

  function ApplyMark(s: State, h: nat): State
    requires h in s.handlers
  {
    var id := s.handlers[h].id;
    if Markable(s.table, id) then
      var slot := if id in s.slots then s.slots[id] else 0;
      Goto(s, h, Marked(id)).(
        table := AfterMark(s.table, id),
        commits := s.commits + [Commit(id, s.owner, s.lifetime, slot, s.now)])
    else
      Leave(s, h)
  }

  function ApplyFinish(s: State, h: nat, outcome: RowState): State
    requires h in s.handlers
  {
    var id := s.handlers[h].id;
    Leave(s, h).(table := AfterFinish(s.table, id, outcome), finished := s.finished + [id])
  }

  /** A run is any sequence of events, each enabled when it happens. */
  ghost function RunFrom(law: Law, s: State, es: seq<Event>): Option<State> {
    if es == [] then Some(s)
    else
      var before := RunFrom(law, s, es[..|es| - 1]);
      if before.Some? && Enabled(before.value, es[|es| - 1])
      then Some(Apply(law, before.value, es[|es| - 1]))
      else None
  }

  ghost function Run(law: Law, es: seq<Event>): Option<State> {
    RunFrom(law, Initial(), es)
  }

  /** The process that is running, if any, is not started again. */
  predicate NoRestart(es: seq<Event>) {
    forall i :: 0 <= i < |es| ==> !es[i].Start?
  }

  lemma RunExtends(law: Law, s: State, es: seq<Event>, e: Event)
    requires RunFrom(law, s, es).Some? && Enabled(RunFrom(law, s, es).value, e)
    ensures RunFrom(law, s, es + [e]) == Some(Apply(law, RunFrom(law, s, es).value, e))
  {
    assert (es + [e])[..|es|] == es;
  }

  /** A run and its continuation are one run. */
  lemma {:induction false} RunsCompose(law: Law, s: State, es: seq<Event>, tail: seq<Event>)
    requires RunFrom(law, s, es).Some? && RunFrom(law, RunFrom(law, s, es).value, tail).Some?
    ensures RunFrom(law, s, es + tail) == RunFrom(law, RunFrom(law, s, es).value, tail)
  {
    if tail == [] {
      assert es + tail == es;
    } else {
      var last := |tail| - 1;
      RunsCompose(law, s, es, tail[..last]);
      assert (es + tail)[..|es + tail| - 1] == es + tail[..last];
    }
  }
}
