/** Concurrent `execute` calls on one service root, any of which may die between two steps. */
module DetectorRuns {
  import opened Basics
  import opened DetectorExecution

  // ----- interleaved calls

  datatype Stage = Gated | Reserved | Rooted | Launched(outcome: AdapterOutcome)

  datatype Call = Call(key: RunKey, ceiling: nat, stage: Stage)

  datatype State = State(
    rows: map<RunKey, Reservation>,   // durable
    roots: set<RunKey>,               // durable
    calls: map<nat, Call>,
    launches: seq<RunKey>,            // history
    closings: seq<RunKey>)            // history

  datatype Event =
    | Enter(c: nat, key: RunKey, ceiling: nat)   // all gates passed
    | Blocked                                    // a gate failed: the call returns
    | Reserve(c: nat)
    | MakeRoot(c: nat)
    | LoseLease(c: nat)
    | Launch(c: nat, outcome: AdapterOutcome)
    | Close(c: nat)
    | Die(c: nat)

  function Initial(): State {
    State(map[], {}, map[], [], [])
  }

  predicate Enabled(s: State, e: Event) {
    match e
    case Enter(c, _, ceiling) => c !in s.calls && ceiling > 0
    case Blocked => true
    case Reserve(c) => c in s.calls && s.calls[c].stage.Gated?
    case MakeRoot(c) => c in s.calls && s.calls[c].stage.Reserved?
    case LoseLease(c) => c in s.calls && s.calls[c].stage.Rooted?
    case Launch(c, _) => c in s.calls && s.calls[c].stage.Rooted?
    case Close(c) => c in s.calls && s.calls[c].stage.Launched?
    case Die(c) => c in s.calls
  }

  function Leave(s: State, c: nat): State {
    s.(calls := s.calls - {c})
  }

  function Goto(s: State, c: nat, stage: Stage): State
    requires c in s.calls
  {
    s.(calls := s.calls[c := s.calls[c].(stage := stage)])
  }

  function CloseRow(s: State, key: RunKey, consumed: int, state: BudgetState): State {
    if key in s.rows && s.rows[key].state == Open && consumed <= s.rows[key].reserved then
      s.(rows := s.rows[key := s.rows[key].(consumed := consumed, state := state)], closings := s.closings + [key])
    else s
  }

  function Apply(s: State, e: Event): State
    requires Enabled(s, e)
  {
    match e
    case Enter(c, key, ceiling) => s.(calls := s.calls[c := Call(key, ceiling, Gated)])
    case Blocked => s
    case Reserve(c) =>
      var call := s.calls[c];
      if call.key in s.rows then Leave(s, c)
      else Goto(s, c, Reserved).(rows := s.rows[call.key := Reservation(call.ceiling, 0, Open)])
    case MakeRoot(c) =>
      if s.calls[c].key in s.roots then Leave(s, c)
      else Goto(s, c, Rooted).(roots := s.roots + {s.calls[c].key})
    case LoseLease(c) => CloseRow(Leave(s, c), s.calls[c].key, 0, Failed)
    case Launch(c, outcome) => Goto(s, c, Launched(outcome)).(launches := s.launches + [s.calls[c].key])
    case Close(c) =>
      (match Settle(s.calls[c].stage.outcome, s.calls[c].ceiling)
       case None => Leave(s, c)
       case Some(x) => CloseRow(Leave(s, c), s.calls[c].key, x.consumed, x.state))
    case Die(c) => Leave(s, c)
  }

  function Run(es: seq<Event>): Option<State> {
    if es == [] then Some(Initial())
    else
      var p := Run(es[..|es| - 1]);
      if p.Some? && Enabled(p.value, es[|es| - 1]) then Some(Apply(p.value, es[|es| - 1])) else None
  }

  ghost predicate CallsHold(s: State) {
    forall c :: c in s.calls && !s.calls[c].stage.Gated? ==>
      var call := s.calls[c];
      && call.key in s.rows && s.rows[call.key] == Reservation(call.ceiling, 0, Open)
      && (call.stage.Reserved? ==> call.key !in s.roots)
      && (call.stage.Launched? || call.key !in s.launches)
  }

  ghost predicate OneCallPerKey(s: State) {
    forall c, d :: c in s.calls && d in s.calls && c != d && !s.calls[c].stage.Gated? && !s.calls[d].stage.Gated? ==>
      s.calls[c].key != s.calls[d].key
  }

  ghost predicate LaunchedOnce(s: State) {
    Distinct(s.launches) && forall k :: k in s.launches ==> k in s.rows
  }

  ghost predicate ClosedOnce(s: State) {
    && Distinct(s.closings)
    && (forall k :: k in s.rows ==> (s.rows[k].state != Open <==> k in s.closings))
    && (forall k :: k in s.closings ==> k in s.rows)
    && (forall k :: k in s.rows ==> s.rows[k].consumed <= s.rows[k].reserved)
  }

  ghost predicate Inv(s: State) {
    && s.roots <= s.rows.Keys
    && CallsHold(s) && OneCallPerKey(s) && LaunchedOnce(s) && ClosedOnce(s)
  }

  lemma AppendDistinct<T>(s: seq<T>, x: T)
    requires Distinct(s) && x !in s
    ensures Distinct(s + [x])
  {
  }

  lemma StepKeepsInv(s: State, e: Event)
    requires Inv(s) && Enabled(s, e)
    ensures Inv(Apply(s, e))
  {
    match e
    case Launch(c, _) => AppendDistinct(s.launches, s.calls[c].key);
    case LoseLease(c) => CloseKeepsInv(s, c, 0, Failed);
    case Close(c) =>
      var settled := Settle(s.calls[c].stage.outcome, s.calls[c].ceiling);
      SettlementIsFaithful(s.calls[c].stage.outcome, s.calls[c].ceiling);
      if settled.Some? {
        CloseKeepsInv(s, c, settled.value.consumed, settled.value.state);
      }
    case Reserve(c) => ReserveKeepsInv(s, c);
    case _ =>
  }

  lemma ReserveKeepsInv(s: State, c: nat)
    requires Inv(s) && Enabled(s, Event.Reserve(c))
    ensures Inv(Apply(s, Event.Reserve(c)))
  {
    assert s.calls[c].key !in s.rows ==> s.calls[c].key !in s.closings;
  }

  lemma CloseKeepsInv(s: State, c: nat, consumed: int, state: BudgetState)
    requires Inv(s) && c in s.calls && (s.calls[c].stage.Rooted? || s.calls[c].stage.Launched?)
    requires consumed <= s.calls[c].ceiling && state != Open
    ensures Inv(CloseRow(Leave(s, c), s.calls[c].key, consumed, state))
  {
    AppendDistinct(s.closings, s.calls[c].key);
  }

  lemma {:induction false} RunKeepsInv(es: seq<Event>)
    requires Run(es).Some?
    ensures Inv(Run(es).value)
  {
    if es != [] {
      RunKeepsInv(es[..|es| - 1]);
      StepKeepsInv(Run(es[..|es| - 1]).value, es[|es| - 1]);
    }
  }

  /** At most once: whatever calls interleave and die, the adapter is launched at most once per
      campaign, program, revision, detector, target and attempt, and only under a reservation. */
  lemma AdapterRunsAtMostOnce(es: seq<Event>)
    requires Run(es).Some?
    ensures Distinct(Run(es).value.launches)
    ensures forall k :: k in Run(es).value.launches ==> k in Run(es).value.rows
  {
    RunKeepsInv(es);
  }

  /** A reservation leaves `reserved` exactly once, and is never closed for more than it holds. */
  lemma ReservationsCloseOnce(es: seq<Event>)
    requires Run(es).Some?
    ensures var s := Run(es).value;
            && Distinct(s.closings)
            && forall k :: k in s.rows ==>
                 && (s.rows[k].state != Open <==> k in s.closings)
                 && s.rows[k].consumed <= s.rows[k].reserved
  {
    RunKeepsInv(es);
  }

  // The key is reserved and no live call holds it past its gates.
  ghost predicate Spent(s: State, key: RunKey) {
    key in s.rows && forall c :: c in s.calls && s.calls[c].key == key ==> s.calls[c].stage.Gated?
  }

  lemma StepKeepsSpent(s: State, e: Event, key: RunKey)
    requires Inv(s) && Enabled(s, e) && Spent(s, key)
    ensures var s' := Apply(s, e);
            Spent(s', key) && s'.rows[key] == s.rows[key] && (key in s'.launches <==> key in s.launches)
  {
  }

  /** Once its call has returned or died, a key is never launched again and its reservation never
      changes again, open or closed: a retry after a crash needs a new attempt number. */
  lemma {:induction false} SpentKeyStaysSpent(es: seq<Event>, k: nat, key: RunKey)
    requires Run(es).Some? && k <= |es|
    requires Run(es[..k]).Some? && Spent(Run(es[..k]).value, key)
    ensures var s, s' := Run(es[..k]).value, Run(es).value;
            Spent(s', key) && s'.rows[key] == s.rows[key] && (key in s'.launches <==> key in s.launches)
  {
    if k == |es| {
      assert es[..k] == es;
    } else {
      var last := |es| - 1;
      assert es[..last][..k] == es[..k];
      SpentKeyStaysSpent(es[..last], k, key);
      RunKeepsInv(es[..last]);
      StepKeepsSpent(Run(es[..last]).value, es[last], key);
    }
  }
}
