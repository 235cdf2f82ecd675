/** The durable night scheduler: per-program queues with backoff, leases, revisions, a deadline and
    exhaustion. Every operation reopens the state file, changes it and replaces it atomically. */
module NightScheduler {
  import opened Basics
  import opened Ordering

  datatype Work = Work(id: string, program: string, duration: nat, revision: Option<string>, lease: Option<string>)

  datatype Program = Program(
    ready: bool, revision: string, lease: Option<string>,
    pending: seq<Work>, completed: seq<string>,
    backoffUntil: Option<real>, noProgress: nat, exhausted: bool,
    lastRound: nat, rank: int, exhaustOnEmpty: bool)

  // `order` is the dictionary's insertion order.
  datatype State = State(
    deadline: real, now: real, round: nat, draining: bool,
    order: seq<string>, programs: map<string, Program>)

  datatype Outcome = Outcome(workId: string, program: string, progress: bool, retryAfter: Option<nat>)

  datatype Error = ClockMovedBack | NoSuchProgram | WorkNotCurrent | BadRetryAfter | OutcomeMismatch

  const EIGHT_HOURS := 28800.0

  /** Queues hold only their own program's work, and the order lists every program once. */
  ghost predicate WellFormed(s: State) {
    && Distinct(s.order)
    && (forall p :: p in s.order <==> p in s.programs)
    && (forall p, i :: p in s.programs && 0 <= i < |s.programs[p].pending| ==> s.programs[p].pending[i].program == p)
  }

  // ----- selection

  predicate Eligible(s: State, p: string) {
    && p in s.programs
    && var g := s.programs[p];
    && g.ready
    && g.lease.Some? && g.lease.value != ""
    && g.pending != []
    && !g.exhausted
    && (g.pending[0].revision == None || g.pending[0].revision == Some(g.revision))
    && (g.pending[0].lease == None || g.pending[0].lease == g.lease)
    && (g.backoffUntil == None || s.now >= g.backoffUntil.value)
    && s.now + g.pending[0].duration as real <= s.deadline
  }

  datatype Key = Key(round: nat, rank: int, id: string)

  predicate KeyLeq(a: Key, b: Key) {
    a.round < b.round
    || (a.round == b.round && (a.rank < b.rank || (a.rank == b.rank && StrLeq(a.id, b.id))))
  }

  lemma KeyOrderIsTotal()
    ensures TotalOrder(KeyLeq)
  {
    forall a: Key, b: Key ensures KeyLeq(a, b) || KeyLeq(b, a) {
      StrTotal(a.id, b.id);
    }
    forall a: Key, b: Key, c: Key | KeyLeq(a, b) && KeyLeq(b, c) ensures KeyLeq(a, c) {
      if StrLeq(a.id, b.id) && StrLeq(b.id, c.id) {
        StrTransitive(a.id, b.id, c.id);
      }
    }
  }

  function KeyOf(s: State, p: string): Key {
    if p in s.programs then Key(s.programs[p].lastRound, s.programs[p].rank, p) else Key(0, 0, p)
  }

  function EligibleKeys(s: State, order: seq<string>): seq<Key> {
    if order == [] then []
    else
      var before := EligibleKeys(s, order[..|order| - 1]);
      var p := order[|order| - 1];
      if Eligible(s, p) then before + [KeyOf(s, p)] else before
  }

  function IdsOf(keys: seq<Key>): seq<string> {
    seq(|keys|, i requires 0 <= i < |keys| => keys[i].id)
  }

  function Selected(s: State): seq<string> {
    if s.draining then [] else IdsOf(Sort(EligibleKeys(s, s.order), KeyLeq))
  }

  lemma {:induction false} EligibleKeysExact(s: State, order: seq<string>)
    requires Distinct(order)
    ensures var ks := EligibleKeys(s, order);
            && Distinct(ks)
            && (forall k :: k in ks <==> k.id in order && Eligible(s, k.id) && k == KeyOf(s, k.id))
  {
    if order != [] {
      EligibleKeysExact(s, order[..|order| - 1]);
      assert order == order[..|order| - 1] + [order[|order| - 1]];
    }
  }

  /** A round selects exactly the eligible programs, each once, least recently scheduled first, ties
      by fairness rank and then by name. */
  lemma SelectionIsExact(s: State)
    requires WellFormed(s)
    ensures forall p :: p in Selected(s) <==> !s.draining && Eligible(s, p)
    ensures Distinct(Selected(s))
    ensures forall i, j :: 0 <= i < j < |Selected(s)| ==>
              KeyLeq(KeyOf(s, Selected(s)[i]), KeyOf(s, Selected(s)[j]))
  {
    var ks := EligibleKeys(s, s.order);
    var sorted := Sort(ks, KeyLeq);
    EligibleKeysExact(s, s.order);
    KeyOrderIsTotal();
    SortSorts(ks, KeyLeq);
    SortKeepsElements(ks, KeyLeq);
    PermutationKeepsDistinct(ks, sorted);
    if !s.draining {
      var ids := Selected(s);
      forall i | 0 <= i < |ids| ensures ids[i] == sorted[i].id && sorted[i] == KeyOf(s, ids[i]) && Eligible(s, ids[i]) {
        assert sorted[i] in sorted;
      }
      forall p | Eligible(s, p) ensures p in ids {
        assert KeyOf(s, p) in sorted;
        var i :| 0 <= i < |sorted| && sorted[i] == KeyOf(s, p);
        assert ids[i] == p;
      }
    }
  }

  function HeadsOf(s: State, ids: seq<string>): seq<Work>
    requires forall p :: p in ids ==> p in s.programs && s.programs[p].pending != []
  {
    seq(|ids|, i requires 0 <= i < |ids| => s.programs[ids[i]].pending[0])
  }

  // ----- operations, on values

  function AfterAdvance(s: State, now: real): State {
    s.(now := now, round := s.round + 1, draining := now >= s.deadline)
  }

  function AfterSelect(s: State): State {
    if s.draining then s
    else s.(programs := map p | p in s.programs ::
              if Eligible(s, p) then s.programs[p].(lastRound := s.round) else s.programs[p])
  }

  function Completed(g: Program, progress: bool): Program
    requires g.pending != []
  {
    var n := if progress then 0 else g.noProgress + 1;
    g.(pending := g.pending[1..], completed := g.completed + [g.pending[0].id], noProgress := n,
       exhausted := g.exhausted || n >= 2 || (g.exhaustOnEmpty && |g.pending| == 1 && !progress))
  }

  function AfterComplete(s: State, w: Work, progress: bool): Result<State, Error> {
    if w.program !in s.programs then Err(NoSuchProgram)
    else
      var g := s.programs[w.program];
      if g.pending == [] || g.pending[0].id != w.id then Err(WorkNotCurrent)
      else Ok(s.(programs := s.programs[w.program := Completed(g, progress)]))
  }

  function AfterRateLimit(s: State, p: string, seconds: int): Result<State, Error> {
    if seconds < 1 then Err(BadRetryAfter)
    else if p !in s.programs then Err(NoSuchProgram)
    else Ok(s.(programs := s.programs[p := s.programs[p].(backoffUntil := Some(s.now + seconds as real))]))
  }

  function Rebound(g: Program, revision: Option<string>, lease: Option<string>): seq<Work> {
    seq(|g.pending|, i requires 0 <= i < |g.pending| =>
      g.pending[i].(revision := if revision.Some? then revision else g.pending[i].revision,
                    lease := if lease.Some? then lease else g.pending[i].lease))
  }

  function AfterReplaceRevision(s: State, p: string, revision: string, lease: string): Result<State, Error> {
    if p !in s.programs then Err(NoSuchProgram)
    else
      var g := s.programs[p];
      Ok(s.(programs := s.programs[p :=
        g.(revision := revision, lease := Some(lease), pending := Rebound(g, Some(revision), Some(lease)))]))
  }

  function AfterSetReady(s: State, p: string, ready: bool, lease: Option<string>): Result<State, Error> {
    if p !in s.programs then Err(NoSuchProgram)
    else
      var g := s.programs[p];
      Ok(s.(programs := s.programs[p :=
        g.(ready := ready, lease := if lease.Some? then lease else g.lease, pending := Rebound(g, None, lease))]))
  }

  function AfterReplaceLease(s: State, p: string, lease: string): Result<State, Error> {
    if p !in s.programs then Err(NoSuchProgram)
    else
      var g := s.programs[p];
      Ok(s.(programs := s.programs[p := g.(lease := Some(lease), pending := Rebound(g, None, Some(lease)))]))
  }

  // One matching attempt, ingested: the backoff, if any, then the completion.
  function Attempted(g: Program, now: real, o: Outcome): Program
    requires g.pending != []
  {
    Completed(
      if o.retryAfter.Some? then g.(backoffUntil := Some(now + o.retryAfter.value as real)) else g,
      o.progress)
  }

  predicate Matches(w: Work, o: Outcome) {
    o.workId == w.id && o.program == w.program && (o.retryAfter.Some? ==> o.retryAfter.value >= 1)
  }

  /** A whole round in closed form: the first `n` selected programs each have exactly their head
      attempted, and nothing else changes. */
  ghost function AfterAttempts(s: State, ids: seq<string>, n: nat, executor: Work -> Outcome): State
    requires n <= |ids| && forall p :: p in ids ==> p in s.programs && s.programs[p].pending != []
  {
    s.(programs := map p | p in s.programs ::
         if p in ids[..n] then Attempted(s.programs[p], s.now, executor(s.programs[p].pending[0]))
         else s.programs[p])
  }

  // ----- the scheduler object

  class DurableNightScheduler {
    var state: State

    constructor (startedAt: real, order: seq<string>, programs: map<string, Program>)
      ensures state == State(startedAt + EIGHT_HOURS, startedAt, 0, false, order, programs)
    {
      state := State(startedAt + EIGHT_HOURS, startedAt, 0, false, order, programs);
    }

    method Advance(now: real) returns (r: Result<(), Error>)
      modifies this
      ensures r == if now >= old(state).now then Ok(()) else Err(ClockMovedBack)
      ensures state == if r.Ok? then AfterAdvance(old(state), now) else old(state)
    {
      if now < state.now {
        return Err(ClockMovedBack);
      }
      state := state.(now := now, round := state.round + 1, draining := now >= state.deadline);
      r := Ok(());
    }

    method Select() returns (works: seq<Work>)
      requires WellFormed(state)
      modifies this
      ensures state == AfterSelect(old(state)) && WellFormed(state)
      ensures |works| == |Selected(old(state))|
      ensures forall i :: 0 <= i < |works| ==>
                && Eligible(old(state), Selected(old(state))[i])
                && works[i] == old(state).programs[Selected(old(state))[i]].pending[0]
    {
      if state.draining {
        return [];
      }
      var eligible: seq<Key> := [];
      for i := 0 to |state.order|
        invariant eligible == EligibleKeys(state, state.order[..i])
      {
        assert state.order[..i + 1][..i] == state.order[..i];
        if Eligible(state, state.order[i]) {
          eligible := eligible + [KeyOf(state, state.order[i])];
        }
      }
      assert state.order[..|state.order|] == state.order;
      eligible := Sort(eligible, KeyLeq);
      SelectionIsExact(state);
      var ids := IdsOf(eligible);
      assert ids == Selected(state);
      works := HeadsOf(state, ids);
      state := state.(programs := map p | p in state.programs ::
                        if p in ids then state.programs[p].(lastRound := state.round) else state.programs[p]);
      assert state.programs == AfterSelect(old(state)).programs;
    }

    method Complete(w: Work, progress: bool) returns (r: Result<(), Error>)
      modifies this
      ensures r.Ok? <==> AfterComplete(old(state), w, progress).Ok?
      ensures r.Err? ==> r.error == AfterComplete(old(state), w, progress).error
      ensures state == if r.Ok? then AfterComplete(old(state), w, progress).value else old(state)
    {
      if w.program !in state.programs {
        return Err(NoSuchProgram);
      }
      var g := state.programs[w.program];
      if g.pending == [] || g.pending[0].id != w.id {
        return Err(WorkNotCurrent);
      }
      var pending := g.pending[1..];
      var noProgress := if progress then 0 else g.noProgress + 1;
      var exhausted := g.exhausted;
      if noProgress >= 2 || (g.exhaustOnEmpty && pending == [] && !progress) {
        exhausted := true;
      }
      state := state.(programs := state.programs[w.program :=
        g.(pending := pending, completed := g.completed + [w.id], noProgress := noProgress, exhausted := exhausted)]);
      r := Ok(());
    }

    method RateLimit(p: string, seconds: int) returns (r: Result<real, Error>)
      modifies this
      ensures r.Ok? <==> AfterRateLimit(old(state), p, seconds).Ok?
      ensures r.Err? ==> r.error == AfterRateLimit(old(state), p, seconds).error
      ensures state == if r.Ok? then AfterRateLimit(old(state), p, seconds).value else old(state)
      ensures r.Ok? ==> r.value == state.now + seconds as real && state.programs[p].backoffUntil == Some(r.value)
    {
      if seconds < 1 {
        return Err(BadRetryAfter);
      }
      if p !in state.programs {
        return Err(NoSuchProgram);
      }
      var until := state.now + seconds as real;
      state := state.(programs := state.programs[p := state.programs[p].(backoffUntil := Some(until))]);
      r := Ok(until);
    }

    method ReplaceRevision(p: string, revision: string, lease: string) returns (r: Result<(), Error>)
      modifies this
      ensures r == if p in old(state).programs then Ok(()) else Err(NoSuchProgram)
      ensures state == if r.Ok? then AfterReplaceRevision(old(state), p, revision, lease).value else old(state)
    {
      if p !in state.programs {
        return Err(NoSuchProgram);
      }
      var g := state.programs[p].(revision := revision, lease := Some(lease));
      g := g.(pending := Rebound(g, Some(revision), Some(lease)));
      state := state.(programs := state.programs[p := g]);
      r := Ok(());
    }

    method SetReady(p: string, ready: bool, lease: Option<string>) returns (r: Result<(), Error>)
      modifies this
      ensures r == if p in old(state).programs then Ok(()) else Err(NoSuchProgram)
      ensures state == if r.Ok? then AfterSetReady(old(state), p, ready, lease).value else old(state)
    {
      if p !in state.programs {
        return Err(NoSuchProgram);
      }
      var g := state.programs[p].(ready := ready);
      if lease.Some? {
        g := g.(lease := lease);
      }
      g := g.(pending := Rebound(g, None, lease));
      state := state.(programs := state.programs[p := g]);
      r := Ok(());
    }

    method ReplaceLease(p: string, lease: string) returns (r: Result<(), Error>)
      modifies this
      ensures r == if p in old(state).programs then Ok(()) else Err(NoSuchProgram)
      ensures state == if r.Ok? then AfterReplaceLease(old(state), p, lease).value else old(state)
    {
      if p !in state.programs {
        return Err(NoSuchProgram);
      }
      var g := state.programs[p].(lease := Some(lease));
      g := g.(pending := Rebound(g, None, Some(lease)));
      state := state.(programs := state.programs[p := g]);
      r := Ok(());
    }

    /** Ingest one attempt of a program's head: rate limit first, if asked, then completion. */
    method Ingest(work: Work, o: Outcome)
      requires work.program in state.programs && Matches(work, o)
      requires state.programs[work.program].pending != [] && state.programs[work.program].pending[0] == work
      modifies this
      ensures state == old(state).(programs := old(state).programs[work.program :=
                         Attempted(old(state).programs[work.program], old(state).now, o)])
    {
      if o.retryAfter.Some? {
        var limited := RateLimit(work.program, o.retryAfter.value);
      }
      var done := Complete(work, o.progress);
    }

    /** One round. It fails only at the first outcome that does not match its work, with every earlier
        one ingested; otherwise each selected program completes exactly its head. */
    method DispatchRound(executor: Work -> Outcome) returns (r: Result<seq<Outcome>, Error>, ghost n: nat)
      requires WellFormed(state)
      modifies this
      ensures Dispatched(AfterSelect(old(state)), Selected(old(state)), executor, n)
      ensures state == AfterAttempts(AfterSelect(old(state)), Selected(old(state)), n, executor)
      ensures r == if n == |Selected(old(state))|
                   then Ok(Outcomes(AfterSelect(old(state)), Selected(old(state)), executor))
                   else Err(OutcomeMismatch)
    {
      ghost var ids := Selected(state);
      SelectionIsExact(state);
      var works := Select();
      assert works == HeadsOf(state, ids);
      r, n := LaunchAll(works, executor, ids);
    }

    // Ingest extends the closed form by one program.
    method IngestNext(work: Work, o: Outcome, ghost s: State, ghost ids: seq<string>, ghost i: nat,
                      ghost executor: Work -> Outcome)
      requires WellFormed(s) && Selectable(s, ids) && Distinct(ids) && i < |ids|
      requires state == AfterAttempts(s, ids, i, executor)
      requires work == Head(s, ids[i]) && o == executor(work) && Matches(work, o)
      modifies this
      ensures state == AfterAttempts(s, ids, i + 1, executor)
    {
      AttemptOneMore(s, ids, i, executor);
      Ingest(work, o);
    }

    /** The loop of a round over its selected works. */
    method LaunchAll(works: seq<Work>, executor: Work -> Outcome, ghost ids: seq<string>)
      returns (r: Result<seq<Outcome>, Error>, ghost n: nat)
      requires WellFormed(state) && Selectable(state, ids) && Distinct(ids) && works == HeadsOf(state, ids)
      modifies this
      ensures Dispatched(old(state), ids, executor, n)
      ensures state == AfterAttempts(old(state), ids, n, executor)
      ensures r == if n == |ids| then Ok(Outcomes(old(state), ids, executor)) else Err(OutcomeMismatch)
    {
      ghost var s := state;
      var outcomes := [];
      n := 0;
      assert AfterAttempts(s, ids, 0, executor).programs == s.programs;
      for i := 0 to |works|
        invariant n == i
        invariant forall j :: 0 <= j < i ==> Matches(Head(s, ids[j]), executor(Head(s, ids[j])))
        invariant state == AfterAttempts(s, ids, i, executor)
        invariant outcomes == Outcomes(s, ids[..i], executor)
      {
        var work := works[i];
        var o := executor(work);
        if !Matches(work, o) {
          return Err(OutcomeMismatch), n;
        }
        OneMoreOutcome(s, ids, i, executor);
        IngestNext(work, o, s, ids, i, executor);
        outcomes := outcomes + [o];
        n := n + 1;
      }
      assert ids[..|ids|] == ids;
      r := Ok(outcomes);
    }
  }

  /** Exactly the first `n` outcomes were ingested: they match, and the next one, if any, does not. */
  ghost predicate Dispatched(s: State, ids: seq<string>, executor: Work -> Outcome, n: nat) {
    && n <= |ids| && Selectable(s, ids)
    && (forall i :: 0 <= i < n ==> Matches(Head(s, ids[i]), executor(Head(s, ids[i]))))
    && (n < |ids| ==> !Matches(Head(s, ids[n]), executor(Head(s, ids[n]))))
  }

  ghost function Outcomes(s: State, ids: seq<string>, executor: Work -> Outcome): seq<Outcome>
    requires Selectable(s, ids)
  {
    seq(|ids|, i requires 0 <= i < |ids| => executor(Head(s, ids[i])))
  }

  ghost predicate Selectable(s: State, ids: seq<string>) {
    forall p :: p in ids ==> p in s.programs && s.programs[p].pending != []
  }

  function Head(s: State, p: string): Work
    requires p in s.programs && s.programs[p].pending != []
  {
    s.programs[p].pending[0]
  }

  lemma OneMoreOutcome(s: State, ids: seq<string>, n: nat, executor: Work -> Outcome)
    requires n < |ids| && Selectable(s, ids)
    ensures Outcomes(s, ids[..n + 1], executor) == Outcomes(s, ids[..n], executor) + [executor(Head(s, ids[n]))]
  {
  }

  lemma AttemptOneMore(s: State, ids: seq<string>, n: nat, executor: Work -> Outcome)
    requires n < |ids| && Distinct(ids) && Selectable(s, ids)
    ensures var a := AfterAttempts(s, ids, n, executor);
            && a.programs[ids[n]] == s.programs[ids[n]]
            && AfterAttempts(s, ids, n + 1, executor) ==
                 a.(programs := a.programs[ids[n] := Attempted(s.programs[ids[n]], s.now, executor(Head(s, ids[n])))])
  {
    assert ids[..n + 1] == ids[..n] + [ids[n]];
    var a, b := AfterAttempts(s, ids, n, executor), AfterAttempts(s, ids, n + 1, executor);
    assert b.programs ==
      a.programs[ids[n] := Attempted(s.programs[ids[n]], s.now, executor(Head(s, ids[n])))];
  }
}
