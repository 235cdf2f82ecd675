/** What holds over every sequence of scheduler operations. */
module NightRuns {
  import opened Basics
  import opened NightScheduler

  datatype Op =
    | Advance(now: real)
    | Select
    | Complete(work: Work, progress: bool)
    | RateLimit(program: string, seconds: int)
    | ReplaceRevision(program: string, revision: string, lease: string)
    | SetReady(program: string, ready: bool, newLease: Option<string>)
    | ReplaceLease(program: string, lease: string)
    | Round(outcomes: map<string, Outcome>)     // dispatch_round, by program

  function OutcomeOf(outcomes: map<string, Outcome>): Work -> Outcome {
    (w: Work) => if w.program in outcomes then outcomes[w.program] else Outcome(w.id, w.program, false, None)
  }

  function OrElse(r: Result<State, Error>, s: State): State {
    if r.Ok? then r.value else s
  }

  // How many of the selected works are ingested before the first mismatch.
  function Ingested(s: State, ids: seq<string>, executor: Work -> Outcome): nat
    requires forall p :: p in ids ==> p in s.programs && s.programs[p].pending != []
    ensures Ingested(s, ids, executor) <= |ids|
  {
    if ids == [] || !Matches(Head(s, ids[0]), executor(Head(s, ids[0]))) then 0
    else 1 + Ingested(s, ids[1..], executor)
  }

  /** One operation; one that raises leaves the state file as it was. */
  ghost function Step(s: State, op: Op): State
    requires WellFormed(s)
  {
    match op
    case Advance(now) => if now < s.now then s else AfterAdvance(s, now)
    case Select => AfterSelect(s)
    case Complete(w, progress) => OrElse(AfterComplete(s, w, progress), s)
    case RateLimit(p, seconds) => OrElse(AfterRateLimit(s, p, seconds), s)
    case ReplaceRevision(p, revision, lease) => OrElse(AfterReplaceRevision(s, p, revision, lease), s)
    case SetReady(p, ready, lease) => OrElse(AfterSetReady(s, p, ready, lease), s)
    case ReplaceLease(p, lease) => OrElse(AfterReplaceLease(s, p, lease), s)
    case Round(outcomes) => AfterRound(s, outcomes)
  }

  ghost function AfterRound(s: State, outcomes: map<string, Outcome>): State
    requires WellFormed(s)
  {
    SelectionIsExact(s);
    var t := AfterSelect(s);
    AfterAttempts(t, Selected(s), Ingested(t, Selected(s), OutcomeOf(outcomes)), OutcomeOf(outcomes))
  }

  /** The closed form of a round is what the dispatch method leaves behind. */
  lemma {:induction false} IngestedIsFirstMismatch(s: State, ids: seq<string>, executor: Work -> Outcome, n: nat)
    requires Dispatched(s, ids, executor, n)
    ensures Ingested(s, ids, executor) == n
  {
    if n > 0 {
      assert forall i :: 0 <= i < n - 1 ==> ids[1..][i] == ids[i + 1];
      IngestedIsFirstMismatch(s, ids[1..], executor, n - 1);
    }
  }

  // ----- one program's change, whatever the operation

  /** What any operation may do to one program. */
  ghost predicate MayChange(g: Program, g': Program, p: string) {
    && Works(g') == Works(g)
    && (g.exhausted ==> g'.exhausted)
    && (BoundToCurrent(g) ==> BoundToCurrent(g'))
    && (OwnQueue(g, p) ==> OwnQueue(g', p))
    && |g'.pending| <= |g.pending|
  }

  // Everything this program was ever given, in order.
  function Works(g: Program): seq<string> {
    g.completed + seq(|g.pending|, i requires 0 <= i < |g.pending| => g.pending[i].id)
  }

  ghost predicate BoundToCurrent(g: Program) {
    forall i :: 0 <= i < |g.pending| ==>
      && (g.pending[i].revision == None || g.pending[i].revision == Some(g.revision))
      && (g.pending[i].lease == None || g.pending[i].lease == g.lease)
  }

  ghost predicate OwnQueue(g: Program, p: string) {
    forall i :: 0 <= i < |g.pending| ==> g.pending[i].program == p
  }

  lemma CompletedChange(g: Program, progress: bool, p: string)
    requires g.pending != []
    ensures MayChange(g, Completed(g, progress), p)
  {
  }

  lemma AttemptedChange(g: Program, now: real, o: Outcome, p: string)
    requires g.pending != []
    ensures MayChange(g, Attempted(g, now, o), p)
  {
    var h := if o.retryAfter.Some? then g.(backoffUntil := Some(now + o.retryAfter.value as real)) else g;
    assert Works(h) == Works(g);
    CompletedChange(h, o.progress, p);
  }

  ghost predicate StepAllowed(s: State, s': State) {
    && s'.order == s.order && s'.programs.Keys == s.programs.Keys
    && s'.deadline == s.deadline && s'.now >= s.now && s'.round >= s.round
    && forall p :: p in s.programs ==> MayChange(s.programs[p], s'.programs[p], p)
  }

  // A change that leaves the queue, its bindings and its history alone.
  lemma FlagsChange(g: Program, g': Program, p: string)
    requires g'.pending == g.pending && g'.completed == g.completed && g'.exhausted == g.exhausted
    requires g'.revision == g.revision && g'.lease == g.lease
    ensures MayChange(g, g', p)
  {
  }

  lemma ReboundChange(g: Program, g': Program, p: string, revision: Option<string>, lease: Option<string>)
    requires g'.pending == Rebound(g, revision, lease)
    requires g'.completed == g.completed && g'.exhausted == g.exhausted
    requires g'.revision == (if revision.Some? then revision.value else g.revision)
    requires g'.lease == (if lease.Some? then lease else g.lease)
    ensures MayChange(g, g', p)
  {
    assert Works(g') == Works(g);
  }

  lemma RoundChanges(s: State, outcomes: map<string, Outcome>, p: string)
    requires WellFormed(s) && p in s.programs
    ensures MayChange(s.programs[p], AfterRound(s, outcomes).programs[p], p)
  {
    SelectionIsExact(s);
    var t := AfterSelect(s);
    var g := t.programs[p];
    FlagsChange(s.programs[p], g, p);
    if AfterRound(s, outcomes).programs[p] != g {
      var o := OutcomeOf(outcomes)(g.pending[0]);
      AttemptedChange(g, t.now, o, p);
      ChangesCompose(s.programs[p], g, Attempted(g, t.now, o), p);
    }
  }

  lemma ChangesCompose(a: Program, b: Program, c: Program, p: string)
    requires MayChange(a, b, p) && MayChange(b, c, p)
    ensures MayChange(a, c, p)
  {
  }

  /** No operation loses, duplicates or reorders a program's works, revives an exhausted program, or
      leaves a pending work bound to a superseded revision or lease. */
  lemma EveryStepIsAllowed(s: State, op: Op)
    requires WellFormed(s)
    ensures StepAllowed(s, Step(s, op))
  {
    StepKeepsClock(s, op);
    forall p | p in s.programs ensures MayChange(s.programs[p], Step(s, op).programs[p], p) {
      ProgramChange(s, op, p);
    }
  }

  lemma StepKeepsClock(s: State, op: Op)
    requires WellFormed(s)
    ensures var s' := Step(s, op);
            && s'.order == s.order && s'.programs.Keys == s.programs.Keys
            && s'.deadline == s.deadline && s'.now >= s.now && s'.round >= s.round
  {
  }

  lemma ProgramChange(s: State, op: Op, p: string)
    requires WellFormed(s) && p in s.programs
    ensures p in Step(s, op).programs && MayChange(s.programs[p], Step(s, op).programs[p], p)
  {
    var g := s.programs[p];
    FlagsChange(g, g, p);
    match op
    case Round(outcomes) => RoundChanges(s, outcomes, p);
    case Complete(w, progress) =>
      if p == w.program && g.pending != [] {
        CompletedChange(g, progress, p);
      }
    case ReplaceRevision(_, _, _) => RebindingChange(s, op, p);
    case SetReady(_, _, _) => RebindingChange(s, op, p);
    case ReplaceLease(_, _) => RebindingChange(s, op, p);
    case _ => FlagsChange(g, Step(s, op).programs[p], p);
  }

  lemma RebindingChange(s: State, op: Op, p: string)
    requires WellFormed(s) && p in s.programs && (op.ReplaceRevision? || op.SetReady? || op.ReplaceLease?)
    ensures p in Step(s, op).programs && MayChange(s.programs[p], Step(s, op).programs[p], p)
  {
    var g := s.programs[p];
    if p != op.program {
      FlagsChange(g, g, p);
    } else {
      var revision := if op.ReplaceRevision? then Some(op.revision) else None;
      var lease := if op.SetReady? then op.newLease else Some(op.lease);
      ReboundChange(g, Step(s, op).programs[p], p, revision, lease);
    }
  }

  lemma StepKeepsWellFormed(s: State, op: Op)
    requires WellFormed(s)
    ensures WellFormed(Step(s, op))
  {
    EveryStepIsAllowed(s, op);
    var s' := Step(s, op);
    forall p | p in s'.programs ensures OwnQueue(s'.programs[p], p) {
      assert OwnQueue(s.programs[p], p);
    }
  }

  // One operation, from a well-formed state to a well-formed state.
  ghost function Next(s: State, op: Op): (r: State)
    requires WellFormed(s)
    ensures WellFormed(r)
  {
    StepKeepsWellFormed(s, op);
    Step(s, op)
  }

  ghost function Run(s: State, ops: seq<Op>): (r: State)
    requires WellFormed(s)
    ensures WellFormed(r)
  {
    if ops == [] then s
    else
      Next(Run(s, ops[..|ops| - 1]), ops[|ops| - 1])
  }

  // ----- main results

  /** Conservation over every run: `completed ++ ids(pending)` of each program never changes, bindings
      stay current once they are, and exhaustion is absorbing. */
  lemma {:induction false} WorkIsConserved(s: State, ops: seq<Op>, p: string)
    requires WellFormed(s) && p in s.programs
    ensures var s' := Run(s, ops);
            && p in s'.programs
            && Works(s'.programs[p]) == Works(s.programs[p])
            && (BoundToCurrent(s.programs[p]) ==> BoundToCurrent(s'.programs[p]))
            && (s.programs[p].exhausted ==> s'.programs[p].exhausted)
  {
    if ops != [] {
      WorkIsConserved(s, ops[..|ops| - 1], p);
      EveryStepIsAllowed(Run(s, ops[..|ops| - 1]), ops[|ops| - 1]);
    }
  }

  /** If a program was given distinct works, none is ever completed twice. */
  lemma NothingCompletesTwice(s: State, ops: seq<Op>, p: string)
    requires WellFormed(s) && p in s.programs && Distinct(Works(s.programs[p]))
    ensures p in Run(s, ops).programs && Distinct(Run(s, ops).programs[p].completed)
  {
    WorkIsConserved(s, ops, p);
    var g := Run(s, ops).programs[p];
    assert forall i :: 0 <= i < |g.completed| ==> g.completed[i] == Works(g)[i];
  }

  /** Draining is absorbing: once the clock has passed the deadline nothing is selected again. */
  lemma {:induction false} DrainingIsAbsorbing(s: State, ops: seq<Op>)
    requires WellFormed(s) && s.draining && s.now >= s.deadline
    ensures var s' := Run(s, ops); s'.draining && s'.now >= s'.deadline && Selected(s') == []
  {
    if ops != [] {
      DrainingIsAbsorbing(s, ops[..|ops| - 1]);
    }
  }

  /** Safety of every selection in every run: the work fits before the deadline, its program is ready,
      leased and not exhausted, and the clock is past its latest backoff. */
  lemma SelectionsAreSafe(s: State, ops: seq<Op>, p: string)
    requires WellFormed(s) && p in Selected(Run(s, ops))
    ensures var s' := Run(s, ops);
            && p in s'.programs && s'.programs[p].pending != []
            && var g := s'.programs[p];
            && s'.now + g.pending[0].duration as real <= s.deadline
            && g.ready && g.lease.Some? && !g.exhausted
            && (g.backoffUntil.Some? ==> s'.now >= g.backoffUntil.value)
            && BoundHead(g)
  {
    SelectionIsExact(Run(s, ops));
    DeadlineIsFixed(s, ops);
  }

  predicate BoundHead(g: Program)
    requires g.pending != []
  {
    && (g.pending[0].revision.Some? ==> g.pending[0].revision.value == g.revision)
    && (g.pending[0].lease.Some? ==> g.pending[0].lease == g.lease)
  }

  lemma {:induction false} DeadlineIsFixed(s: State, ops: seq<Op>)
    requires WellFormed(s)
    ensures Run(s, ops).deadline == s.deadline && Run(s, ops).now >= s.now
  {
    if ops != [] {
      DeadlineIsFixed(s, ops[..|ops| - 1]);
      EveryStepIsAllowed(Run(s, ops[..|ops| - 1]), ops[|ops| - 1]);
    }
  }

  // ----- backoff

  /** The Retry-After an operation imposes on a program, in seconds: directly, or through the outcome a
      round ingests for it. */
  ghost function ImposedDelay(s: State, op: Op, p: string): Option<int>
    requires WellFormed(s)
  {
    match op
    case RateLimit(q, seconds) => if q == p && p in s.programs && seconds >= 1 then Some(seconds) else None
    case Round(outcomes) => RoundDelay(s, outcomes, p)
    case _ => None
  }

  ghost function RoundDelay(s: State, outcomes: map<string, Outcome>, p: string): Option<int>
    requires WellFormed(s)
  {
    SelectedIsSelectable(s);
    var t, ids := AfterSelect(s), Selected(s);
    var n := Ingested(t, ids, OutcomeOf(outcomes));
    if p in ids[..n] && OutcomeOf(outcomes)(Head(t, p)).retryAfter.Some?
    then Some(OutcomeOf(outcomes)(Head(t, p)).retryAfter.value) else None
  }

  // The backoff after a delay, if any, was imposed at time `now`.
  function Backoff(before: Option<real>, now: real, delay: Option<int>): Option<real> {
    if delay.Some? then Some(now + delay.value as real) else before
  }

  /** A program's backoff changes exactly when a Retry-After is imposed on it, to the time asked for. */
  lemma StepSetsBackoff(s: State, op: Op, p: string)
    requires WellFormed(s) && p in s.programs
    ensures p in Step(s, op).programs
    ensures Step(s, op).programs[p].backoffUntil == Backoff(s.programs[p].backoffUntil, s.now, ImposedDelay(s, op, p))
    ensures ImposedDelay(s, op, p).Some? ==> Step(s, op).now == s.now
  {
    if op.Round? {
      RoundSetsBackoff(s, op.outcomes, p);
      assert Step(s, op) == AfterRound(s, op.outcomes) && ImposedDelay(s, op, p) == RoundDelay(s, op.outcomes, p);
    } else {
      OthersSetBackoff(s, op, p);
    }
  }

  lemma OthersSetBackoff(s: State, op: Op, p: string)
    requires WellFormed(s) && p in s.programs && !op.Round?
    ensures p in Step(s, op).programs
    ensures Step(s, op).programs[p].backoffUntil == Backoff(s.programs[p].backoffUntil, s.now, ImposedDelay(s, op, p))
    ensures ImposedDelay(s, op, p).Some? ==> Step(s, op).now == s.now
  {
  }

  lemma RoundSetsBackoff(s: State, outcomes: map<string, Outcome>, p: string)
    requires WellFormed(s) && p in s.programs
    ensures p in AfterRound(s, outcomes).programs && AfterRound(s, outcomes).now == s.now
    ensures AfterRound(s, outcomes).programs[p].backoffUntil
         == Backoff(s.programs[p].backoffUntil, s.now, RoundDelay(s, outcomes, p))
  {
    SelectedIsSelectable(s);
    SelectKeepsBackoff(s, p);
    RoundSetsBackoffFrom(s, outcomes, p, AfterSelect(s), Selected(s));
  }

  lemma RoundSetsBackoffFrom(s: State, outcomes: map<string, Outcome>, p: string, t: State, ids: seq<string>)
    requires WellFormed(s) && Selectable(t, ids) && t == AfterSelect(s) && ids == Selected(s) && p in t.programs
    ensures p in AfterRound(s, outcomes).programs && AfterRound(s, outcomes).now == t.now
    ensures AfterRound(s, outcomes).programs[p].backoffUntil
         == Backoff(t.programs[p].backoffUntil, t.now, RoundDelay(s, outcomes, p))
  {
    AttemptsSetBackoff(t, ids, Ingested(t, ids, OutcomeOf(outcomes)), OutcomeOf(outcomes), p);
  }

  lemma SelectKeepsBackoff(s: State, p: string)
    requires p in s.programs
    ensures var t := AfterSelect(s);
            p in t.programs && t.now == s.now && t.programs[p].backoffUntil == s.programs[p].backoffUntil
  {
  }

  lemma AttemptsSetBackoff(t: State, ids: seq<string>, n: nat, executor: Work -> Outcome, p: string)
    requires Selectable(t, ids) && n <= |ids| && p in t.programs
    ensures AfterAttempts(t, ids, n, executor).programs[p].backoffUntil
         == if p in ids[..n] && executor(Head(t, p)).retryAfter.Some?
            then Some(t.now + executor(Head(t, p)).retryAfter.value as real) else t.programs[p].backoffUntil
  {
  }

  // No operation of the run imposes a Retry-After on the program.
  ghost predicate Undisturbed(s: State, ops: seq<Op>, p: string)
    requires WellFormed(s)
  {
    ops != [] ==>
      var last := |ops| - 1;
      Undisturbed(s, ops[..last], p) && ImposedDelay(Run(s, ops[..last]), ops[last], p) == None
  }

  lemma {:induction false} UndisturbedKeepsBackoff(s: State, ops: seq<Op>, p: string)
    requires WellFormed(s) && p in s.programs && Undisturbed(s, ops, p)
    ensures p in Run(s, ops).programs && Run(s, ops).programs[p].backoffUntil == s.programs[p].backoffUntil
  {
    if ops != [] {
      var last := |ops| - 1;
      UndisturbedKeepsBackoff(s, ops[..last], p);
      StepSetsBackoff(Run(s, ops[..last]), ops[last], p);
    }
  }

  predicate HasBackoff(s: State, p: string, until: real) {
    p in s.programs && s.programs[p].backoffUntil == Some(until)
  }

  lemma ImposedSetsBackoff(s: State, op: Op, p: string)
    requires WellFormed(s) && p in s.programs && ImposedDelay(s, op, p).Some?
    ensures HasBackoff(Next(s, op), p, s.now + ImposedDelay(s, op, p).value as real) && Next(s, op).now == s.now
  {
    StepSetsBackoff(s, op, p);
  }

  lemma BackoffLasts(s: State, op: Op, p: string, ops: seq<Op>)
    requires WellFormed(s) && p in s.programs && ImposedDelay(s, op, p).Some?
    requires Undisturbed(Next(s, op), ops, p)
    ensures var u := Run(Next(s, op), ops);
            u.now >= s.now && HasBackoff(u, p, s.now + ImposedDelay(s, op, p).value as real)
  {
    ImposedSetsBackoff(s, op, p);
    UndisturbedKeepsBackoff(Next(s, op), ops, p);
    DeadlineIsFixed(Next(s, op), ops);
  }

  /** After a Retry-After, direct or ingested by a round, and until the next one for that program, the
      program is not selected before the time it asked for. */
  lemma RetryAfterIsHonoured(s: State, op: Op, p: string, ops: seq<Op>)
    requires WellFormed(s) && p in s.programs && ImposedDelay(s, op, p).Some?
    requires Undisturbed(Next(s, op), ops, p)
    ensures var t, until := Next(s, op), s.now + ImposedDelay(s, op, p).value as real;
            && HasBackoff(Run(t, ops), p, until)
            && (p in Selected(Run(t, ops)) ==> Run(t, ops).now >= until)
  {
    BackoffLasts(s, op, p, ops);
    SelectionIsExact(Run(Next(s, op), ops));
  }

  /** The later state still keeps the program off until the earlier deadline. */
  predicate DeadlineSurvives(earlier: State, later: State, p: string) {
    && p in earlier.programs && earlier.programs[p].backoffUntil.Some?
    && p in later.programs && later.programs[p].backoffUntil.Some?
    && later.programs[p].backoffUntil.value >= earlier.programs[p].backoffUntil.value
  }

  lemma SurvivalByDeadlines(u: State, v: State, p: string, a: real, b: real)
    requires HasBackoff(u, p, a) && HasBackoff(v, p, b)
    ensures DeadlineSurvives(u, v, p) <==> b >= a
  {
  }

  /** A later Retry-After replaces an earlier one, whatever happened in between: the earlier deadline
      survives exactly when the time that passed plus the later delay reaches the earlier delay. */
  lemma LaterRetryAfterReplacesEarlier(s: State, first: Op, p: string, ops: seq<Op>, u: State, second: Op)
    requires WellFormed(s) && p in s.programs && ImposedDelay(s, first, p).Some?
    requires Undisturbed(Next(s, first), ops, p) && u == Run(Next(s, first), ops)
    requires ImposedDelay(u, second, p).Some?
    ensures var earlier, later := ImposedDelay(s, first, p).value as real, ImposedDelay(u, second, p).value as real;
            && HasBackoff(u, p, s.now + earlier) && HasBackoff(Next(u, second), p, u.now + later) && u.now >= s.now
            && (DeadlineSurvives(u, Next(u, second), p) <==> (u.now - s.now) + later >= earlier)
  {
    BackoffLasts(s, first, p, ops);
    ImposedSetsBackoff(u, second, p);
    SurvivalByDeadlines(u, Next(u, second), p, s.now + ImposedDelay(s, first, p).value as real,
                        u.now + ImposedDelay(u, second, p).value as real);
  }

  // ----- rounds

  ghost predicate BoundedNoProgress(s: State) {
    forall p :: p in s.programs ==> FewFruitless(s.programs[p])
  }

  /** When work is only completed by rounds, no program's no-progress counter ever exceeds two, and it
      stands at two only for an exhausted program. */
  lemma {:induction false} NoProgressIsBounded(s: State, ops: seq<Op>)
    requires WellFormed(s) && BoundedNoProgress(s)
    requires forall i :: 0 <= i < |ops| ==> !ops[i].Complete?
    ensures BoundedNoProgress(Run(s, ops))
  {
    if ops != [] {
      var p := Run(s, ops[..|ops| - 1]);
      NoProgressIsBounded(s, ops[..|ops| - 1]);
      SelectionIsExact(p);
      StepBoundsNoProgress(p, ops[|ops| - 1]);
    }
  }

  predicate FewFruitless(g: Program) {
    g.noProgress < 2 || (g.noProgress == 2 && g.exhausted)
  }

  lemma StepBoundsNoProgress(s: State, op: Op)
    requires WellFormed(s) && BoundedNoProgress(s) && !op.Complete?
    ensures BoundedNoProgress(Step(s, op))
  {
    StepKeepsClock(s, op);
    forall p | p in s.programs ensures FewFruitless(Step(s, op).programs[p]) {
      ProgramBoundsNoProgress(s, op, p);
    }
  }

  lemma ProgramBoundsNoProgress(s: State, op: Op, p: string)
    requires WellFormed(s) && p in s.programs && FewFruitless(s.programs[p]) && !op.Complete?
    ensures p in Step(s, op).programs && FewFruitless(Step(s, op).programs[p])
  {
    if op.Round? {
      RoundBoundsNoProgress(s, op.outcomes, p);
    } else {
      OthersBoundNoProgress(s, op, p);
    }
  }

  lemma OthersBoundNoProgress(s: State, op: Op, p: string)
    requires WellFormed(s) && p in s.programs && FewFruitless(s.programs[p]) && !op.Complete? && !op.Round?
    ensures p in Step(s, op).programs && FewFruitless(Step(s, op).programs[p])
  {
  }

  lemma RoundBoundsNoProgress(s: State, outcomes: map<string, Outcome>, p: string)
    requires WellFormed(s) && p in s.programs && FewFruitless(s.programs[p])
    ensures FewFruitless(AfterRound(s, outcomes).programs[p])
  {
    SelectionIsExact(s);
  }

  // Works still waiting, over all programs.
  function Waiting(s: State, order: seq<string>): nat {
    if order == [] then 0
    else
      var p := order[|order| - 1];
      Waiting(s, order[..|order| - 1]) + if p in s.programs then |s.programs[p].pending| else 0
  }

  lemma {:induction false} WaitingNeverGrows(s: State, s': State, order: seq<string>)
    requires StepAllowed(s, s')
    ensures Waiting(s', order) <= Waiting(s, order)
  {
    if order != [] {
      WaitingNeverGrows(s, s', order[..|order| - 1]);
      var p := order[|order| - 1];
      assert p in s.programs ==> MayChange(s.programs[p], s'.programs[p], p);
    }
  }

  lemma {:induction false} WaitingShrinks(s: State, s': State, order: seq<string>, p: string)
    requires StepAllowed(s, s') && p in order
    requires p in s.programs && |s'.programs[p].pending| < |s.programs[p].pending|
    ensures Waiting(s', order) < Waiting(s, order)
  {
    var last := |order| - 1;
    WaitingNeverGrows(s, s', order[..last]);
    if order[last] != p {
      assert order == order[..last] + [order[last]];
      WaitingShrinks(s, s', order[..last], p);
      assert order[last] in s.programs ==> MayChange(s.programs[order[last]], s'.programs[order[last]], order[last]);
    }
  }

  // A round that launched and ingested at least one work.
  ghost predicate Productive(s: State, op: Op)
    requires WellFormed(s)
  {
    SelectedIsSelectable(s);
    op.Round? && Ingested(AfterSelect(s), Selected(s), OutcomeOf(op.outcomes)) > 0
  }

  ghost function ProductiveRounds(s: State, ops: seq<Op>): nat
    requires WellFormed(s)
  {
    if ops == [] then 0
    else
      ProductiveRounds(s, ops[..|ops| - 1])
      + if Productive(Run(s, ops[..|ops| - 1]), ops[|ops| - 1]) then 1 else 0
  }

  lemma ProductiveRoundConsumes(s: State, op: Op)
    requires WellFormed(s) && Productive(s, op)
    ensures Waiting(Step(s, op), s.order) < Waiting(s, s.order)
  {
    EveryStepIsAllowed(s, op);
    var p := ProductiveProgram(s, op);
    WaitingShrinks(s, Step(s, op), s.order, p);
  }

  lemma ProductiveProgram(s: State, op: Op) returns (p: string)
    requires WellFormed(s) && Productive(s, op)
    ensures p in s.order && p in s.programs && p in Step(s, op).programs
    ensures |Step(s, op).programs[p].pending| < |s.programs[p].pending|
  {
    SelectedIsSelectable(s);
    FirstSelectedShrinks(s, op.outcomes);
    p := Selected(s)[0];
  }

  lemma SelectedIsSelectable(s: State)
    requires WellFormed(s)
    ensures Selectable(AfterSelect(s), Selected(s))
  {
    SelectionIsExact(s);
  }

  lemma FirstSelectedShrinks(s: State, outcomes: map<string, Outcome>)
    requires WellFormed(s) && Selected(s) != []
    requires Selectable(AfterSelect(s), Selected(s))
    requires Ingested(AfterSelect(s), Selected(s), OutcomeOf(outcomes)) > 0
    ensures var p := Selected(s)[0];
            p in s.order && p in s.programs && |AfterRound(s, outcomes).programs[p].pending| < |s.programs[p].pending|
  {
    SelectionIsExact(s);
    var ids := Selected(s);
    var t := AfterSelect(s);
    var n := Ingested(t, ids, OutcomeOf(outcomes));
    var p := ids[0];
    assert p in ids[..n];
    assert |Attempted(t.programs[p], t.now, OutcomeOf(outcomes)(Head(t, p))).pending| < |t.programs[p].pending|;
  }

  /** Rounds that launch anything number at most the works waiting at the start. */
  lemma {:induction false} RoundsAreBounded(s: State, ops: seq<Op>)
    requires WellFormed(s)
    ensures ProductiveRounds(s, ops) + Waiting(Run(s, ops), s.order) <= Waiting(s, s.order)
    ensures Run(s, ops).order == s.order
  {
    if ops != [] {
      var p := Run(s, ops[..|ops| - 1]);
      RoundsAreBounded(s, ops[..|ops| - 1]);
      EveryStepIsAllowed(p, ops[|ops| - 1]);
      WaitingNeverGrows(p, Step(p, ops[|ops| - 1]), s.order);
      if Productive(p, ops[|ops| - 1]) {
        ProductiveRoundConsumes(p, ops[|ops| - 1]);
      }
    }
  }
}
