/** Exactly when a night run launches some work twice. */
module NightRedispatch {
  import opened Basics
  import opened NightScheduler
  import opened NightRuns
  import C = NightCrashes

  /** Among the first `n` launches, those of program `p` that ended in a completion. */
  function Finished(launches: seq<C.Launched>, struck: set<nat>, p: string, n: nat): nat
    requires n <= |launches|
  {
    if n == 0 then 0
    else
      Finished(launches, struck, p, n - 1) + if launches[n - 1].program == p && (n - 1) !in struck then 1 else 0
  }

  lemma {:induction false} FinishedFrame(
    a: seq<C.Launched>, x: set<nat>, b: seq<C.Launched>, y: set<nat>, p: string, n: nat)
    requires n <= |a| && n <= |b| && a[..n] == b[..n] && forall i: nat :: i < n ==> (i in x <==> i in y)
    ensures Finished(a, x, p, n) == Finished(b, y, p, n)
  {
    if n > 0 {
      assert a[..n][..n - 1] == a[..n - 1] && b[..n][..n - 1] == b[..n - 1];
      assert a[..n][n - 1] == a[n - 1] && b[..n][n - 1] == b[n - 1];
      FinishedFrame(a, x, b, y, p, n - 1);
    }
  }

  lemma {:induction false} FinishedGrows(launches: seq<C.Launched>, struck: set<nat>, p: string, m: nat, n: nat)
    requires m <= n <= |launches|
    ensures Finished(launches, struck, p, m) <= Finished(launches, struck, p, n)
    ensures (forall i :: m <= i < n ==> launches[i].program != p) ==>
              Finished(launches, struck, p, m) == Finished(launches, struck, p, n)
  {
    if m < n {
      FinishedGrows(launches, struck, p, m, n - 1);
    }
  }

  // How many launches are over.
  function Over(l: C.Live): int {
    |l.launches| - if l.inFlight then 1 else 0
  }

  /** The launch in flight is the last one, and it is its program's current head. */
  ghost predicate FlightIsLast(l: C.Live) {
    && (l.inFlight ==> l.queue != [] && l.launches != [] && l.launches[|l.launches| - 1] == C.HeadLaunch(l))
    && (forall i :: i in l.struck ==> i < Over(l))
  }

  /** A program has completed what it had at the start plus its finished launches; its works never change. */
  ghost predicate ProgramTallies(l: C.Live, start: State, p: string)
    requires FlightIsLast(l)
  {
    && p in l.s.programs && p in start.programs
    && Works(l.s.programs[p]) == Works(start.programs[p])
    && |l.s.programs[p].completed| == |start.programs[p].completed| + Finished(l.launches, l.struck, p, Over(l))
  }

  /** Each launch handed out the work its program had reached. */
  ghost predicate LaunchTallies(launches: seq<C.Launched>, struck: set<nat>, start: State, i: nat)
    requires i < |launches|
  {
    var x := launches[i];
    && x.program in start.programs
    && x.index == |start.programs[x.program].completed| + Finished(launches, struck, x.program, i)
    && x.index < |Works(start.programs[x.program])| && x.id == Works(start.programs[x.program])[x.index]
  }

  ghost predicate Tallied(l: C.Live, start: State) {
    && FlightIsLast(l) && l.s.programs.Keys == start.programs.Keys
    && (forall p :: p in start.programs ==> ProgramTallies(l, start, p))
    && (forall i: nat :: i < |l.launches| ==> LaunchTallies(l.launches, l.struck, start, i))
  }

  // ----- preservation

  /** Steps that end no flight and complete nothing. */
  lemma QuietKeepsTally(l: C.Live, l': C.Live, start: State)
    requires Tallied(l, start)
    requires l'.launches == l.launches && l'.struck == l.struck && l'.inFlight == l.inFlight
    requires l'.s.programs.Keys == l.s.programs.Keys
    requires l.inFlight ==> l'.queue == l.queue
    requires forall p :: p in l.s.programs ==>
               && Works(l'.s.programs[p]) == Works(l.s.programs[p])
               && |l'.s.programs[p].completed| == |l.s.programs[p].completed|
    ensures Tallied(l', start)
  {
    forall p | p in start.programs ensures ProgramTallies(l', start, p) {
      assert ProgramTallies(l, start, p);
    }
  }

  lemma LaunchKeepsTally(l: C.Live, start: State)
    requires WellFormed(l.s) && C.QueueIsCurrent(l) && C.Enabled(l, C.Launch) && Tallied(l, start)
    ensures Tallied(C.Apply(l, C.Launch), start)
  {
    var l', n := C.Apply(l, C.Launch), |l.launches|;
    assert l'.launches[..n] == l.launches;
    forall p | p in start.programs ensures ProgramTallies(l', start, p) {
      assert ProgramTallies(l, start, p);
      FinishedFrame(l.launches, l.struck, l'.launches, l'.struck, p, n);
    }
    forall i: nat | i < |l'.launches| ensures LaunchTallies(l'.launches, l'.struck, start, i) {
      FinishedFrame(l.launches, l.struck, l'.launches, l'.struck, l'.launches[i].program, i);
      if i < n {
        assert LaunchTallies(l.launches, l.struck, start, i);
      } else {
        HeadIsNextWork(l, start);
      }
    }
  }

  lemma HeadIsNextWork(l: C.Live, start: State)
    requires C.QueueIsCurrent(l) && l.queue != [] && Tallied(l, start)
    ensures var x := C.HeadLaunch(l);
            && x.program in start.programs && x.index < |Works(start.programs[x.program])|
            && x.id == Works(start.programs[x.program])[x.index]
            && x.index == |start.programs[x.program].completed| + Finished(l.launches, l.struck, x.program, Over(l))
  {
    assert ProgramTallies(l, start, l.queue[0].program);
    var g := l.s.programs[l.queue[0].program];
    assert Works(g)[|g.completed|] == g.pending[0].id;
  }

  lemma IngestCompletesOne(l: C.Live, o: Outcome)
    requires WellFormed(l.s) && C.QueueIsCurrent(l) && C.Enabled(l, C.Ingest(o))
    ensures var s' := C.Apply(l, C.Ingest(o)).s;
            && s'.programs.Keys == l.s.programs.Keys
            && forall p :: p in l.s.programs ==>
                 && Works(s'.programs[p]) == Works(l.s.programs[p])
                 && |s'.programs[p].completed| == |l.s.programs[p].completed| + if p == l.queue[0].program then 1 else 0
  {
    var w := l.queue[0];
    C.IngestCompletes(l.s, w, o);
    AttemptedChange(l.s.programs[w.program], l.s.now, o, w.program);
  }

  lemma IngestKeepsTally(l: C.Live, o: Outcome, start: State)
    requires WellFormed(l.s) && C.QueueIsCurrent(l) && C.Enabled(l, C.Ingest(o)) && Tallied(l, start)
    ensures Tallied(C.Apply(l, C.Ingest(o)), start)
  {
    var l' := C.Apply(l, C.Ingest(o));
    IngestCompletesOne(l, o);
    forall p | p in start.programs ensures ProgramTallies(l', start, p) {
      assert ProgramTallies(l, start, p);
    }
  }

  /** An interruption drops the flight without completing it. */
  lemma DropKeepsTally(l: C.Live, start: State)
    requires Tallied(l, start)
    ensures Tallied(C.Dropped(l), start)
  {
    var l' := C.Dropped(l);
    forall p | p in start.programs ensures ProgramTallies(l', start, p) {
      assert ProgramTallies(l, start, p);
      FinishedFrame(l.launches, l.struck, l'.launches, l'.struck, p, Over(l));
    }
    forall i: nat | i < |l'.launches| ensures LaunchTallies(l'.launches, l'.struck, start, i) {
      LaterStrikeKeepsTally(l.launches, l.struck, l'.struck, start, i);
    }
  }

  lemma LaterStrikeKeepsTally(launches: seq<C.Launched>, struck: set<nat>, struck': set<nat>, start: State, i: nat)
    requires i < |launches| && LaunchTallies(launches, struck, start, i)
    requires forall n: nat :: n < i ==> (n in struck <==> n in struck')
    ensures LaunchTallies(launches, struck', start, i)
  {
    FinishedFrame(launches, struck, launches, struck', launches[i].program, i);
  }

  lemma OtherKeepsTally(l: C.Live, op: Op, start: State)
    requires WellFormed(l.s) && C.External(op) && Tallied(l, start)
    ensures Tallied(l.(s := Step(l.s, op)), start)
  {
    EveryStepIsAllowed(l.s, op);
    forall p | p in l.s.programs
      ensures Works(Step(l.s, op).programs[p]) == Works(l.s.programs[p])
      ensures |Step(l.s, op).programs[p].completed| == |l.s.programs[p].completed|
    {
      C.ExternalKeepsHeads(l.s, op, p);
      assert MayChange(l.s.programs[p], Step(l.s, op).programs[p], p);
    }
    QuietKeepsTally(l, l.(s := Step(l.s, op)), start);
  }

  lemma EventKeepsTally(l: C.Live, e: C.Event, start: State)
    requires WellFormed(l.s) && C.QueueIsCurrent(l) && C.Enabled(l, e) && Tallied(l, start)
    ensures Tallied(C.Apply(l, e), start)
  {
    match e
    case Other(op) => OtherKeepsTally(l, op, start);
    case Begin => QuietKeepsTally(l, C.Apply(l, C.Begin), start);
    case Launch => LaunchKeepsTally(l, start);
    case Ingest(o) => IngestKeepsTally(l, o, start);
    case Interrupt => DropKeepsTally(l, start);
    case InterruptAfterBackoff(seconds) =>
      OtherKeepsTally(l, Op.RateLimit(l.queue[0].program, seconds), start);
      DropKeepsTally(l.(s := Step(l.s, Op.RateLimit(l.queue[0].program, seconds))), start);
  }

  lemma {:induction false} RunIsTallied(s: State, es: seq<C.Event>)
    requires WellFormed(s) && C.Run(C.Idle(s), es).Some?
    ensures Tallied(C.Run(C.Idle(s), es).value, s)
  {
    if es == [] {
      forall p | p in s.programs ensures ProgramTallies(C.Idle(s), s, p) {
      }
    } else {
      var last := |es| - 1;
      RunIsTallied(s, es[..last]);
      EventKeepsTally(C.Run(C.Idle(s), es[..last]).value, es[last], s);
    }
  }

  // ----- main results

  ghost predicate LaunchedTwice(l: C.Live) {
    exists i, j :: 0 <= i < j < |l.launches| && l.launches[i] == l.launches[j]
  }

  /** A launch was interrupted in flight and its program was launched again. */
  ghost predicate StruckAndRelaunched(l: C.Live) {
    exists i: nat, j: nat :: i < j < |l.launches| && i in l.struck && l.launches[j].program == l.launches[i].program
  }

  /** Over every run: some work is launched twice exactly when an interruption hit a launch in flight and
      its program was launched again. */
  lemma LaunchedTwiceIffStruck(s: State, es: seq<C.Event>)
    requires WellFormed(s) && C.Run(C.Idle(s), es).Some?
    ensures LaunchedTwice(C.Run(C.Idle(s), es).value) <==> StruckAndRelaunched(C.Run(C.Idle(s), es).value)
  {
    var l := C.Run(C.Idle(s), es).value;
    RunIsTallied(s, es);
    if LaunchedTwice(l) {
      var i, j :| 0 <= i < j < |l.launches| && l.launches[i] == l.launches[j];
      TwinsWereStruck(l, s, i, j);
    }
    if StruckAndRelaunched(l) {
      var i: nat, j: nat :| i < j < |l.launches| && i in l.struck && l.launches[j].program == l.launches[i].program;
      var next := NextOfProgram(l.launches, i, j);
      StruckIsRepeated(l, s, i, next);
    }
  }

  lemma TwinsWereStruck(l: C.Live, s: State, i: nat, j: nat)
    requires Tallied(l, s) && i < j < |l.launches| && l.launches[i] == l.launches[j]
    ensures i in l.struck
  {
    var p := l.launches[i].program;
    assert LaunchTallies(l.launches, l.struck, s, i) && LaunchTallies(l.launches, l.struck, s, j);
    FinishedGrows(l.launches, l.struck, p, i + 1, j);
  }

  lemma StruckIsRepeated(l: C.Live, s: State, i: nat, j: nat)
    requires Tallied(l, s) && i < j < |l.launches| && i in l.struck
    requires l.launches[j].program == l.launches[i].program
    requires forall m :: i < m < j ==> l.launches[m].program != l.launches[i].program
    ensures l.launches[i] == l.launches[j]
  {
    var p := l.launches[i].program;
    assert LaunchTallies(l.launches, l.struck, s, i) && LaunchTallies(l.launches, l.struck, s, j);
    FinishedGrows(l.launches, l.struck, p, i + 1, j);
  }

  lemma {:induction false} NextOfProgram(launches: seq<C.Launched>, i: nat, j: nat) returns (next: nat)
    requires i < j < |launches| && launches[j].program == launches[i].program
    ensures i < next <= j && launches[next].program == launches[i].program
    ensures forall m :: i < m < next ==> launches[m].program != launches[i].program
    decreases j
  {
    if m :| i < m < j && launches[m].program == launches[i].program {
      next := NextOfProgram(launches, i, m);
    } else {
      next := j;
    }
  }

  /** When a program's works have different ids, launching an id twice is launching a work twice. */
  lemma SameIdSameWork(s: State, es: seq<C.Event>, i: nat, j: nat)
    requires WellFormed(s) && C.Run(C.Idle(s), es).Some?
    requires var launches := C.Run(C.Idle(s), es).value.launches;
             && i < |launches| && j < |launches| && launches[i].program == launches[j].program
             && launches[i].id == launches[j].id
             && (launches[i].program in s.programs ==> Distinct(Works(s.programs[launches[i].program])))
    ensures C.Run(C.Idle(s), es).value.launches[i] == C.Run(C.Idle(s), es).value.launches[j]
  {
    var l := C.Run(C.Idle(s), es).value;
    RunIsTallied(s, es);
    assert LaunchTallies(l.launches, l.struck, s, i) && LaunchTallies(l.launches, l.struck, s, j);
  }
}
