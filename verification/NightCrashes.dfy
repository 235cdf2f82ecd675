/** One dispatch round step by step, interrupted anywhere, with other scheduler operations between. */
module NightCrashes {
  import opened Basics
  import opened NightScheduler
  import opened NightRuns

  /** One launch: which of its program's works, counted from the program's first, was handed out. */
  datatype Launched = Launched(program: string, index: nat, id: string)

  datatype Live = Live(
    s: State,                  // durable
    queue: seq<Work>,          // selected in this round and not yet ingested; lost with the process
    inFlight: bool,            // the head of the queue has been handed to the executor
    // history
    launched: nat, ingested: nat, lost: nat, interruptions: nat,
    launches: seq<Launched>,
    struck: set<nat>)          // launches that an interruption hit in flight

  datatype Event =
    | Other(op: Op)            // any operation but selecting and completing
    | Begin
    | Launch
    | Ingest(o: Outcome)
    | Interrupt                // the process dies, or an exception leaves the round
    | InterruptAfterBackoff(seconds: int)   // ... between the rate limit and the completion

  predicate External(op: Op) {
    !op.Select? && !op.Complete? && !op.Round?
  }

  ghost predicate Enabled(l: Live, e: Event) {
    match e
    case Other(op) => External(op)
    case Begin => l.queue == [] && !l.inFlight
    case Launch => l.queue != [] && !l.inFlight
    case Ingest(o) => l.inFlight && l.queue != [] && Matches(l.queue[0], o)
    case Interrupt => true
    case InterruptAfterBackoff(_) => l.inFlight && l.queue != []
  }

  function Dropped(l: Live): Live {
    l.(queue := [], inFlight := false, interruptions := l.interruptions + 1,
       lost := l.lost + (if l.inFlight then 1 else 0),
       struck := l.struck + (if l.inFlight && l.launches != [] then {|l.launches| - 1} else {}))
  }

  function HeadLaunch(l: Live): Launched
    requires l.queue != []
  {
    var w := l.queue[0];
    Launched(w.program, if w.program in l.s.programs then |l.s.programs[w.program].completed| else 0, w.id)
  }

  ghost function Apply(l: Live, e: Event): Live
    requires WellFormed(l.s) && Enabled(l, e)
  {
    match e
    case Other(op) => l.(s := Step(l.s, op))
    case Begin =>
      SelectedIsSelectable(l.s);
      SelectionIsExact(l.s);
      l.(s := AfterSelect(l.s), queue := HeadsOf(l.s, Selected(l.s)))
    case Launch => l.(inFlight := true, launched := l.launched + 1, launches := l.launches + [HeadLaunch(l)])
    case Ingest(o) =>
      l.(s := IngestOne(l.s, l.queue[0], o), queue := l.queue[1..], inFlight := false, ingested := l.ingested + 1)
    case Interrupt => Dropped(l)
    case InterruptAfterBackoff(seconds) =>
      Dropped(l.(s := OrElse(AfterRateLimit(l.s, l.queue[0].program, seconds), l.s)))
  }

  // rate_limit, then complete; a completion that raised would leave the work pending.
  function IngestOne(s: State, w: Work, o: Outcome): State {
    var limited := if o.retryAfter.Some? then OrElse(AfterRateLimit(s, w.program, o.retryAfter.value), s) else s;
    OrElse(AfterComplete(limited, w, o.progress), limited)
  }

  /** The queue still names the current head of each program in it, each program once. */
  ghost predicate QueueIsCurrent(l: Live) {
    && (forall i :: 0 <= i < |l.queue| ==>
          && l.queue[i].program in l.s.programs
          && l.s.programs[l.queue[i].program].pending != []
          && l.s.programs[l.queue[i].program].pending[0].id == l.queue[i].id)
    && (forall i, j :: 0 <= i < j < |l.queue| ==> l.queue[i].program != l.queue[j].program)
    && (l.inFlight ==> l.queue != [])
  }

  function Done(s: State, order: seq<string>): nat {
    if order == [] then 0
    else
      var p := order[|order| - 1];
      Done(s, order[..|order| - 1]) + if p in s.programs then |s.programs[p].completed| else 0
  }

  ghost predicate Balanced(l: Live, start: nat) {
    && l.launched == l.ingested + l.lost + (if l.inFlight then 1 else 0)
    && l.lost <= l.interruptions
    && Done(l.s, l.s.order) == start + l.ingested
  }

  // ----- preservation

  lemma ExternalKeepsHeads(s: State, op: Op, p: string)
    requires WellFormed(s) && External(op) && p in s.programs
    ensures var s' := Step(s, op);
            && p in s'.programs && s'.programs[p].completed == s.programs[p].completed
            && |s'.programs[p].pending| == |s.programs[p].pending|
            && (s.programs[p].pending != [] ==> s'.programs[p].pending[0].id == s.programs[p].pending[0].id)
  {
  }

  lemma {:induction false} DoneSame(s: State, s': State, order: seq<string>)
    requires s'.programs.Keys == s.programs.Keys
    requires forall p :: p in s.programs ==> |s'.programs[p].completed| == |s.programs[p].completed|
    ensures Done(s', order) == Done(s, order)
  {
    if order != [] {
      DoneSame(s, s', order[..|order| - 1]);
    }
  }

  lemma {:induction false} DoneOneMore(s: State, s': State, order: seq<string>, p: string)
    requires s'.programs.Keys == s.programs.Keys && Distinct(order) && p in s.programs
    requires forall q :: q in s.programs ==>
               |s'.programs[q].completed| == |s.programs[q].completed| + if q == p then 1 else 0
    ensures Done(s', order) == Done(s, order) + if p in order then 1 else 0
  {
    if order != [] {
      var last := |order| - 1;
      assert order == order[..last] + [order[last]];
      assert order[last] !in order[..last];
      DoneOneMore(s, s', order[..last], p);
    }
  }

  lemma IngestCompletes(s: State, w: Work, o: Outcome)
    requires w.program in s.programs && s.programs[w.program].pending != []
    requires s.programs[w.program].pending[0].id == w.id && Matches(w, o)
    ensures IngestOne(s, w, o) == s.(programs := s.programs[w.program := Attempted(s.programs[w.program], s.now, o)])
  {
  }

  lemma OtherKeeps(l: Live, op: Op)
    requires WellFormed(l.s) && QueueIsCurrent(l) && External(op)
    ensures var s' := Step(l.s, op);
            && WellFormed(s') && QueueIsCurrent(l.(s := s'))
            && s'.order == l.s.order && Done(s', s'.order) == Done(l.s, l.s.order)
  {
    StepKeepsWellFormed(l.s, op);
    StepKeepsClock(l.s, op);
    forall p | p in l.s.programs
      ensures Step(l.s, op).programs[p].completed == l.s.programs[p].completed
      ensures |Step(l.s, op).programs[p].pending| == |l.s.programs[p].pending|
      ensures l.s.programs[p].pending != [] ==>
                Step(l.s, op).programs[p].pending[0].id == l.s.programs[p].pending[0].id
    {
      ExternalKeepsHeads(l.s, op, p);
    }
    DoneSame(l.s, Step(l.s, op), l.s.order);
  }

  lemma IngestKeeps(l: Live, o: Outcome)
    requires WellFormed(l.s) && QueueIsCurrent(l) && Enabled(l, Ingest(o))
    ensures var l' := Apply(l, Ingest(o));
            && WellFormed(l'.s) && QueueIsCurrent(l')
            && l'.s.order == l.s.order && Done(l'.s, l'.s.order) == Done(l.s, l.s.order) + 1
  {
    var w := l.queue[0];
    var s' := IngestOne(l.s, w, o);
    IngestCompletes(l.s, w, o);
    AttemptedChange(l.s.programs[w.program], l.s.now, o, w.program);
    assert OwnQueue(l.s.programs[w.program], w.program);
    DoneOneMore(l.s, s', l.s.order, w.program);
  }

  lemma BeginKeeps(l: Live)
    requires WellFormed(l.s) && Enabled(l, Begin)
    ensures var l' := Apply(l, Begin);
            && WellFormed(l'.s) && QueueIsCurrent(l')
            && l'.s.order == l.s.order && Done(l'.s, l'.s.order) == Done(l.s, l.s.order)
  {
    StepKeepsWellFormed(l.s, Op.Select);
    DoneSame(l.s, AfterSelect(l.s), l.s.order);
    FreshQueueIsCurrent(l);
  }

  lemma FreshQueueIsCurrent(l: Live)
    requires WellFormed(l.s) && Enabled(l, Begin)
    ensures QueueIsCurrent(Apply(l, Begin))
  {
    SelectionIsExact(l.s);
    var ids := Selected(l.s);
    var queue := Apply(l, Begin).queue;
    assert forall i :: 0 <= i < |ids| ==> ids[i] in ids && Eligible(l.s, ids[i]);
    assert forall i :: 0 <= i < |queue| ==> queue[i].program == ids[i] && queue[i] == Head(l.s, ids[i]);
  }

  lemma EveryEventKeeps(l: Live, e: Event)
    requires WellFormed(l.s) && QueueIsCurrent(l) && Enabled(l, e)
    ensures WellFormed(Apply(l, e).s) && QueueIsCurrent(Apply(l, e))
  {
    match e
    case Other(op) => OtherKeeps(l, op);
    case Begin => BeginKeeps(l);
    case Ingest(o) => IngestKeeps(l, o);
    case InterruptAfterBackoff(seconds) => OtherKeeps(l, Op.RateLimit(l.queue[0].program, seconds));
    case _ =>
  }

  lemma EveryEventBalances(l: Live, e: Event, start: nat)
    requires WellFormed(l.s) && QueueIsCurrent(l) && Balanced(l, start) && Enabled(l, e)
    ensures Balanced(Apply(l, e), start)
  {
    match e
    case Other(op) => OtherKeeps(l, op);
    case Begin => BeginKeeps(l);
    case Ingest(o) => IngestKeeps(l, o);
    case InterruptAfterBackoff(seconds) => OtherKeeps(l, Op.RateLimit(l.queue[0].program, seconds));
    case _ =>
  }

  function Idle(s: State): Live {
    Live(s, [], false, 0, 0, 0, 0, [], {})
  }

  ghost function Run(l: Live, es: seq<Event>): (r: Option<Live>)
    requires WellFormed(l.s) && QueueIsCurrent(l)
    ensures r.Some? ==> WellFormed(r.value.s) && QueueIsCurrent(r.value)
  {
    if es == [] then Some(l)
    else
      var p := Run(l, es[..|es| - 1]);
      if p.Some? && Enabled(p.value, es[|es| - 1]) then
        EveryEventKeeps(p.value, es[|es| - 1]);
        Some(Apply(p.value, es[|es| - 1]))
      else None
  }

  /** Launches are accounted for: over any run of rounds, interruptions and other operations, every
      launch is ingested as exactly one completion, still in flight, or lost to an interruption, and
      each interruption loses at most one. An ingestion never finds its work superseded. */
  lemma {:induction false} LaunchesAreAccountedFor(s: State, es: seq<Event>)
    requires WellFormed(s) && Run(Idle(s), es).Some?
    ensures var l := Run(Idle(s), es).value;
            && Balanced(l, Done(s, s.order))
            && l.launched == (Done(l.s, l.s.order) - Done(s, s.order)) + l.lost + (if l.inFlight then 1 else 0)
            && l.lost <= l.interruptions
            && forall o :: Enabled(l, Ingest(o)) ==> AfterComplete(l.s, l.queue[0], o.progress).Ok?
  {
    if es != [] {
      LaunchesAreAccountedFor(s, es[..|es| - 1]);
      EveryEventBalances(Run(Idle(s), es[..|es| - 1]).value, es[|es| - 1], Done(s, s.order));
    }
  }

  /** A crash between launch and completion leaves exactly the launched work selected again: the
      scheduler promises at-least-once, not exactly-once, execution. */
  lemma CrashRedispatches(l: Live)
    requires WellFormed(l.s) && l.queue == [] && !l.inFlight && Selected(l.s) != []
    ensures var a := Apply(l, Begin);
            && WellFormed(a.s) && Enabled(a, Launch)
            && var b, w := Apply(Apply(a, Launch), Interrupt), a.queue[0];
            && WellFormed(b.s) && w.program in Selected(b.s) && w.program in b.s.programs
            && b.s.programs[w.program].pending != [] && b.s.programs[w.program].pending[0] == w
            && b.launched == l.launched + 1 && b.ingested == l.ingested
  {
    SelectionIsExact(l.s);
    FreshQueueIsCurrent(l);
    var a := Apply(l, Begin);
    StepKeepsWellFormed(l.s, Op.Select);
    var p := Selected(l.s)[0];
    assert p in Selected(l.s) && a.queue[0] == Head(l.s, p);
    SelectionIsExact(a.s);
  }
}
