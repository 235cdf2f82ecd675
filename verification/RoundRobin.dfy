/** The two round-robin loops, and the one order both of them produce. */
module RoundRobin {
  import opened Basics

  /** The `pos`-th item of the `queue`-th queue. */
  datatype Slot = Slot(queue: nat, pos: nat)

  predicate Before(a: Slot, b: Slot) {
    a.pos < b.pos || (a.pos == b.pos && a.queue < b.queue)
  }

  predicate InQueues<T>(queues: seq<seq<T>>, s: Slot) {
    s.queue < |queues| && s.pos < |queues[s.queue]|
  }

  ghost predicate Increasing(order: seq<Slot>) {
    forall i, j :: 0 <= i < j < |order| ==> Before(order[i], order[j])
  }

  ghost predicate AllIn<T>(queues: seq<seq<T>>, order: seq<Slot>) {
    forall i :: 0 <= i < |order| ==> InQueues(queues, order[i])
  }

  /** `order` lists slots by (position in own queue, queue), and skips none that comes earlier. */
  ghost predicate FairPrefix<T>(queues: seq<seq<T>>, order: seq<Slot>) {
    && Increasing(order)
    && AllIn(queues, order)
    && (forall s, i :: InQueues(queues, s) && 0 <= i < |order| && Before(s, order[i]) ==> s in order)
  }

  ghost predicate FairSchedule<T>(queues: seq<seq<T>>, order: seq<Slot>) {
    FairPrefix(queues, order) && forall s :: InQueues(queues, s) ==> s in order
  }

  function ItemsAt<T>(queues: seq<seq<T>>, order: seq<Slot>): seq<T>
    requires AllIn(queues, order)
  {
    seq(|order|, i requires 0 <= i < |order| => queues[order[i].queue][order[i].pos])
  }

  // ----- what the order means

  lemma EarlierSlotCameFirst<T>(queues: seq<seq<T>>, order: seq<Slot>, n: nat, s: Slot)
    requires FairPrefix(queues, order) && n < |order|
    ensures order[n] !in order[..n]
    ensures InQueues(queues, s) && Before(s, order[n]) ==> s in order[..n]
  {
    if InQueues(queues, s) && Before(s, order[n]) {
      var j :| 0 <= j < |order| && order[j] == s;
      assert order[..n][j] == s;
    }
  }

  lemma PrefixOfFairPrefix<T>(queues: seq<seq<T>>, order: seq<Slot>, n: nat)
    requires FairPrefix(queues, order) && n <= |order|
    ensures FairPrefix(queues, order[..n])
  {
    forall s, i | InQueues(queues, s) && 0 <= i < n && Before(s, order[i])
      ensures s in order[..n]
    {
      EarlierSlotCameFirst(queues, order, i, s);
    }
  }

  /** The fair order of a given length is unique, so "the first n items of the sort" is well defined. */
  lemma {:induction false} FairPrefixIsUnique<T>(queues: seq<seq<T>>, a: seq<Slot>, b: seq<Slot>)
    requires FairPrefix(queues, a) && FairPrefix(queues, b) && |a| <= |b|
    ensures a == b[..|a|]
  {
    if a != [] {
      var last := |a| - 1;
      PrefixOfFairPrefix(queues, a, last);
      FairPrefixIsUnique(queues, a[..last], b);
      EarlierSlotCameFirst(queues, a, last, b[last]);
      EarlierSlotCameFirst(queues, b, last, a[last]);
      assert a == a[..last] + [a[last]] && a[..last] == b[..last];
    }
  }

  /** How many items a prefix of the order takes from one queue. */
  function Taken(order: seq<Slot>, queue: nat): nat {
    if order == [] then 0
    else Taken(order[..|order| - 1], queue) + if order[|order| - 1].queue == queue then 1 else 0
  }

  /** Per-queue order: a prefix takes exactly the first items of each queue. */
  lemma {:induction false} TakesQueuePrefix<T>(queues: seq<seq<T>>, order: seq<Slot>, queue: nat)
    requires FairPrefix(queues, order) && queue < |queues|
    ensures Taken(order, queue) <= |queues[queue]|
    ensures forall p :: 0 <= p < |queues[queue]| ==> (Slot(queue, p) in order <==> p < Taken(order, queue))
  {
    if order != [] {
      var last := |order| - 1;
      var before := order[..last];
      PrefixOfFairPrefix(queues, order, last);
      TakesQueuePrefix(queues, before, queue);
      assert order == before + [order[last]];
      EarlierSlotCameFirst(queues, order, last, Slot(queue, Taken(before, queue)));
    }
  }

  /** Fairness: in every prefix of the output, two queues that are not exhausted differ by at most one
      item, and an exhausted queue never leads a waiting one by more than one. */
  lemma FairWithinOne<T>(queues: seq<seq<T>>, order: seq<Slot>, n: nat, a: nat, b: nat)
    requires FairPrefix(queues, order) && n <= |order| && a < |queues| && b < |queues|
    requires Taken(order[..n], b) < |queues[b]|
    ensures Taken(order[..n], a) <= Taken(order[..n], b) + 1
  {
    var prefix := order[..n];
    PrefixOfFairPrefix(queues, order, n);
    TakesQueuePrefix(queues, prefix, a);
    TakesQueuePrefix(queues, prefix, b);
    var ahead, behind := Slot(a, Taken(prefix, b) + 1), Slot(b, Taken(prefix, b));
    assert InQueues(queues, behind) && Before(behind, ahead);
    assert ahead in prefix ==> behind in prefix;
  }

  /** The output of a complete fair schedule. */
  ghost predicate IsFairOutput<T>(queues: seq<seq<T>>, output: seq<T>) {
    exists order :: FairSchedule(queues, order) && output == ItemsAt(queues, order)
  }

  /** The queues alone decide the complete output. */
  lemma FairOutputIsUnique<T>(queues: seq<seq<T>>, a: seq<T>, b: seq<T>)
    requires IsFairOutput(queues, a) && IsFairOutput(queues, b)
    ensures a == b
  {
    var x :| FairSchedule(queues, x) && a == ItemsAt(queues, x);
    var y :| FairSchedule(queues, y) && b == ItemsAt(queues, y);
    CompleteIsLongest(queues, x, y);
    CompleteIsLongest(queues, y, x);
    FairPrefixIsUnique(queues, x, y);
    assert y[..|x|] == y;
  }

  lemma CompleteIsLongest<T>(queues: seq<seq<T>>, complete: seq<Slot>, order: seq<Slot>)
    requires FairSchedule(queues, complete) && FairPrefix(queues, order)
    ensures |order| <= |complete|
  {
    if |complete| < |order| {
      FairPrefixIsUnique(queues, complete, order);
      EarlierSlotCameFirst(queues, order, |complete|, order[|complete|]);
    }
  }

  // ----- session scheduling: one deque of queues

  /** A queue waiting in the deque, with its remaining items. */
  datatype Entry<T> = Entry(queue: nat, items: seq<T>)

  ghost predicate HeadsMatch<T>(queues: seq<seq<T>>, active: seq<Entry<T>>, heads: seq<Slot>) {
    && |active| == |heads|
    && forall i :: 0 <= i < |heads| ==>
         && InQueues(queues, heads[i])
         && active[i].queue == heads[i].queue
         && active[i].items == queues[heads[i].queue][heads[i].pos..]
  }

  // The deque holds the heads in fair order, spanning less than one full round.
  ghost predicate RoundInProgress(heads: seq<Slot>) {
    && Increasing(heads)
    && (heads != [] ==> var f, l := heads[0], heads[|heads| - 1];
                        l.pos == f.pos || (l.pos == f.pos + 1 && l.queue < f.queue))
  }

  // Every slot is either output or still behind its queue's head, and output comes before the heads.
  ghost predicate Partitioned<T>(queues: seq<seq<T>>, done: seq<Slot>, heads: seq<Slot>) {
    && AllIn(queues, done)
    && (forall s :: InQueues(queues, s) ==> s in done || SomeHeadAt(heads, s))
    && (forall i, j :: 0 <= i < |done| && 0 <= j < |heads| ==> Before(done[i], heads[j]))
  }

  predicate Ahead(head: Slot, s: Slot) {
    head.queue == s.queue && head.pos <= s.pos
  }

  predicate SomeHeadAt(heads: seq<Slot>, s: Slot) {
    exists i :: 0 <= i < |heads| && Ahead(heads[i], s)
  }

  lemma PartitionIsFair<T>(queues: seq<seq<T>>, done: seq<Slot>, heads: seq<Slot>)
    requires Increasing(done) && Partitioned(queues, done, heads)
    ensures FairPrefix(queues, done)
    ensures heads == [] ==> FairSchedule(queues, done)
  {
    forall s, i | InQueues(queues, s) && s !in done && 0 <= i < |done|
      ensures Before(done[i], s)
    {
      var j :| 0 <= j < |heads| && Ahead(heads[j], s);
      assert Before(done[i], heads[j]);
    }
  }

  // The deque after serving its first queue.
  function NextHeads<T>(queues: seq<seq<T>>, heads: seq<Slot>): seq<Slot>
    requires heads != []
  {
    var next := Slot(heads[0].queue, heads[0].pos + 1);
    if InQueues(queues, next) then heads[1..] + [next] else heads[1..]
  }

  lemma StepRound<T>(queues: seq<seq<T>>, heads: seq<Slot>)
    requires heads != [] && RoundInProgress(heads)
    ensures RoundInProgress(NextHeads(queues, heads))
    ensures forall i :: 0 <= i < |NextHeads(queues, heads)| ==> Before(heads[0], NextHeads(queues, heads)[i])
  {
    var next := Slot(heads[0].queue, heads[0].pos + 1);
    assert forall i :: 0 <= i < |heads| ==> Before(heads[i], next);
  }

  lemma StepPartition<T>(queues: seq<seq<T>>, done: seq<Slot>, heads: seq<Slot>)
    requires heads != [] && RoundInProgress(heads) && Partitioned(queues, done, heads) && Increasing(done)
    requires AllIn(queues, heads)
    ensures RoundInProgress(NextHeads(queues, heads)) && Increasing(done + [heads[0]])
    ensures Partitioned(queues, done + [heads[0]], NextHeads(queues, heads))
  {
    StepRound(queues, heads);
    StepCovers(queues, done, heads);
    StepOutputFirst(queues, done, heads);
  }

  lemma StepCovers<T>(queues: seq<seq<T>>, done: seq<Slot>, heads: seq<Slot>)
    requires heads != []
    requires forall s :: InQueues(queues, s) ==> s in done || SomeHeadAt(heads, s)
    ensures forall s :: InQueues(queues, s) ==> s in done + [heads[0]] || SomeHeadAt(NextHeads(queues, heads), s)
  {
    var heads', done' := NextHeads(queues, heads), done + [heads[0]];
    assert done'[|done|] == heads[0] && forall i :: 0 <= i < |done| ==> done'[i] == done[i];
    forall s | InQueues(queues, s) && s !in done && s != heads[0] ensures SomeHeadAt(heads', s) {
      var i :| 0 <= i < |heads| && Ahead(heads[i], s);
      assert Ahead(heads'[if i > 0 then i - 1 else |heads'| - 1], s);
    }
  }

  lemma StepOutputFirst<T>(queues: seq<seq<T>>, done: seq<Slot>, heads: seq<Slot>)
    requires heads != [] && RoundInProgress(heads)
    requires forall i, j :: 0 <= i < |done| && 0 <= j < |heads| ==> Before(done[i], heads[j])
    ensures var done', heads' := done + [heads[0]], NextHeads(queues, heads);
            forall i, j :: 0 <= i < |done'| && 0 <= j < |heads'| ==> Before(done'[i], heads'[j])
  {
    StepRound(queues, heads);
    assert forall i :: 0 <= i < |done| ==> Before(done[i], heads[0]);
  }

  lemma StepHeads<T>(queues: seq<seq<T>>, active: seq<Entry<T>>, heads: seq<Slot>)
    requires heads != [] && HeadsMatch(queues, active, heads)
    ensures active[0].items != [] && active[0].items[0] == queues[heads[0].queue][heads[0].pos]
    ensures var items := active[0].items[1..];
            && (items != [] <==> InQueues(queues, Slot(heads[0].queue, heads[0].pos + 1)))
            && HeadsMatch(queues, if items != [] then active[1..] + [Entry(active[0].queue, items)] else active[1..],
                          NextHeads(queues, heads))
  {
    var h := heads[0];
    assert active[0].items == queues[h.queue][h.pos..];
    assert active[0].items[1..] == queues[h.queue][h.pos + 1..];
  }

  ghost predicate Serving<T>(
    queues: seq<seq<T>>, active: seq<Entry<T>>, heads: seq<Slot>, order: seq<Slot>, output: seq<T>)
  {
    && HeadsMatch(queues, active, heads) && RoundInProgress(heads)
    && Partitioned(queues, order, heads) && Increasing(order)
    && output == ItemsAt(queues, order)
  }

  method ScheduleFairSessions<T>(queues: seq<seq<T>>, maxItems: int)
    returns (r: Result<seq<T>, ()>, ghost order: seq<Slot>)
    ensures r.Err? <==> maxItems < 1
    ensures r.Ok? ==>
              && FairPrefix(queues, order) && r.value == ItemsAt(queues, order)
              && (|order| == maxItems || (|order| < maxItems && FairSchedule(queues, order)))
  {
    order := [];
    if maxItems < 1 {
      return Err(()), order;
    }
    ghost var heads;
    var active: seq<Entry<T>>;
    active, heads := Fill(queues);
    var output: seq<T> := [];
    while active != [] && |output| < maxItems
      invariant Serving(queues, active, heads, order, output)
      invariant |output| <= maxItems
      decreases maxItems - |output|
    {
      active, output, heads, order := ServeFirst(queues, active, output, heads, order);
    }
    PartitionIsFair(queues, order, heads);
    r := Ok(output);
  }

  /** One turn: the first queue gives its next item and goes to the back if it has more. */
  method ServeFirst<T>(queues: seq<seq<T>>, active0: seq<Entry<T>>, output0: seq<T>, ghost heads0: seq<Slot>,
                       ghost order0: seq<Slot>)
    returns (active: seq<Entry<T>>, output: seq<T>, ghost heads: seq<Slot>, ghost order: seq<Slot>)
    requires active0 != [] && Serving(queues, active0, heads0, order0, output0)
    ensures Serving(queues, active, heads, order, output)
    ensures |output| == |output0| + 1
  {
    StepPartition(queues, order0, heads0);
    StepHeads(queues, active0, heads0);
    ItemsAtAppend(queues, order0, heads0[0]);
    var entry := active0[0];
    active := active0[1..];
    output := output0 + [entry.items[0]];
    order := order0 + [heads0[0]];
    heads := NextHeads(queues, heads0);
    var items := entry.items[1..];
    if items != [] {
      active := active + [Entry(entry.queue, items)];
    }
  }

  lemma ItemsAtAppend<T>(queues: seq<seq<T>>, order: seq<Slot>, s: Slot)
    requires AllIn(queues, order) && InQueues(queues, s)
    ensures AllIn(queues, order + [s])
    ensures ItemsAt(queues, order + [s]) == ItemsAt(queues, order) + [queues[s.queue][s.pos]]
  {
  }

  /** The deque before the loop: every non-empty queue, in order. */
  method Fill<T>(queues: seq<seq<T>>) returns (active: seq<Entry<T>>, ghost heads: seq<Slot>)
    ensures HeadsMatch(queues, active, heads) && RoundInProgress(heads) && Partitioned(queues, [], heads)
  {
    active, heads := [], [];
    for i := 0 to |queues|
      invariant HeadsMatch(queues, active, heads) && Increasing(heads)
      invariant forall j :: 0 <= j < |heads| ==> heads[j].pos == 0 && heads[j].queue < i
      invariant forall q :: 0 <= q < i && queues[q] != [] ==> Slot(q, 0) in heads
    {
      if queues[i] != [] {
        active := active + [Entry(i, queues[i])];
        heads := heads + [Slot(i, 0)];
      }
    }
    forall s | InQueues(queues, s) ensures SomeHeadAt(heads, s) {
      var i :| 0 <= i < |heads| && heads[i] == Slot(s.queue, 0);
      assert Ahead(heads[i], s);
    }
  }
}
