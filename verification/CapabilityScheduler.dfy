/** Round-robin over capability buckets: sort, bucket, drain. */
module CapabilityScheduler {
  import opened Basics
  import opened Ordering
  import opened RoundRobin

  datatype Job = Job(capability: string, id: string)

  predicate JobLeq(a: Job, b: Job) {
    if a.capability != b.capability then StrLeq(a.capability, b.capability) else StrLeq(a.id, b.id)
  }

  lemma JobOrderIsTotal()
    ensures TotalOrder(JobLeq)
  {
    forall a: Job, b: Job ensures JobLeq(a, b) || JobLeq(b, a) {
      StrTotal(a.capability, b.capability);
      StrTotal(a.id, b.id);
    }
    forall a: Job, b: Job, c: Job | JobLeq(a, b) && JobLeq(b, c) ensures JobLeq(a, c) {
      if a.capability == b.capability == c.capability {
        StrTransitive(a.id, b.id, c.id);
      } else if a.capability == c.capability {
        StrAntisymmetric(a.capability, b.capability);
      } else {
        StrTotal(a.capability, a.capability);
        if a.capability != b.capability && b.capability != c.capability {
          StrTransitive(a.capability, b.capability, c.capability);
        }
      }
    }
  }

  // ----- buckets

  function Bucket(jobs: seq<Job>, capability: string): seq<Job> {
    if jobs == [] then []
    else
      var before := Bucket(jobs[..|jobs| - 1], capability);
      var j := jobs[|jobs| - 1];
      if j.capability == capability then before + [j] else before
  }

  function Buckets(jobs: seq<Job>, keys: seq<string>): seq<seq<Job>> {
    seq(|keys|, i requires 0 <= i < |keys| => Bucket(jobs, keys[i]))
  }

  lemma {:induction false} BucketHolds(jobs: seq<Job>, capability: string, j: Job)
    ensures multiset(Bucket(jobs, capability))[j] == if j.capability == capability then multiset(jobs)[j] else 0
  {
    if jobs != [] {
      BucketHolds(jobs[..|jobs| - 1], capability, j);
      assert jobs == jobs[..|jobs| - 1] + [jobs[|jobs| - 1]];
    }
  }

  // All queues end to end.
  function Concat<T>(queues: seq<seq<T>>): seq<T> {
    if queues == [] then [] else Concat(queues[..|queues| - 1]) + queues[|queues| - 1]
  }

  lemma {:induction false} BucketsHold(jobs: seq<Job>, keys: seq<string>, j: Job)
    requires Distinct(keys)
    ensures multiset(Concat(Buckets(jobs, keys)))[j] == if j.capability in keys then multiset(jobs)[j] else 0
  {
    if keys != [] {
      var last := |keys| - 1;
      BucketsHold(jobs, keys[..last], j);
      BucketHolds(jobs, keys[last], j);
      var bs := Buckets(jobs, keys);
      assert bs[..last] == Buckets(jobs, keys[..last]);
      assert keys == keys[..last] + [keys[last]];
    }
  }

  /** Bucketing by every capability that occurs keeps exactly the jobs. */
  lemma BucketsKeepJobs(jobs: seq<Job>, keys: seq<string>)
    requires Distinct(keys) && forall i :: 0 <= i < |jobs| ==> jobs[i].capability in keys
    ensures multiset(Concat(Buckets(jobs, keys))) == multiset(jobs)
  {
    forall j ensures multiset(Concat(Buckets(jobs, keys)))[j] == multiset(jobs)[j] {
      BucketsHold(jobs, keys, j);
      if j in jobs {
        assert j.capability in keys;
      } else {
        assert j !in multiset(jobs);
      }
    }
  }

  // ----- a full schedule is a permutation of its queues

  function QueueSlots<T>(queues: seq<seq<T>>): seq<Slot> {
    if queues == [] then []
    else
      var last := |queues| - 1;
      QueueSlots(queues[..last]) + seq(|queues[last]|, (p: nat) => Slot(last, p))
  }

  lemma {:induction false} QueueSlotsExact<T>(queues: seq<seq<T>>)
    ensures Distinct(QueueSlots(queues)) && AllIn(queues, QueueSlots(queues))
    ensures forall s :: InQueues(queues, s) ==> s in QueueSlots(queues)
    ensures ItemsAt(queues, QueueSlots(queues)) == Concat(queues)
  {
    if queues != [] {
      var last := |queues| - 1;
      var before, added := QueueSlots(queues[..last]), seq(|queues[last]|, (p: nat) => Slot(last, p));
      QueueSlotsExact(queues[..last]);
      assert forall i :: 0 <= i < |before| ==> before[i].queue < last;
      assert ItemsAt(queues, before) == ItemsAt(queues[..last], before);
      assert ItemsAt(queues, before + added) == ItemsAt(queues, before) + queues[last];
      forall s | InQueues(queues, s) ensures s in before + added {
        if s.queue == last {
          assert added[s.pos] == s;
        } else {
          assert InQueues(queues[..last], s);
        }
      }
    }
  }

  function Without<T>(s: seq<T>, i: nat): seq<T>
    requires i < |s|
  {
    s[..i] + s[i + 1..]
  }

  lemma MultisetSize<T>(s: seq<T>)
    ensures |multiset(s)| == |s|
  {
  }

  /** Two listings of the same distinct slots list the same items. */
  lemma {:induction false} SameSlotsSameItems<T>(queues: seq<seq<T>>, a: seq<Slot>, b: seq<Slot>)
    requires AllIn(queues, a) && AllIn(queues, b) && Distinct(a) && Distinct(b)
    requires forall s :: s in a <==> s in b
    ensures multiset(ItemsAt(queues, a)) == multiset(ItemsAt(queues, b))
  {
    if a == [] {
      assert forall x :: x in multiset(b) ==> x in b;
      assert multiset(b) == multiset{};
      MultisetSize(b);
    } else {
      var last := |a| - 1;
      assert a[last] in b;
      var i :| 0 <= i < |b| && b[i] == a[last];
      var b' := Without(b, i);
      assert forall s :: s in b' <==> s in b && s != b[i];
      assert forall s :: s in a[..last] <==> s in a && s != a[last];
      SameSlotsSameItems(queues, a[..last], b');
      ItemsWithout(queues, b, i);
      ItemsWithout(queues, a, last);
      assert Without(a, last) == a[..last];
    }
  }

  lemma ItemsWithout<T>(queues: seq<seq<T>>, order: seq<Slot>, i: nat)
    requires AllIn(queues, order) && i < |order|
    ensures AllIn(queues, Without(order, i))
    ensures multiset(ItemsAt(queues, order))
         == multiset(ItemsAt(queues, Without(order, i))) + multiset{queues[order[i].queue][order[i].pos]}
  {
    var items := ItemsAt(queues, order);
    assert items == items[..i] + [items[i]] + items[i + 1..];
    assert ItemsAt(queues, Without(order, i)) == items[..i] + items[i + 1..];
  }

  lemma IncreasingIsDistinct(order: seq<Slot>)
    requires Increasing(order)
    ensures Distinct(order)
  {
    forall i, j | 0 <= i < j < |order| ensures order[i] != order[j] {
      assert Before(order[i], order[j]);
    }
  }

  /** A full fair schedule outputs every item of every queue, with its multiplicity. */
  lemma ScheduleIsPermutation<T>(queues: seq<seq<T>>, order: seq<Slot>)
    requires FairSchedule(queues, order)
    ensures multiset(ItemsAt(queues, order)) == multiset(Concat(queues))
  {
    QueueSlotsExact(queues);
    IncreasingIsDistinct(order);
    assert forall s :: s in order ==> InQueues(queues, s);
    assert forall s :: s in QueueSlots(queues) ==> InQueues(queues, s);
    SameSlotsSameItems(queues, order, QueueSlots(queues));
  }

  // ----- the nested loops

  function Longest<T>(queues: seq<seq<T>>): (n: nat)
    ensures forall i :: 0 <= i < |queues| ==> |queues[i]| <= n
  {
    if queues == [] then 0
    else
      var rest := Longest(queues[..|queues| - 1]);
      if |queues[|queues| - 1]| > rest then |queues[|queues| - 1]| else rest
  }

  predicate Served(s: Slot, round: nat, queue: nat) {
    s.pos < round || (s.pos == round && s.queue < queue)
  }

  // What is left of a queue after `n` rounds.
  function Left<T>(queue: seq<T>, n: nat): seq<T> {
    if n < |queue| then queue[n..] else []
  }

  /** What is left in the buckets in round `round`, before queue `queue` is reached. */
  ghost predicate BucketsLeft<T>(queues: seq<seq<T>>, keys: seq<string>, buckets: map<string, seq<T>>,
                                 round: nat, queue: nat)
  {
    && |queues| == |keys| && Distinct(keys)
    && forall i :: 0 <= i < |keys| ==>
         keys[i] in buckets && buckets[keys[i]] == Left(queues[i], if i < queue then round + 1 else round)
  }

  /** What has been output by then. */
  ghost predicate ServedSoFar<T>(queues: seq<seq<T>>, order: seq<Slot>, round: nat, queue: nat) {
    && Increasing(order) && AllIn(queues, order)
    && (forall s :: s in order ==> Served(s, round, queue))
    && (forall s :: InQueues(queues, s) && Served(s, round, queue) ==> s in order)
  }

  ghost predicate DrainedTo<T>(queues: seq<seq<T>>, keys: seq<string>, buckets: map<string, seq<T>>,
                               order: seq<Slot>, output: seq<T>, round: nat, queue: nat)
  {
    && BucketsLeft(queues, keys, buckets, round, queue)
    && ServedSoFar(queues, order, round, queue)
    && output == ItemsAt(queues, order)
  }

  lemma DrainedIsFair<T>(queues: seq<seq<T>>, keys: seq<string>, buckets: map<string, seq<T>>,
                         order: seq<Slot>, output: seq<T>, round: nat)
    requires DrainedTo(queues, keys, buckets, order, output, round, 0)
    requires forall i :: 0 <= i < |keys| ==> buckets[keys[i]] == []
    ensures FairSchedule(queues, order) && output == ItemsAt(queues, order)
  {
    forall i | 0 <= i < |queues| ensures |queues[i]| <= round {
      assert buckets[keys[i]] == [];
    }
    forall s, i | InQueues(queues, s) && 0 <= i < |order| && Before(s, order[i]) ensures s in order {
      assert order[i] in order;
    }
  }

  lemma SomethingLeft<T>(queues: seq<seq<T>>, keys: seq<string>, buckets: map<string, seq<T>>,
                         order: seq<Slot>, output: seq<T>, round: nat, i: nat)
    requires DrainedTo(queues, keys, buckets, order, output, round, 0)
    requires i < |keys| && buckets[keys[i]] != []
    ensures round < Longest(queues)
  {
    assert |queues[i]| <= Longest(queues);
  }

  method Drain(keys: seq<string>, buckets0: map<string, seq<Job>>, ghost queues: seq<seq<Job>>)
    returns (output: seq<Job>, ghost order: seq<Slot>)
    requires Distinct(keys) && |queues| == |keys|
    requires forall i :: 0 <= i < |keys| ==> keys[i] in buckets0 && buckets0[keys[i]] == queues[i]
    ensures FairSchedule(queues, order) && output == ItemsAt(queues, order)
    ensures IsFairOutput(queues, output)
  {
    var buckets := buckets0;
    output, order := [], [];
    ghost var round := 0;
    while exists i :: 0 <= i < |keys| && buckets[keys[i]] != []
      invariant DrainedTo(queues, keys, buckets, order, output, round, 0)
      decreases Longest(queues) - round
    {
      ghost var i :| 0 <= i < |keys| && buckets[keys[i]] != [];
      SomethingLeft(queues, keys, buckets, order, output, round, i);
      buckets, output, order := DrainRound(keys, buckets, output, queues, order, round);
      round := round + 1;
    }
    DrainedIsFair(queues, keys, buckets, order, output, round);
  }

  /** One pass over the buckets in key order. */
  method DrainRound(keys: seq<string>, buckets0: map<string, seq<Job>>, output0: seq<Job>,
                    ghost queues: seq<seq<Job>>, ghost order0: seq<Slot>, ghost round: nat)
    returns (buckets: map<string, seq<Job>>, output: seq<Job>, ghost order: seq<Slot>)
    requires DrainedTo(queues, keys, buckets0, order0, output0, round, 0)
    ensures DrainedTo(queues, keys, buckets, order, output, round + 1, 0)
  {
    buckets, output, order := buckets0, output0, order0;
    for k := 0 to |keys|
      invariant DrainedTo(queues, keys, buckets, order, output, round, k)
    {
      if buckets[keys[k]] != [] {
        var items := buckets[keys[k]];
        ServeOne(queues, keys, buckets, order, output, round, k);
        buckets, output := buckets[keys[k] := items[1..]], output + [items[0]];
        order := order + [Slot(k, round)];
      } else {
        SkipOne(queues, keys, buckets, order, output, round, k);
      }
    }
    RoundDone(queues, keys, buckets, order, output, round);
  }

  lemma SkipOne<T>(queues: seq<seq<T>>, keys: seq<string>, buckets: map<string, seq<T>>,
                   order: seq<Slot>, output: seq<T>, round: nat, k: nat)
    requires k < |keys| && DrainedTo(queues, keys, buckets, order, output, round, k) && buckets[keys[k]] == []
    ensures DrainedTo(queues, keys, buckets, order, output, round, k + 1)
  {
    assert |queues[k]| <= round;
  }

  lemma RoundDone<T>(queues: seq<seq<T>>, keys: seq<string>, buckets: map<string, seq<T>>,
                     order: seq<Slot>, output: seq<T>, round: nat)
    requires DrainedTo(queues, keys, buckets, order, output, round, |keys|)
    ensures DrainedTo(queues, keys, buckets, order, output, round + 1, 0)
  {
    assert forall s :: InQueues(queues, s) ==> (Served(s, round, |keys|) <==> Served(s, round + 1, 0));
    assert forall s :: s in order ==> Served(s, round + 1, 0);
  }

  lemma ServeOne<T>(queues: seq<seq<T>>, keys: seq<string>, buckets: map<string, seq<T>>,
                    order: seq<Slot>, output: seq<T>, round: nat, k: nat)
    requires k < |keys| && DrainedTo(queues, keys, buckets, order, output, round, k) && buckets[keys[k]] != []
    ensures var items := buckets[keys[k]];
            DrainedTo(queues, keys, buckets[keys[k] := items[1..]], order + [Slot(k, round)], output + [items[0]],
                      round, k + 1)
  {
    assert buckets[keys[k]][0] == queues[k][round];
    ItemsAtAppend(queues, order, Slot(k, round));
    ServeSlot(queues, order, round, k);
    ServeBucket(queues, keys, buckets, round, k);
  }

  lemma ServeSlot<T>(queues: seq<seq<T>>, order: seq<Slot>, round: nat, k: nat)
    requires ServedSoFar(queues, order, round, k) && InQueues(queues, Slot(k, round))
    ensures ServedSoFar(queues, order + [Slot(k, round)], round, k + 1)
  {
    var s := Slot(k, round);
    var longer := order + [s];
    assert longer[|order|] == s && forall i :: 0 <= i < |order| ==> longer[i] == order[i];
    forall i | 0 <= i < |order| ensures Before(order[i], s) {
      assert order[i] in order;
    }
    forall x | InQueues(queues, x) && Served(x, round, k + 1) ensures x in longer {
      assert x == s || x in order;
    }
  }

  lemma ServeBucket<T>(queues: seq<seq<T>>, keys: seq<string>, buckets: map<string, seq<T>>, round: nat, k: nat)
    requires k < |keys| && BucketsLeft(queues, keys, buckets, round, k) && buckets[keys[k]] != []
    ensures BucketsLeft(queues, keys, buckets[keys[k] := buckets[keys[k]][1..]], round, k + 1)
  {
    assert buckets[keys[k]] == queues[k][round..];
  }

  predicate Occurs(jobs: seq<Job>, capability: string) {
    exists i :: 0 <= i < |jobs| && jobs[i].capability == capability
  }

  /** Buckets by capability in name order, each in id order, drained in fair rounds. */
  ghost predicate ScheduleOf(jobs: seq<Job>, keys: seq<string>, order: seq<Slot>, output: seq<Job>) {
    && Distinct(keys) && SortedBy(keys, StrLeq) && (forall c :: c in keys <==> Occurs(jobs, c))
    && var queues := Buckets(Sort(jobs, JobLeq), keys);
       FairSchedule(queues, order) && output == ItemsAt(queues, order)
  }

  lemma SortedJobs(jobs: seq<Job>)
    ensures SortedBy(Sort(jobs, JobLeq), JobLeq)
    ensures multiset(Sort(jobs, JobLeq)) == multiset(jobs)
    ensures forall c :: Occurs(Sort(jobs, JobLeq), c) <==> Occurs(jobs, c)
  {
    JobOrderIsTotal();
    SortSorts(jobs, JobLeq);
    SortKeepsElements(jobs, JobLeq);
    forall c ensures Occurs(Sort(jobs, JobLeq), c) <==> Occurs(jobs, c) {
      SameOccurrences(jobs, Sort(jobs, JobLeq), c);
      SameOccurrences(Sort(jobs, JobLeq), jobs, c);
    }
  }

  lemma SameOccurrences(a: seq<Job>, b: seq<Job>, c: string)
    requires forall j :: j in a ==> j in b
    ensures Occurs(a, c) ==> Occurs(b, c)
  {
    if Occurs(a, c) {
      var i :| 0 <= i < |a| && a[i].capability == c;
      assert a[i] in b;
    }
  }

  /** Every job is scheduled exactly as often as it was given, and each bucket in id order. */
  lemma ScheduleKeepsJobs(jobs: seq<Job>, keys: seq<string>, order: seq<Slot>, output: seq<Job>)
    requires ScheduleOf(jobs, keys, order, output)
    ensures multiset(output) == multiset(jobs)
    ensures forall i :: 0 <= i < |keys| ==> SortedBy(Bucket(Sort(jobs, JobLeq), keys[i]), JobLeq)
  {
    var sorted := Sort(jobs, JobLeq);
    SortedJobs(jobs);
    ScheduleIsPermutation(Buckets(sorted, keys), order);
    forall i | 0 <= i < |sorted| ensures sorted[i].capability in keys {
      assert Occurs(sorted, sorted[i].capability);
    }
    BucketsKeepJobs(sorted, keys);
    forall i | 0 <= i < |keys| ensures SortedBy(Bucket(sorted, keys[i]), JobLeq) {
      BucketIsSorted(sorted, keys[i]);
    }
  }

  /** Sort, bucket, drain. */
  method RoundRobinCapabilities(jobs: seq<Job>)
    returns (output: seq<Job>, ghost keys: seq<string>, ghost order: seq<Slot>)
    ensures ScheduleOf(jobs, keys, order, output)
    ensures multiset(output) == multiset(jobs)
  {
    var sorted := Sort(jobs, JobLeq);
    var buckets, found := FillBuckets(sorted);
    var names := Sort(found, StrLeq);
    SortedNames(found);
    keys := names;
    output, order := Drain(names, buckets, Buckets(sorted, names));
    SortedJobs(jobs);
    ScheduleKeepsJobs(jobs, keys, order, output);
  }

  lemma SortedNames(found: seq<string>)
    requires Distinct(found)
    ensures var names := Sort(found, StrLeq);
            Distinct(names) && SortedBy(names, StrLeq) && forall c :: c in names <==> c in found
  {
    StringOrderIsTotal();
    SortKeepsElements(found, StrLeq);
    SortSorts(found, StrLeq);
    PermutationKeepsDistinct(found, Sort(found, StrLeq));
  }

  /** Append each job to its capability's bucket, remembering the keys as they appear. */
  method FillBuckets(sorted: seq<Job>) returns (buckets: map<string, seq<Job>>, found: seq<string>)
    ensures Distinct(found) && forall c :: c in found <==> c in buckets
    ensures forall c :: c in found <==> Occurs(sorted, c)
    ensures forall c :: c in buckets ==> buckets[c] == Bucket(sorted, c)
  {
    buckets, found := map[], [];
    for i := 0 to |sorted|
      invariant Distinct(found) && forall c :: c in found <==> c in buckets
      invariant forall c :: c in buckets <==> exists j :: 0 <= j < i && sorted[j].capability == c
      invariant forall c :: c in buckets ==> buckets[c] == Bucket(sorted[..i], c)
      invariant forall c :: c !in buckets ==> Bucket(sorted[..i], c) == []
    {
      var job := sorted[i];
      assert sorted[..i + 1][..i] == sorted[..i];
      if job.capability !in buckets {
        buckets := buckets[job.capability := []];
        found := found + [job.capability];
      }
      buckets := buckets[job.capability := buckets[job.capability] + [job]];
    }
    assert sorted[..|sorted|] == sorted;
  }

  lemma {:induction false} BucketIsSorted(jobs: seq<Job>, capability: string)
    requires SortedBy(jobs, JobLeq)
    ensures SortedBy(Bucket(jobs, capability), JobLeq)
    ensures forall j :: j in Bucket(jobs, capability) ==> j in jobs
  {
    if jobs != [] {
      var last := |jobs| - 1;
      BucketIsSorted(jobs[..last], capability);
      var before := Bucket(jobs[..last], capability);
      forall i | 0 <= i < |before| ensures JobLeq(before[i], jobs[last]) {
        assert before[i] in jobs[..last];
      }
      assert jobs == jobs[..last] + [jobs[last]];
    }
  }
}
