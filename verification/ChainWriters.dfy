/** Concurrent appenders to one hash-linked log, with and without the file lock. */
module ChainWriters {
  import opened Basics
  import opened HashChain

  /** A writer has read the tail it is about to link to. */
  datatype Draft<B, D> = Draft(body: B, sequence: int, previous: D)

  datatype State<B, D> = State(
    log: seq<Record<B, D>>,            // durable
    holder: Option<nat>,               // who holds the file lock
    drafts: map<nat, Draft<B, D>>,
    written: nat)                      // history

  datatype Event<B> =
    | Acquire(w: nat)
    | ReadTail(w: nat, body: B)
    | Write(w: nat)
    | Release(w: nat)                  // given up, or dropped with the process where the lock is advisory

  predicate Enabled<B, D>(locking: bool, s: State<B, D>, e: Event<B>) {
    match e
    case Acquire(w) => locking && s.holder == None
    case ReadTail(w, _) => w !in s.drafts && (locking ==> s.holder == Some(w))
    case Write(w) => w in s.drafts && (locking ==> s.holder == Some(w))
    case Release(w) => true
  }

  function Apply<B, D>(k: Kind<B, D>, locking: bool, s: State<B, D>, e: Event<B>): State<B, D>
    requires Enabled(locking, s, e)
  {
    match e
    case Acquire(w) => s.(holder := Some(w))
    case ReadTail(w, body) => s.(drafts := s.drafts[w := Draft(body, NextSequence(s.log), Tip(k, s.log))])
    case Write(w) =>
      var d := s.drafts[w];
      s.(log := s.log + [Sealed(k, d.sequence, d.body, d.previous)], drafts := s.drafts - {w}, written := s.written + 1)
    case Release(w) =>
      s.(holder := if s.holder == Some(w) then None else s.holder, drafts := s.drafts - {w})
  }

  function Run<B, D>(k: Kind<B, D>, locking: bool, s: State<B, D>, es: seq<Event<B>>): Option<State<B, D>> {
    if es == [] then Some(s)
    else
      var p := Run(k, locking, s, es[..|es| - 1]);
      if p.Some? && Enabled(locking, p.value, es[|es| - 1])
      then Some(Apply(k, locking, p.value, es[|es| - 1]))
      else None
  }

  /** Only the lock holder has a draft, and its draft still links to the tail. */
  ghost predicate DraftsAreCurrent<B, D>(k: Kind<B, D>, s: State<B, D>) {
    forall w :: w in s.drafts ==>
      && s.holder == Some(w)
      && s.drafts[w].sequence == NextSequence(s.log) && s.drafts[w].previous == Tip(k, s.log)
      && k.artifact(s.drafts[w].body) == None
  }

  ghost predicate BodiesPresent<B, D>(k: Kind<B, D>, es: seq<Event<B>>) {
    forall i :: 0 <= i < |es| && es[i].ReadTail? ==> k.artifact(es[i].body) == None
  }

  /** Locked appends, in any interleaving and with writers dying anywhere, keep the log's verdict,
      keep every earlier record, and lose no completed write. */
  lemma {:induction false} LockedAppendsKeepLogValid<B, D>(
    k: Kind<B, D>, s: State<B, D>, es: seq<Event<B>>, v: Verdict)
    requires s.drafts == map[] && BodiesPresent(k, es) && Run(k, true, s, es).Some?
    requires IsVerdict(k, s.log, v)
    ensures var s' := Run(k, true, s, es).value;
            && DraftsAreCurrent(k, s')
            && IsVerdict(k, s'.log, v)
            && s.log <= s'.log && |s'.log| - |s.log| == s'.written - s.written
  {
    if es != [] {
      var last := |es| - 1;
      LockedAppendsKeepLogValid(k, s, es[..last], v);
      var p := Run(k, true, s, es[..last]).value;
      match es[last]
      case Write(w) =>
        assert Apply(k, true, p, es[last]).log == Appended(k, p.log, p.drafts[w].body);
        AppendKeepsVerdict(k, p.log, p.drafts[w].body, v);
      case _ =>
    }
  }

  // ----- without the lock

  /** Writer `w` read the tail at event `i` and still holds that draft before event `j`. */
  ghost predicate Drafted<B>(es: seq<Event<B>>, i: nat, j: nat, w: nat) {
    && i < j <= |es| && es[i].ReadTail? && es[i].w == w
    && forall m :: i < m < j ==> es[m].w != w
  }

  ghost predicate WriteIn<B>(es: seq<Event<B>>, i: nat, j: nat) {
    exists m :: i < m < j && m < |es| && es[m].Write?
  }

  /** No write falls between a writer's read and its write. */
  ghost predicate Orderly<B>(es: seq<Event<B>>) {
    forall i: nat, j: nat :: j < |es| && es[j].Write? && Drafted(es, i, j, es[j].w) ==> !WriteIn(es, i, j)
  }

  function LogAt<B, D>(k: Kind<B, D>, s: State<B, D>, es: seq<Event<B>>, n: nat): seq<Record<B, D>>
    requires n <= |es| && Run(k, false, s, es[..n]).Some?
  {
    Run(k, false, s, es[..n]).value.log
  }

  /** A prefix of a run is a run. The log only grows, and grows exactly by writes. */
  lemma {:induction false} LogGrows<B, D>(k: Kind<B, D>, s: State<B, D>, es: seq<Event<B>>, n: nat)
    requires Run(k, false, s, es).Some? && n <= |es|
    ensures Run(k, false, s, es[..n]).Some?
    ensures LogAt(k, s, es, n) <= Run(k, false, s, es).value.log
    ensures |LogAt(k, s, es, n)| == |Run(k, false, s, es).value.log| <==>
              forall m :: n <= m < |es| ==> !es[m].Write?
  {
    if n == |es| {
      assert es[..n] == es;
    } else {
      var last := |es| - 1;
      LogGrows(k, s, es[..last], n);
      assert es[..last][..n] == es[..n];
    }
  }

  /** A draft holds the sequence and link of the log as it was when its writer read it. */
  lemma {:induction false} DraftOrigin<B, D>(k: Kind<B, D>, s: State<B, D>, es: seq<Event<B>>, w: nat) returns (i: nat)
    requires s.drafts == map[] && Run(k, false, s, es).Some? && w in Run(k, false, s, es).value.drafts
    ensures Drafted(es, i, |es|, w) && Run(k, false, s, es[..i]).Some?
    ensures var log := LogAt(k, s, es, i);
            Run(k, false, s, es).value.drafts[w] == Draft(es[i].body, NextSequence(log), Tip(k, log))
  {
    var last := |es| - 1;
    if es[last].w == w {
      i := last;
    } else {
      i := DraftOrigin(k, s, es[..last], w);
      assert es[..last][..i] == es[..i];
    }
  }

  /** One more unlocked write keeps a verified log verified exactly when its draft is of the current tail. */
  lemma WriteFits<B, D>(k: Kind<B, D>, log: seq<Record<B, D>>, earlier: seq<Record<B, D>>, body: B)
    requires Verified(k, log) && earlier <= log && k.artifact(body) == None
    ensures Verified(k, log + [Sealed(k, NextSequence(earlier), body, Tip(k, earlier))]) <==> |earlier| == |log|
  {
    var more := log + [Sealed(k, NextSequence(earlier), body, Tip(k, earlier))];
    VerifiedSequence(k, log, |earlier|);
    if |earlier| == |log| {
      assert earlier == log;
      AppendKeepsVerdict(k, log, body, Intact);
    } else {
      assert FaultAt(k, more, |log|) == Some(SequenceGap);
    }
  }

  lemma VerifiedSequence<B, D>(k: Kind<B, D>, log: seq<Record<B, D>>, n: nat)
    requires Verified(k, log) && n <= |log|
    ensures NextSequence(log[..n]) == n + 1
  {
    if n > 0 {
      assert FaultAt(k, log, n - 1) == None;
    }
  }

  lemma PrefixVerified<B, D>(k: Kind<B, D>, log: seq<Record<B, D>>, more: seq<Record<B, D>>)
    requires log <= more && Verified(k, more)
    ensures Verified(k, log)
  {
    forall i | 0 <= i < |log| ensures FaultAt(k, log, i) == None {
      PrefixFaults(k, more, |log|, i);
      assert more[..|log|] == log;
    }
  }

  /** Exactly the orderly unlocked runs keep a verified log verified. */
  lemma {:induction false} UnlockedAppendsExact<B, D>(k: Kind<B, D>, s: State<B, D>, es: seq<Event<B>>)
    requires s.drafts == map[] && BodiesPresent(k, es) && Verified(k, s.log) && Run(k, false, s, es).Some?
    ensures Verified(k, Run(k, false, s, es).value.log) <==> Orderly(es)
  {
    if es != [] {
      var last := |es| - 1;
      var before := es[..last];
      UnlockedAppendsExact(k, s, before);
      if es[last].Write? {
        var i := DraftOrigin(k, s, before, es[last].w);
        UnlockedWrite(k, s, es, i);
      } else {
        OrderlyPrefix(es);
      }
    }
  }

  // The last event writes the draft that was read at event `i`.
  lemma UnlockedWrite<B, D>(k: Kind<B, D>, s: State<B, D>, es: seq<Event<B>>, i: nat)
    requires s.drafts == map[] && BodiesPresent(k, es) && Run(k, false, s, es).Some? && es != [] && es[|es| - 1].Write?
    requires var before := es[..|es| - 1];
             && Drafted(before, i, |before|, es[|es| - 1].w) && Run(k, false, s, before[..i]).Some?
             && Run(k, false, s, before).value.drafts[es[|es| - 1].w]
             == Draft(es[i].body, NextSequence(LogAt(k, s, before, i)), Tip(k, LogAt(k, s, before, i)))
             && (Verified(k, Run(k, false, s, before).value.log) <==> Orderly(before))
    ensures Verified(k, Run(k, false, s, es).value.log) <==> Orderly(es)
  {
    var before := es[..|es| - 1];
    var log, earlier := Run(k, false, s, before).value.log, LogAt(k, s, before, i);
    LogGrows(k, s, before, i);
    OrderlyLastWrite(es, i);
    assert |earlier| == |log| <==> !WriteIn(es, i, |es| - 1) by {
      assert forall m :: 0 <= m < |before| ==> before[m] == es[m];
    }
    if Verified(k, log) {
      WriteFits(k, log, earlier, es[i].body);
    } else if Verified(k, Run(k, false, s, es).value.log) {
      PrefixVerified(k, log, Run(k, false, s, es).value.log);
    }
  }

  lemma OrderlyPrefix<B>(es: seq<Event<B>>)
    requires es != [] && !es[|es| - 1].Write?
    ensures Orderly(es) <==> Orderly(es[..|es| - 1])
  {
    SamePairs(es);
  }

  lemma OrderlyLastWrite<B>(es: seq<Event<B>>, i: nat)
    requires es != [] && es[|es| - 1].Write? && Drafted(es[..|es| - 1], i, |es| - 1, es[|es| - 1].w)
    ensures Orderly(es) <==> Orderly(es[..|es| - 1]) && !WriteIn(es, i, |es| - 1)
  {
    SamePairs(es);
    var j := |es| - 1;
    assert Drafted(es, i, j, es[j].w);
    forall x: nat | Drafted(es, x, j, es[j].w) ensures x == i {
      assert es[..j][i] == es[i];
    }
  }

  // Dropping the last event changes no pair that ends before it.
  lemma SamePairs<B>(es: seq<Event<B>>)
    requires es != []
    ensures var before := es[..|es| - 1];
            forall i: nat, j: nat :: j < |before| ==>
              && (Drafted(before, i, j, es[j].w) <==> Drafted(es, i, j, es[j].w))
              && (WriteIn(before, i, j) <==> WriteIn(es, i, j))
  {
    var before := es[..|es| - 1];
    assert forall m :: 0 <= m < |before| ==> before[m] == es[m];
    forall i: nat, j: nat | j < |before|
      ensures Drafted(before, i, j, es[j].w) <==> Drafted(es, i, j, es[j].w)
      ensures WriteIn(before, i, j) <==> WriteIn(es, i, j)
    {
      if WriteIn(es, i, j) {
        var m :| i < m < j && m < |es| && es[m].Write?;
        assert before[m].Write?;
      }
    }
  }

  /** Without the lock, two writers that read the same tail break the log, whatever they write. */
  lemma UnlockedAppendsCollide<B, D>(k: Kind<B, D>, log: seq<Record<B, D>>, a: B, b: B)
    requires Verified(k, log) && k.artifact(a) == None && k.artifact(b) == None
    ensures var es := [ReadTail(0, a), ReadTail(1, b), Write(0), Write(1)];
            var r := Run(k, false, State(log, None, map[], 0), es);
            r.Some? && IsVerdict(k, r.value.log, Broken(|log| + 1, SequenceGap))
  {
    var es := [ReadTail(0, a), ReadTail(1, b), Write(0), Write(1)];
    var s0 := State(log, None, map[], 0);
    var s1 := Apply(k, false, s0, es[0]);
    var s2 := Apply(k, false, s1, es[1]);
    var s3 := Apply(k, false, s2, es[2]);
    var s4 := Apply(k, false, s3, es[3]);
    assert es[..0] == [];
    Prefix(k, s0, es, 0, s0);
    Prefix(k, s0, es, 1, s1);
    Prefix(k, s0, es, 2, s2);
    Prefix(k, s0, es, 3, s3);
    assert es[..4] == es;
    assert s3.log == Appended(k, log, a);
    AppendKeepsVerdict(k, log, a, Intact);
    assert s4.log[..|log| + 1] == s3.log;
    if log != [] {
      assert FaultAt(k, log, |log| - 1) == None;
    }
    assert FaultAt(k, s4.log, |log| + 1) == Some(SequenceGap);
  }

  lemma Prefix<B, D>(k: Kind<B, D>, s: State<B, D>, es: seq<Event<B>>, n: nat, p: State<B, D>)
    requires n < |es| && Run(k, false, s, es[..n]) == Some(p) && Enabled(false, p, es[n])
    ensures Run(k, false, s, es[..n + 1]) == Some(Apply(k, false, p, es[n]))
  {
    assert es[..n + 1][..n] == es[..n];
  }
}
