/** What the spacing of commits means for any window of time. */
module ProxyWindow {
  import opened ProxyLedger
  import opened ProxyProtocol
  import opened ProxyRate

  /** A closed window of time within one proxy lifetime. */
  datatype Window = Window(lifetime: nat, from: real, length: real)

  predicate Inside(w: Window, c: Commit) {
    c.lifetime == w.lifetime && w.from <= c.time <= w.from + w.length
  }

  function Commits(cs: seq<Commit>, w: Window): nat {
    if cs == [] then 0
    else Commits(cs[..|cs| - 1], w) + if Inside(w, cs[|cs| - 1]) then 1 else 0
  }

  function CommitsBelow(cs: seq<Commit>, w: Window, slots: nat): nat {
    if cs == [] then 0
    else
      var c := cs[|cs| - 1];
      CommitsBelow(cs[..|cs| - 1], w, slots) + if Inside(w, c) && c.slot < slots then 1 else 0
  }

  function CommitsAt(cs: seq<Commit>, w: Window, slot: nat): nat {
    if cs == [] then 0
    else
      var c := cs[|cs| - 1];
      CommitsAt(cs[..|cs| - 1], w, slot) + if Inside(w, c) && c.slot == slot then 1 else 0
  }

  lemma {:induction false} SplitTopSlot(cs: seq<Commit>, w: Window, slots: nat)
    ensures CommitsBelow(cs, w, slots + 1) == CommitsBelow(cs, w, slots) + CommitsAt(cs, w, slots)
  {
    if cs != [] {
      SplitTopSlot(cs[..|cs| - 1], w, slots);
    }
  }

  lemma {:induction false} BelowAll(cs: seq<Commit>, w: Window, slots: nat)
    requires forall i :: 0 <= i < |cs| && Inside(w, cs[i]) ==> cs[i].slot < slots
    ensures CommitsBelow(cs, w, slots) == Commits(cs, w)
  {
    if cs != [] {
      BelowAll(cs[..|cs| - 1], w, slots);
    }
  }

  lemma {:induction false} BelowZero(cs: seq<Commit>, w: Window)
    ensures CommitsBelow(cs, w, 0) == 0
  {
    if cs != [] {
      BelowZero(cs[..|cs| - 1], w);
    }
  }

  ghost predicate SpacedAt(cs: seq<Commit>, w: Window, slot: nat, gap: real) {
    forall i, j :: 0 <= i < j < |cs| && Inside(w, cs[i]) && Inside(w, cs[j]) && cs[i].slot == slot == cs[j].slot ==>
      cs[i].time + gap <= cs[j].time
  }

  function Gaps(n: int, gap: real): real {
    n as real * gap
  }

  lemma GapsStep(n: int, gap: real)
    ensures Gaps(n + 1, gap) == Gaps(n, gap) + gap && Gaps(0, gap) == 0.0
  {
    assert (n + 1) as real == n as real + 1.0;
  }

  ghost predicate LateEntry(cs: seq<Commit>, w: Window, slot: nat, j: nat, delay: real) {
    j < |cs| && Inside(w, cs[j]) && cs[j].slot == slot && cs[j].time >= w.from + delay
  }

  ghost predicate HasLateEntry(cs: seq<Commit>, w: Window, slot: nat, delay: real) {
    exists j: nat :: LateEntry(cs, w, slot, j, delay)
  }

  /** The n-th commit of one slot inside the window is at least n-1 gaps past its start. */
  lemma {:induction false} LastOfSlotIsLate(cs: seq<Commit>, w: Window, slot: nat, gap: real)
    requires SpacedAt(cs, w, slot, gap)
    ensures CommitsAt(cs, w, slot) > 0 ==> HasLateEntry(cs, w, slot, Gaps(CommitsAt(cs, w, slot) - 1, gap))
  {
    if cs != [] {
      var last := |cs| - 1;
      var before := cs[..last];
      LastOfSlotIsLate(before, w, slot, gap);
      var n: int := CommitsAt(before, w, slot);
      GapsStep(n - 1, gap);
      if n > 0 {
        var j: nat :| LateEntry(before, w, slot, j, Gaps(n - 1, gap));
        assert LateEntry(cs, w, slot, j, Gaps(n - 1, gap));
      }
      if Inside(w, cs[last]) && cs[last].slot == slot {
        assert LateEntry(cs, w, slot, last, Gaps(n, gap));
      }
    }
  }

  lemma FloorBounds(n: nat, length: real, gap: real, rps: PosReal)
    requires gap == 1.0 / rps && Gaps(n, gap) <= length
    ensures n <= (length * rps).Floor
  {
    assert gap * rps == 1.0;
    calc {
      n as real;
      n as real * (gap * rps);
      (n as real * gap) * rps;
    <=
      length * rps;
    }
  }

  lemma SlotHoldsFew(cs: seq<Commit>, w: Window, slot: nat, gap: real, rps: PosReal)
    requires w.length >= 0.0 && gap == 1.0 / rps && SpacedAt(cs, w, slot, gap)
    ensures CommitsAt(cs, w, slot) <= (w.length * rps).Floor + 1
  {
    var n := CommitsAt(cs, w, slot);
    if n == 0 {
      GapsStep(0, gap);
      FloorBounds(0, w.length, gap, rps);
    } else {
      LastOfSlotIsLate(cs, w, slot, gap);
      LateEntryFits(cs, w, slot, Gaps(n - 1, gap));
      FloorBounds(n - 1, w.length, gap, rps);
    }
  }

  lemma LateEntryFits(cs: seq<Commit>, w: Window, slot: nat, delay: real)
    requires HasLateEntry(cs, w, slot, delay)
    ensures delay <= w.length
  {
    var j: nat :| LateEntry(cs, w, slot, j, delay);
  }

  ghost predicate SpacedBelow(cs: seq<Commit>, w: Window, slots: nat, gap: real) {
    forall k: nat :: k < slots ==> SpacedAt(cs, w, k, gap)
  }

  lemma {:induction false} AllSlotsHoldFew(
    cs: seq<Commit>, w: Window, slots: nat, gap: real, rps: PosReal, few: int)
    requires w.length >= 0.0 && gap == 1.0 / rps && SpacedBelow(cs, w, slots, gap)
    requires few == (w.length * rps).Floor + 1
    ensures CommitsBelow(cs, w, slots) <= slots * few
  {
    if slots == 0 {
      BelowZero(cs, w);
    } else {
      AllSlotsHoldFew(cs, w, slots - 1, gap, rps, few);
      SplitTopSlot(cs, w, slots - 1);
      SlotHoldsFew(cs, w, slots - 1, gap, rps);
      assert slots * few == (slots - 1) * few + few;
    }
  }

  /** Rate bound: in every run, any window of length W within one proxy lifetime serving one permit
      holds at most max_concurrency * (floor(W * max_rps) + 1) committed I/O boundaries. With one
      slot that is floor(W * max_rps) + 1. */
  lemma RateBound(law: Law, es: seq<Event>, w: Window, owner: Owner)
    requires Run(law, es).Some? && w.length >= 0.0
    requires forall c :: c in Run(law, es).value.commits && c.lifetime == w.lifetime ==> c.owner == owner
    ensures Commits(Run(law, es).value.commits, w)
         <= law(owner).maxConcurrency * ((w.length * law(owner).maxRps).Floor + 1)
  {
    RunPaced(law, es);
    var s := Run(law, es).value;
    CommitsFitWindow(law, s, w, owner);
    var few := (w.length * law(owner).maxRps).Floor + 1;
    AllSlotsHoldFew(s.commits, w, law(owner).maxConcurrency, Gap(law, owner), law(owner).maxRps, few);
    BelowAll(s.commits, w, law(owner).maxConcurrency);
  }

  lemma CommitsFitWindow(law: Law, s: State, w: Window, owner: Owner)
    requires Paced(law, s)
    requires forall c :: c in s.commits && c.lifetime == w.lifetime ==> c.owner == owner
    ensures forall i :: 0 <= i < |s.commits| && Inside(w, s.commits[i]) ==>
              s.commits[i].slot < law(owner).maxConcurrency
    ensures SpacedBelow(s.commits, w, law(owner).maxConcurrency, Gap(law, owner))
  {
    forall i | 0 <= i < |s.commits| && Inside(w, s.commits[i])
      ensures s.commits[i].slot < law(owner).maxConcurrency && s.commits[i].owner == owner
    {
      assert s.commits[i] in s.commits;
      assert CommitSane(law, s, s.commits[i]);
    }
  }

  /** One lifetime serves one permit, so the owner above is always determined. */
  lemma LifetimeHasOneOwner(law: Law, es: seq<Event>, a: Commit, b: Commit)
    requires Run(law, es).Some?
    requires a in Run(law, es).value.commits && b in Run(law, es).value.commits && a.lifetime == b.lifetime
    ensures a.owner == b.owner
  {
    RunPaced(law, es);
  }

  // ----- disjoint requests

  ghost predicate Behind(law: Law, s: State, id: string, lifetime: nat, time: real) {
    && s.lifetime == lifetime
    && s.lastForwarded >= time
    && (forall h :: h in s.handlers && s.handlers[h].Waiting? && s.handlers[h].id == id ==>
          s.handlers[h].wakeAt >= time + Gap(law, s.owner))
    && (forall i :: 0 <= i < |s.commits| && s.commits[i].lifetime == lifetime && s.commits[i].id == id ==>
          s.commits[i].time >= time + Gap(law, s.owner))
  }

  lemma StepStaysBehind(law: Law, s: State, e: Event, id: string, lifetime: nat, time: real)
    requires Paced(law, s) && Enabled(s, e) && !e.Start? && Behind(law, s, id, lifetime, time)
    ensures Behind(law, Apply(law, s, e), id, lifetime, time)
  {
    match e
    case Mark(h) => MarkStaysBehind(law, s, h, id, lifetime, time);
    case Admit(h) => AdmitStaysBehind(law, s, h, id, lifetime, time);
    case ReadDelay(h) => ReadDelayStaysBehind(law, s, h, id, lifetime, time);
    case _ => NobodyFallsAsleep(law, s, e, id, lifetime, time);
  }

  lemma AdmitStaysBehind(law: Law, s: State, h: nat, id: string, lifetime: nat, time: real)
    requires h in s.handlers && Behind(law, s, id, lifetime, time)
    ensures Behind(law, ApplyAdmit(law, s, h), id, lifetime, time)
  {
  }

  lemma ReadDelayStaysBehind(law: Law, s: State, h: nat, id: string, lifetime: nat, time: real)
    requires Enabled(s, ReadDelay(h)) && Behind(law, s, id, lifetime, time)
    ensures Behind(law, Apply(law, s, ReadDelay(h)), id, lifetime, time)
  {
  }

  lemma NobodyFallsAsleep(law: Law, s: State, e: Event, id: string, lifetime: nat, time: real)
    requires Paced(law, s) && Enabled(s, e) && Behind(law, s, id, lifetime, time)
    requires !e.Start? && !e.Mark? && !e.Admit? && !e.ReadDelay?
    ensures Behind(law, Apply(law, s, e), id, lifetime, time)
  {
  }

  lemma MarkStaysBehind(law: Law, s: State, h: nat, id: string, lifetime: nat, time: real)
    requires Paced(law, s) && Enabled(s, Mark(h)) && Behind(law, s, id, lifetime, time)
    ensures Behind(law, ApplyMark(s, h), id, lifetime, time)
  {
  }

  /** Two requests that do not overlap: if request `a` was committed in this lifetime and is finished
      before request `b` has a row, then whatever else interleaves until the process ends, `b`
      commits at least one interval after `a`. */
  lemma {:induction false} DisjointRequestsAreSpaced(
    law: Law, s: State, es: seq<Event>, a: Commit, id: string)
    requires Paced(law, s) && id !in s.table
    requires a in s.commits && Current(s, a) && s.table[a.id].state in FINISHED
    requires forall i :: 0 <= i < |es| ==> !es[i].Start?
    requires RunFrom(law, s, es).Some?
    ensures var s' := RunFrom(law, s, es).value;
            Paced(law, s') && Behind(law, s', id, a.lifetime, a.time)
    ensures forall b :: b in RunFrom(law, s, es).value.commits && b.id == id && b.lifetime == a.lifetime ==>
              a.time + Gap(law, a.owner) <= b.time
  {
    var i :| 0 <= i < |s.commits| && s.commits[i] == a;
    assert CommitSane(law, s, a);
    if es == [] {
      forall k | 0 <= k < |s.commits| ensures s.commits[k].id != id {
        assert CommitSane(law, s, s.commits[k]);
      }
    } else {
      var last := |es| - 1;
      var p := RunFrom(law, s, es[..last]).value;
      DisjointRequestsAreSpaced(law, s, es[..last], a, id);
      StepPaces(law, p, es[last]);
      StepStaysBehind(law, p, es[last], id, a.lifetime, a.time);
      OwnerConstant(law, s, es);
    }
  }

  lemma {:induction false} OwnerConstant(law: Law, s: State, es: seq<Event>)
    requires RunFrom(law, s, es).Some? && forall i :: 0 <= i < |es| ==> !es[i].Start?
    ensures RunFrom(law, s, es).value.owner == s.owner && RunFrom(law, s, es).value.lifetime == s.lifetime
  {
    if es != [] {
      OwnerConstant(law, s, es[..|es| - 1]);
      StepKeepsOwner(law, RunFrom(law, s, es[..|es| - 1]).value, es[|es| - 1]);
    }
  }

  lemma StepKeepsOwner(law: Law, s: State, e: Event)
    requires Enabled(s, e) && !e.Start?
    ensures Apply(law, s, e).owner == s.owner && Apply(law, s, e).lifetime == s.lifetime
  {
  }
}
