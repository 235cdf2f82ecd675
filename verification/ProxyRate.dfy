/** The rate bound: how far apart the committed I/O boundaries of one proxy lifetime must be. */
module ProxyRate {
  import opened ProxyLedger
  import opened ProxyProtocol
  import opened ProxySafety

  // ----- slots: active rows of an owner hold distinct numbers below the concurrency ceiling

  ghost predicate SlotsDisjoint(law: Law, s: State) {
    && (forall id :: id in s.table && s.table[id].state in ACTIVE ==>
          id in s.slots && s.slots[id] < law(s.table[id].owner).maxConcurrency)
    && (forall a, b :: a in s.table && b in s.table && a != b
          && s.table[a].state in ACTIVE && s.table[b].state in ACTIVE && s.table[a].owner == s.table[b].owner
          ==> s.slots[a] != s.slots[b])
  }

  // ----- pacing

  function Gap(law: Law, o: Owner): real {
    Interval(law(o))
  }

  predicate Current(s: State, c: Commit) {
    c.lifetime == s.lifetime
  }

  // Past the stamp: last_forwarded already covers this handler's commit.
  predicate StampedPc(pc: Pc) {
    pc.Stamped? || pc.InFlight? || pc.Responded? || pc.Caught?
  }

  ghost predicate ClockSane(s: State) {
    0.0 <= s.lastForwarded <= s.now
  }

  ghost predicate CommitSane(law: Law, s: State, c: Commit) {
    && c.lifetime <= s.lifetime
    && c.time <= s.now
    && c.id in s.table && s.table[c.id].state in FORWARDED && s.table[c.id].owner == c.owner
    && c.slot < law(c.owner).maxConcurrency
    && (Current(s, c) ==> c.owner == s.owner && c.id in s.slots && c.slot == s.slots[c.id])
  }

  ghost predicate CommitsSane(law: Law, s: State) {
    forall i :: 0 <= i < |s.commits| ==> CommitSane(law, s, s.commits[i])
  }

  // A slot is only given back after its commit was stamped.
  ghost predicate ReleasedAfterStamp(s: State) {
    && (forall i ::
          0 <= i < |s.commits| && Current(s, s.commits[i]) && s.commits[i].id in s.table &&
          s.table[s.commits[i].id].state in FINISHED ==>
            s.commits[i].time <= s.lastForwarded)
    && (forall i, h ::
          0 <= i < |s.commits| && Current(s, s.commits[i]) && h in s.handlers &&
          StampedPc(s.handlers[h]) && s.handlers[h].id == s.commits[i].id ==>
            s.commits[i].time <= s.lastForwarded)
  }

  // A sleeping handler wakes a full interval after every commit of its slot.
  ghost predicate WakesLate(law: Law, s: State) {
    forall i, h :: 0 <= i < |s.commits| && Current(s, s.commits[i]) && h in s.handlers
      && s.handlers[h].Waiting? && s.handlers[h].id in s.slots
      && s.slots[s.handlers[h].id] == s.commits[i].slot
      ==> s.commits[i].time + Gap(law, s.owner) <= s.handlers[h].wakeAt
  }

  ghost predicate Spaced(law: Law, cs: seq<Commit>) {
    forall i, j :: 0 <= i < j < |cs| && cs[i].lifetime == cs[j].lifetime && cs[i].slot == cs[j].slot ==>
      cs[i].time + Gap(law, cs[j].owner) <= cs[j].time
  }

  ghost predicate OneOwnerPerLifetime(cs: seq<Commit>) {
    forall i, j :: 0 <= i < |cs| && 0 <= j < |cs| && cs[i].lifetime == cs[j].lifetime ==> cs[i].owner == cs[j].owner
  }

  ghost predicate Paced(law: Law, s: State) {
    && LedgerSafe(law, s)
    && SlotsDisjoint(law, s)
    && ClockSane(s)
    && CommitsSane(law, s)
    && ReleasedAfterStamp(s)
    && WakesLate(law, s)
    && Spaced(law, s.commits)
    && OneOwnerPerLifetime(s.commits)
  }

  // ----- preservation

  lemma ImageNoLarger(ids: set<string>, slots: map<string, nat>)
    requires ids <= slots.Keys
    ensures |set id | id in ids :: slots[id]| <= |ids|
  {
    if ids != {} {
      var x :| x in ids;
      ImageNoLarger(ids - {x}, slots);
      var image, rest := set id | id in ids :: slots[id], set id | id in ids - {x} :: slots[id];
      assert image == rest + {slots[x]};
    }
  }

  /** A row is only admitted while a slot below the ceiling is free. */
  lemma AdmittedSlotIsFree(law: Law, s: State, id: string)
    requires SlotsDisjoint(law, s) && AdmissionOf(s.table, id, s.owner, law(s.owner)).Granted?
    ensures FreeSlot(UsedSlots(s)) < law(s.owner).maxConcurrency
    ensures forall x :: x in Ids(s.table, s.owner, ACTIVE) ==> s.slots[x] != FreeSlot(UsedSlots(s))
  {
    var ids := Ids(s.table, s.owner, ACTIVE);
    ImageNoLarger(ids, s.slots);
    assert UsedSlots(s) == set x | x in ids :: s.slots[x];
  }

  /** Commits stay sane while forwarded rows stay forwarded and recorded slots stay recorded. */
  lemma CommitsStaySane(law: Law, s: State, s': State)
    requires CommitsSane(law, s)
    requires s'.commits == s.commits && s'.lifetime == s.lifetime && s'.owner == s.owner && s'.now >= s.now
    requires forall id :: id in s.table && s.table[id].state in FORWARDED ==>
               id in s'.table && s'.table[id].state in FORWARDED && s'.table[id].owner == s.table[id].owner
    requires forall id :: id in s.slots && id in s.table ==> id in s'.slots && s'.slots[id] == s.slots[id]
    ensures CommitsSane(law, s')
  {
    forall i | 0 <= i < |s.commits|
      ensures CommitSane(law, s', s.commits[i])
    {
      assert CommitSane(law, s, s.commits[i]);
    }
  }

  lemma AdmitPaces(law: Law, s: State, h: nat)
    requires Paced(law, s) && Enabled(s, Event.Admit(h))
    ensures Paced(law, ApplyAdmit(law, s, h))
  {
    var id := s.handlers[h].id;
    AdmitKeeps(law, s, h);
    match AdmissionOf(s.table, id, s.owner, law(s.owner))
    case Granted =>
      AdmitTakesFreeSlot(law, s, h);
      AdmitKeepsPacing(law, s, h);
    case DuplicateId => QuietPaces(law, s, Abandon(h));
    case _ => DenyPaces(law, s, h);
  }

  lemma AdmitTakesFreeSlot(law: Law, s: State, h: nat)
    requires Paced(law, s) && Enabled(s, Event.Admit(h))
    requires AdmissionOf(s.table, s.handlers[h].id, s.owner, law(s.owner)).Granted?
    ensures SlotsDisjoint(law, ApplyAdmit(law, s, h))
  {
    var id := s.handlers[h].id;
    var t' := ApplyAdmit(law, s, h).table;
    AdmittedSlotIsFree(law, s, id);
    assert t' == s.table[id := Row(s.owner, Reserved)];
  }

  lemma AdmitKeepsPacing(law: Law, s: State, h: nat)
    requires Paced(law, s) && Enabled(s, Event.Admit(h))
    requires AdmissionOf(s.table, s.handlers[h].id, s.owner, law(s.owner)).Granted?
    ensures var s' := ApplyAdmit(law, s, h);
            ReleasedAfterStamp(s') && WakesLate(law, s') && CommitsSane(law, s')
  {
    var id := s.handlers[h].id;
    var s' := ApplyAdmit(law, s, h);
    assert s'.table == s.table[id := Row(s.owner, Reserved)] && s'.commits == s.commits;
    assert s'.handlers == s.handlers[h := Admitted(id)];
    CommitsStaySane(law, s, s');
    AdmitReleasesNothing(law, s, h, s');
  }

  lemma AdmitReleasesNothing(law: Law, s: State, h: nat, s': State)
    requires Paced(law, s) && h in s.handlers && s.handlers[h].id !in s.table
    requires var id := s.handlers[h].id;
             && s'.handlers == s.handlers[h := Admitted(id)] && s'.table == s.table[id := Row(s.owner, Reserved)]
             && s'.commits == s.commits && s'.lifetime == s.lifetime && s'.owner == s.owner
             && s'.lastForwarded == s.lastForwarded
             && forall x :: x in s.slots && x != id ==> x in s'.slots && s'.slots[x] == s.slots[x]
    ensures ReleasedAfterStamp(s') && WakesLate(law, s')
  {
    assert forall k :: k in s.handlers && Owns(s.handlers[k]) ==> s.handlers[k].id != s.handlers[h].id;
    forall i | 0 <= i < |s.commits| ensures s.commits[i].id in s.table {
      assert CommitSane(law, s, s.commits[i]);
    }
  }

  lemma ReadDelayPaces(law: Law, s: State, h: nat)
    requires Paced(law, s) && Enabled(s, ReadDelay(h))
    ensures Paced(law, Apply(law, s, ReadDelay(h)))
  {
    var s' := Apply(law, s, ReadDelay(h));
    StepKeepsLedgerSafe(law, s, ReadDelay(h));
    ReadDelayWakesLate(law, s, h);
    CommitsStaySane(law, s, s');
    ReadDelayReleasesNothing(law, s, h);
  }

  lemma ReadDelayReleasesNothing(law: Law, s: State, h: nat)
    requires Paced(law, s) && Enabled(s, ReadDelay(h))
    ensures ReleasedAfterStamp(Apply(law, s, ReadDelay(h)))
  {
    var s' := Apply(law, s, ReadDelay(h));
    assert forall k :: k in s'.handlers && StampedPc(s'.handlers[k]) ==>
      k in s.handlers && s'.handlers[k] == s.handlers[k];
  }

  lemma ReadDelayWakesLate(law: Law, s: State, h: nat)
    requires Paced(law, s) && Enabled(s, ReadDelay(h))
    ensures WakesLate(law, Apply(law, s, ReadDelay(h)))
  {
    var id := s.handlers[h].id;
    var s' := Apply(law, s, ReadDelay(h));
    assert s'.commits == s.commits && s'.slots == s.slots;
    forall i | 0 <= i < |s.commits| && Current(s, s.commits[i]) && s.slots[id] == s.commits[i].slot
      ensures s.commits[i].time + Gap(law, s.owner) <= s'.handlers[h].wakeAt
    {
      var c := s.commits[i];
      assert CommitSane(law, s, c);
      // Another active row of this owner would hold another slot, so this one was released.
      assert s.table[c.id].state in FINISHED;
    }
  }

  lemma MarkPaces(law: Law, s: State, h: nat)
    requires Paced(law, s) && Enabled(s, Event.Mark(h))
    ensures Paced(law, ApplyMark(s, h))
  {
    MarkKeeps(law, s, h);
    MarkKeepsCommits(law, s, h);
    MarkReleasesNothing(law, s, h);
    MarkWakesLate(law, s, h);
    MarkStaysSpaced(law, s, h);
  }

  lemma MarkKeepsCommits(law: Law, s: State, h: nat)
    requires Paced(law, s) && Enabled(s, Event.Mark(h))
    ensures CommitsSane(law, ApplyMark(s, h)) && SlotsDisjoint(law, ApplyMark(s, h))
    ensures forall i :: 0 <= i < |s.commits| ==> s.commits[i].id != s.handlers[h].id
  {
    var id := s.handlers[h].id;
    var s' := ApplyMark(s, h);
    assert s'.slots == s.slots;
    assert s'.table == s.table[id := Row(s.owner, Forwarding)];
    forall i | 0 <= i < |s.commits|
      ensures CommitSane(law, s', s.commits[i]) && s.commits[i].id != id
    {
      assert CommitSane(law, s, s.commits[i]);
    }
  }

  lemma MarkReleasesNothing(law: Law, s: State, h: nat)
    requires Paced(law, s) && Enabled(s, Event.Mark(h))
    requires forall i :: 0 <= i < |s.commits| ==> s.commits[i].id != s.handlers[h].id
    ensures ReleasedAfterStamp(ApplyMark(s, h))
  {
    var id := s.handlers[h].id;
    assert forall k :: k in s.handlers && StampedPc(s.handlers[k]) ==> s.handlers[k].id != id;
    CommitReleasesNothing(s, h, ApplyMark(s, h));
  }

  lemma CommitReleasesNothing(s: State, h: nat, s': State)
    requires ReleasedAfterStamp(s) && h in s.handlers
    requires var id := s.handlers[h].id;
             && s'.handlers == s.handlers[h := Marked(id)] && s'.table == s.table[id := Row(s.owner, Forwarding)]
             && (forall i :: 0 <= i < |s.commits| ==> s.commits[i].id != id)
             && (forall k :: k in s.handlers && StampedPc(s.handlers[k]) ==> s.handlers[k].id != id)
             && |s'.commits| == |s.commits| + 1 && s'.commits[|s.commits|].id == id
    requires forall i :: 0 <= i < |s.commits| ==> s'.commits[i] == s.commits[i]
    requires s'.lifetime == s.lifetime && s'.lastForwarded == s.lastForwarded
    ensures ReleasedAfterStamp(s')
  {
  }

  /** The woken handler commits a full interval after every commit of its slot. */
  lemma MarkStaysSpaced(law: Law, s: State, h: nat)
    requires Paced(law, s) && Enabled(s, Event.Mark(h))
    ensures var cs := ApplyMark(s, h).commits;
            Spaced(law, cs) && OneOwnerPerLifetime(cs)
  {
    var id := s.handlers[h].id;
    var c := Commit(id, s.owner, s.lifetime, s.slots[id], s.now);
    assert ApplyMark(s, h).commits == s.commits + [c];
    forall i | 0 <= i < |s.commits| && s.commits[i].lifetime == s.lifetime
      ensures s.commits[i].owner == s.owner
      ensures s.commits[i].slot == c.slot ==> s.commits[i].time + Gap(law, s.owner) <= s.now
    {
      assert CommitSane(law, s, s.commits[i]);
    }
    AppendSpaced(law, s.commits, c);
  }

  lemma AppendSpaced(law: Law, cs: seq<Commit>, c: Commit)
    requires Spaced(law, cs) && OneOwnerPerLifetime(cs)
    requires forall i :: 0 <= i < |cs| && cs[i].lifetime == c.lifetime ==>
               cs[i].owner == c.owner && (cs[i].slot == c.slot ==> cs[i].time + Gap(law, c.owner) <= c.time)
    ensures Spaced(law, cs + [c]) && OneOwnerPerLifetime(cs + [c])
  {
  }

  lemma MarkWakesLate(law: Law, s: State, h: nat)
    requires Paced(law, s) && Enabled(s, Event.Mark(h)) && Markable(s.table, s.handlers[h].id)
    ensures WakesLate(law, ApplyMark(s, h))
  {
    var id := s.handlers[h].id;
    var s' := ApplyMark(s, h);
    forall k | k in s'.handlers && s'.handlers[k].Waiting?
      ensures s.slots[s'.handlers[k].id] != s.slots[id]
    {
      assert k != h && s'.handlers[k] == s.handlers[k];
      assert s.handlers[k].id != id;
    }
  }

  lemma FinishPaces(law: Law, s: State, h: nat, outcome: RowState)
    requires Paced(law, s) && outcome in FINISHED
    requires h in s.handlers && (s.handlers[h].Responded? || s.handlers[h].Caught?)
    ensures Paced(law, ApplyFinish(s, h, outcome))
  {
    FinishKeeps(law, s, h, outcome);
    FinishReleasesStamped(law, s, h, outcome);
    CommitsStaySane(law, s, ApplyFinish(s, h, outcome));
  }

  /** The finishing handler is past its stamp, so the slot it gives back is covered. */
  lemma FinishReleasesStamped(law: Law, s: State, h: nat, outcome: RowState)
    requires Paced(law, s) && outcome in FINISHED
    requires h in s.handlers && (s.handlers[h].Responded? || s.handlers[h].Caught?)
    ensures var s' := ApplyFinish(s, h, outcome);
            SlotsDisjoint(law, s') && ReleasedAfterStamp(s') && WakesLate(law, s')
  {
    var id := s.handlers[h].id;
    var s' := ApplyFinish(s, h, outcome);
    assert s'.handlers == s.handlers - {h};
    assert s'.table == s.table[id := Row(s.owner, outcome)];
    CloseReleasesStamped(s, h, outcome, s');
  }

  lemma CloseReleasesStamped(s: State, h: nat, outcome: RowState, s': State)
    requires ReleasedAfterStamp(s) && h in s.handlers && StampedPc(s.handlers[h])
    requires s'.handlers == s.handlers - {h} && s'.table == s.table[s.handlers[h].id := Row(s.owner, outcome)]
    requires s'.commits == s.commits && s'.lifetime == s.lifetime && s'.lastForwarded == s.lastForwarded
    ensures ReleasedAfterStamp(s')
  {
  }

  // No handler enters its sleep, and one past its stamp was past it before, or just woke up failing.
  ghost predicate HandlersFollow(s: State, s': State) {
    forall h :: h in s'.handlers ==>
      var pc := s'.handlers[h];
      && (pc.Waiting? ==> h in s.handlers && s.handlers[h] == pc)
      && (StampedPc(pc) ==>
            h in s.handlers && s.handlers[h].id == pc.id && (StampedPc(s.handlers[h]) || s.handlers[h].Waiting?))
  }

  /** Steps that at most add a blocked row and leave the commit history: only the handlers can
      matter, and a handler that fails in its sleep has committed nothing yet. */
  lemma FramePaces(law: Law, s: State, s': State)
    requires Paced(law, s) && LedgerSafe(law, s')
    requires forall id :: id in s.table ==> id in s'.table && s'.table[id] == s.table[id]
    requires forall id :: id in s'.table && id !in s.table ==> s'.table[id].state == BlockedBeforeIo
    requires s'.slots == s.slots && s'.commits == s.commits
    requires s'.owner == s.owner && s'.lifetime == s.lifetime
    requires s'.lastForwarded == s.lastForwarded && s'.now >= s.now
    requires HandlersFollow(s, s')
    ensures Paced(law, s')
  {
    CommitsStaySane(law, s, s');
    FrameReleasesNothing(law, s, s');
    FrameKeepsSlots(law, s, s');
  }

  lemma FrameKeepsSlots(law: Law, s: State, s': State)
    requires SlotsDisjoint(law, s) && s'.slots == s.slots
    requires forall id :: id in s.table ==> id in s'.table && s'.table[id] == s.table[id]
    requires forall id :: id in s'.table && id !in s.table ==> s'.table[id].state == BlockedBeforeIo
    ensures SlotsDisjoint(law, s')
  {
  }

  lemma FrameReleasesNothing(law: Law, s: State, s': State)
    requires Paced(law, s)
    requires forall id :: id in s.table ==> id in s'.table && s'.table[id] == s.table[id]
    requires s'.slots == s.slots && s'.commits == s.commits
    requires s'.owner == s.owner && s'.lifetime == s.lifetime && s'.lastForwarded == s.lastForwarded
    requires HandlersFollow(s, s')
    ensures ReleasedAfterStamp(s') && WakesLate(law, s')
  {
    forall i | 0 <= i < |s.commits|
      ensures s.commits[i].id in s.table
      ensures forall h :: h in s.handlers && s.handlers[h].Waiting? ==> s.handlers[h].id != s.commits[i].id
    {
      assert CommitSane(law, s, s.commits[i]);
    }
  }

  lemma DenyPaces(law: Law, s: State, h: nat)
    requires Paced(law, s) && h in s.handlers && !Owns(s.handlers[h])
    ensures Paced(law, ApplyDeny(s, h))
  {
    DenyKeeps(law, s, h);
    FramePaces(law, s, ApplyDeny(s, h));
  }

  lemma StampPaces(law: Law, s: State, h: nat)
    requires Paced(law, s) && Enabled(s, Stamp(h))
    ensures Paced(law, Apply(law, s, Stamp(h)))
  {
    var s' := Apply(law, s, Stamp(h));
    StepKeepsLedgerSafe(law, s, Stamp(h));
    CommitsStaySane(law, s, s');
  }

  predicate Quiet(e: Event) {
    e.Tick? || e.Crash? || e.Arrive? || e.Clear? || e.BeginIo? || e.Respond? || e.Fault? || e.Abandon?
  }

  lemma QuietPaces(law: Law, s: State, e: Event)
    requires Paced(law, s) && Enabled(s, e) && Quiet(e)
    ensures Paced(law, Apply(law, s, e))
  {
    StepKeepsLedgerSafe(law, s, e);
    FramePaces(law, s, Apply(law, s, e));
  }

  lemma StartPaces(law: Law, s: State, owner: Owner)
    requires Paced(law, s)
    ensures Paced(law, Apply(law, s, Event.Start(owner)))
  {
    var s' := Apply(law, s, Event.Start(owner));
    StepKeepsLedgerSafe(law, s, Event.Start(owner));
    forall i | 0 <= i < |s.commits|
      ensures CommitSane(law, s', s.commits[i]) && !Current(s', s.commits[i])
    {
      assert CommitSane(law, s, s.commits[i]);
    }
  }

  lemma StepPaces(law: Law, s: State, e: Event)
    requires Paced(law, s) && Enabled(s, e)
    ensures Paced(law, Apply(law, s, e))
  {
    match e
    case Admit(h) => AdmitPaces(law, s, h);
    case ReadDelay(h) => ReadDelayPaces(law, s, h);
    case Mark(h) => MarkPaces(law, s, h);
    case FinishOk(h) => FinishPaces(law, s, h, ResponseReceived);
    case FinishFailed(h) => FinishPaces(law, s, h, FailedAfterIo);
    case Deny(h) => DenyPaces(law, s, h);
    case Stamp(h) => StampPaces(law, s, h);
    case Start(owner) => StartPaces(law, s, owner);
    case _ => QuietPaces(law, s, e);
  }

  lemma {:induction false} RunPaced(law: Law, es: seq<Event>)
    requires Run(law, es).Some?
    ensures Paced(law, Run(law, es).value)
  {
    if es == [] {
      InitiallySafe(law);
    } else {
      var last := |es| - 1;
      RunPaced(law, es[..last]);
      StepPaces(law, Run(law, es[..last]).value, es[last]);
    }
  }
}
