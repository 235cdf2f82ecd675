/** Runs that show where the proxy's guarantees end, and exactly when such runs exist. */
module ProxyWitness {
  import opened Basics
  import opened ProxyLedger
  import opened ProxyProtocol
  import opened ProxySafety
  import opened ProxyRate

  // The state reached so far from `s`, one event longer.
  lemma Then(law: Law, s: State, es: seq<Event>, p: State, e: Event) returns (es': seq<Event>, p': State)
    requires RunFrom(law, s, es) == Some(p) && Enabled(p, e)
    ensures es' == es + [e] && p' == Apply(law, p, e) && RunFrom(law, s, es') == Some(p')
  {
    RunExtends(law, s, es, e);
    es', p' := es + [e], Apply(law, p, e);
  }

  lemma ClearAlone(law: Law, s: State, es: seq<Event>, p: State, id: string) returns (es': seq<Event>, p': State)
    requires RunFrom(law, s, es) == Some(p)
    requires p.up && p.handlers == map[] && p.circuitFailures < 3
    ensures RunFrom(law, s, es') == Some(p') && es' == es + [Arrive(0, id), Clear(0)]
    ensures p' == p.(handlers := map[0 := Cleared(id)], sequence := p.sequence + 1)
  {
    es', p' := Then(law, s, es, p, Arrive(0, id));
    es', p' := Then(law, s, es', p', Clear(0));
  }

  lemma ReserveAlone(law: Law, s: State, es: seq<Event>, p: State, id: string) returns (es': seq<Event>, p': State)
    requires RunFrom(law, s, es) == Some(p)
    requires p.up && p.handlers == map[] && p.circuitFailures < 3
    requires AdmissionOf(p.table, id, p.owner, law(p.owner)).Granted?
    ensures RunFrom(law, s, es') == Some(p') && es' == es + [Arrive(0, id), Clear(0), Event.Admit(0)]
    ensures p' == p.(handlers := map[0 := Admitted(id)], table := p.table[id := Row(p.owner, Reserved)],
                     slots := p'.slots, sequence := p.sequence + 1)
  {
    var q;
    es', q := ClearAlone(law, s, es, p, id);
    es', p' := Then(law, s, es', q, Event.Admit(0));
    assert p' == ApplyAdmit(law, q, 0);
  }

  lemma WakeAlone(law: Law, s: State, es: seq<Event>, p: State, id: string) returns (es': seq<Event>, p': State)
    requires RunFrom(law, s, es) == Some(p)
    requires p.handlers == map[0 := Admitted(id)]
    requires p.lastForwarded + Gap(law, p.owner) <= p.now
    ensures RunFrom(law, s, es') == Some(p') && es' == es + [ReadDelay(0)]
    ensures p' == p.(handlers := map[0 := Waiting(id, p.now)])
  {
    es', p' := Then(law, s, es, p, ReadDelay(0));
  }

  lemma CommitAlone(law: Law, s: State, es: seq<Event>, p: State, id: string) returns (es': seq<Event>, p': State)
    requires RunFrom(law, s, es) == Some(p)
    requires p.handlers == map[0 := Admitted(id)] && Markable(p.table, id)
    requires p.lastForwarded + Gap(law, p.owner) <= p.now
    ensures RunFrom(law, s, es') == Some(p') && es' == es + [ReadDelay(0), Mark(0)]
    ensures p' == p.(handlers := map[0 := Marked(id)], table := AfterMark(p.table, id), commits := p'.commits)
    ensures |p'.commits| == |p.commits| + 1 && p'.commits[..|p.commits|] == p.commits
    ensures var c := p'.commits[|p.commits|];
            c.id == id && c.owner == p.owner && c.lifetime == p.lifetime && c.time == p.now
  {
    var q;
    es', q := WakeAlone(law, s, es, p, id);
    es', p' := Then(law, s, es', q, Mark(0));
    assert p' == ApplyMark(q, 0);
  }

  lemma BeginAlone(law: Law, s: State, es: seq<Event>, p: State, id: string) returns (es': seq<Event>, p': State)
    requires RunFrom(law, s, es) == Some(p) && p.handlers == map[0 := Marked(id)]
    ensures RunFrom(law, s, es') == Some(p') && es' == es + [Stamp(0), BeginIo(0)]
    ensures p' == p.(handlers := map[0 := InFlight(id)], lastForwarded := p.now, ioBegun := p.ioBegun + {id})
  {
    es', p' := Then(law, s, es, p, Stamp(0));
    es', p' := Then(law, s, es', p', BeginIo(0));
  }

  lemma FinishAlone(law: Law, s: State, es: seq<Event>, p: State, id: string) returns (es': seq<Event>, p': State)
    requires RunFrom(law, s, es) == Some(p) && p.handlers == map[0 := InFlight(id)] && id in p.table
    ensures RunFrom(law, s, es') == Some(p')
    ensures p' == p.(handlers := map[], table := AfterFinish(p.table, id, ResponseReceived),
                     circuitFailures := 0, finished := p.finished + [id])
  {
    es', p' := Then(law, s, es, p, Respond(0));
    es', p' := Then(law, s, es', p', FinishOk(0));
  }

  /** A fresh process, one interval later, with its first request reserved. */
  lemma FirstReservation(law: Law, o: Owner) returns (es: seq<Event>, p: State)
    requires law(o).maxRequests >= 1 && law(o).maxConcurrency >= 1
    ensures RunFrom(law, Initial(), es) == Some(p)
    ensures es == [Event.Start(o), Tick(Gap(law, o)), Arrive(0, "a"), Clear(0), Event.Admit(0)]
    ensures p.up && p.owner == o && p.lifetime == 1 && p.circuitFailures == 0 && p.lastForwarded == 0.0
    ensures p.handlers == map[0 := Admitted("a")] && p.table == map["a" := Row(o, Reserved)]
    ensures p.commits == [] && p.ioBegun == {} && p.now == Gap(law, o)
  {
    var i := Initial();
    es, p := Then(law, i, [], i, Event.Start(o));
    es, p := Then(law, i, es, p, Tick(Gap(law, o)));
    assert Ids(p.table, o, OCCUPYING) == {} && Ids(p.table, o, ACTIVE) == {};
    es, p := ReserveAlone(law, i, es, p, "a");
  }

  // ----- a reservation that crosses the boundary only after the ledger was read

  /** The run so far has one reservation and nothing forwarded; its continuation, in the same process,
      commits that request and opens its connection. */
  lemma CommitAfterReading(law: Law, o: Owner) returns (es: seq<Event>, tail: seq<Event>)
    requires law(o).maxRequests >= 1 && law(o).maxConcurrency >= 1
    ensures es == [Event.Start(o), Tick(Gap(law, o)), Arrive(0, "a"), Clear(0), Event.Admit(0)]
    ensures tail == [ReadDelay(0), Mark(0), Stamp(0), BeginIo(0)]
    ensures Run(law, es).Some? && RunFrom(law, Run(law, es).value, tail).Some?
    ensures var s := Run(law, es).value;
            var s' := RunFrom(law, s, tail).value;
            && s.table == map["a" := Row(o, Reserved)] && s.ioBegun == {}
            && s'.table == map["a" := Row(o, Forwarding)] && s'.ioBegun == {"a"}
  {
    var s, p: State;
    es, s := FirstReservation(law, o);
    tail, p := CommitAlone(law, s, [], s, "a");
    tail, p := BeginAlone(law, s, tail, p, "a");
  }

  // ----- pacing across a restart

  /** Two lifetimes of one permit commit at the same instant. */
  ghost predicate CommitsAtOnce(law: Law, es: seq<Event>, o: Owner) {
    && Run(law, es).Some?
    && var cs := Run(law, es).value.commits;
       exists i, j :: 0 <= i < j < |cs| && cs[i].owner == o == cs[j].owner
                   && cs[i].lifetime != cs[j].lifetime && cs[i].time == cs[j].time
  }

  // A first request, alone and complete.
  lemma FirstRequest(law: Law, o: Owner) returns (es: seq<Event>, p: State)
    requires law(o).maxRequests >= 2 && law(o).maxConcurrency >= 1
    ensures RunFrom(law, Initial(), es) == Some(p)
    ensures p.handlers == map[] && p.table == map["a" := Row(o, ResponseReceived)]
    ensures |p.commits| == 1 && p.lifetime == 1 && Gap(law, o) <= p.now
    ensures var c := p.commits[0]; c.owner == o && c.lifetime == 1 && c.time == p.now
  {
    var i := Initial();
    es, p := FirstReservation(law, o);
    es, p := CommitAlone(law, i, es, p, "a");
    es, p := BeginAlone(law, i, es, p, "a");
    es, p := FinishAlone(law, i, es, p, "a");
  }

  /** The pacing state is volatile: for every permit with room for two requests there is a run in
      which a restarted proxy commits at the very instant its predecessor did. */
  lemma RestartForgetsPacing(law: Law, o: Owner) returns (es: seq<Event>)
    requires law(o).maxRequests >= 2 && law(o).maxConcurrency >= 1
    ensures CommitsAtOnce(law, es, o)
  {
    var i := Initial();
    var p: State;
    es, p := FirstRequest(law, o);
    var first := p.commits[0];
    es, p := Then(law, i, es, p, Event.Start(o));
    assert Ids(p.table, o, OCCUPYING) == {"a"} && Ids(p.table, o, ACTIVE) == {};
    es, p := ReserveAlone(law, i, es, p, "b");
    es, p := CommitAlone(law, i, es, p, "b");
    assert p.commits[..1][0] == first;
    assert p.commits[0].time == p.commits[1].time;
  }

  /** No request commits twice. */
  lemma {:induction false} CommitIdsDiffer(law: Law, es: seq<Event>, i: nat, j: nat)
    requires Run(law, es).Some? && i < j < |Run(law, es).value.commits|
    ensures Run(law, es).value.commits[i].id != Run(law, es).value.commits[j].id
  {
    if es != [] {
      var before := es[..|es| - 1];
      var p := Run(law, before).value;
      RunPaced(law, before);
      CommitsGrow(law, p, es[|es| - 1]);
      if j < |p.commits| {
        CommitIdsDiffer(law, before, i, j);
      }
    }
  }

  lemma CommitsGrow(law: Law, s: State, e: Event)
    requires Paced(law, s) && Enabled(s, e)
    ensures var cs := Apply(law, s, e).commits;
            && |s.commits| <= |cs| <= |s.commits| + 1
            && (forall i :: 0 <= i < |s.commits| ==> cs[i] == s.commits[i])
            && (|cs| > |s.commits| ==> forall i :: 0 <= i < |s.commits| ==> cs[i].id != cs[|s.commits|].id)
  {
    match e
    case Mark(h) => MarkKeepsCommits(law, s, h);
    case Admit(h) => assert ApplyAdmit(law, s, h).commits == s.commits;
    case _ =>
  }

  /** Two commits of one permit, at whatever times, need room for two requests and one at a time. */
  lemma TwoCommitsNeedRoom(law: Law, es: seq<Event>, o: Owner, i: nat, j: nat)
    requires Run(law, es).Some? && i < j < |Run(law, es).value.commits|
    requires Run(law, es).value.commits[i].owner == o == Run(law, es).value.commits[j].owner
    ensures law(o).maxRequests >= 2 && law(o).maxConcurrency >= 1
  {
    var s := Run(law, es).value;
    RunPaced(law, es);
    CommitIdsDiffer(law, es, i, j);
    CeilingsHold(law, es, o);
    assert CommitSane(law, s, s.commits[i]) && CommitSane(law, s, s.commits[j]);
    var ids, two := Ids(s.table, o, OCCUPYING), {s.commits[i].id, s.commits[j].id};
    assert ids == (ids - two) + two;
  }

  /** A row that was ever admitted needs room for one request. */
  lemma {:induction false} OccupiedNeedsRoom(law: Law, es: seq<Event>, id: string)
    requires Run(law, es).Some? && id in Run(law, es).value.table
    requires Run(law, es).value.table[id].state in OCCUPYING
    ensures var o := Run(law, es).value.table[id].owner; law(o).maxRequests >= 1 && law(o).maxConcurrency >= 1
  {
    if es != [] {
      var last := |es| - 1;
      var p := Run(law, es[..last]).value;
      RunSafe(law, es[..last]);
      if id in p.table {
        StepMovesRowsForward(law, p, es[last], id);
        OccupiedNeedsRoom(law, es[..last], id);
      } else {
        NewRowNeedsRoom(law, p, es[last], id);
      }
    }
  }

  lemma NewRowNeedsRoom(law: Law, s: State, e: Event, id: string)
    requires LedgerSafe(law, s) && Enabled(s, e) && id !in s.table
    requires id in Apply(law, s, e).table && Apply(law, s, e).table[id].state in OCCUPYING
    ensures var o := Apply(law, s, e).table[id].owner; law(o).maxRequests >= 1 && law(o).maxConcurrency >= 1
  {
    match e
    case Admit(h) =>
      assert ApplyAdmit(law, s, h).table == AfterAdmit(s.table, s.handlers[h].id, s.owner, law(s.owner));
    case _ =>
  }

  /** A restart breaks the pacing of exactly the permits with room for two requests. */
  lemma RestartForgetsPacingExactly(law: Law, o: Owner)
    ensures (exists es :: CommitsAtOnce(law, es, o)) <==> law(o).maxRequests >= 2 && law(o).maxConcurrency >= 1
  {
    if law(o).maxRequests >= 2 && law(o).maxConcurrency >= 1 {
      var es := RestartForgetsPacing(law, o);
    }
    forall es | CommitsAtOnce(law, es, o) ensures law(o).maxRequests >= 2 && law(o).maxConcurrency >= 1 {
      var cs := Run(law, es).value.commits;
      var i, j :| 0 <= i < j < |cs| && cs[i].owner == o == cs[j].owner
               && cs[i].lifetime != cs[j].lifetime && cs[i].time == cs[j].time;
      TwoCommitsNeedRoom(law, es, o, i, j);
    }
  }
}
