/** What the rate bound leaves across restarts. */
module ProxyLifetimes {
  import opened ProxyLedger
  import opened ProxyProtocol
  import opened ProxyWindow

  /** A closed window of time, whatever processes run in it. */
  datatype Span = Span(from: real, length: real)

  predicate Within(w: Span, owner: Owner, c: Commit) {
    c.owner == owner && w.from <= c.time <= w.from + w.length
  }

  /** A permit's commits in the window. */
  function CommitsOf(cs: seq<Commit>, w: Span, owner: Owner): nat {
    if cs == [] then 0
    else CommitsOf(cs[..|cs| - 1], w, owner) + if Within(w, owner, cs[|cs| - 1]) then 1 else 0
  }

  // Those of them made by the processes in `lifetimes`.
  function CommitsBy(cs: seq<Commit>, w: Span, owner: Owner, lifetimes: set<nat>): nat {
    if cs == [] then 0
    else
      var c := cs[|cs| - 1];
      CommitsBy(cs[..|cs| - 1], w, owner, lifetimes) + if Within(w, owner, c) && c.lifetime in lifetimes then 1 else 0
  }

  lemma {:induction false} SplitLifetime(cs: seq<Commit>, w: Span, owner: Owner, lifetimes: set<nat>, x: nat)
    requires x in lifetimes
    ensures CommitsBy(cs, w, owner, lifetimes)
         == CommitsBy(cs, w, owner, lifetimes - {x}) + CommitsBy(cs, w, owner, {x})
  {
    if cs != [] {
      SplitLifetime(cs[..|cs| - 1], w, owner, lifetimes, x);
    }
  }

  lemma {:induction false} CoveringLifetimes(cs: seq<Commit>, w: Span, owner: Owner, lifetimes: set<nat>)
    requires forall i :: 0 <= i < |cs| && Within(w, owner, cs[i]) ==> cs[i].lifetime in lifetimes
    ensures CommitsBy(cs, w, owner, lifetimes) == CommitsOf(cs, w, owner)
  {
    if cs != [] {
      CoveringLifetimes(cs[..|cs| - 1], w, owner, lifetimes);
    }
  }

  lemma {:induction false} NoLifetimesNoCommits(cs: seq<Commit>, w: Span, owner: Owner)
    ensures CommitsBy(cs, w, owner, {}) == 0
  {
    if cs != [] {
      NoLifetimesNoCommits(cs[..|cs| - 1], w, owner);
    }
  }

  lemma {:induction false} OneLifetimeInWindow(cs: seq<Commit>, w: Span, owner: Owner, x: nat)
    ensures CommitsBy(cs, w, owner, {x}) <= Commits(cs, Window(x, w.from, w.length))
    ensures (forall i :: 0 <= i < |cs| && cs[i].lifetime == x ==> cs[i].owner != owner) ==>
              CommitsBy(cs, w, owner, {x}) == 0
  {
    if cs != [] {
      OneLifetimeInWindow(cs[..|cs| - 1], w, owner, x);
    }
  }

  function Few(l: Limits, length: real): int {
    l.maxConcurrency * ((length * l.maxRps).Floor + 1)
  }

  lemma FewIsNatural(l: Limits, length: real)
    requires length >= 0.0
    ensures Few(l, length) >= 0
  {
    assert length * l.maxRps >= 0.0;
    assert (length * l.maxRps).Floor + 1 >= 1;
  }

  /** One process serves one permit, so its share of the window obeys that permit's bound. */
  lemma OneLifetimeIsBounded(law: Law, es: seq<Event>, w: Span, owner: Owner, x: nat)
    requires Run(law, es).Some? && w.length >= 0.0
    ensures CommitsBy(Run(law, es).value.commits, w, owner, {x}) <= Few(law(owner), w.length)
  {
    var cs := Run(law, es).value.commits;
    OneLifetimeInWindow(cs, w, owner, x);
    if i :| 0 <= i < |cs| && cs[i].lifetime == x && cs[i].owner == owner {
      forall c | c in cs && c.lifetime == x ensures c.owner == owner {
        LifetimeHasOneOwner(law, es, c, cs[i]);
      }
      WindowIsBounded(law, es, Window(x, w.from, w.length), owner);
    } else {
      FewIsNatural(law(owner), w.length);
    }
  }

  lemma WindowIsBounded(law: Law, es: seq<Event>, w: Window, owner: Owner)
    requires Run(law, es).Some? && w.length >= 0.0
    requires forall c :: c in Run(law, es).value.commits && c.lifetime == w.lifetime ==> c.owner == owner
    ensures Commits(Run(law, es).value.commits, w) <= Few(law(owner), w.length)
  {
    RateBound(law, es, w, owner);
  }

  lemma {:induction false} LifetimesAreBounded(law: Law, es: seq<Event>, w: Span, owner: Owner, lifetimes: set<nat>)
    requires Run(law, es).Some? && w.length >= 0.0
    ensures CommitsBy(Run(law, es).value.commits, w, owner, lifetimes) <= |lifetimes| * Few(law(owner), w.length)
  {
    var cs := Run(law, es).value.commits;
    if lifetimes == {} {
      NoLifetimesNoCommits(cs, w, owner);
    } else {
      var x :| x in lifetimes;
      SplitLifetime(cs, w, owner, lifetimes, x);
      LifetimesAreBounded(law, es, w, owner, lifetimes - {x});
      OneLifetimeIsBounded(law, es, w, owner, x);
      OneMore(|lifetimes|, Few(law(owner), w.length));
    }
  }

  lemma OneMore(n: int, few: int)
    ensures n * few == (n - 1) * few + few
  {
  }

  /** What survives restarts: a window that a permit's commits touch in k processes holds at most
      k * max_concurrency * (floor(W * max_rps) + 1) of them. */
  lemma RateBoundAcrossRestarts(law: Law, es: seq<Event>, w: Span, owner: Owner, lifetimes: set<nat>)
    requires Run(law, es).Some? && w.length >= 0.0
    requires forall c :: c in Run(law, es).value.commits && Within(w, owner, c) ==> c.lifetime in lifetimes
    ensures CommitsOf(Run(law, es).value.commits, w, owner)
         <= |lifetimes| * (law(owner).maxConcurrency * ((w.length * law(owner).maxRps).Floor + 1))
  {
    CoveringLifetimes(Run(law, es).value.commits, w, owner, lifetimes);
    LifetimesAreBounded(law, es, w, owner, lifetimes);
  }
}
