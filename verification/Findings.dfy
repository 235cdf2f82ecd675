/** Correlating sensor candidates into findings. */
module Findings {
  import opened Basics
  import opened Listings
  import opened Ordering

  datatype ProofState = Suspected | Likely | Verified | ImpactConfirmed

  function Rank(p: ProofState): nat {
    match p
    case Suspected => 0
    case Likely => 1
    case Verified => 2
    case ImpactConfirmed => 3
  }

  datatype Signal = Signal(sensor: string, evidence: string, observation: string, confidence: real)

  /** What a candidate asserts, and how strongly. */
  datatype Claim = Claim(vulnerability: string, asset: string, endpoint: Option<string>, role: Option<string>,
                         proof: ProofState)

  datatype Candidate = Candidate(claim: Claim, signals: seq<Signal>, cwe: seq<string>, owasp: seq<string>,
                                 remediation: Option<string>)

  datatype Finding = Finding(id: string, body: Candidate, createdAt: int)

  /** `strip().lower()` on text, and the digest of a key. */
  datatype Library = Library(normal: string -> string, digest: seq<string> -> string)

  type Key = seq<string>

  function KeyOf(lib: Library, claim: Claim): Key {
    [lib.normal(claim.vulnerability), lib.normal(claim.asset),
     lib.normal(OrEmpty(claim.endpoint)), lib.normal(OrEmpty(claim.role))]
  }

  function OrEmpty(s: Option<string>): string {
    if s.Some? then s.value else ""
  }

  // ----- merging the rows of one key

  function Gather<T>(rows: seq<Candidate>, part: Candidate -> seq<T>): seq<T> {
    if rows == [] then [] else Gather(rows[..|rows| - 1], part) + part(rows[|rows| - 1])
  }

  lemma {:induction false} GatherAppend<T>(a: seq<Candidate>, b: seq<Candidate>, part: Candidate -> seq<T>)
    ensures Gather(a + b, part) == Gather(a, part) + Gather(b, part)
  {
    if b == [] {
      assert a + b == a;
    } else {
      GatherAppend(a, b[..|b| - 1], part);
      assert (a + b)[..|a + b| - 1] == a + b[..|b| - 1];
    }
  }

  /** The first of the rows with the highest proof state. */
  function Strongest(rows: seq<Candidate>): Candidate
    requires rows != []
  {
    if |rows| == 1 then rows[0]
    else
      var best := Strongest(rows[..|rows| - 1]);
      var row := rows[|rows| - 1];
      if Rank(row.claim.proof) > Rank(best.claim.proof) then row else best
  }

  ghost predicate FirstAtRank(rows: seq<Candidate>, i: nat)
    requires i < |rows|
  {
    forall j :: 0 <= j < i ==> Rank(rows[j].claim.proof) < Rank(rows[i].claim.proof)
  }

  lemma {:induction false} StrongestIsFirstMaximum(rows: seq<Candidate>)
    requires rows != []
    ensures exists i :: 0 <= i < |rows| && rows[i] == Strongest(rows) && FirstAtRank(rows, i)
    ensures forall j :: 0 <= j < |rows| ==> Rank(rows[j].claim.proof) <= Rank(Strongest(rows).claim.proof)
  {
    if |rows| > 1 {
      var last := |rows| - 1;
      StrongestIsFirstMaximum(rows[..last]);
      var best := Strongest(rows[..last]);
      var i :| 0 <= i < last && rows[..last][i] == best && FirstAtRank(rows[..last], i);
      assert forall j :: 0 <= j < last ==> rows[..last][j] == rows[j];
      assert rows[i] == best && FirstAtRank(rows, i);
      assert Rank(rows[last].claim.proof) > Rank(best.claim.proof) ==> FirstAtRank(rows, last);
    } else {
      assert FirstAtRank(rows, 0);
    }
  }

  predicate Truthy(s: Option<string>) {
    s.Some? && s.value != ""
  }

  function Remediation(rows: seq<Candidate>): Option<string> {
    if rows == [] then None
    else
      var before := Remediation(rows[..|rows| - 1]);
      if Truthy(before) then before else rows[|rows| - 1].remediation
  }

  ghost predicate FirstUsable(rows: seq<Candidate>, i: nat)
    requires i < |rows|
  {
    Truthy(rows[i].remediation) && forall j :: 0 <= j < i ==> !Truthy(rows[j].remediation)
  }

  /** The first usable remediation; when there is none, whatever the last row says. */
  lemma {:induction false} RemediationIsFirstUsable(rows: seq<Candidate>)
    requires rows != []
    ensures Truthy(Remediation(rows)) ==>
              exists i :: 0 <= i < |rows| && rows[i].remediation == Remediation(rows) && FirstUsable(rows, i)
    ensures !Truthy(Remediation(rows)) ==>
              && Remediation(rows) == rows[|rows| - 1].remediation
              && forall j :: 0 <= j < |rows| ==> !Truthy(rows[j].remediation)
  {
    var last := |rows| - 1;
    var before := rows[..last];
    assert forall j :: 0 <= j < last ==> before[j] == rows[j];
    if last > 0 {
      RemediationIsFirstUsable(before);
    }
    if Truthy(Remediation(before)) {
      var i :| 0 <= i < last && before[i].remediation == Remediation(before) && FirstUsable(before, i);
      assert rows[i].remediation == Remediation(rows) && FirstUsable(rows, i);
    } else if Truthy(rows[last].remediation) {
      assert FirstUsable(rows, last);
    }
  }

  function SignalKey(s: Signal): (string, string, string) {
    (s.sensor, s.evidence, s.observation)
  }

  function Signals(c: Candidate): seq<Signal> { c.signals }

  function Cwe(c: Candidate): seq<string> { c.cwe }

  function Owasp(c: Candidate): seq<string> { c.owasp }

  function Merge(rows: seq<Candidate>): Candidate
    requires rows != []
  {
    Candidate(Strongest(rows).claim,
              FirstOfEach(Gather(rows, Signals), SignalKey),
              SortedSet(Gather(rows, Cwe), StrLeq),
              SortedSet(Gather(rows, Owasp), StrLeq),
              Remediation(rows))
  }

  /** What a group of rows becomes: the strongest claim, each signal once, names sorted. */
  lemma MergeMeaning(rows: seq<Candidate>)
    requires rows != []
    ensures exists i :: 0 <= i < |rows| && rows[i].claim == Merge(rows).claim && FirstAtRank(rows, i)
    ensures forall j :: 0 <= j < |rows| ==> Rank(rows[j].claim.proof) <= Rank(Merge(rows).claim.proof)
    ensures KeysDiffer(Merge(rows).signals, SignalKey)
    ensures forall s :: s in Merge(rows).signals ==> exists i :: 0 <= i < |rows| && s in rows[i].signals
    ensures forall i, s :: 0 <= i < |rows| && s in rows[i].signals ==>
              Seen(Merge(rows).signals, SignalKey, SignalKey(s))
    ensures Lists(Merge(rows).cwe, Elements(Gather(rows, Cwe)), StrLeq)
    ensures Lists(Merge(rows).owasp, Elements(Gather(rows, Owasp)), StrLeq)
  {
    StrongestIsFirstMaximum(rows);
    var all := Gather(rows, Signals);
    FirstOfEachExact(all, SignalKey);
    forall s | s in Merge(rows).signals ensures exists i :: 0 <= i < |rows| && s in rows[i].signals {
      GatheredFrom(rows, Signals, s);
    }
    forall i, s | 0 <= i < |rows| && s in rows[i].signals ensures Seen(Merge(rows).signals, SignalKey, SignalKey(s)) {
      GatheredFrom(rows, Signals, s);
      assert Seen(all, SignalKey, SignalKey(s));
    }
    StringOrderIsTotal();
    SortedSetLists(Gather(rows, Cwe), StrLeq);
    SortedSetLists(Gather(rows, Owasp), StrLeq);
  }

  lemma {:induction false} GatheredFrom<T>(rows: seq<Candidate>, part: Candidate -> seq<T>, x: T)
    ensures x in Gather(rows, part) <==> exists i :: 0 <= i < |rows| && x in part(rows[i])
  {
    if rows != [] {
      var last := |rows| - 1;
      GatheredFrom(rows[..last], part, x);
      assert forall i :: 0 <= i < last ==> rows[..last][i] == rows[i];
    }
  }

  // ----- merging early

  lemma StrongestAppend(rows: seq<Candidate>, row: Candidate)
    requires rows != []
    ensures Strongest(rows + [row])
         == if Rank(row.claim.proof) > Rank(Strongest(rows).claim.proof) then row else Strongest(rows)
  {
    assert (rows + [row])[..|rows|] == rows;
  }

  lemma {:induction false} StrongestOfMore(head: Candidate, rows: seq<Candidate>, more: seq<Candidate>)
    requires rows != [] && head.claim == Strongest(rows).claim
    ensures Strongest([head] + more).claim == Strongest(rows + more).claim
  {
    if more == [] {
      assert [head] + more == [head] && rows + more == rows;
    } else {
      var last := |more| - 1;
      StrongestOfMore(head, rows, more[..last]);
      assert [head] + more == [head] + more[..last] + [more[last]];
      assert rows + more == rows + more[..last] + [more[last]];
      StrongestAppend([head] + more[..last], more[last]);
      StrongestAppend(rows + more[..last], more[last]);
    }
  }

  lemma {:induction false} RemediationOfMore(head: Candidate, rows: seq<Candidate>, more: seq<Candidate>)
    requires rows != [] && head.remediation == Remediation(rows)
    ensures Remediation([head] + more) == Remediation(rows + more)
  {
    if more == [] {
      assert [head] + more == [head] && rows + more == rows && [head][..0] == [];
    } else {
      var last := |more| - 1;
      RemediationOfMore(head, rows, more[..last]);
      assert ([head] + more)[..|more|] == [head] + more[..last];
      assert (rows + more)[..|rows| + last] == rows + more[..last];
    }
  }

  lemma NamesOfMore(head: Candidate, rows: seq<Candidate>, more: seq<Candidate>, part: Candidate -> seq<string>)
    requires part(head) == SortedSet(Gather(rows, part), StrLeq)
    ensures SortedSet(Gather([head] + more, part), StrLeq) == SortedSet(Gather(rows + more, part), StrLeq)
  {
    StringOrderIsTotal();
    StringOrderIsAntisymmetric();
    GatherOne(head, more, part);
    GatherAppend(rows, more, part);
    SortedSetLists(Gather(rows, part), StrLeq);
    SortedSetDependsOnElements(Gather([head] + more, part), Gather(rows + more, part), StrLeq);
  }

  lemma GatherOne<T>(head: Candidate, more: seq<Candidate>, part: Candidate -> seq<T>)
    ensures Gather([head] + more, part) == part(head) + Gather(more, part)
  {
    GatherAppend([head], more, part);
    assert Gather([head][..0], part) == [];
  }

  /** Rows merged early merge again into the same result. */
  lemma MergedRowsMergeOn(rows: seq<Candidate>, more: seq<Candidate>)
    requires rows != []
    ensures Merge([Merge(rows)] + more) == Merge(rows + more)
  {
    var head := Merge(rows);
    StrongestOfMore(head, rows, more);
    RemediationOfMore(head, rows, more);
    NamesOfMore(head, rows, more, Cwe);
    NamesOfMore(head, rows, more, Owasp);
    GatherOne(head, more, Signals);
    GatherAppend(rows, more, Signals);
    FirstOfEachMerges(Gather(rows, Signals), Gather(more, Signals), SignalKey);
  }

  // ----- grouping by key

  function RowsOf(lib: Library, candidates: seq<Candidate>, key: Key): seq<Candidate> {
    if candidates == [] then []
    else
      var before := RowsOf(lib, candidates[..|candidates| - 1], key);
      var c := candidates[|candidates| - 1];
      if KeyOf(lib, c.claim) == key then before + [c] else before
  }

  lemma {:induction false} RowsOfMeaning(lib: Library, candidates: seq<Candidate>, key: Key)
    ensures forall c :: c in RowsOf(lib, candidates, key) <==> c in candidates && KeyOf(lib, c.claim) == key
  {
    if candidates != [] {
      var last := |candidates| - 1;
      RowsOfMeaning(lib, candidates[..last], key);
      assert candidates == candidates[..last] + [candidates[last]];
    }
  }

  lemma {:induction false} RowsOfAppend(lib: Library, a: seq<Candidate>, b: seq<Candidate>, key: Key)
    ensures RowsOf(lib, a + b, key) == RowsOf(lib, a, key) + RowsOf(lib, b, key)
  {
    if b == [] {
      assert a + b == a;
    } else {
      RowsOfAppend(lib, a, b[..|b| - 1], key);
      assert (a + b)[..|a + b| - 1] == a + b[..|b| - 1];
    }
  }

  function KeysOf(lib: Library, candidates: seq<Candidate>): seq<Key> {
    seq(|candidates|, i requires 0 <= i < |candidates| => KeyOf(lib, candidates[i].claim))
  }

  // Tuples of strings compare position by position.
  predicate KeyLeq(a: Key, b: Key) {
    a == [] || (b != [] && if a[0] == b[0] then KeyLeq(a[1..], b[1..]) else StrLeq(a[0], b[0]))
  }

  lemma KeyTotal(a: Key, b: Key)
    ensures KeyLeq(a, b) || KeyLeq(b, a)
  {
    if a != [] && b != [] {
      StrTotal(a[0], b[0]);
      KeyTotal(a[1..], b[1..]);
    }
  }

  lemma KeyAntisymmetric(a: Key, b: Key)
    requires KeyLeq(a, b) && KeyLeq(b, a)
    ensures a == b
  {
    if a != [] && b != [] {
      if a[0] == b[0] {
        KeyAntisymmetric(a[1..], b[1..]);
        assert a == [a[0]] + a[1..] && b == [b[0]] + b[1..];
      } else {
        StrAntisymmetric(a[0], b[0]);
      }
    }
  }

  lemma KeyTransitive(a: Key, b: Key, c: Key)
    requires KeyLeq(a, b) && KeyLeq(b, c)
    ensures KeyLeq(a, c)
  {
    if a != [] {
      if a[0] == b[0] == c[0] {
        KeyTransitive(a[1..], b[1..], c[1..]);
      } else if a[0] == c[0] {
        StrAntisymmetric(a[0], b[0]);
      } else if a[0] != b[0] && b[0] != c[0] {
        StrTransitive(a[0], b[0], c[0]);
      }
    }
  }

  lemma KeyOrder()
    ensures TotalOrder(KeyLeq) && Antisymmetric(KeyLeq)
  {
    forall a: Key, b: Key ensures KeyLeq(a, b) || KeyLeq(b, a) {
      KeyTotal(a, b);
    }
    forall a: Key, b: Key, c: Key | KeyLeq(a, b) && KeyLeq(b, c) ensures KeyLeq(a, c) {
      KeyTransitive(a, b, c);
    }
    forall a: Key, b: Key | KeyLeq(a, b) && KeyLeq(b, a) ensures a == b {
      KeyAntisymmetric(a, b);
    }
  }

  // ----- correlation

  /** The group merged under one key, as a candidate. */
  function Group(lib: Library, candidates: seq<Candidate>, key: Key): Option<Candidate> {
    var rows := RowsOf(lib, candidates, key);
    if rows == [] then None else Some(Merge(rows))
  }

  /** The finding of one key's group. */
  ghost predicate IsFinding(lib: Library, candidates: seq<Candidate>, now: int, key: Key, f: Finding) {
    f.id == "finding-" + lib.digest(key) && Group(lib, candidates, key) == Some(f.body) && f.createdAt == now
  }

  /** One finding per key that occurs, in key order. */
  ghost predicate Correlated(
    lib: Library, candidates: seq<Candidate>, now: int, keys: seq<Key>, findings: seq<Finding>)
  {
    && Lists(keys, Elements(KeysOf(lib, candidates)), KeyLeq)
    && |findings| == |keys|
    && forall i :: 0 <= i < |keys| ==> IsFinding(lib, candidates, now, keys[i], findings[i])
  }

  function Bodies(findings: seq<Finding>): seq<Candidate> {
    seq(|findings|, i requires 0 <= i < |findings| => findings[i].body)
  }

  /** A finding keeps its group's key, and the order of findings is the order of keys. */
  lemma FindingKeepsKey(
    lib: Library, candidates: seq<Candidate>, now: int, keys: seq<Key>, findings: seq<Finding>, i: nat)
    requires Correlated(lib, candidates, now, keys, findings) && i < |findings|
    ensures KeyOf(lib, findings[i].body.claim) == keys[i]
  {
    var rows := RowsOf(lib, candidates, keys[i]);
    assert IsFinding(lib, candidates, now, keys[i], findings[i]);
    RowsOfMeaning(lib, candidates, keys[i]);
    StrongestIsFirstMaximum(rows);
    var j :| 0 <= j < |rows| && rows[j] == Strongest(rows);
    assert rows[j] in rows;
  }

  ghost predicate Answers(lib: Library, candidates: seq<Candidate>, f: Finding, c: Candidate) {
    && KeyOf(lib, f.body.claim) == KeyOf(lib, c.claim)
    && Rank(c.claim.proof) <= Rank(f.body.claim.proof)
    && (exists d :: d in candidates && d.claim == f.body.claim)
    && KeysDiffer(f.body.signals, SignalKey)
    && forall s :: s in c.signals ==> Seen(f.body.signals, SignalKey, SignalKey(s))
  }

  lemma FindingAnswers(lib: Library, candidates: seq<Candidate>, now: int, keys: seq<Key>, findings: seq<Finding>,
                       i: nat, c: Candidate)
    requires Correlated(lib, candidates, now, keys, findings) && i < |findings|
    requires c in candidates && KeyOf(lib, c.claim) == keys[i]
    ensures Answers(lib, candidates, findings[i], c)
  {
    var rows := RowsOf(lib, candidates, keys[i]);
    assert IsFinding(lib, candidates, now, keys[i], findings[i]);
    RowsOfMeaning(lib, candidates, keys[i]);
    FindingKeepsKey(lib, candidates, now, keys, findings, i);
    MergeAnswers(rows, c);
  }

  lemma MergeAnswers(rows: seq<Candidate>, c: Candidate)
    requires c in rows
    ensures Rank(c.claim.proof) <= Rank(Merge(rows).claim.proof)
    ensures exists d :: d in rows && d.claim == Merge(rows).claim
    ensures KeysDiffer(Merge(rows).signals, SignalKey)
    ensures forall s :: s in c.signals ==> Seen(Merge(rows).signals, SignalKey, SignalKey(s))
  {
    MergeMeaning(rows);
    var top :| 0 <= top < |rows| && rows[top].claim == Merge(rows).claim && FirstAtRank(rows, top);
    assert rows[top] in rows;
  }

  lemma FindingsHaveDifferentKeys(lib: Library, candidates: seq<Candidate>, now: int, keys: seq<Key>,
                                  findings: seq<Finding>, i: nat, j: nat)
    requires Correlated(lib, candidates, now, keys, findings) && i < j < |findings|
    ensures KeyOf(lib, findings[i].body.claim) != KeyOf(lib, findings[j].body.claim)
    ensures KeyLeq(KeyOf(lib, findings[i].body.claim), KeyOf(lib, findings[j].body.claim))
  {
    FindingKeepsKey(lib, candidates, now, keys, findings, i);
    FindingKeepsKey(lib, candidates, now, keys, findings, j);
  }

  /** Every candidate is answered by a finding, at least as strong and no stronger than some candidate. */
  lemma EachCandidateHasItsFinding(lib: Library, candidates: seq<Candidate>, now: int, keys: seq<Key>,
                                   findings: seq<Finding>, c: Candidate)
    requires Correlated(lib, candidates, now, keys, findings) && c in candidates
    ensures exists i :: 0 <= i < |findings| && Answers(lib, candidates, findings[i], c)
  {
    var key := KeyOf(lib, c.claim);
    var n :| 0 <= n < |candidates| && candidates[n] == c;
    assert KeysOf(lib, candidates)[n] == key && key in Elements(KeysOf(lib, candidates));
    var i :| 0 <= i < |keys| && keys[i] == key;
    FindingAnswers(lib, candidates, now, keys, findings, i, c);
  }

  /** The candidates decide the findings. */
  lemma CorrelationIsUnique(lib: Library, a: seq<Candidate>, b: seq<Candidate>, now: int,
                            ka: seq<Key>, fa: seq<Finding>, kb: seq<Key>, fb: seq<Finding>)
    requires Correlated(lib, a, now, ka, fa) && Correlated(lib, b, now, kb, fb)
    requires forall key :: Group(lib, a, key) == Group(lib, b, key)
    ensures ka == kb && fa == fb
  {
    KeyOrder();
    forall key ensures key in Elements(KeysOf(lib, a)) <==> key in Elements(KeysOf(lib, b)) {
      KeyOccurs(lib, a, key);
      KeyOccurs(lib, b, key);
      assert Group(lib, a, key) == Group(lib, b, key);
    }
    assert Elements(KeysOf(lib, a)) == Elements(KeysOf(lib, b));
    OneListing(ka, kb, Elements(KeysOf(lib, a)), KeyLeq);
    forall i | 0 <= i < |fa| ensures fa[i] == fb[i] {
      assert IsFinding(lib, a, now, ka[i], fa[i]) && IsFinding(lib, b, now, kb[i], fb[i]);
      assert Group(lib, a, ka[i]) == Group(lib, b, kb[i]);
    }
  }

  lemma KeyOccurs(lib: Library, candidates: seq<Candidate>, key: Key)
    ensures key in Elements(KeysOf(lib, candidates)) <==> Group(lib, candidates, key).Some?
  {
    var rows := RowsOf(lib, candidates, key);
    RowsOfMeaning(lib, candidates, key);
    assert rows != [] ==> rows[0] in rows;
    assert forall i :: 0 <= i < |candidates| ==> KeysOf(lib, candidates)[i] == KeyOf(lib, candidates[i].claim);
    assert forall c :: c in candidates && KeyOf(lib, c.claim) == key ==> c in rows;
    assert rows != [] ==> exists i :: 0 <= i < |candidates| && candidates[i] == rows[0];
  }

  /** Among rows with different keys, each key has one row. */
  lemma {:induction false} RowsWithDifferentKeys(lib: Library, rows: seq<Candidate>, i: nat)
    requires i < |rows| && Distinct(KeysOf(lib, rows))
    ensures RowsOf(lib, rows, KeyOf(lib, rows[i].claim)) == [rows[i]]
  {
    var last, key := |rows| - 1, KeyOf(lib, rows[i].claim);
    assert KeysOf(lib, rows[..last]) == KeysOf(lib, rows)[..last];
    if i < last {
      RowsWithDifferentKeys(lib, rows[..last], i);
      assert KeysOf(lib, rows)[last] != KeysOf(lib, rows)[i];
    } else {
      RowsOfMeaning(lib, rows[..last], key);
      assert forall j :: 0 <= j < last ==> KeyOf(lib, rows[..last][j].claim) == KeysOf(lib, rows)[j];
      assert forall j :: 0 <= j < last ==> KeysOf(lib, rows)[j] != KeysOf(lib, rows)[last];
      NothingIn(RowsOf(lib, rows[..last], key));
    }
  }

  lemma NothingIn<T>(s: seq<T>)
    ensures s == [] || exists x :: x in s
  {
    assert s != [] ==> s[0] in s;
  }

  lemma KeysOfBodies(lib: Library, a: seq<Candidate>, now: int, keys: seq<Key>, findings: seq<Finding>)
    requires Correlated(lib, a, now, keys, findings)
    ensures KeysOf(lib, Bodies(findings)) == keys
  {
    forall i | 0 <= i < |findings| ensures KeyOf(lib, findings[i].body.claim) == keys[i] {
      FindingKeepsKey(lib, a, now, keys, findings, i);
    }
  }

  lemma GroupsMergeOn(lib: Library, a: seq<Candidate>, b: seq<Candidate>, now: int,
                      keys: seq<Key>, findings: seq<Finding>, key: Key)
    requires Correlated(lib, a, now, keys, findings)
    ensures Group(lib, Bodies(findings) + b, key) == Group(lib, a + b, key)
  {
    var rows, more := RowsOf(lib, a, key), RowsOf(lib, b, key);
    RowsOfAppend(lib, Bodies(findings), b, key);
    RowsOfAppend(lib, a, b, key);
    KeysOfBodies(lib, a, now, keys, findings);
    KeyOccurs(lib, a, key);
    KeyOccurs(lib, Bodies(findings), key);
    assert Elements(keys) == Elements(KeysOf(lib, a));
    if rows == [] {
      assert RowsOf(lib, Bodies(findings), key) == [];
    } else {
      var i :| 0 <= i < |keys| && keys[i] == key;
      assert IsFinding(lib, a, now, keys[i], findings[i]);
      RowsWithDifferentKeys(lib, Bodies(findings), i);
      MergedRowsMergeOn(rows, more);
    }
  }

  /** Correlating what was already correlated together with new candidates gives what correlating everything at
      once gives. */
  lemma CorrelationIsIncremental(lib: Library, a: seq<Candidate>, b: seq<Candidate>, before: int, now: int,
                                 ka: seq<Key>, fa: seq<Finding>, k1: seq<Key>, f1: seq<Finding>,
                                 k2: seq<Key>, f2: seq<Finding>)
    requires Correlated(lib, a, before, ka, fa)
    requires Correlated(lib, Bodies(fa) + b, now, k1, f1)
    requires Correlated(lib, a + b, now, k2, f2)
    ensures k1 == k2 && f1 == f2
  {
    forall key ensures Group(lib, Bodies(fa) + b, key) == Group(lib, a + b, key) {
      GroupsMergeOn(lib, a, b, before, ka, fa, key);
    }
    CorrelationIsUnique(lib, Bodies(fa) + b, a + b, now, k1, f1, k2, f2);
  }

  /** Correlating findings again changes only the time stamp. */
  lemma CorrelationIsIdempotent(lib: Library, a: seq<Candidate>, before: int, now: int,
                                ka: seq<Key>, fa: seq<Finding>, k1: seq<Key>, f1: seq<Finding>)
    requires Correlated(lib, a, before, ka, fa) && Correlated(lib, Bodies(fa), now, k1, f1)
    ensures k1 == ka && |f1| == |fa|
    ensures forall i :: 0 <= i < |fa| ==> f1[i] == fa[i].(createdAt := now)
  {
    var stamped := seq(|fa|, i requires 0 <= i < |fa| => fa[i].(createdAt := now));
    forall i | 0 <= i < |ka| ensures IsFinding(lib, a, now, ka[i], stamped[i]) {
      assert IsFinding(lib, a, before, ka[i], fa[i]);
    }
    assert Correlated(lib, a, now, ka, stamped);
    assert Bodies(fa) + [] == Bodies(fa) && a + [] == a;
    CorrelationIsIncremental(lib, a, [], before, now, ka, fa, k1, f1, ka, stamped);
  }

  // ----- the loops

  /** `sorted` of a set. */
  method SortedOf<T(==, !new)>(names: set<T>, leq: (T, T) -> bool) returns (s: seq<T>)
    requires TotalOrder(leq)
    ensures Lists(s, names, leq)
  {
    var left, picked := names, [];
    while left != {}
      invariant left <= names && Distinct(picked) && forall x :: x in picked <==> x in names && x !in left
    {
      var x :| x in left;
      picked, left := picked + [x], left - {x};
    }
    s := Sort(picked, leq);
    SortSorts(picked, leq);
    SortKeepsElements(picked, leq);
    PermutationKeepsDistinct(picked, s);
  }

  method SortedNames(ghost gathered: seq<string>, names: set<string>) returns (s: seq<string>)
    requires names == Elements(gathered)
    ensures s == SortedSet(gathered, StrLeq)
  {
    StringOrderIsTotal();
    StringOrderIsAntisymmetric();
    s := SortedOf(names, StrLeq);
    SortedSetLists(gathered, StrLeq);
    OneListing(s, SortedSet(gathered, StrLeq), names, StrLeq);
  }

  /** The inner loops: the rows of one key. */
  method MergeRows(rows: seq<Candidate>) returns (body: Candidate)
    requires rows != []
    ensures body == Merge(rows)
  {
    var strongest := rows[0];
    var signals, seen := [], {};
    var cwe, owasp := {}, {};
    var remediation := None;
    for n := 0 to |rows|
      invariant n > 0 ==> strongest == Strongest(rows[..n])
      invariant n == 0 ==> strongest == rows[0]
      invariant signals == FirstOfEach(Gather(rows[..n], Signals), SignalKey)
      invariant KeysOfSignals(signals, seen)
      invariant cwe == Elements(Gather(rows[..n], Cwe)) && owasp == Elements(Gather(rows[..n], Owasp))
      invariant remediation == Remediation(rows[..n])
    {
      var row := rows[n];
      assert rows[..n + 1][..n] == rows[..n];
      if Rank(row.claim.proof) > Rank(strongest.claim.proof) {
        strongest := row;
      }
      cwe, owasp := cwe + Elements(row.cwe), owasp + Elements(row.owasp);
      remediation := if Truthy(remediation) then remediation else row.remediation;
      signals, seen := AddSignals(Gather(rows[..n], Signals), signals, seen, row.signals);
    }
    assert rows[..|rows|] == rows;
    var cweList := SortedNames(Gather(rows, Cwe), cwe);
    var owaspList := SortedNames(Gather(rows, Owasp), owasp);
    body := Candidate(strongest.claim, signals, cweList, owaspList, remediation);
  }

  lemma OneMoreSignal(before: seq<Signal>, x: Signal)
    ensures FirstOfEach(before + [x], SignalKey)
         == FirstOfEach(before, SignalKey)
            + if Seen(FirstOfEach(before, SignalKey), SignalKey, SignalKey(x)) then [] else [x]
  {
    assert (before + [x])[..|before|] == before;
  }

  ghost predicate KeysOfSignals(signals: seq<Signal>, seen: set<(string, string, string)>) {
    forall k :: k in seen <==> Seen(signals, SignalKey, k)
  }

  method AddSignals(ghost before: seq<Signal>, signals0: seq<Signal>, seen0: set<(string, string, string)>,
                    more: seq<Signal>)
    returns (signals: seq<Signal>, seen: set<(string, string, string)>)
    requires signals0 == FirstOfEach(before, SignalKey) && KeysOfSignals(signals0, seen0)
    ensures signals == FirstOfEach(before + more, SignalKey) && KeysOfSignals(signals, seen)
  {
    signals, seen := signals0, seen0;
    assert before + more[..0] == before;
    for i := 0 to |more|
      invariant signals == FirstOfEach(before + more[..i], SignalKey) && KeysOfSignals(signals, seen)
    {
      OneMoreSignal(before + more[..i], more[i]);
      assert before + more[..i + 1] == before + more[..i] + [more[i]];
      SeenAppend(signals, more[i], SignalKey);
      var key := SignalKey(more[i]);
      if key !in seen {
        signals, seen := signals + [more[i]], seen + {key};
      }
    }
    assert more[..|more|] == more;
  }

  method GroupByKey(lib: Library, candidates: seq<Candidate>) returns (grouped: map<Key, seq<Candidate>>)
    ensures grouped.Keys == Elements(KeysOf(lib, candidates))
    ensures forall k :: k in grouped ==> grouped[k] == RowsOf(lib, candidates, k) && grouped[k] != []
  {
    grouped := map[];
    for n := 0 to |candidates|
      invariant grouped.Keys == Elements(KeysOf(lib, candidates[..n]))
      invariant forall k :: k in grouped ==> grouped[k] == RowsOf(lib, candidates[..n], k) && grouped[k] != []
      invariant forall k :: k !in grouped ==> RowsOf(lib, candidates[..n], k) == []
    {
      assert candidates[..n + 1][..n] == candidates[..n];
      var key := KeyOf(lib, candidates[n].claim);
      assert KeysOf(lib, candidates[..n + 1]) == KeysOf(lib, candidates[..n]) + [key];
      grouped := grouped[key := (if key in grouped then grouped[key] else []) + [candidates[n]]];
    }
    assert candidates[..|candidates|] == candidates;
  }

  method SortedKeys(names: set<Key>) returns (keys: seq<Key>)
    ensures Lists(keys, names, KeyLeq)
  {
    KeyOrder();
    keys := SortedOf(names, KeyLeq);
  }

  method FindingFor(lib: Library, ghost candidates: seq<Candidate>, rows: seq<Candidate>, key: Key, now: int)
    returns (f: Finding)
    requires rows == RowsOf(lib, candidates, key) && rows != []
    ensures IsFinding(lib, candidates, now, key, f)
  {
    var body := MergeRows(rows);
    f := Finding("finding-" + lib.digest(key), body, now);
  }

  /** Group by key, then one finding per key in key order. */
  method CorrelateFindings(lib: Library, candidates: seq<Candidate>, now: int)
    returns (findings: seq<Finding>, keys: seq<Key>)
    ensures Correlated(lib, candidates, now, keys, findings)
  {
    var grouped := GroupByKey(lib, candidates);
    keys := SortedKeys(grouped.Keys);
    findings := [];
    for i := 0 to |keys|
      invariant |findings| == i
      invariant forall j :: 0 <= j < i ==> IsFinding(lib, candidates, now, keys[j], findings[j])
    {
      assert keys[i] in keys;
      var finding := FindingFor(lib, candidates, grouped[keys[i]], keys[i], now);
      findings := findings + [finding];
    }
  }
}
