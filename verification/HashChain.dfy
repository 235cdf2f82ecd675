/** Hash-linked logs: the audit log, the evidence manifest and the execution trace are instances.
    They differ in the genesis value and in whether each record's artifact is checked too. */
module HashChain {
  import opened Basics

  /** What is hashed: everything but the record's own hash. */
  datatype Unsigned<B, D> = Unsigned(sequence: int, body: B, previous: D)

  datatype Record<B, D> = Record(unsigned: Unsigned<B, D>, hash: D)

  datatype Fault = SequenceGap | LinkBroken | HashMismatch | MissingArtifact | ArtifactMismatch

  datatype Verdict = Intact | Broken(index: nat, fault: Fault)

  /** One kind of log: the digest, the genesis link, and what is wrong with a body's artifact. */
  datatype Kind<!B, !D> = Kind(digest: Unsigned<B, D> -> D, genesis: D, artifact: B -> Option<Fault>)

  ghost predicate Injective<B(!new), D(!new)>(digest: Unsigned<B, D> -> D) {
    forall a, b :: digest(a) == digest(b) ==> a == b
  }

  // ----- the meaning of a log

  function Tip<B, D>(k: Kind<B, D>, log: seq<Record<B, D>>): D {
    if log == [] then k.genesis else log[|log| - 1].hash
  }

  function NextSequence<B, D>(log: seq<Record<B, D>>): int {
    if log == [] then 1 else log[|log| - 1].unsigned.sequence + 1
  }

  function Sealed<B, D>(k: Kind<B, D>, sequence: int, body: B, previous: D): Record<B, D> {
    var u := Unsigned(sequence, body, previous);
    Record(u, k.digest(u))
  }

  function Appended<B, D>(k: Kind<B, D>, log: seq<Record<B, D>>, body: B): seq<Record<B, D>> {
    log + [Sealed(k, NextSequence(log), body, Tip(k, log))]
  }

  function FaultAt<B, D(==)>(k: Kind<B, D>, log: seq<Record<B, D>>, i: nat): Option<Fault>
    requires i < |log|
  {
    var r := log[i];
    if r.unsigned.sequence != i + 1 then Some(SequenceGap)
    else if r.unsigned.previous != Tip(k, log[..i]) then Some(LinkBroken)
    else if k.digest(r.unsigned) != r.hash then Some(HashMismatch)
    else k.artifact(r.unsigned.body)
  }

  ghost predicate Verified<B, D>(k: Kind<B, D>, log: seq<Record<B, D>>) {
    forall i :: 0 <= i < |log| ==> FaultAt(k, log, i) == None
  }

  ghost predicate IsVerdict<B, D>(k: Kind<B, D>, log: seq<Record<B, D>>, v: Verdict) {
    match v
    case Intact => Verified(k, log)
    case Broken(i, f) => i < |log| && FaultAt(k, log, i) == Some(f) && Verified(k, log[..i])
  }

  lemma PrefixFaults<B, D>(k: Kind<B, D>, log: seq<Record<B, D>>, n: nat, i: nat)
    requires i < n <= |log|
    ensures FaultAt(k, log[..n], i) == FaultAt(k, log, i)
  {
    assert log[..n][..i] == log[..i];
  }

  lemma VerdictIsUnique<B, D>(k: Kind<B, D>, log: seq<Record<B, D>>, v: Verdict, w: Verdict)
    requires IsVerdict(k, log, v) && IsVerdict(k, log, w)
    ensures v == w
  {
    if v.Broken? && w.Broken? {
      if v.index < w.index {
        PrefixFaults(k, log, w.index, v.index);
      } else if w.index < v.index {
        PrefixFaults(k, log, v.index, w.index);
      }
    }
  }

  // ----- appending

  /** Appending never changes the verdict: a broken log stays broken at the same record, an intact
      log stays intact. (The artifact of the appended body is present and matches.) */
  lemma AppendKeepsVerdict<B, D>(k: Kind<B, D>, log: seq<Record<B, D>>, body: B, v: Verdict)
    requires k.artifact(body) == None
    ensures IsVerdict(k, Appended(k, log, body), v) <==> IsVerdict(k, log, v)
  {
    var more := Appended(k, log, body);
    assert more[..|log|] == log;
    forall i | 0 <= i < |log|
      ensures FaultAt(k, more, i) == FaultAt(k, log, i)
    {
      PrefixFaults(k, more, |log|, i);
    }
    if Verified(k, log) {
      if log != [] {
        assert FaultAt(k, log, |log| - 1) == None;
      }
      assert FaultAt(k, more, |log|) == None;
    }
    if v.Broken? && v.index <= |log| {
      assert more[..v.index] == log[..v.index];
    }
  }

  // ----- a verified log is determined by its last hash

  /** With a genesis value no record can hash to, this covers the empty log as well. */
  lemma TipDeterminesLog<B(!new), D(!new)>(
    k: Kind<B, D>, a: seq<Record<B, D>>, b: seq<Record<B, D>>)
    requires Injective(k.digest) && forall u :: k.digest(u) != k.genesis
    requires Verified(k, a) && Verified(k, b) && Tip(k, a) == Tip(k, b)
    ensures a == b
  {
    LastIsSealed(k, a);
    LastIsSealed(k, b);
    if a != [] && b != [] {
      LastHashDeterminesLog(k, a, b);
    }
  }

  lemma LastIsSealed<B, D>(k: Kind<B, D>, log: seq<Record<B, D>>)
    requires Verified(k, log)
    ensures log != [] ==> log[|log| - 1].hash == k.digest(log[|log| - 1].unsigned)
  {
    if log != [] {
      assert FaultAt(k, log, |log| - 1) == None;
    }
  }

  /** Two verified non-empty logs with the same last hash are equal record by record. No assumption
      about the genesis value is needed: the hashed sequence number already forces equal length. */
  lemma {:induction false} LastHashDeterminesLog<B(!new), D(!new)>(
    k: Kind<B, D>, a: seq<Record<B, D>>, b: seq<Record<B, D>>)
    requires Injective(k.digest) && Verified(k, a) && Verified(k, b)
    requires a != [] && b != [] && a[|a| - 1].hash == b[|b| - 1].hash
    ensures a == b
  {
    var m, n := |a| - 1, |b| - 1;
    assert FaultAt(k, a, m) == None && FaultAt(k, b, n) == None;
    assert a[m] == b[n] && m == n;
    if m > 0 {
      forall i | 0 <= i < m ensures FaultAt(k, a[..m], i) == None && FaultAt(k, b[..m], i) == None {
        PrefixFaults(k, a, m, i);
        PrefixFaults(k, b, m, i);
      }
      LastHashDeterminesLog(k, a[..m], b[..m]);
    }
    assert a == a[..m] + [a[m]] && b == b[..m] + [b[m]];
  }

  /** Tampering is seen: rewriting any record of a verified log while keeping its last hash, and
      whatever else is changed, added or dropped before it, breaks verification. */
  lemma TamperingIsSeen<B(!new), D(!new)>(k: Kind<B, D>, log: seq<Record<B, D>>, forged: seq<Record<B, D>>)
    requires Injective(k.digest) && Verified(k, log) && log != [] && forged != []
    requires forged != log && forged[|forged| - 1].hash == log[|log| - 1].hash
    ensures !Verified(k, forged)
  {
    if Verified(k, forged) {
      LastHashDeterminesLog(k, log, forged);
    }
  }

  // ----- the log object

  class Chain<B(==), D(==)> {
    const kind: Kind<B, D>
    var records: seq<Record<B, D>>

    constructor (kind: Kind<B, D>)
      ensures this.kind == kind && records == []
    {
      this.kind := kind;
      records := [];
    }

    method Append(body: B) returns (r: Record<B, D>)
      modifies this
      ensures records == Appended(kind, old(records), body) && r == records[|records| - 1]
      ensures kind.artifact(body) == None && Verified(kind, old(records)) ==> Verified(kind, records)
    {
      var previous := kind.genesis;
      var sequence := 1;
      if |records| > 0 {
        previous := records[|records| - 1].hash;
        sequence := records[|records| - 1].unsigned.sequence + 1;
      }
      r := Sealed(kind, sequence, body, previous);
      ghost var before := records;
      records := records + [r];
      if kind.artifact(body) == None {
        AppendKeepsVerdict(kind, before, body, Intact);
      }
    }

    method Verify() returns (v: Verdict)
      ensures IsVerdict(kind, records, v)
    {
      var previous := kind.genesis;
      var expected := 1;
      for i := 0 to |records|
        invariant expected == i + 1 && previous == Tip(kind, records[..i])
        invariant forall j :: 0 <= j < i ==> FaultAt(kind, records, j) == None
      {
        var r := records[i];
        forall j | 0 <= j < i ensures FaultAt(kind, records[..i], j) == None {
          PrefixFaults(kind, records, i, j);
        }
        if r.unsigned.sequence != expected {
          return Broken(i, SequenceGap);
        }
        if r.unsigned.previous != previous {
          return Broken(i, LinkBroken);
        }
        if kind.digest(r.unsigned) != r.hash {
          return Broken(i, HashMismatch);
        }
        var artifact := kind.artifact(r.unsigned.body);
        if artifact.Some? {
          return Broken(i, artifact.value);
        }
        previous := r.hash;
        expected := expected + 1;
        assert records[..i + 1][|records[..i + 1]| - 1] == r;
      }
      v := Intact;
    }
  }
}
