/** The autonomous development runner: a persisted status machine and its bounded session loop. */
module AutonomousRunner {
  import opened Basics

  datatype Status =
    | Uninitialized | Ready | Running | Validating | WaitingForReset | HumanGate | Blocked | Complete | Recovering

  function Transitions(s: Status): set<Status> {
    match s
    case Uninitialized => {Ready, Blocked}
    case Ready => {Running, Blocked}
    case Running => {Ready, Validating, WaitingForReset, HumanGate, Blocked}
    case Validating => {Ready, HumanGate, Complete, Blocked}
    case WaitingForReset => {Running, Blocked}
    case Recovering => {Ready, Blocked}
    case HumanGate => {}
    case Blocked => {Ready}
    case Complete => {}
  }

  // ----- the result protocol

  datatype Marker = MilestoneComplete | Continue | UsageLimit | HumanGateMarker | BlockedMarker | FailedMarker

  /** What the regular expressions find: marker words (None for an unknown word), reason codes,
      resumable flags, metadata lines, and whether the combined output matches a usage pattern. */
  datatype Output = Output(
    markers: seq<Option<Marker>>, reasons: seq<string>, resumables: seq<bool>, metadataLines: nat,
    exitCode: int, usagePattern: bool)

  datatype Protocol = Protocol(result: Marker, reason: Option<string>, resumable: bool, valid: bool)

  predicate MetadataValid(o: Output) {
    |o.reasons| <= 1 && |o.resumables| <= 1 && o.metadataLines == |o.reasons| + |o.resumables|
  }

  // The marker decides only when it is alone, known, and allowed to speak for this exit code.
  predicate MarkerDecides(o: Output) {
    && |o.markers| == 1 && o.markers[0].Some?
    && (o.exitCode == 0 || o.markers[0].value !in {MilestoneComplete, Continue})
  }

  function ParseProtocol(o: Output): Protocol {
    if MarkerDecides(o) then
      if !MetadataValid(o) then Protocol(BlockedMarker, Some("MALFORMED_METADATA"), false, false)
      else
        Protocol(o.markers[0].value, if o.reasons == [] then None else Some(o.reasons[0]), o.resumables == [true], true)
    else if o.exitCode != 0 && o.usagePattern then Protocol(UsageLimit, Some("CLI_USAGE_LIMIT"), false, true)
    else Protocol(BlockedMarker, Some("PROTOCOL_OR_PROCESS_FAILURE"), false, false)
  }

  const RECOVERABLE := {"PARTIAL_WORK_CHECKPOINTED", "LOCAL_VALIDATION_REPAIR", "LOCAL_TOOL_TRANSIENT"}

  predicate Recoverable(p: Protocol) {
    p.result == BlockedMarker && p.valid && p.resumable && p.reason.Some? && p.reason.value in RECOVERABLE
  }

  /** Completion and continuation are believed only from a single well-formed marker and a clean exit;
      a failure is waited out only on an explicit usage limit. */
  lemma ProtocolIsFailClosed(o: Output)
    ensures var p := ParseProtocol(o);
            && (p.result in {MilestoneComplete, Continue} ==>
                  o.exitCode == 0 && o.markers == [Some(p.result)] && MetadataValid(o))
            && (p.result == UsageLimit <==>
                  if MarkerDecides(o) then o.markers == [Some(UsageLimit)] && MetadataValid(o)
                  else o.exitCode != 0 && o.usagePattern)
            && (Recoverable(p) ==> o.markers == [Some(BlockedMarker)] && o.resumables == [true] && |o.reasons| == 1)
  {
  }

  // ----- persisted state

  // Milestone M<n> is n. Milestones 1 to 8 are autonomous.
  datatype RunnerState = RunnerState(
    status: Status, milestone: nat, head: string, attempt: nat,
    lastValidation: Option<bool>, lastResult: Option<Marker>)

  /** M9 exists only on its way to, or at, the human gate, or blocked by a diverged repository. */
  predicate Sound(s: RunnerState) {
    s.milestone <= 9 && (s.milestone == 9 ==> s.status in {Validating, HumanGate, Blocked})
  }

  predicate JustValidated(s: RunnerState) {
    s.status == Validating && s.lastValidation == Some(true) && s.lastResult == Some(MilestoneComplete)
  }

  /** What one atomic write of the state file may change. */
  predicate Edge(a: RunnerState, b: RunnerState) {
    && (b.status == a.status || b.status in Transitions(a.status) || (a.status == Running && b.status == Recovering))
    && (b.milestone == a.milestone
        || (b.milestone == a.milestone + 1 && JustValidated(a) && 1 <= a.milestone <= 8 && b.status == Validating))
    && (b.head == a.head || (JustValidated(a) && b.status == Validating))
    && (a.status == b.status && a.status in {HumanGate, Complete} ==> b.milestone == a.milestone)
  }

  ghost predicate Chained(h: seq<RunnerState>) {
    && h != []
    && (forall i :: 0 <= i < |h| ==> Sound(h[i]))
    && (forall i :: 0 <= i < |h| - 1 ==> Edge(h[i], h[i + 1]))
  }

  datatype Invocation = Invocation(milestone: nat, repositoryHead: string, recordedHead: string)

  ghost predicate InvocationsSound(v: seq<Invocation>) {
    forall i :: 0 <= i < |v| ==> v[i].milestone <= 8 && v[i].repositoryHead == v[i].recordedHead
  }

  // ----- whole histories

  /** The milestone number never decreases, and grows only through validated completions. */
  lemma {:induction false} MilestonesOnlyGrow(h: seq<RunnerState>, i: nat, j: nat)
    requires Chained(h) && i <= j < |h|
    ensures h[i].milestone <= h[j].milestone
    ensures h[i].milestone < h[j].milestone ==> exists k :: i <= k < j && JustValidated(h[k])
    ensures h[i].head != h[j].head ==> exists k :: i <= k < j && JustValidated(h[k])
  {
    if i < j {
      MilestonesOnlyGrow(h, i, j - 1);
      assert Edge(h[j - 1], h[j]);
    }
  }

  /** HUMAN_GATE and COMPLETE are terminal in every history, milestone included. */
  lemma {:induction false} TerminalStatesStay(h: seq<RunnerState>, i: nat, j: nat)
    requires Chained(h) && i <= j < |h| && h[i].status in {HumanGate, Complete}
    ensures h[j].status == h[i].status && h[j].milestone == h[i].milestone && h[j].head == h[i].head
  {
    if i < j {
      TerminalStatesStay(h, i, j - 1);
      assert Edge(h[j - 1], h[j]);
    }
  }

  /** A crash leaves a prefix of the history, and every prefix is again a sound starting point. */
  lemma CrashLeavesChained(h: seq<RunnerState>, n: nat)
    requires Chained(h) && 0 < n <= |h|
    ensures Chained(h[..n]) && Sound(h[..n][n - 1])
  {
  }

  /** Nothing leads out of M9 but the human gate or a block: from the first M9 state on, the milestone
      stays M9 and no state is ready or running. */
  lemma {:induction false} NinthMilestoneIsGated(h: seq<RunnerState>, i: nat, j: nat)
    requires Chained(h) && i <= j < |h| && h[i].milestone == 9
    ensures h[j].milestone == 9 && h[j].status in {Validating, HumanGate, Blocked}
  {
    MilestonesOnlyGrow(h, i, j);
    assert Sound(h[j]);
  }

  // ----- the runner object

  /** What one run meets: the repository head, the ownership check, Codex, and validation. */
  datatype Env = Env(head: string, ownedWorkIntact: bool, output: Output, validationPasses: bool, headAfter: string)

  // The status a run ends in when Codex claims no completion.
  function VerdictStatus(p: Protocol): Status {
    match p.result
    case UsageLimit => WaitingForReset
    case HumanGateMarker => HumanGate
    case Continue => Ready
    case _ => if Recoverable(p) then Ready else Blocked
  }

  // What validation makes of a claimed completion.
  function AfterValidation(s: RunnerState, env: Env): RunnerState {
    var checked := s.(lastValidation := Some(env.validationPasses));
    if !env.validationPasses then checked.(status := Ready)
    else if 1 <= s.milestone <= 7 then checked.(head := env.headAfter, milestone := s.milestone + 1, status := Ready)
    else if s.milestone == 8 then checked.(head := env.headAfter, milestone := 9, status := HumanGate)
    else checked.(head := env.headAfter, status := Complete)
  }

  function AfterVerdict(s: RunnerState, env: Env): RunnerState {
    var p := ParseProtocol(env.output);
    var told := s.(lastResult := Some(p.result));
    if p.result == MilestoneComplete then AfterValidation(told, env) else told.(status := VerdictStatus(p))
  }

  function AfterCodex(s: RunnerState, env: Env): RunnerState {
    AfterVerdict(s.(status := Running, attempt := s.attempt + 1), env)
  }

  /** The state file after one run. */
  function AfterRun(s: RunnerState, env: Env): RunnerState {
    if s.status in {HumanGate, Complete} then s
    else if env.head != s.head then s.(status := Blocked)
    else if s.status !in {Ready, WaitingForReset, Running} then s
    else if !env.ownedWorkIntact then s.(status := Blocked)
    else AfterCodex(s, env)
  }

  /** The state file after a sequence of runs, whether they return or raise. */
  function AfterRuns(s: RunnerState, envs: seq<Env>): RunnerState {
    if envs == [] then s else AfterRun(AfterRuns(s, envs[..|envs| - 1]), envs[|envs| - 1])
  }

  ghost predicate HeadsAre(envs: seq<Env>, head: string) {
    forall i :: 0 <= i < |envs| ==> envs[i].head == head
  }

  /** A stranded runner stays stranded: while the head is unchanged, a state left VALIDATING or RECOVERING
      by a crash, like a blocked or terminal one, is what every later sequence of runs ends in. */
  lemma {:induction false} StrandedRunsChangeNothing(s: RunnerState, envs: seq<Env>)
    requires s.status !in {Ready, WaitingForReset, Running} && HeadsAre(envs, s.head)
    ensures AfterRuns(s, envs) == s
  {
    if envs != [] {
      StrandedRunsChangeNothing(s, envs[..|envs| - 1]);
    }
  }

  /** And only such a state: from any other, one run under the same head changes the state file. */
  lemma StrandedIff(s: RunnerState)
    ensures (forall envs :: HeadsAre(envs, s.head) ==> AfterRuns(s, envs) == s)
            <==> s.status !in {Ready, WaitingForReset, Running}
  {
    if s.status in {Ready, WaitingForReset, Running} {
      var env := Env(s.head, false, Output([], [], [], 0, 0, false), false, s.head);
      assert [env][..0] == [];
      assert AfterRuns(s, [env]) == AfterRun(AfterRuns(s, []), env);
      assert HeadsAre([env], s.head) && AfterRuns(s, [env]) != s;
    } else {
      forall envs | HeadsAre(envs, s.head) ensures AfterRuns(s, envs) == s {
        StrandedRunsChangeNothing(s, envs);
      }
    }
  }

  /** What a crash between two writes can leave and no run takes up again. */
  predicate Stranded(s: RunnerState, env: Env) {
    s.status in {Validating, Recovering, Uninitialized} && env.head == s.head
  }

  datatype RunEnd = Returned | IllegalTransition | CannotBeInvoked

  class Runner {
    var state: RunnerState
    ghost var history: seq<RunnerState>      // every version the state file has had
    ghost var invocations: seq<Invocation>   // Codex starts

    ghost predicate Valid()
      reads this
    {
      Chained(history) && state == history[|history| - 1] && InvocationsSound(invocations)
    }

    /** A process starts on whatever an earlier one, dying after its `n`-th write, left behind. */
    constructor (ghost earlier: seq<RunnerState>, ghost n: nat, state: RunnerState)
      requires Chained(earlier) && 0 < n <= |earlier| && state == earlier[n - 1]
      ensures Valid() && history == earlier[..n] && invocations == [] && this.state == state
    {
      this.state := state;
      history := earlier[..n];
      invocations := [];
      new;
      CrashLeavesChained(earlier, n);
    }

    // One atomic replacement of the state file.
    method Persist(s: RunnerState)
      requires Valid() && Edge(state, s) && Sound(s)
      modifies this`state, this`history
      ensures Valid() && state == s && history == old(history) + [s]
    {
      state := s;
      history := history + [s];
    }

    method Transition(status: Status) returns (ok: bool)
      requires Valid()
      modifies this`state, this`history
      ensures ok <==> status in Transitions(old(state).status)
      ensures state == if ok then old(state).(status := status) else old(state)
      ensures history == if ok then old(history) + [state] else old(history)
      ensures Valid() <==> Sound(state)
    {
      ok := status in Transitions(state.status);
      if ok {
        state := state.(status := status);
        history := history + [state];
      }
    }

    /** One run under the lock. The only transition that can raise is BLOCKED to BLOCKED, on a diverged
        repository; the milestone moves only on a clean, validated completion in this very run. */
    method RunOnce(env: Env) returns (end: RunEnd)
      requires Valid()
      modifies this
      ensures Valid() && old(history) <= history && old(invocations) <= invocations
      ensures state == AfterRun(old(state), env)
      ensures !end.Returned? ==> history == old(history) && invocations == old(invocations)
      ensures end.IllegalTransition? <==> old(state).status == Blocked && env.head != old(state).head
      ensures end.CannotBeInvoked? <==>
                env.head == old(state).head && old(state).status in {Validating, Recovering, Uninitialized}
      ensures |invocations| == |old(invocations)| + if Invokes(old(state), env) then 1 else 0
      ensures !Invokes(old(state), env) ==> state.milestone == old(state).milestone && state.head == old(state).head
      ensures state.milestone != old(state).milestone ==>
                && state.milestone == old(state).milestone + 1
                && Invokes(old(state), env) && env.validationPasses
                && env.output.exitCode == 0 && ParseProtocol(env.output).result == MilestoneComplete
      ensures state.milestone == 9 && old(state).milestone == 8 ==> state.status == HumanGate
      ensures state.head != old(state).head ==>
                && env.validationPasses && state.head == env.headAfter
                && ParseProtocol(env.output).result == MilestoneComplete
      ensures state.status in {Ready, Running, Validating, Recovering, Uninitialized} ==>
                end.CannotBeInvoked? || state.status == Ready
    {
      if state.status in {HumanGate, Complete} {
        return Returned;
      }
      if env.head != state.head {
        var ok := Transition(Blocked);
        return if ok then Returned else IllegalTransition;
      }
      if state.status == Running {
        Recover();
      }
      if state.status == Blocked {
        return Returned;
      }
      if state.status !in {Ready, WaitingForReset} {
        return CannotBeInvoked;
      }
      if !env.ownedWorkIntact {
        var ok := Transition(Blocked);
        return Returned;
      }
      Invoke(env);
      end := Returned;
    }

    // An orphaned RUNNING state is recovered without a completion claim.
    method Recover()
      requires Valid() && state.status == Running
      modifies this`state, this`history
      ensures Valid() && old(history) <= history
      ensures state == old(state).(status := Ready)
    {
      Persist(state.(status := Recovering));
      var ok := Transition(Ready);
    }

    /** From the start of Codex to the end of the run. */
    method Invoke(env: Env)
      requires Valid() && state.status in {Ready, WaitingForReset} && env.head == state.head
      modifies this
      ensures Valid() && old(history) <= history
      ensures invocations == old(invocations) + [Invocation(old(state).milestone, env.head, old(state).head)]
      ensures Outcome(old(state), env, state) && state == AfterCodex(old(state), env)
    {
      StartCodex(env);
      Conclude(env);
    }

    // READY or WAITING_FOR_RESET to RUNNING, one more attempt, and Codex starts.
    method StartCodex(env: Env)
      requires Valid() && state.status in {Ready, WaitingForReset} && env.head == state.head
      modifies this
      ensures Valid() && old(history) <= history
      ensures state == old(state).(status := Running, attempt := old(state).attempt + 1)
      ensures invocations == old(invocations) + [Invocation(old(state).milestone, env.head, old(state).head)]
    {
      var ok := Transition(Running);
      Persist(state.(attempt := state.attempt + 1));
      invocations := invocations + [Invocation(state.milestone, env.head, state.head)];
    }

    /** Codex's verdict, and the status the run ends in. */
    method Conclude(env: Env)
      requires Valid() && state.status == Running
      modifies this`state, this`history
      ensures Valid() && old(history) <= history
      ensures Outcome(old(state), env, state) && state == AfterVerdict(old(state), env)
    {
      var protocol := ParseProtocol(env.output);
      Persist(state.(lastResult := Some(protocol.result)));
      if protocol.result == MilestoneComplete {
        Validate(env);
      } else {
        var ok := Transition(VerdictStatus(protocol));
      }
    }

    /** Validation of a claimed completion, checkpoint by checkpoint. */
    method Validate(env: Env)
      requires Valid() && state.status == Running && state.lastResult == Some(MilestoneComplete)
      modifies this`state, this`history
      ensures Valid() && old(history) <= history
      ensures Advanced(old(state), env, state) && state == AfterValidation(old(state), env)
    {
      var ok := Transition(Validating);
      Persist(state.(lastValidation := Some(env.validationPasses)));
      if !env.validationPasses {
        ok := Transition(Ready);
        return;
      }
      Persist(state.(head := env.headAfter));
      if 1 <= state.milestone <= 8 {
        Persist(state.(milestone := state.milestone + 1));
        ok := Transition(if state.milestone == 9 then HumanGate else Ready);
      } else {
        ok := Transition(Complete);
      }
    }

    // One iteration of a session: a run started on a state that is neither terminal nor blocked.
    method Iterate(env: Env) returns (end: RunEnd)
      requires Valid() && state.status !in {HumanGate, Complete, Blocked}
      modifies this
      ensures Valid() && old(history) <= history && old(invocations) <= invocations
      ensures !end.IllegalTransition? && |invocations| <= |old(invocations)| + 1
      ensures state.milestone >= old(state).milestone
      ensures Stranded(old(state), env) ==>
                end.CannotBeInvoked? && state == old(state) && invocations == old(invocations)
    {
      Persist(state);
      end := RunOnce(env);
    }

    /** A whole session: bounded invocations, bounded runs without progress, no illegal transition.
        `progressed[i]` is whether iteration i changed the progress fingerprint. */
    method RunContinuous(envs: nat -> Env, progress: nat -> bool, expired: nat -> bool,
                         maxInvocations: nat, maxNoProgress: nat)
      returns (end: RunEnd, iterations: nat, ghost progressed: seq<bool>)
      requires Valid() && maxNoProgress >= 1
      modifies this
      ensures Valid() && old(history) <= history && old(invocations) <= invocations
      ensures !end.IllegalTransition?
      ensures iterations <= maxInvocations && |invocations| <= |old(invocations)| + iterations
      ensures |progressed| <= iterations && NoLongStall(progressed, maxNoProgress)
      ensures state.milestone >= old(state).milestone
      // A session that leaves the runner ready ran out of its ceiling or was asked to stop.
      ensures end.Returned? && state.status == Ready ==>
                iterations >= maxInvocations || expired(iterations) || state.lastResult == Some(BlockedMarker)
      ensures end.Returned? && Stall(progressed) == maxNoProgress ==> state.status != Ready
      // A session on a stranded runner starts nothing and changes nothing.
      ensures Stranded(old(state), envs(0)) ==> state == old(state) && invocations == old(invocations)
      ensures Stranded(old(state), envs(0)) && maxInvocations > 0 && !expired(0) ==> end.CannotBeInvoked?
    {
      iterations := 0;
      progressed := [];
      end := Returned;
      var noProgress := 0;
      while true
        invariant Valid() && old(history) <= history && old(invocations) <= invocations
        invariant iterations <= maxInvocations && |invocations| <= |old(invocations)| + iterations
        invariant end.Returned? && |progressed| == iterations
        invariant noProgress == Stall(progressed) < maxNoProgress && NoLongStall(progressed, maxNoProgress)
        invariant state.milestone >= old(state).milestone
        invariant Stranded(old(state), envs(0)) ==>
                    iterations == 0 && state == old(state) && invocations == old(invocations)
        decreases maxInvocations - iterations
      {
        if state.status in {HumanGate, Complete, Blocked} {
          return;
        }
        if iterations >= maxInvocations || expired(iterations) {
          Persist(state);
          return;
        }
        var env, moved := envs(iterations), progress(iterations);
        iterations := iterations + 1;
        end := Iterate(env);
        if !end.Returned? {
          return;
        }
        noProgress := if moved then 0 else noProgress + 1;
        StallAppend(progressed, moved, maxNoProgress);
        progressed := progressed + [moved];
        Persist(state);
        if state.status != Ready {
          return;
        }
        if noProgress >= maxNoProgress {
          var ok := Transition(Blocked);
          return;
        }
        if state.lastResult == Some(BlockedMarker) {
          return;
        }
      }
    }
  }

  /** When a run reaches Codex. */
  predicate Invokes(s: RunnerState, env: Env) {
    s.status in {Ready, WaitingForReset, Running} && env.head == s.head && env.ownedWorkIntact
  }

  /** What a validated, or refused, completion leaves. */
  predicate Advanced(before: RunnerState, env: Env, after: RunnerState) {
    if !env.validationPasses then
      after.status == Ready && after.milestone == before.milestone && after.head == before.head
    else
      && after.head == env.headAfter
      && (if before.milestone == 8 then after.milestone == 9 && after.status == HumanGate
          else if 1 <= before.milestone <= 7 then after.milestone == before.milestone + 1 && after.status == Ready
          else after.milestone == before.milestone && after.status == Complete)
  }

  /** How Codex's verdict decides the status the run ends in. */
  predicate Outcome(before: RunnerState, env: Env, after: RunnerState) {
    var p := ParseProtocol(env.output);
    if p.result == MilestoneComplete then Advanced(before, env, after)
    else
      && after.milestone == before.milestone && after.head == before.head
      && after.status == VerdictStatus(p)
  }

  // ----- stalls

  // How many iterations at the end made no progress.
  ghost function Stall(progressed: seq<bool>): nat {
    if progressed == [] || progressed[|progressed| - 1] then 0
    else 1 + Stall(progressed[..|progressed| - 1])
  }

  ghost predicate NoLongStall(progressed: seq<bool>, limit: nat) {
    forall n :: 0 <= n <= |progressed| ==> Stall(progressed[..n]) <= limit
  }

  lemma StallAppend(progressed: seq<bool>, moved: bool, limit: nat)
    requires NoLongStall(progressed, limit) && Stall(progressed) < limit
    ensures Stall(progressed + [moved]) == (if moved then 0 else Stall(progressed) + 1)
    ensures NoLongStall(progressed + [moved], limit)
  {
    var more := progressed + [moved];
    assert more[..|more| - 1] == progressed;
    forall n | 0 <= n <= |more| ensures Stall(more[..n]) <= limit {
      if n <= |progressed| {
        assert more[..n] == progressed[..n];
      } else {
        assert more[..n] == more;
      }
    }
  }

  /** The stall measure means what it says: limit+1 consecutive iterations always contain progress. */
  lemma {:induction false} NoLongStallMeaning(progressed: seq<bool>, limit: nat, i: nat)
    requires NoLongStall(progressed, limit) && i + limit < |progressed|
    ensures exists k :: i <= k <= i + limit && progressed[k]
  {
    if forall k :: i <= k <= i + limit ==> !progressed[k] {
      StallCounts(progressed, i, limit + 1);
    }
  }

  lemma {:induction false} StallCounts(progressed: seq<bool>, i: nat, n: nat)
    requires i + n <= |progressed| && forall k :: i <= k < i + n ==> !progressed[k]
    ensures Stall(progressed[..i + n]) >= n
  {
    if n > 0 {
      StallCounts(progressed, i, n - 1);
      assert progressed[..i + n][..i + n - 1] == progressed[..i + n - 1];
    }
  }
}
