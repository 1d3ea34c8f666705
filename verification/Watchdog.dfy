/**
 agent_driver/budget_guard.py and the chunk loop of agent_driver/exec_runner.py with its watchdog
 thread, as a state machine over every interleaving of the two threads and the clock.
 */
module Watchdog {
  import opened Options

  // ---------- the budget guard ----------

  datatype Decision = OK | EXCEEDED_TOKENS | EXCEEDED_WALL_CLOCK

  datatype Check = Check(decision: Decision, elapsed: int, total: nat)

  datatype Budget = Budget(tokens: nat, wallClock: int, startedAt: int)

  predicate Positive(b: Budget) {
    b.tokens > 0 && b.wallClock > 0
  }

  function CheckAt(b: Budget, total: nat, now: int): Check {
    var elapsed := now - b.startedAt;
    Check(if total >= b.tokens then EXCEEDED_TOKENS else if elapsed >= b.wallClock then EXCEEDED_WALL_CLOCK else OK,
          elapsed, total)
  }

  class BudgetGuard {
    const budget: Budget
    var inputTokens: nat
    var outputTokens: nat

    /** Fails, as the original raises ValueError, on a budget that is not positive. */
    static method Make(budget: Budget) returns (guard: Option<BudgetGuard>)
      ensures guard.Some? <==> Positive(budget)
      ensures guard.Some? ==> fresh(guard.value) && guard.value.budget == budget && guard.value.Total() == 0
    {
      if budget.tokens <= 0 || budget.wallClock <= 0 {
        return None;
      }
      var g := new BudgetGuard(budget);
      return Some(g);
    }

    constructor (budget: Budget)
      ensures this.budget == budget && Total() == 0
    {
      this.budget, inputTokens, outputTokens := budget, 0, 0;
    }

    function Total(): nat
      reads this
    {
      inputTokens + outputTokens
    }

    method NoteTokens(input: int, output: int) returns (accepted: bool)
      modifies this
      ensures accepted <==> input >= 0 && output >= 0
      ensures Total() == old(Total()) + if accepted then input + output else 0
    {
      accepted := input >= 0 && output >= 0;
      if accepted {
        inputTokens, outputTokens := inputTokens + input, outputTokens + output;
      }
    }

    method CheckNow(now: int) returns (c: Check)
      ensures c == CheckAt(budget, Total(), now)
      ensures c.decision == OK <==> Total() < budget.tokens && now - budget.startedAt < budget.wallClock
    {
      var elapsed, total := now - budget.startedAt, inputTokens + outputTokens;
      if total >= budget.tokens {
        return Check(EXCEEDED_TOKENS, elapsed, total);
      }
      if elapsed >= budget.wallClock {
        return Check(EXCEEDED_WALL_CLOCK, elapsed, total);
      }
      return Check(OK, elapsed, total);
    }
  }

  /** What a check says: the tokens decide first, and both limits are breached as soon as they are reached. */
  lemma CheckIs(b: Budget, total: nat, now: int)
    ensures var c := CheckAt(b, total, now);
      && (c.decision == EXCEEDED_TOKENS <==> total >= b.tokens)
      && (c.decision == EXCEEDED_WALL_CLOCK <==> total < b.tokens && now >= b.startedAt + b.wallClock)
      && c.total == total && b.startedAt + c.elapsed == now
  {
  }

  /** A breach is never taken back: with more tokens and a later clock it is still one. */
  lemma BreachLasts(b: Budget, total: nat, now: int, total': nat, now': int)
    requires CheckAt(b, total, now).decision != OK && total <= total' && now <= now'
    ensures CheckAt(b, total', now').decision != OK
  {
  }

  // ---------- the two threads ----------

  type Chunk = seq<bv8>

  /** max(1, len // 3) */
  function Estimate(c: Chunk): (n: nat)
    ensures n >= 1
  {
    if |c| / 3 < 1 then 1 else |c| / 3
  }

  /** A token for every three bytes, and at least one. */
  lemma EstimateIs(c: Chunk)
    ensures if |c| < 3 then Estimate(c) == 1 else 3 * Estimate(c) <= |c| < 3 * Estimate(c) + 3
  {
  }

  function EstimateAll(cs: seq<Chunk>): nat {
    if cs == [] then 0 else EstimateAll(cs[..|cs| - 1]) + Estimate(cs[|cs| - 1])
  }

  /** Empty chunks are skipped. */
  function NonEmpty(cs: seq<Chunk>): seq<Chunk> {
    if cs == [] then []
    else if cs[|cs| - 1] == [] then NonEmpty(cs[..|cs| - 1])
    else NonEmpty(cs[..|cs| - 1]) + [cs[|cs| - 1]]
  }

  /** Where the chunk loop is. */
  datatype Loop = Starting | Fetching | Received | Kept | Counted | Stopping | Joining | Deciding | Finished | Aborted

  /** Where the watchdog is. */
  datatype Dog = Waiting | Looking | Recording(breach: Check) | Killing | Gone

  datatype State = State(
    loop: Loop, dog: Dog, now: int,
    pos: nat,              // chunks fetched from the stream
    chunks: seq<Chunk>,    // chunks kept
    total: nat,            // tokens noted
    final: Check,
    box: Option<Check>,    // budget_breached_box
    stopSet: bool, killed: bool, raised: bool)

  ghost predicate Initial(b: Budget, s: State) {
    && s.loop == Starting && s.dog == Waiting && s.pos == 0 && s.chunks == [] && s.total == 0
    && s.box == None && !s.stopSet && !s.killed && !s.raised && s.now >= b.startedAt
  }

  ghost predicate Tick(s: State, s': State) {
    s.now <= s'.now && s' == s.(now := s'.now)
  }

  /** One step of the watchdog. The wait times out as long as stop is not set. */
  ghost predicate DogStep(b: Budget, s: State, s': State) {
    && s.loop != Starting
    && match s.dog
       case Waiting => s' == s.(dog := if s.stopSet then Gone else Looking)
       case Looking =>
         var c := CheckAt(b, s.total, s.now);
         s' == s.(dog := if c.decision == OK then Waiting else Recording(c))
       case Recording(c) => s' == s.(box := Some(c), dog := Killing)
       case Killing => s' == s.(killed := true, dog := Gone) || s' == s.(dog := Gone)
       case Gone => false
  }

  /** One step of the chunk loop over `stream`. A killed agent's stream can end at any point; any
      stream can fail. */
  ghost predicate LoopStep(b: Budget, stream: seq<Chunk>, s: State, s': State) {
    match s.loop
    case Starting => s' == s.(final := CheckAt(b, s.total, s.now), loop := Fetching)
    case Fetching =>
      || (s.pos < |stream| && s' == s.(pos := s.pos + 1, loop := Received))
      || ((s.pos == |stream| || s.killed) && s' == s.(loop := Stopping))
      || s' == s.(raised := true, loop := Stopping)
    case Received =>
      0 < s.pos <= |stream| &&
      if s.box.Some? then s' == s.(final := s.box.value, loop := Stopping)
      else if stream[s.pos - 1] == [] then s' == s.(loop := Fetching)
      else s' == s.(chunks := s.chunks + [stream[s.pos - 1]], loop := Kept)
    case Kept => s.chunks != [] && s' == s.(total := s.total + Estimate(s.chunks[|s.chunks| - 1]), loop := Counted)
    case Counted =>
      var c := CheckAt(b, s.total, s.now);
      s' == s.(final := c, loop := if c.decision == OK then Fetching else Stopping)
    case Stopping => s' == s.(stopSet := true, loop := Joining)
    case Joining => s' == s.(loop := Deciding)   // the watchdog ended, or the join timed out
    case Deciding =>
      if s.raised then s' == s.(loop := Aborted)
      else s' == s.(final := if s.box.Some? && s.final.decision == OK then s.box.value else s.final, loop := Finished)
    case _ => false
  }

  ghost predicate Next(b: Budget, stream: seq<Chunk>, s: State, s': State) {
    Tick(s, s') || DogStep(b, s, s') || LoopStep(b, stream, s, s')
  }

  ghost predicate StepAt(b: Budget, stream: seq<Chunk>, ss: seq<State>, i: nat)
    requires 0 < i < |ss|
  {
    Next(b, stream, ss[i - 1], ss[i])
  }

  ghost predicate Schedule(b: Budget, stream: seq<Chunk>, ss: seq<State>) {
    && Positive(b) && ss != [] && Initial(b, ss[0])
    && forall i :: 0 < i < |ss| ==> StepAt(b, stream, ss, i)
  }

  // ---------- what holds in every schedule ----------

  /** All of the kept chunks but the last: what was counted before it. */
  function EarlierTotal(chunks: seq<Chunk>): nat {
    if chunks == [] then 0 else EstimateAll(chunks[..|chunks| - 1])
  }

  /** How much of the stream the loop has been through. A chunk that arrives after a recorded breach
      is dropped. */
  ghost predicate Progress(stream: seq<Chunk>, s: State) {
    && s.pos <= |stream|
    && (s.loop.Received? ==> s.pos > 0)
    && (|| (s.chunks == NonEmpty(stream[..s.pos]) && !s.loop.Received?)
        || (s.pos > 0 && s.chunks == NonEmpty(stream[..s.pos - 1])
            && (|| s.loop.Received?
                || (s.loop in {Stopping, Joining, Deciding, Finished, Aborted} && s.final.decision != OK))))
  }

  ghost predicate Accounted(b: Budget, s: State) {
    && (s.loop.Kept? ==> s.chunks != [] && s.total == EarlierTotal(s.chunks))
    && (!s.loop.Kept? ==> s.total == EstimateAll(s.chunks))
    && EarlierTotal(s.chunks) < b.tokens
    && (s.loop in {Starting, Fetching, Received} ==> s.total < b.tokens)
  }

  ghost predicate Watched(b: Budget, s: State) {
    && (s.box.Some? ==> s.box.value.decision != OK && CheckAt(b, s.total, s.now).decision != OK)
    && (s.dog.Recording? ==> s.dog.breach.decision != OK && CheckAt(b, s.total, s.now).decision != OK)
    && (s.killed || s.dog.Killing? ==> s.box.Some?)
    && (s.box.Some? ==> s.dog in {Killing, Gone})
    && (s.loop.Starting? ==> s.dog == Waiting)
  }

  /** The loop leaves the stream early only for a breach or a failure. */
  ghost predicate LeftFor(stream: seq<Chunk>, s: State) {
    s.loop in {Stopping, Joining, Deciding, Finished, Aborted} && s.final.decision == OK && s.box.None? && !s.raised ==>
      s.pos == |stream|
  }

  ghost predicate Decided(stream: seq<Chunk>, s: State) {
    s.loop.Finished? ==> !s.raised && (s.final.decision == OK ==> s.pos == |stream| && s.chunks == NonEmpty(stream))
  }

  ghost predicate Inv(b: Budget, stream: seq<Chunk>, s: State) {
    Progress(stream, s) && Accounted(b, s) && Watched(b, s) && LeftFor(stream, s) && Decided(stream, s)
  }

  lemma ProgressLoop(b: Budget, stream: seq<Chunk>, s: State, s': State)
    requires Progress(stream, s) && Watched(b, s) && LoopStep(b, stream, s, s')
    ensures Progress(stream, s')
  {
    if s.loop.Received? {
      assert stream[..s.pos][..s.pos - 1] == stream[..s.pos - 1];
    } else if s'.loop.Received? {
      assert stream[..s'.pos - 1] == stream[..s.pos];
    }
  }

  lemma AccountedLoop(b: Budget, stream: seq<Chunk>, s: State, s': State)
    requires Accounted(b, s) && LoopStep(b, stream, s, s')
    ensures Accounted(b, s')
  {
  }

  lemma WatchedLoop(b: Budget, stream: seq<Chunk>, s: State, s': State)
    requires Watched(b, s) && LoopStep(b, stream, s, s')
    ensures Watched(b, s')
  {
  }

  lemma DecidedLoop(b: Budget, stream: seq<Chunk>, s: State, s': State)
    requires Progress(stream, s) && Watched(b, s) && LeftFor(stream, s) && Decided(stream, s)
    requires LoopStep(b, stream, s, s')
    ensures LeftFor(stream, s') && Decided(stream, s')
  {
    assert stream[..|stream|] == stream;
  }

  lemma InvDog(b: Budget, stream: seq<Chunk>, s: State, s': State)
    requires Inv(b, stream, s) && DogStep(b, s, s')
    ensures Inv(b, stream, s')
  {
  }

  lemma InvNext(b: Budget, stream: seq<Chunk>, s: State, s': State)
    requires Positive(b) && Inv(b, stream, s) && Next(b, stream, s, s')
    ensures Inv(b, stream, s')
  {
    if LoopStep(b, stream, s, s') {
      ProgressLoop(b, stream, s, s');
      AccountedLoop(b, stream, s, s');
      WatchedLoop(b, stream, s, s');
      DecidedLoop(b, stream, s, s');
    } else if DogStep(b, s, s') {
      InvDog(b, stream, s, s');
    }
  }

  lemma {:induction false} InvAlways(b: Budget, stream: seq<Chunk>, ss: seq<State>, i: nat)
    requires Schedule(b, stream, ss) && i < |ss|
    ensures Inv(b, stream, ss[i])
    decreases i
  {
    if i == 0 {
    } else {
      InvAlways(b, stream, ss, i - 1);
      assert StepAt(b, stream, ss, i);
      InvNext(b, stream, ss[i - 1], ss[i]);
    }
  }

  // ---------- the claims, in every schedule ----------

  /** A breach recorded before the loop made up its mind forces a verdict other than OK. */
  lemma {:induction false} BreachForcesVerdict(b: Budget, stream: seq<Chunk>, ss: seq<State>, i: nat, j: nat)
    requires Schedule(b, stream, ss) && i <= j < |ss|
    requires ss[i].box.Some? && !ss[i].loop.Finished?
    ensures Heeded(ss[j])
    decreases j - i
  {
    if i < j {
      BreachForcesVerdict(b, stream, ss, i, j - 1);
      WatchedAt(b, stream, ss, j - 1);
    }
  }

  lemma WatchedAt(b: Budget, stream: seq<Chunk>, ss: seq<State>, i: nat)
    requires Schedule(b, stream, ss) && i < |ss| - 1
    ensures Watched(b, ss[i]) && Next(b, stream, ss[i], ss[i + 1])
  {
    InvAlways(b, stream, ss, i);
    assert StepAt(b, stream, ss, i + 1);
  }

  /** A breach is recorded, and the verdict, if there is one, is not OK. */
  ghost predicate Heeded(s: State) {
    s.box.Some? && (s.loop.Finished? ==> s.final.decision != OK)
  }

  /** The exact line, in every schedule: a verdict has been reached by one deciding step i, and it is
      not OK exactly when at that step a breach was recorded or the loop's own last check was not OK.
      So a breach recorded by moment j is missed exactly when it was recorded after that step. */
  lemma {:induction false} VerdictIs(b: Budget, stream: seq<Chunk>, ss: seq<State>, j: nat) returns (i: nat)
    requires Schedule(b, stream, ss) && j < |ss| && ss[j].loop.Finished?
    ensures 0 < i <= j && ss[i - 1].loop.Deciding? && ss[i].loop.Finished?
    ensures ss[j].final.decision != OK <==> ss[i - 1].box.Some? || ss[i - 1].final.decision != OK
    decreases j
  {
    assert j > 0;
    WatchedAt(b, stream, ss, j - 1);
    if ss[j - 1].loop.Finished? {
      i := VerdictIs(b, stream, ss, j - 1);
    } else {
      i := j;
    }
  }

  /** An OK verdict means that the whole of the stream was kept and no failure was swallowed. */
  lemma OkMeansWhole(b: Budget, stream: seq<Chunk>, ss: seq<State>, i: nat)
    requires Schedule(b, stream, ss) && i < |ss| && ss[i].loop.Finished? && ss[i].final.decision == OK
    ensures ss[i].chunks == NonEmpty(stream) && Flat(ss[i].chunks) == Flat(stream) && !ss[i].raised
  {
    InvAlways(b, stream, ss, i);
    FlatNonEmpty(stream);
  }

  /** b"".join */
  function Flat(cs: seq<Chunk>): seq<bv8> {
    if cs == [] then [] else Flat(cs[..|cs| - 1]) + cs[|cs| - 1]
  }

  lemma {:induction false} FlatNonEmpty(cs: seq<Chunk>)
    ensures Flat(NonEmpty(cs)) == Flat(cs)
    decreases cs
  {
    if cs != [] {
      var init, last := cs[..|cs| - 1], cs[|cs| - 1];
      FlatNonEmpty(init);
      if last != [] {
        assert NonEmpty(cs)[..|NonEmpty(cs)| - 1] == NonEmpty(init);
      }
    }
  }

  lemma {:induction false} FlatPrefix(cs: seq<Chunk>, n: nat)
    requires n <= |cs|
    ensures Flat(cs[..n]) <= Flat(cs)
    decreases |cs| - n
  {
    if n < |cs| {
      FlatPrefix(cs, n + 1);
      assert cs[..n + 1][..n] == cs[..n];
    } else {
      assert cs[..n] == cs;
    }
  }

  /** What is kept is a prefix of what the agent printed, at every moment. */
  lemma KeptIsPrefix(b: Budget, stream: seq<Chunk>, ss: seq<State>, i: nat)
    requires Schedule(b, stream, ss) && i < |ss|
    ensures Flat(ss[i].chunks) <= Flat(stream)
  {
    InvAlways(b, stream, ss, i);
    var s := ss[i];
    var n := if s.chunks == NonEmpty(stream[..s.pos]) then s.pos else s.pos - 1;
    FlatNonEmpty(stream[..n]);
    FlatPrefix(stream, n);
  }

  /** The tokens noted stay below the budget plus the estimate of the last chunk kept. */
  lemma OverrunIsOneChunk(b: Budget, stream: seq<Chunk>, ss: seq<State>, i: nat)
    requires Schedule(b, stream, ss) && i < |ss|
    ensures ss[i].total <= EstimateAll(ss[i].chunks)
    ensures ss[i].total < b.tokens + if ss[i].chunks == [] then 0 else Estimate(ss[i].chunks[|ss[i].chunks| - 1])
  {
    InvAlways(b, stream, ss, i);
  }

  const LATE_BUDGET := Budget(10, 5, 0)

  /** The agent prints nothing and ends; the watchdog has woken up but is slower than the join. */
  function LateState(k: nat): State {
    var s := State(Starting, Waiting, 0, 0, [], 0, Check(OK, 0, 0), None, false, false, false);
    if k == 0 then s
    else if k == 1 then s.(loop := Fetching)
    else if k == 2 then s.(loop := Fetching, dog := Looking)
    else if k == 3 then s.(loop := Stopping, dog := Looking)
    else
      var t := s.(stopSet := true, dog := Looking);
      if k == 4 then t.(loop := Joining)
      else if k == 5 then t.(loop := Deciding)
      else if k == 6 then t.(loop := Finished)
      else
        var late := CheckAt(LATE_BUDGET, 0, 5);
        var u := t.(loop := Finished, now := 5);
        if k == 7 then u
        else if k == 8 then u.(dog := Recording(late))
        else u.(box := Some(late), dog := Killing)
  }

  lemma LateLoopStep(k: nat)
    requires k in {1, 3, 4, 5, 6}
    ensures LoopStep(LATE_BUDGET, [], LateState(k - 1), LateState(k))
  {
  }

  /** A breach recorded after a join that timed out comes too late: the verdict stays OK. */
  lemma LateBreachIsMissed() returns (ss: seq<State>)
    ensures Schedule(LATE_BUDGET, [], ss) && ss[|ss| - 1].loop.Finished?
    ensures ss[|ss| - 1].box.Some? && ss[|ss| - 1].final.decision == OK
  {
    ss := seq(10, k requires 0 <= k < 10 => LateState(k));
    forall i | 0 < i < |ss|
      ensures StepAt(LATE_BUDGET, [], ss, i)
    {
      if i in {2, 8, 9} {
      } else if i == 7 {
        assert Tick(LateState(6), LateState(7));
      } else {
        LateLoopStep(i);
      }
    }
  }
}
