/**
 What holds of every deployment: how the repair loop searches, and what it does to docker.
 */
module DeployLaws {
  import opened Options
  import opened DeployRepair
  import opened Deploy

  // ---------- the search ----------

  /** A proposer that names no strategy twice in one go. */
  ghost predicate Distinctive(propose: Proposer) {
    forall plan: Plan, f: DeployFailure :: InOrder(propose(plan, f))
  }

  lemma BuiltinDistinctive()
    ensures Distinctive(ProposerOf(STRATEGIES))
  {
    forall plan: Plan, f: DeployFailure
      ensures InOrder(ProposerOf(STRATEGIES)(plan, f))
    {
      ProposalsInOrder(plan, f, STRATEGIES);
    }
  }

  lemma {:induction false} UnseenInOrder(ps: seq<Proposal>, seen: set<Strategy>)
    requires InOrder(ps)
    ensures InOrder(Unseen(ps, seen))
    decreases ps
  {
    if ps != [] {
      UnseenInOrder(ps[1..], seen);
      UnseenIs(ps[1..], seen);
    }
  }

  /** An attempt at a proposal is recorded as what it is. */
  ghost predicate Faithful(next: Tryer) {
    forall cur: Try, p: Proposal, n: nat {:trigger next(cur, p, n)} ::
      next(cur, p, n).who == Rule(p.strategy) && next(cur, p, n).cand.plan == p.plan
  }

  /** A round tries a prefix of its proposals, and the whole of them if all fail. */
  lemma {:induction false} RoundIs(next: Tryer, cur: Try, ps: seq<Proposal>, n: nat)
    requires Faithful(next)
    ensures var ts := Round(next, cur, ps, n);
      && |ts| <= |ps|
      && (forall i :: 0 <= i < |ts| ==> ts[i].who == Rule(ps[i].strategy) && ts[i].cand.plan == ps[i].plan)
      && (forall i :: 0 <= i < |ts| - 1 ==> ts[i].result.Dead?)
      && (!Over(ts) ==> |ts| == |ps|)
    decreases ps
  {
    if ps != [] {
      var init := ps[..|ps| - 1];
      RoundIs(next, cur, init, n);
      assert forall i :: 0 <= i < |init| ==> init[i] == ps[i];
    }
  }

  /** Every attempt but possibly the last failed, and no strategy was tried twice. */
  ghost predicate Searched(s: Repair) {
    && (forall i :: 0 <= i < |s.tries| - 1 ==> s.tries[i].result.Dead?)
    && (forall i :: 0 <= i < |s.tries| ==> s.tries[i].who.Rule? && s.tries[i].who.strategy in s.seen)
    && (forall i, j :: 0 <= i < j < |s.tries| ==> s.tries[i].who != s.tries[j].who)
    && |s.tries| <= |s.seen|
    && (s.more ==> forall i :: 0 <= i < |s.tries| ==> s.tries[i].result.Dead?)
  }

  lemma {:induction false} SeenCount(ps: seq<Proposal>, seen: set<Strategy>)
    requires InOrder(ps) && forall p :: p in ps ==> p.strategy !in seen
    ensures |seen + StrategiesOf(ps)| == |seen| + |ps|
    decreases ps
  {
    if ps == [] {
      assert seen + StrategiesOf(ps) == seen;
    } else {
      forall p | p in ps[1..]
        ensures p.strategy !in seen + {ps[0].strategy}
      {
      }
      SeenCount(ps[1..], seen + {ps[0].strategy});
      assert seen + StrategiesOf(ps) == (seen + {ps[0].strategy}) + StrategiesOf(ps[1..]);
    }
  }

  lemma {:induction false} StrategyIn(ps: seq<Proposal>, i: nat)
    requires i < |ps|
    ensures ps[i].strategy in StrategiesOf(ps)
    decreases i
  {
    if i > 0 {
      StrategyIn(ps[1..], i - 1);
    }
  }

  lemma TurnSearched(dock: Dock, propose: Proposer, s: Repair)
    requires Distinctive(propose) && Searched(s) && s.more && s.cur.result.Dead?
    ensures Searched(Turn(dock, propose, s))
  {
    var ps := propose(s.cur.cand.plan, FailureAt(s.cur));
    assert InOrder(ps);
    TurnIsRound(dock, propose, s);
    RoundSearched(TryerOf(dock), s, Turn(dock, propose, s), ps);
  }

  lemma TurnIsRound(dock: Dock, propose: Proposer, s: Repair)
    requires s.more && s.cur.result.Dead?
    ensures var unseen := Unseen(propose(s.cur.cand.plan, FailureAt(s.cur)), s.seen);
      var ts := Round(TryerOf(dock), s.cur, unseen, 1 + |s.tries|);
      Turn(dock, propose, s) == Repair(LastTry(s.cur, ts), s.tries + ts, s.seen + StrategiesOf(unseen),
                                       unseen != [] && LastTry(s.cur, ts).result.Dead?)
  {
  }

  lemma RoundSearched(next: Tryer, s: Repair, s': Repair, ps: seq<Proposal>)
    requires Faithful(next) && Searched(s) && s.more && InOrder(ps)
    requires var unseen := Unseen(ps, s.seen);
      var ts := Round(next, s.cur, unseen, 1 + |s.tries|);
      s' == Repair(LastTry(s.cur, ts), s.tries + ts, s.seen + StrategiesOf(unseen),
                   unseen != [] && LastTry(s.cur, ts).result.Dead?)
    ensures Searched(s')
  {
    var unseen := Unseen(ps, s.seen);
    UnseenIs(ps, s.seen);
    UnseenInOrder(ps, s.seen);
    SeenCount(unseen, s.seen);
    RoundIs(next, s.cur, unseen, 1 + |s.tries|);
    JoinSearched(s, s', unseen, Round(next, s.cur, unseen, 1 + |s.tries|));
  }

  lemma {:induction false} JoinSearched(s: Repair, s': Repair, unseen: seq<Proposal>, ts: seq<Try>)
    requires Searched(s) && s.more && InOrder(unseen) && |s.seen + StrategiesOf(unseen)| == |s.seen| + |unseen|
    requires forall p :: p in unseen ==> p.strategy !in s.seen
    requires |ts| <= |unseen| && forall i :: 0 <= i < |ts| ==> ts[i].who == Rule(unseen[i].strategy)
    requires forall i :: 0 <= i < |ts| - 1 ==> ts[i].result.Dead?
    requires s' == Repair(LastTry(s.cur, ts), s.tries + ts, s.seen + StrategiesOf(unseen),
                          unseen != [] && LastTry(s.cur, ts).result.Dead?)
    ensures Searched(s')
  {
    var tries, seen := s.tries + ts, s.seen + StrategiesOf(unseen);
    forall i | 0 <= i < |tries|
      ensures tries[i].who.Rule? && tries[i].who.strategy in seen
    {
      if i >= |s.tries| {
        StrategyIn(unseen, i - |s.tries|);
      }
    }
    forall i, j | 0 <= i < j < |tries|
      ensures tries[i].who != tries[j].who
    {
      if i >= |s.tries| {
        assert Rank(unseen[i - |s.tries|].strategy) < Rank(unseen[j - |s.tries|].strategy);
      } else if j >= |s.tries| {
        assert unseen[j - |s.tries|] in unseen;
      }
    }
  }

  lemma TurnsSearched(dock: Dock, propose: Proposer, first: Try, k: nat)
    requires Distinctive(propose) && first.result.Dead?
    ensures Searched(Turns(dock, propose, first, k))
  {
    var ok := (s: Repair) => Searched(s);
    TurnerSearches(dock, propose, ok);
    TurnsKeep(dock, propose, first, ok, k);
  }

  lemma TurnerSearches(dock: Dock, propose: Proposer, ok: Repair -> bool)
    requires Distinctive(propose) && forall s: Repair :: ok(s) <==> Searched(s)
    ensures Preserves(TurnerOf(dock, propose), ok)
  {
    forall s: Repair | ok(s)
      ensures ok(TurnerOf(dock, propose)(s))
    {
      assert Searched(s);
      if s.more && s.cur.result.Dead? {
        TurnSearched(dock, propose, s);
      } else {
        assert Searched(s.(more := false));
      }
      assert Searched(Turn(dock, propose, s));
    }
  }
  /** While the loop goes on, every iteration uses up a strategy. */
  lemma {:induction false} TurnsUseUp(dock: Dock, propose: Proposer, first: Try, k: nat)
    requires first.result.Dead?
    ensures Turns(dock, propose, first, k).more ==> |Turns(dock, propose, first, k).seen| >= k
    decreases k
  {
    if k > 0 {
      TurnsUseUp(dock, propose, first, k - 1);
      TurnUsesUp(dock, propose, Turns(dock, propose, first, k - 1), Turns(dock, propose, first, k));
    }
  }

  lemma TurnUsesUp(dock: Dock, propose: Proposer, s: Repair, s': Repair)
    requires (s.more ==> s.cur.result.Dead?) && s' == Turn(dock, propose, s)
    ensures s'.more ==> s.more && |s'.seen| > |s.seen|
  {
    if s.more {
      TurnGrows(dock, propose, s);
    }
  }

  /** The iteration cap of 8 never binds: any cap from 7 on gives the same attempts. */
  lemma CapNeverBinds(dock: Dock, cs: Containers, first: Candidate, repair: bool, propose: Proposer, cap: nat,
                      agent: AgentOracle, agentMax: nat)
    requires cap >= 7
    ensures Tries(dock, cs, first, repair, propose, cap, agent, agentMax)
         == Tries(dock, cs, first, repair, propose, MAX_ITERATIONS, agent, agentMax)
  {
    var t := TryWith(dock, cs, Initial, first, 0);
    if t.result.Dead? {
      var seven, eight: nat := 7, MAX_ITERATIONS;
      TurnsUseUp(dock, propose, t, seven);
      SeenBound(Turns(dock, propose, t, seven).seen);
      Settled(dock, propose, t, seven, cap);
      Settled(dock, propose, t, seven, eight);
    }
  }

  /** The attempts of a deployment: the initial one, then rules, then agent proposals; all failures
      except possibly the last; no rule twice. */
  ghost predicate WellTried(ts: seq<Try>, agentMax: nat) {
    && ts != [] && ts[0].who == Initial
    && (forall i :: 0 <= i < |ts| - 1 ==> ts[i].result.Dead?)
    && (forall i, j :: 0 <= i < j < |ts| && ts[i].who.Rule? ==> ts[i].who != ts[j].who)
    && (forall i, j :: 0 <= i < j < |ts| && ts[j].who.Rule? ==> !ts[i].who.Agent?)
    && (forall j :: 0 < j < |ts| ==> ts[j].who != Initial)
    && |ts| <= 1 + 6 + agentMax
  }

  ghost predicate AgentOnly(ts: seq<Try>) {
    && (forall j :: 0 <= j < |ts| ==> ts[j].who.Agent?)
    && (forall j :: 0 <= j < |ts| - 1 ==> ts[j].result.Dead?)
  }

  /** Only agent attempts so far, all failed while there is more to come. */
  ghost predicate AgentGoing(start: Try, s: Escalation) {
    AgentOnly(s.tries) && s.cur == LastTry(start, s.tries) && (s.more ==> s.cur.result.Dead?)
  }

  lemma AgentTurnGoing(dock: Dock, agent: AgentOracle, n: nat, start: Try, s: Escalation, s': Escalation, i: nat)
    requires AgentGoing(start, s) && s' == AgentTurn(dock, agent, n, s, i)
    ensures AgentGoing(start, s')
  {
  }

  lemma {:induction false} AgentTurnsAre(dock: Dock, agent: AgentOracle, n: nat, start: Try, k: nat)
    requires start.result.Dead?
    ensures AgentGoing(start, AgentTurns(dock, agent, n, start, k))
    decreases k
  {
    if k > 0 {
      AgentTurnsAre(dock, agent, n, start, k - 1);
      AgentNextGoing(dock, agent, n, start, k - 1, k);
    }
  }

  lemma {:induction false} AgentNextGoing(dock: Dock, agent: AgentOracle, n: nat, start: Try, j: nat, k: nat)
    requires k == j + 1 && AgentGoing(start, AgentTurns(dock, agent, n, start, j))
    ensures AgentGoing(start, AgentTurns(dock, agent, n, start, k))
  {
    AgentTurnGoing(dock, agent, n, start, AgentTurns(dock, agent, n, start, j),
                   AgentTurns(dock, agent, n, start, k), j);
  }

  lemma TriesWellTried(dock: Dock, cs: Containers, first: Candidate, repair: bool, propose: Proposer, cap: nat,
                       agent: AgentOracle, agentMax: nat)
    requires Distinctive(propose)
    ensures WellTried(Tries(dock, cs, first, repair, propose, cap, agent, agentMax), agentMax)
  {
    var t := TryWith(dock, cs, Initial, first, 0);
    if repair && Repairable(t.result) {
      var s := Turns(dock, propose, t, cap);
      TurnsSearched(dock, propose, t, cap);
      TurnsLast(dock, propose, t, cap);
      SeenBound(s.seen);
      if s.cur.result.Dead? {
        AgentTurnsAre(dock, agent, 1 + |s.tries|, s.cur, agentMax);
      }
      JoinTries(t, s,
                if s.cur.result.Dead? then AgentTurns(dock, agent, 1 + |s.tries|, s.cur, agentMax).tries else [],
                agentMax);
    }
  }

  lemma JoinTries(t: Try, s: Repair, more: seq<Try>, agentMax: nat)
    requires t.who == Initial && t.result.Dead? && Searched(s) && |s.tries| <= 6 && |more| <= agentMax
    requires s.cur == LastTry(t, s.tries) && (more != [] ==> s.cur.result.Dead?)
    requires AgentOnly(more)
    ensures WellTried([t] + s.tries + more, agentMax)
  {
    var m, ts := |s.tries|, [t] + s.tries + more;
    assert ts[0] == t;
    assert forall i :: 0 < i <= m ==> ts[i] == s.tries[i - 1];
    assert forall i :: m < i < |ts| ==> ts[i] == more[i - 1 - m];
    forall i | 0 <= i < |ts| - 1
      ensures ts[i].result.Dead?
    {
      assert i == 0 || i < m || i == m || i > m;
    }
    forall i, j | 0 <= i < j < |ts| && ts[i].who.Rule?
      ensures ts[i].who != ts[j].who
    {
      assert 0 < i <= m;
      if j <= m {
        assert s.tries[i - 1].who != s.tries[j - 1].who;
      }
    }
  }

  /** The report of a deployment tells of its last attempt if that one serves, and else of its first
      failure; it claims success exactly when the container serves. */
  lemma ReportIsHonest(site: Site, ts: seq<Try>, agentMax: nat)
    requires WellTried(ts, agentMax)
    ensures Reported(site, ts).Deployed? <==> exists i :: 0 <= i < |ts| && ts[i].result.Live?
    ensures Reported(site, ts).Deployed? ==>
      exists i :: 0 <= i < |ts| && ts[i].result.Live? && ts[i].cand.engine == Reported(site, ts).engine
        && ts[i].cand.image == Reported(site, ts).image && Reported(site, ts).name == site.name
        && (Reported(site, ts).repairedVia == if i == 0 then None else Some(ts[i].who))
    ensures Reported(site, ts).Failed? ==>
      && ts[0].result.Dead? && Reported(site, ts).why == Failing(ts[0].result.kind)
      && forall i :: 0 <= i < |ts| ==> ts[i].result.Dead?
    ensures Reported(site, ts).Raised? <==> ts[|ts| - 1].result.Blown?
  {
    var last := |ts| - 1;
    assert ts[last].result.Live? || ts[last].result.Dead? || ts[last].result.Blown?;
  }

  // ---------- what is tried ----------

  lemma {:induction false} UnseenNothing(ps: seq<Proposal>)
    ensures Unseen(ps, {}) == ps
    decreases ps
  {
    if ps != [] {
      UnseenNothing(ps[1..]);
    }
  }

  lemma TurnExtends(dock: Dock, propose: Proposer, s: Repair, s': Repair)
    requires s' == Turn(dock, propose, s)
    ensures s.tries <= s'.tries
  {
  }

  lemma {:induction false} TurnsPrefix(dock: Dock, propose: Proposer, first: Try, k: nat, n: nat)
    requires first.result.Dead? && k <= n
    ensures Turns(dock, propose, first, k).tries <= Turns(dock, propose, first, n).tries
    decreases n - k
  {
    if k < n {
      TurnsPrefix(dock, propose, first, k, n - 1);
      NextTurnExtends(dock, propose, first, n - 1, n);
      PrefixTrans(Turns(dock, propose, first, k).tries, Turns(dock, propose, first, n - 1).tries,
                  Turns(dock, propose, first, n).tries);
    }
  }

  lemma {:induction false} NextTurnExtends(dock: Dock, propose: Proposer, first: Try, j: nat, k: nat)
    requires k == j + 1 && first.result.Dead?
    ensures Turns(dock, propose, first, j).tries <= Turns(dock, propose, first, k).tries
  {
    TurnExtends(dock, propose, Turns(dock, propose, first, j), Turns(dock, propose, first, k));
  }

  lemma PrefixTrans(a: seq<Try>, b: seq<Try>, c: seq<Try>)
    requires a <= b && b <= c
    ensures a <= c
  {
  }

  ghost predicate TriesFallback(ts: seq<Try>) {
    exists i :: 0 <= i < |ts| && ts[i].who == Rule(SWAP_ENGINE_TRANSFORMERS)
  }

  lemma FirstRoundFallsBack(next: Tryer, first: Try, ps: seq<Proposal>, n: nat)
    requires Faithful(next) && first.result.Dead? && ps != [] && ps[|ps| - 1].strategy == SWAP_ENGINE_TRANSFORMERS
    ensures LastTry(first, Round(next, first, ps, n)).result.Dead? ==> TriesFallback(Round(next, first, ps, n))
  {
    RoundIs(next, first, ps, n);
    var ts := Round(next, first, ps, n);
    if LastTry(first, ts).result.Dead? {
      assert ts[|ts| - 1].who == Rule(SWAP_ENGINE_TRANSFORMERS);
    }
  }

  lemma FirstTurnFallsBack(dock: Dock, propose: Proposer, start: Repair)
    requires start.tries == [] && start.seen == {} && start.more && start.cur.result.Dead?
    requires var ps := propose(start.cur.cand.plan, FailureAt(start.cur));
      ps != [] && ps[|ps| - 1].strategy == SWAP_ENGINE_TRANSFORMERS
    ensures var s := Turn(dock, propose, start);
      s.cur.result.Dead? ==> s.more && TriesFallback(s.tries)
  {
    var ps := propose(start.cur.cand.plan, FailureAt(start.cur));
    UnseenNothing(ps);
    FirstRoundFallsBack(TryerOf(dock), start.cur, ps, 1);
    assert [] + Round(TryerOf(dock), start.cur, ps, 1) == Round(TryerOf(dock), start.cur, ps, 1);
  }

  /** A repair that starts on vLLM or SGLang does not give up before it has tried the transformers runner. */
  lemma {:induction false} FallbackTried(dock: Dock, first: Try, n: nat)
    requires first.result.Dead? && Accelerated(first.cand.engine) && n > 0
    ensures var s := Turns(dock, ProposerOf(STRATEGIES), first, n);
      s.cur.result.Dead? ==> TriesFallback(s.tries)
    decreases n
  {
    var propose := ProposerOf(STRATEGIES);
    if n == 1 {
      FallbackProposed(first.cand.plan, FailureAt(first));
      FirstTurnFallsBack(dock, propose, Turns(dock, propose, first, n - 1));
    } else {
      FallbackTried(dock, first, n - 1);
      TurnsPrefix(dock, propose, first, n - 1, n);
    }
  }

  /** The attempt's plan is what its strategy makes of the plan of attempt b. */
  ghost predicate DerivesFrom(b: Try, t: Try, strategies: seq<Strategy>) {
    && b.result.Dead? && t.who.Rule? && t.who.strategy in strategies
    && Propose(t.who.strategy, b.cand.plan, FailureAt(b)) == Some(t.cand.plan)
  }

  function Before(first: Try, tries: seq<Try>, b: nat): Try
    requires b <= |tries|
  {
    if b == 0 then first else tries[b - 1]
  }

  /** Attempt i derives from an earlier attempt b, and so do all attempts between them. */
  ghost predicate RootedAt(first: Try, tries: seq<Try>, i: nat, b: nat, strategies: seq<Strategy>)
    requires b <= i < |tries|
  {
    forall m :: b <= m <= i ==> DerivesFrom(Before(first, tries, b), tries[m], strategies)
  }

  lemma RoundDerives(dock: Dock, s: Repair, strategies: seq<Strategy>, i: nat)
    requires Ranked(strategies) && s.cur.result.Dead?
    requires i < |Round(TryerOf(dock), s.cur, UnseenAt(s.cur, ProposerOf(strategies), s.seen), 1 + |s.tries|)|
    ensures DerivesFrom(s.cur, Round(TryerOf(dock), s.cur, UnseenAt(s.cur, ProposerOf(strategies), s.seen),
                                     1 + |s.tries|)[i], strategies)
  {
    var ps := ProposerOf(strategies)(s.cur.cand.plan, FailureAt(s.cur));
    var unseen := Unseen(ps, s.seen);
    ProposalsInOrder(s.cur.cand.plan, FailureAt(s.cur), strategies);
    UnseenIs(ps, s.seen);
    RoundIs(TryerOf(dock), s.cur, unseen, 1 + |s.tries|);
    assert unseen[i] in unseen;
  }

  /** Mutations do not accumulate within an iteration: every plan the repair loop tries is one
      strategy away from the plan the iteration started with. */
  lemma {:induction false} PlansShareTheirRoot(dock: Dock, strategies: seq<Strategy>, first: Try, k: nat, i: nat)
      returns (b: nat)
    requires Ranked(strategies) && first.result.Dead? && i < |Turns(dock, ProposerOf(strategies), first, k).tries|
    ensures b <= i && RootedAt(first, Turns(dock, ProposerOf(strategies), first, k).tries, i, b, strategies)
    decreases k
  {
    var s := Turns(dock, ProposerOf(strategies), first, k - 1);
    if i < |s.tries| {
      b := PlansShareTheirRoot(dock, strategies, first, k - 1, i);
      TurnsPrefix(dock, ProposerOf(strategies), first, k - 1, k);
    } else {
      b := |s.tries|;
      TurnsLast(dock, ProposerOf(strategies), first, k - 1);
      RootOfTurn(dock, strategies, first, s, i);
    }
  }

  lemma RootOfTurn(dock: Dock, strategies: seq<Strategy>, first: Try, s: Repair, i: nat)
    requires Ranked(strategies) && s.more && s.cur.result.Dead? && s.cur == LastTry(first, s.tries)
    requires |s.tries| <= i < |Turn(dock, ProposerOf(strategies), s).tries|
    ensures RootedAt(first, Turn(dock, ProposerOf(strategies), s).tries, i, |s.tries|, strategies)
  {
    var b, tries := |s.tries|, Turn(dock, ProposerOf(strategies), s).tries;
    forall m | b <= m <= i
      ensures DerivesFrom(Before(first, tries, b), tries[m], strategies)
    {
      RoundDerives(dock, s, strategies, m - b);
    }
  }

  /** So when an iteration tries both, the shorter context is tried without the flag. */
  lemma SiblingsDoNotAccumulate(b: Try, x: Try, y: Try, strategies: seq<Strategy>)
    requires DerivesFrom(b, x, strategies) && x.who == Rule(ADD_TRUST_REMOTE_CODE)
    requires DerivesFrom(b, y, strategies) && y.who == Rule(LOWER_MAX_MODEL_LEN)
    ensures SaysTrue(Arg(x.cand.plan, "trust_remote_code")) && !SaysTrue(Arg(y.cand.plan, "trust_remote_code"))
    ensures Arg(x.cand.plan, "max_model_len") != Arg(y.cand.plan, "max_model_len")
  {
    assert "trust_remote_code" != "max_model_len";
    assert Arg(y.cand.plan, "trust_remote_code") == Arg(b.cand.plan, "trust_remote_code");
    assert Arg(x.cand.plan, "max_model_len") == Arg(b.cand.plan, "max_model_len");
  }

  /** What the agent proposes is never what has just failed. */
  lemma AgentChanges(cur: Candidate, p: AgentProposal)
    requires Usable(Some(p), cur).Some?
    ensures AgentCandidate(cur, p) != cur
  {
    if (p.engine.Some? ==> p.engine.value == cur.engine) && (p.image.Some? ==> p.image.value == cur.image) {
      var k :| k in p.args && !SameArg(Arg(cur.plan, k), p.args[k]);
      assert Arg(AgentCandidate(cur, p).plan, k) == p.args[k];
    }
  }

  // ---------- docker ----------

  /** Each attempt is the next spawn of this dock, on what the attempt before left. */
  ghost predicate Ran(dock: Dock, cs: Containers, ts: seq<Try>, n: nat)
    decreases ts
  {
    ts == [] || (ts[0] == TryWith(dock, cs, ts[0].who, ts[0].cand, n) && Ran(dock, ts[0].after, ts[1..], n + 1))
  }

  lemma {:induction false} RanJoin(dock: Dock, t: Try, a: seq<Try>, b: seq<Try>, n: nat)
    requires Ran(dock, t.after, a, n) && Ran(dock, LastTry(t, a).after, b, n + |a|)
    ensures Ran(dock, t.after, a + b, n)
    decreases a
  {
    if a == [] {
      assert a + b == b;
    } else {
      assert (a + b)[1..] == a[1..] + b;
      RanJoin(dock, a[0], a[1..], b, n + 1);
    }
  }

  ghost predicate Runs(next: Tryer, dock: Dock) {
    forall cur: Try, p: Proposal, n: nat {:trigger next(cur, p, n)} ::
      next(cur, p, n) == TryWith(dock, cur.after, next(cur, p, n).who, next(cur, p, n).cand, n)
  }

  lemma TryerRuns(dock: Dock)
    ensures Runs(TryerOf(dock), dock)
  {
  }

  lemma {:induction false} RoundRan(next: Tryer, dock: Dock, cur: Try, ps: seq<Proposal>, n: nat)
    requires Runs(next, dock)
    ensures Ran(dock, cur.after, Round(next, cur, ps, n), n)
    decreases ps
  {
    if ps != [] {
      RoundRan(next, dock, cur, ps[..|ps| - 1], n);
      var ts := Round(next, cur, ps[..|ps| - 1], n);
      RanNext(dock, cur, ts, next(LastTry(cur, ts), ps[|ps| - 1], n + |ts|), n);
    }
  }

  lemma RanNext(dock: Dock, cur: Try, ts: seq<Try>, t: Try, n: nat)
    requires Ran(dock, cur.after, ts, n) && t == TryWith(dock, LastTry(cur, ts).after, t.who, t.cand, n + |ts|)
    ensures Ran(dock, cur.after, ts + [t], n)
  {
    assert [t] + [] == [t];
    RanJoin(dock, cur, ts, [t], n);
  }

  lemma TurnRan(dock: Dock, next: Tryer, first: Try, s: Repair, s': Repair, ps: seq<Proposal>)
    requires Runs(next, dock) && s.cur == LastTry(first, s.tries) && Ran(dock, first.after, s.tries, 1)
    requires var ts := Round(next, s.cur, ps, 1 + |s.tries|); s'.tries == s.tries + ts && s'.cur == LastTry(s.cur, ts)
    ensures RulesOk(dock, first, s')
  {
    RoundRan(next, dock, s.cur, ps, 1 + |s.tries|);
    RanJoin(dock, first, s.tries, Round(next, s.cur, ps, 1 + |s.tries|), 1);
  }

  /** The rules' attempts so far ran one after the other, and the last of them is the current one. */
  ghost predicate RulesOk(dock: Dock, first: Try, s: Repair) {
    s.cur == LastTry(first, s.tries) && Ran(dock, first.after, s.tries, 1)
  }

  lemma TurnsRan(dock: Dock, propose: Proposer, first: Try, k: nat)
    requires first.result.Dead?
    ensures RulesOk(dock, first, Turns(dock, propose, first, k))
  {
    var ok := (s: Repair) => RulesOk(dock, first, s);
    TurnerRuns(dock, propose, first, ok);
    TurnsKeep(dock, propose, first, ok, k);
  }

  lemma TurnerRuns(dock: Dock, propose: Proposer, first: Try, ok: Repair -> bool)
    requires forall s: Repair :: ok(s) <==> RulesOk(dock, first, s)
    ensures Preserves(TurnerOf(dock, propose), ok)
  {
    forall s: Repair | ok(s)
      ensures ok(TurnerOf(dock, propose)(s))
    {
      TurnRanOn(dock, propose, first, s);
      assert TurnerOf(dock, propose)(s) == Turn(dock, propose, s);
    }
  }

  lemma TurnRanOn(dock: Dock, propose: Proposer, first: Try, s: Repair)
    requires RulesOk(dock, first, s)
    ensures RulesOk(dock, first, Turn(dock, propose, s))
  {
    if s.more && s.cur.result.Dead? {
      TurnIsRound(dock, propose, s);
      TryerRuns(dock);
      TurnRan(dock, TryerOf(dock), first, s, Turn(dock, propose, s), UnseenAt(s.cur, propose, s.seen));
    }
  }

  /** The agent's attempts so far ran one after the other, and the last of them is the current one. */
  ghost predicate AgentOk(dock: Dock, n: nat, start: Try, s: Escalation) {
    s.cur == LastTry(start, s.tries) && Ran(dock, start.after, s.tries, n)
  }

  lemma AgentTurnOk(dock: Dock, agent: AgentOracle, n: nat, start: Try, s: Escalation, s': Escalation, i: nat)
    requires AgentOk(dock, n, start, s) && s' == AgentTurn(dock, agent, n, s, i)
    ensures AgentOk(dock, n, start, s')
  {
    var p := agent(i, s.cur.cand);
    if s.more && p.Some? {
      var t := TryWith(dock, s.cur.after, Agent(p.value.name), AgentCandidate(s.cur.cand, p.value), n + |s.tries|);
      RanNext(dock, start, s.tries, t, n);
    }
  }

  lemma {:induction false} AgentRan(dock: Dock, agent: AgentOracle, n: nat, start: Try, k: nat)
    ensures AgentOk(dock, n, start, AgentTurns(dock, agent, n, start, k))
    decreases k
  {
    if k > 0 {
      AgentRan(dock, agent, n, start, k - 1);
      AgentNextOk(dock, agent, n, start, k - 1, k);
    }
  }

  lemma {:induction false} AgentNextOk(dock: Dock, agent: AgentOracle, n: nat, start: Try, j: nat, k: nat)
    requires k == j + 1 && AgentOk(dock, n, start, AgentTurns(dock, agent, n, start, j))
    ensures AgentOk(dock, n, start, AgentTurns(dock, agent, n, start, k))
  {
    AgentTurnOk(dock, agent, n, start, AgentTurns(dock, agent, n, start, j), AgentTurns(dock, agent, n, start, k),
                j);
  }

  lemma RanAll(dock: Dock, cs: Containers, t: Try, a: seq<Try>, b: seq<Try>)
    requires t == TryWith(dock, cs, t.who, t.cand, 0)
    requires Ran(dock, t.after, a, 1) && Ran(dock, LastTry(t, a).after, b, 1 + |a|)
    ensures Ran(dock, cs, [t] + a + b, 0)
  {
    RanJoin(dock, t, a, b, 1);
    assert [t] + (a + b) == [t] + a + b;
  }

  /** The attempts of a deployment happen one after the other, each on what the one before left. */
  lemma TriesRan(dock: Dock, cs: Containers, first: Candidate, repair: bool, propose: Proposer, cap: nat,
                 agent: AgentOracle, agentMax: nat)
    ensures Ran(dock, cs, Tries(dock, cs, first, repair, propose, cap, agent, agentMax), 0)
  {
    var t := TryWith(dock, cs, Initial, first, 0);
    if repair && Repairable(t.result) {
      TurnsRan(dock, propose, t, cap);
      TurnsLast(dock, propose, t, cap);
      var s := Turns(dock, propose, t, cap);
      AgentRan(dock, agent, 1 + |s.tries|, s.cur, agentMax);
      RanAll(dock, cs, t, s.tries,
             if s.cur.result.Dead? then AgentTurns(dock, agent, 1 + |s.tries|, s.cur, agentMax).tries else []);
    } else {
      assert [t] + [] == [t];
    }
  }

  ghost predicate Ours(site: Site, c: Container) {
    c.run == Some(site.runId) && c.gpus == site.gpus
  }

  /** From a to b, only the container with the site's name may differ, and if it is a new one it is
      labelled with the run and bound to the site's GPUs. */
  ghost predicate Confined(site: Site, a: Containers, b: Containers) {
    && (forall name :: name != site.name ==> (name in a <==> name in b) && (name in a ==> a[name] == b[name]))
    && (site.name in b ==> (site.name in a && a[site.name] == b[site.name]) || Ours(site, b[site.name]))
  }

  lemma AttemptConfined(site: Site, cs: Containers, c: Candidate, ev: Events)
    ensures var (after, result) := Attempted(site, cs, c, ev);
      && Confined(site, cs, after)
      && (result.Live? ==> site.name in after && after[site.name] == Spawn(site, c.engine))
  {
  }

  ghost predicate SafeTry(site: Site, cs: Containers, t: Try) {
    && Confined(site, cs, t.after)
    && (t.result.Live? ==> site.name in t.after && t.after[site.name] == Spawn(site, t.cand.engine))
  }

  lemma {:induction false} RanConfined(site: Site, spawn: Spawner, cs: Containers, ts: seq<Try>, n: nat, i: nat)
    requires Ran(DockOf(site, spawn), cs, ts, n) && i < |ts|
    ensures SafeTry(site, cs, ts[i])
    decreases i
  {
    AttemptConfined(site, cs, ts[0].cand, spawn(n, ts[0].cand));
    if i > 0 {
      RanConfined(site, spawn, ts[0].after, ts[1..], n + 1, i - 1);
    }
  }

  /** At every point of a deployment, whatever docker and the agent do: only the container with the
      deployment's name has changed; if it is a new one it carries the run's label and the GPUs chosen
      at the start; and what is reported as serving is there, on the reported engine. */
  lemma DeployIsConfined(site: Site, spawn: Spawner, cs: Containers, first: Candidate, repair: bool, propose: Proposer,
                         cap: nat, agent: AgentOracle, agentMax: nat, i: nat)
    requires i < |Tries(DockOf(site, spawn), cs, first, repair, propose, cap, agent, agentMax)|
    ensures SafeTry(site, cs, Tries(DockOf(site, spawn), cs, first, repair, propose, cap, agent, agentMax)[i])
  {
    TriesRan(DockOf(site, spawn), cs, first, repair, propose, cap, agent, agentMax);
    RanConfined(site, spawn, cs, Tries(DockOf(site, spawn), cs, first, repair, propose, cap, agent, agentMax), 0, i);
  }

  /** Every attempt of a deployment. */
  function TriesOf(site: Site, spawn: Spawner, cs: Containers, first: Candidate, repair: bool, agent: AgentOracle,
                   agentMax: nat): (ts: seq<Try>)
    ensures ts != []
  {
    Tries(DockOf(site, spawn), cs, first, repair, ProposerOf(STRATEGIES), MAX_ITERATIONS, Heeded(agent), agentMax)
  }

  /** execute_deploy past its gate: the container's name has the prefix, its GPUs are of the evaluation pool
      and none of production's, the attempts are those of a bounded search that repeats no rule, and at
      every one of them only that container has changed. */
  lemma DeployIsSafe(r: Request, site: Site, first: Candidate, spawn: Spawner, cs: Containers, repair: bool,
                     agent: AgentOracle, agentMax: nat, i: nat, gpu: int)
    requires GateOf(r) == Go(site, first)
    ensures site.runId == r.runId && E9Named(site.name) && |site.name| <= 18
    ensures gpu in site.gpus ==> gpu in r.evalGpus && gpu !in r.prodGpus
    ensures WellTried(TriesOf(site, spawn, cs, first, repair, agent, agentMax), agentMax)
    ensures var ts := TriesOf(site, spawn, cs, first, repair, agent, agentMax);
      i < |ts| ==> SafeTry(site, cs, ts[i])
  {
    var engine := r.plan.value.engine.value;
    NameIsWhole(r.runId, engine, engine);
    SelectionIsSafe(r.evalGpus, r.prodGpus, TpSize(r.plan.value).value, r.smi, gpu);
    BuiltinDistinctive();
    TriesWellTried(DockOf(site, spawn), cs, first, repair, ProposerOf(STRATEGIES), MAX_ITERATIONS, Heeded(agent),
                   agentMax);
    if i < |TriesOf(site, spawn, cs, first, repair, agent, agentMax)| {
      DeployIsConfined(site, spawn, cs, first, repair, ProposerOf(STRATEGIES), MAX_ITERATIONS, Heeded(agent),
                       agentMax, i);
    }
  }
}
