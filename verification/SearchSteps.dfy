/** Single steps of the search in the terms of its tables, scores and verdicts: which values are proposed, what
    an iteration keeps, and when the strategy is switched. */
module SearchSteps {
  import opened Autoresearch
  import opened Numbers

  // ---- Proposals --------------------------------------------------------

  /** The ranges and steps of the search, by strategy and parameter. */
  predicate InTable(meanReversion: bool, name: string, step: real, lo: real, hi: real)
  {
    if meanReversion then
      || (name == "bb_period" && step == 1.0 && lo == 10.0 && hi == 50.0)
      || (name == "bb_std" && step == 0.25 && lo == 1.0 && hi == 4.0)
      || (name == "rsi_period" && step == 1.0 && lo == 5.0 && hi == 50.0)
      || (name == "atr_multiplier" && step == 0.25 && lo == 0.5 && hi == 4.0)
    else
      || (name == "ema_fast" && step == 1.0 && lo == 3.0 && hi == 30.0)
      || (name == "ema_slow" && step == 1.0 && lo == 8.0 && hi == 50.0)
      || (name == "atr_multiplier" && step == 0.25 && lo == 0.5 && hi == 4.0)
  }

  function MovedBy(value: real, k: int, step: real): real { value + k as real * step }

  /** The new value is the old one moved by `k` steps and kept in range, to the nearest ten-thousandth; an absent
      parameter counts as zero. */
  ghost predicate Moves(p: Params, proposal: Proposal, k: int, step: real, lo: real, hi: real)
  {
    && proposal.oldValue == (if proposal.param in p.values then p.values[proposal.param] else 0.0)
    && lo <= proposal.newValue <= hi
    && var moved := MovedBy(proposal.oldValue, k, step);
    && var kept := if moved < lo then lo else if moved > hi then hi else moved;
    && -0.00005 <= proposal.newValue - kept <= 0.00005
  }

  /** One step, or two, three or five, either way, on one of the strategy's parameters. */
  ghost predicate IsStep(p: Params, proposal: Proposal)
  {
    exists k: int, step: real, lo: real, hi: real ::
      && k in {1, -1, 2, -2, 3, -3, 5, -5}
      && InTable(p.strategy == Some("mean_reversion"), proposal.param, step, lo, hi)
      && Moves(p, proposal, k, step, lo, hi)
  }

  lemma TableIsSearched(p: Params, i: nat)
    requires i < |StrategyParams(p)|
    ensures var s := StrategyParams(p)[i];
            InTable(p.strategy == Some("mean_reversion"), s.name, s.step, s.lo, s.hi)
  {
  }

  lemma RoundedNear(x: real)
    ensures -0.00005 <= Round4(x) - x <= 0.00005
  {
  }

  lemma CandidateMoves(p: Params, s: ParamSpec, k: int)
    requires Aligned(s)
    ensures Moves(p, Propose(p, s, Candidate(p, s, k)), k, s.step, s.lo, s.hi)
  {
    CandidateInRange(p, s, k);
    SteppedIsMoved(p, s, k);
    RoundedNear(Clamp(Stepped(p, s, k), s));
    AlignedRange(s);
    hide Round4, MovedBy, Stepped, Aligned;
  }

  lemma SteppedIsMoved(p: Params, s: ParamSpec, k: int)
    ensures Stepped(p, s, k) == MovedBy(OldValue(p, s.name), k, s.step)
  {
  }

  lemma AlignedRange(s: ParamSpec)
    requires Aligned(s)
    ensures s.lo < s.hi
  {
  }

  lemma FallbackMoves(p: Params, s: ParamSpec)
    requires Aligned(s)
    ensures Moves(p, Fallback(p, s), 1, s.step, s.lo, s.hi)
  {
    hide Round4;
  }

  lemma StepOf(p: Params, i: nat, k: int, proposal: Proposal)
    requires i < |StrategyParams(p)| && k in {1, -1, 2, -2, 3, -3, 5, -5}
    requires var s := StrategyParams(p)[i];
             proposal.param == s.name && Moves(p, proposal, k, s.step, s.lo, s.hi)
    ensures IsStep(p, proposal)
  {
    hide Moves, InTable;
    TableIsSearched(p, i);
  }

  /** Every proposal is a step of the search. */
  lemma ProposalsAreSteps(p: Params, visited: Visited, cursor: nat)
    ensures IsStep(p, Ideate(p, visited, cursor).proposal)
  {
    hide FirstNear, FirstFar, Candidate, Fallback, Moves, IsStep, Aligned;
    var space := StrategyParams(p);
    var i := FirstNear(p, space, visited, cursor, 0);
    var j := FirstFar(p, space, visited, 0);
    var at := if i < 2 * |space| then (cursor + i / 2) % |space| else if j < 6 * |space| then j / 6 else 0;
    var proposal := Ideate(p, visited, cursor).proposal;
    TablesAligned(p, at);
    if i < 2 * |space| {
      CandidateMoves(p, space[at], NearSteps(i));
      StepOf(p, at, NearSteps(i), proposal);
    } else if j < 6 * |space| {
      CandidateMoves(p, space[at], FAR_STEPS[j % 6]);
      StepOf(p, at, FAR_STEPS[j % 6], proposal);
    } else {
      FallbackMoves(p, space[0]);
      FallbackIsFirst(p, space[0]);
      StepOf(p, 0, 1, proposal);
    }
  }

  lemma FallbackIsFirst(p: Params, s: ParamSpec)
    ensures Fallback(p, s).param == s.name
  {
  }

  lemma NearCovers(p: Params, visited: Visited, cursor: nat, i: nat)
    requires i < |StrategyParams(p)|
    requires forall n :: 0 <= n < 2 * |StrategyParams(p)|
                         ==> !Fresh(p, visited, NearSpec(StrategyParams(p), cursor, n), NearSteps(n))
    ensures !Fresh(p, visited, StrategyParams(p)[i], 1) && !Fresh(p, visited, StrategyParams(p)[i], -1)
  {
    var space := StrategyParams(p);
    var start := cursor % |space|;
    var offset := if i >= start then i - start else i - start + |space|;
    assert (cursor + offset) % |space| == i by { OffsetReaches(cursor, |space|, i); }
    NearPair(space, cursor, offset);
    hide Fresh, NearSpec, NearSteps, StrategyParams;
    assert !Fresh(p, visited, NearSpec(space, cursor, 2 * offset), NearSteps(2 * offset));
    assert !Fresh(p, visited, NearSpec(space, cursor, 2 * offset + 1), NearSteps(2 * offset + 1));
  }

  lemma OffsetReaches(cursor: nat, n: int, i: nat)
    requires (n == 3 || n == 4) && i < n
    ensures var start := cursor % n; (cursor + (if i >= start then i - start else i - start + n)) % n == i
  {
    if n == 3 {
      ModThree(cursor / 3, i);
      ModThree(cursor / 3 + 1, i);
    } else {
      ModFour(cursor / 4, i);
      ModFour(cursor / 4 + 1, i);
    }
  }

  lemma ModThree(q: int, i: nat)
    requires i < 3
    ensures (3 * q + i) % 3 == i
  {
  }

  lemma ModFour(q: int, i: nat)
    requires i < 4
    ensures (4 * q + i) % 4 == i
  {
  }

  /** The value a parameter moves to is the current one or was visited already. */
  predicate Stale(p: Params, visited: Visited, s: ParamSpec, k: int)
  {
    Candidate(p, s, k) == OldValue(p, s.name) || (s.name, Candidate(p, s, k)) in visited
  }

  /** The search gives up only when no step of one, two, three or five, either way, on any parameter leads
      anywhere new. */
  lemma AllStaleIff(p: Params, visited: Visited, cursor: nat)
    ensures AllStale(p, visited, cursor)
            <==> forall i, k :: 0 <= i < |StrategyParams(p)| && k in {1, -1, 2, -2, 3, -3, 5, -5}
                                ==> Stale(p, visited, StrategyParams(p)[i], k)
  {
    hide Candidate, StrategyParams, NearSpec, NearSteps;
    var space := StrategyParams(p);
    if AllStale(p, visited, cursor) {
      forall i, k | 0 <= i < |space| && k in {1, -1, 2, -2, 3, -3, 5, -5} ensures Stale(p, visited, space[i], k) {
        NearCovers(p, visited, cursor, i);
        FarCovers(p, visited, i);
        assert !Fresh(p, visited, space[i], k);
      }
    } else {
      NotAllStale(p, visited, cursor);
    }
  }

  lemma NotAllStale(p: Params, visited: Visited, cursor: nat)
    requires !AllStale(p, visited, cursor)
    ensures exists i, k :: 0 <= i < |StrategyParams(p)| && k in {1, -1, 2, -2, 3, -3, 5, -5}
                           && !Stale(p, visited, StrategyParams(p)[i], k)
  {
    hide Candidate, StrategyParams;
    var space := StrategyParams(p);
    if n :| 0 <= n < 2 * |space| && Fresh(p, visited, NearSpec(space, cursor, n), NearSteps(n)) {
      assert !Stale(p, visited, space[(cursor + n / 2) % |space|], NearSteps(n));
    } else {
      var j :| 0 <= j < 6 * |space| && Fresh(p, visited, space[j / 6], FAR_STEPS[j % 6]);
      assert !Stale(p, visited, space[j / 6], FAR_STEPS[j % 6]);
    }
  }

  lemma FarCovers(p: Params, visited: Visited, i: nat)
    requires i < |StrategyParams(p)|
    requires forall j :: 0 <= j < 6 * |StrategyParams(p)|
                         ==> !Fresh(p, visited, StrategyParams(p)[j / 6], FAR_STEPS[j % 6])
    ensures forall k :: k in {2, -2, 3, -3, 5, -5} ==> !Fresh(p, visited, StrategyParams(p)[i], k)
  {
    hide Fresh, StrategyParams;
    forall m | 0 <= m < 6 ensures !Fresh(p, visited, StrategyParams(p)[i], FAR_STEPS[m]) {
      var j := 6 * i + m;
      assert j / 6 == i && j % 6 == m;
    }
    assert FAR_STEPS[0] == 2 && FAR_STEPS[1] == -2 && FAR_STEPS[2] == 3 && FAR_STEPS[3] == -3
           && FAR_STEPS[4] == 5 && FAR_STEPS[5] == -5;
  }

  /** Giving up empties the visited set and tries one step up on the first parameter of the table, kept in its
      range but not rounded. */
  lemma GivingUp(p: Params, visited: Visited, cursor: nat)
    requires AllStale(p, visited, cursor)
    ensures var r := Ideate(p, visited, cursor);
            var reverting := p.strategy == Some("mean_reversion");
            var name := if reverting then "bb_period" else "ema_fast";
            var lo, hi := if reverting then 10.0 else 3.0, if reverting then 50.0 else 30.0;
            var current := if name in p.values then p.values[name] else 0.0;
            && r.visited == {} && r.cursor == cursor
            && r.proposal == Proposal(name, current, if current + 1.0 < lo then lo
                                                     else if current + 1.0 > hi then hi else current + 1.0)
  {
    hide Ideate, AllStale;
    FreshUnlessAllStale(p, visited, cursor);
  }

  // ---- Verdicts ---------------------------------------------------------

  /** A Sharpe ratio that is strictly better; no ratio at all is worse than any. */
  predicate Better(a: Score, b: Score)
  {
    match (a, b)
    case (NoScore, _) => false
    case (Sharpe(_), NoScore) => true
    case (Sharpe(x), Sharpe(y)) => x > y
  }

  /** The guard passed, or both the score and the win rate say that the change is no step back. */
  predicate Accepted(baseline: Score, score: Score, guard: GuardResult, baselineWr: real)
  {
    guard.pass || (Better(score, baseline) && guard.winRate >= baselineWr)
  }

  /** An iteration writes the proposed value into the parameters if the change is accepted and restores them
      if not, with the baseline, the count of consecutive keeps and the verdict to match; three keeps in a
      row with the guard passed and a ratio above one and a half end the search. */
  lemma IterationKeepsIff(s: Search, e: Engine)
    requires s.decision != Converged
    ensures var proposal := Ideate(s.params, s.visited, s.cursor).proposal;
            var changed := s.params.(values := s.params.values[proposal.param := proposal.newValue]);
            var score, guard := e.score(changed), e.guard(changed);
            var accepted := Accepted(s.baseline, score, guard, s.baselineWr);
            var r := Iteration(s, e);
            && r.params == r.file == (if accepted then changed else s.params)
            && r.baseline == (if accepted then score else s.baseline)
            && r.baselineWr == (if accepted then guard.winRate else s.baselineWr)
            && r.keeps == (if accepted then s.keeps + 1 else 0)
            && r.decision == (if !accepted then Rollback
                              else if guard.pass && s.keeps >= 2 && Better(score, Sharpe(1.5)) then Converged
                              else Keep)
            && (proposal.param, proposal.newValue) in r.visited
  {
    hide Ideate;
  }

  /** The strategy is switched exactly if the other one scores more than 1.1 times as much; a strategy that was
      never named counts as the crossover. */
  lemma ComparedIff(p: Params, score: Params -> Score)
    ensures var crossing := p.strategy == None || p.strategy == Some("ema_crossover");
            var other := Params(Some(if crossing then "mean_reversion" else "ema_crossover"), p.values);
            var wins := match (score(other), score(p))
                        case (NoScore, _) => false
                        case (Sharpe(_), NoScore) => true
                        case (Sharpe(x), Sharpe(y)) => x > 1.1 * y;
            Compared(p, score) == if wins then other else p
  {
  }

  /** With the default parameters and nothing visited, the first proposal is one step up on the fast average, and
      the next one starts from the second parameter. */
  lemma FirstProposal()
    ensures var p := Params(Some("ema_crossover"), map["ema_fast" := 9.0, "ema_slow" := 21.0]);
            var idea := Ideate(p, {}, 0);
            idea.proposal == Proposal("ema_fast", 9.0, 10.0) && idea.cursor == 1 && idea.visited == {}
  {
    var p := Params(Some("ema_crossover"), map["ema_fast" := 9.0, "ema_slow" := 21.0]);
    var space := StrategyParams(p);
    assert Candidate(p, PARAMS_EMA[0], 1) == 10.0 by {
      GridPoint(100000);
      assert Clamp(10.0, PARAMS_EMA[0]) == 10.0;
    }
    hide Candidate;
    assert NearSpec(space, 0, 0) == PARAMS_EMA[0] && NearSteps(0) == 1;
    assert Fresh(p, {}, NearSpec(space, 0, 0), NearSteps(0));
    assert FirstNear(p, space, {}, 0, 0) == 0;
  }
}
