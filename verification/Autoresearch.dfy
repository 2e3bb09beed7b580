/** The autoresearch hill climb: proposing one parameter change at a time, scoring the parameter file,
    keeping or rolling back. The engine's score and guard are functions of the parameter file. */
module Autoresearch {
  import opened Numbers

  datatype Params = Params(strategy: Option<string>, values: map<string, real>)

  datatype ParamSpec = ParamSpec(name: string, step: real, lo: real, hi: real)

  const PARAMS_EMA: seq<ParamSpec> := [
    ParamSpec("ema_fast", 1.0, 3.0, 30.0),
    ParamSpec("ema_slow", 1.0, 8.0, 50.0),
    ParamSpec("atr_multiplier", 0.25, 0.5, 4.0)]

  const PARAMS_MR: seq<ParamSpec> := [
    ParamSpec("bb_period", 1.0, 10.0, 50.0),
    ParamSpec("bb_std", 0.25, 1.0, 4.0),
    ParamSpec("rsi_period", 1.0, 5.0, 50.0),
    ParamSpec("atr_multiplier", 0.25, 0.5, 4.0)]

  const FAR_STEPS: seq<int> := [2, -2, 3, -3, 5, -5]

  /** A Sharpe ratio, or minus infinity when the engine printed none. */
  datatype Score = NoScore | Sharpe(value: real)

  datatype GuardResult = GuardResult(pass: bool, winRate: real)

  datatype Proposal = Proposal(param: string, oldValue: real, newValue: real)

  datatype Decision = NotDecided | Keep | Rollback | Converged

  type Visited = set<(string, real)>

  predicate Greater(a: Score, b: Score) { a.Sharpe? && (b.NoScore? || a.value > b.value) }

  function StrategyParams(p: Params): (space: seq<ParamSpec>)
    ensures |space| > 0
  {
    if p.strategy == Some("mean_reversion") then PARAMS_MR else PARAMS_EMA
  }

  // ---- Proposing --------------------------------------------------------

  function Clamp(x: real, s: ParamSpec): real { MaxReal(s.lo, MinReal(s.hi, x)) }

  /** `round(x, 4)`. */
  function Round4(x: real): real { RoundHalfEven(x * 10000.0) as real / 10000.0 }

  function OldValue(p: Params, name: string): real { if name in p.values then p.values[name] else 0.0 }

  function Stepped(p: Params, s: ParamSpec, steps: int): real { OldValue(p, s.name) + steps as real * s.step }

  /** The parameter's value moved by a number of steps, kept in range and rounded. */
  function Candidate(p: Params, s: ParamSpec, steps: int): real
  {
    Round4(Clamp(Stepped(p, s, steps), s))
  }

  predicate Fresh(p: Params, visited: Visited, s: ParamSpec, steps: int)
  {
    Candidate(p, s, steps) != OldValue(p, s.name) && (s.name, Candidate(p, s, steps)) !in visited
  }

  /** The near candidates in the order tried: from the cursor on, one step up and one step down. */
  function NearSpec(space: seq<ParamSpec>, cursor: nat, i: nat): ParamSpec
    requires space != []
  {
    space[(cursor + i / 2) % |space|]
  }

  function NearSteps(i: nat): int { if i % 2 == 0 then 1 else -1 }

  lemma NearPair(space: seq<ParamSpec>, cursor: nat, offset: nat)
    requires space != []
    ensures NearSpec(space, cursor, 2 * offset) == NearSpec(space, cursor, 2 * offset + 1)
         == space[(cursor + offset) % |space|]
    ensures NearSteps(2 * offset) == 1 && NearSteps(2 * offset + 1) == -1
    ensures (2 * offset) / 2 == (2 * offset + 1) / 2 == offset
  {
    assert 2 * offset / 2 == offset && (2 * offset + 1) / 2 == offset;
  }

  /** The first fresh near candidate at or after `i`, or `2 * |space|`. */
  function FirstNear(p: Params, space: seq<ParamSpec>, visited: Visited, cursor: nat, i: nat): (r: nat)
    requires space != [] && i <= 2 * |space|
    decreases 2 * |space| - i
    ensures i <= r <= 2 * |space|
  {
    if i == 2 * |space| || Fresh(p, visited, NearSpec(space, cursor, i), NearSteps(i)) then i
    else FirstNear(p, space, visited, cursor, i + 1)
  }

  /** The first fresh far candidate at or after `j`, or `6 * |space|`. */
  function FirstFar(p: Params, space: seq<ParamSpec>, visited: Visited, j: nat): (r: nat)
    requires j <= 6 * |space|
    decreases 6 * |space| - j
    ensures j <= r <= 6 * |space|
  {
    if j == 6 * |space| || Fresh(p, visited, space[j / 6], FAR_STEPS[j % 6]) then j
    else FirstFar(p, space, visited, j + 1)
  }

  lemma FarStep(p: Params, space: seq<ParamSpec>, visited: Visited, k: nat, m: nat)
    requires k < |space| && m < 6
    ensures (6 * k + m) / 6 == k && (6 * k + m) % 6 == m
    ensures FirstFar(p, space, visited, 6 * k + m)
         == if Fresh(p, visited, space[k], FAR_STEPS[m]) then 6 * k + m else FirstFar(p, space, visited, 6 * k + m + 1)
  {
    hide Fresh;
    assert (6 * k + m) / 6 == k && (6 * k + m) % 6 == m;
  }

  lemma FarEnd(p: Params, space: seq<ParamSpec>, visited: Visited)
    ensures FirstFar(p, space, visited, 6 * |space|) == 6 * |space|
  {
  }

  datatype Ideation = Ideation(proposal: Proposal, visited: Visited, cursor: nat)

  function Propose(p: Params, s: ParamSpec, value: real): Proposal { Proposal(s.name, OldValue(p, s.name), value) }

  /** The hard fallback: one step up on the first parameter, in range but not rounded. */
  function Fallback(p: Params, s: ParamSpec): Proposal { Propose(p, s, Clamp(OldValue(p, s.name) + s.step, s)) }

  function Ideate(p: Params, visited: Visited, cursor: nat): Ideation
  {
    var space := StrategyParams(p);
    var i := FirstNear(p, space, visited, cursor, 0);
    if i < 2 * |space| then
      var s := NearSpec(space, cursor, i);
      Ideation(Propose(p, s, Candidate(p, s, NearSteps(i))), visited, (cursor + i / 2 + 1) % |space|)
    else
      var j := FirstFar(p, space, visited, 0);
      if j < 6 * |space| then
        Ideation(Propose(p, space[j / 6], Candidate(p, space[j / 6], FAR_STEPS[j % 6])), visited, cursor)
      else Ideation(Fallback(p, space[0]), {}, cursor)
  }

  /** Every candidate of both passes is the current value or was visited. */
  ghost predicate AllStale(p: Params, visited: Visited, cursor: nat)
  {
    var space := StrategyParams(p);
    && (forall i :: 0 <= i < 2 * |space| ==> !Fresh(p, visited, NearSpec(space, cursor, i), NearSteps(i)))
    && (forall j :: 0 <= j < 6 * |space| ==> !Fresh(p, visited, space[j / 6], FAR_STEPS[j % 6]))
  }

  lemma {:induction false} FirstNearIsFirst(p: Params, space: seq<ParamSpec>, visited: Visited, cursor: nat, i: nat)
    requires space != [] && i <= 2 * |space|
    decreases 2 * |space| - i
    ensures var r := FirstNear(p, space, visited, cursor, i);
            && (forall k :: i <= k < r ==> !Fresh(p, visited, NearSpec(space, cursor, k), NearSteps(k)))
            && (r < 2 * |space| ==> Fresh(p, visited, NearSpec(space, cursor, r), NearSteps(r)))
  {
    hide Fresh, NearSpec, NearSteps;
    if FirstNear(p, space, visited, cursor, i) > i { FirstNearIsFirst(p, space, visited, cursor, i + 1); }
  }

  lemma {:induction false} FirstFarIsFirst(p: Params, space: seq<ParamSpec>, visited: Visited, j: nat)
    requires j <= 6 * |space|
    decreases 6 * |space| - j
    ensures var r := FirstFar(p, space, visited, j);
            && (forall k :: j <= k < r ==> !Fresh(p, visited, space[k / 6], FAR_STEPS[k % 6]))
            && (r < 6 * |space| ==> Fresh(p, visited, space[r / 6], FAR_STEPS[r % 6]))
  {
    hide Fresh;
    if FirstFar(p, space, visited, j) > j { FirstFarIsFirst(p, space, visited, j + 1); }
  }

  /** A table entry whose range is not empty and falls on the rounding grid. */
  ghost predicate Aligned(s: ParamSpec)
  {
    s.lo < s.hi && s.step >= 0.0001 && Round4(s.lo) == s.lo && Round4(s.hi) == s.hi
  }

  lemma GridPoint(k: int)
    ensures Round4(k as real / 10000.0) == k as real / 10000.0
  {
    assert k as real / 10000.0 * 10000.0 == k as real;
    RoundOfInteger(k);
  }

  lemma TablesAligned(p: Params, i: nat)
    requires i < |StrategyParams(p)|
    ensures Aligned(StrategyParams(p)[i])
  {
    hide Round4;
    var s := StrategyParams(p)[i];
    GridPoint((s.lo * 10000.0).Floor);
    GridPoint((s.hi * 10000.0).Floor);
    assert (s.lo * 10000.0).Floor as real == s.lo * 10000.0 && (s.hi * 10000.0).Floor as real == s.hi * 10000.0;
  }

  lemma Round4Monotone(x: real, y: real)
    requires x <= y
    ensures Round4(x) <= Round4(y)
  {
    RoundMonotone(x * 10000.0, y * 10000.0);
  }

  /** Clamping then rounding stays in range, because the bounds are on the grid. */
  lemma CandidateInRange(p: Params, s: ParamSpec, steps: int)
    requires Aligned(s)
    ensures s.lo <= Candidate(p, s, steps) <= s.hi
  {
    hide Round4;
    var c := Clamp(Stepped(p, s, steps), s);
    assert s.lo <= c <= s.hi && Candidate(p, s, steps) == Round4(c);
    Round4Monotone(s.lo, c);
    Round4Monotone(c, s.hi);
  }

  ghost predicate InRange(p: Params, proposal: Proposal)
  {
    exists i :: 0 <= i < |StrategyParams(p)| && ProposesIn(StrategyParams(p)[i], proposal)
  }

  predicate ProposesIn(s: ParamSpec, proposal: Proposal)
  {
    s.name == proposal.param && s.lo <= proposal.newValue <= s.hi
  }

  /** Every proposal is in its parameter's range. */
  lemma ProposalsInRange(p: Params, visited: Visited, cursor: nat)
    ensures InRange(p, Ideate(p, visited, cursor).proposal)
  {
    hide FirstNear, FirstFar, Candidate;
    var space := StrategyParams(p);
    var i := FirstNear(p, space, visited, cursor, 0);
    var j := FirstFar(p, space, visited, 0);
    var at := if i < 2 * |space| then (cursor + i / 2) % |space| else if j < 6 * |space| then j / 6 else 0;
    TablesAligned(p, at);
    if i < 2 * |space| {
      CandidateInRange(p, space[at], NearSteps(i));
    } else if j < 6 * |space| {
      CandidateInRange(p, space[at], FAR_STEPS[j % 6]);
    }
    assert ProposesIn(space[at], Ideate(p, visited, cursor).proposal);
  }

  /** A proposal is fresh, and the visited set kept, unless every candidate is stale; exactly then the
      visited set is emptied and the fallback proposed. */
  lemma FreshUnlessAllStale(p: Params, visited: Visited, cursor: nat)
    ensures var r := Ideate(p, visited, cursor);
            if AllStale(p, visited, cursor)
            then r == Ideation(Fallback(p, StrategyParams(p)[0]), {}, cursor)
            else r.visited == visited && r.proposal.newValue != r.proposal.oldValue
                 && (r.proposal.param, r.proposal.newValue) !in visited
  {
    var space := StrategyParams(p);
    hide FirstNear, FirstFar, Candidate;
    FirstNearIsFirst(p, space, visited, cursor, 0);
    FirstFarIsFirst(p, space, visited, 0);
  }

  /** Some single step always changes a parameter. */
  lemma OneStepMoves(p: Params, s: ParamSpec)
    requires Aligned(s)
    ensures Candidate(p, s, 1) != OldValue(p, s.name) || Candidate(p, s, -1) != OldValue(p, s.name)
  {
    var current := OldValue(p, s.name);
    if current < s.hi {
      RoundedUp(current + s.step, current, s);
    } else {
      RoundedDown(current - s.step, current, s);
    }
  }

  lemma RoundedUp(x: real, current: real, s: ParamSpec)
    requires Aligned(s) && current < s.hi && x >= current + 0.0001
    ensures Round4(Clamp(x, s)) > current
  {
    var c := Clamp(x, s);
    if c == x {
      assert RoundHalfEven(c * 10000.0) as real >= c * 10000.0 - 0.5;
    }
  }

  lemma RoundedDown(x: real, current: real, s: ParamSpec)
    requires Aligned(s) && current >= s.hi && x <= current - 0.0001
    ensures Round4(Clamp(x, s)) < current
  {
    var c := Clamp(x, s);
    if c == x {
      assert RoundHalfEven(c * 10000.0) as real <= c * 10000.0 + 0.5;
    } else if c == s.hi {
      assert current > s.hi;
    }
  }

  /** With nothing visited there is always a fresh candidate, so an emptied set is a genuine restart. */
  lemma NothingVisitedNothingStale(p: Params, cursor: nat)
    ensures !AllStale(p, {}, cursor)
  {
    hide Candidate;
    var space := StrategyParams(p);
    var at := cursor % |space|;
    TablesAligned(p, at);
    OneStepMoves(p, space[at]);
    assert NearSpec(space, cursor, 0) == space[at] && NearSpec(space, cursor, 1) == space[at];
    assert NearSteps(0) == 1 && NearSteps(1) == -1;
    assert Fresh(p, {}, NearSpec(space, cursor, 0), NearSteps(0))
        || Fresh(p, {}, NearSpec(space, cursor, 1), NearSteps(1));
  }

  /** The fallback proposes the current value exactly when that is the upper bound already. */
  lemma FallbackRepeatsIff(p: Params)
    ensures var s := StrategyParams(p)[0];
            var r := Fallback(p, s);
            r.newValue == r.oldValue <==> OldValue(p, s.name) == s.hi
  {
    TablesAligned(p, 0);
  }

  // ---- Deciding and comparing -------------------------------------------

  function Decide(baseline: Score, score: Score, guardPass: bool, baselineWr: real, wr: real): Decision
  {
    if guardPass then Keep
    else if Greater(score, baseline) && wr >= baselineWr then Keep
    else Rollback
  }

  /** A kept change is an improvement, whatever the scores, if and only if the guard did not pass. */
  lemma KeepImprovesIff(guardPass: bool)
    ensures (forall baseline: Score, score: Score, baselineWr: real, wr: real ::
               Decide(baseline, score, guardPass, baselineWr, wr) == Keep ==>
                 Greater(score, baseline) && wr >= baselineWr)
            <==> !guardPass
  {
    if guardPass {
      assert Decide(Sharpe(1.0), Sharpe(0.0), true, 0.0, 0.0) == Keep;
      assert !Greater(Sharpe(0.0), Sharpe(1.0));
    }
  }

  function Challenger(p: Params): Params
  {
    var onEma := p.strategy.None? || p.strategy == Some("ema_crossover");
    p.(strategy := Some(if onEma then "mean_reversion" else "ema_crossover"))
  }

  /** The challenger must beat 1.10 times the current score. */
  predicate Switches(current: Score, challenger: Score)
  {
    Greater(challenger, if current.NoScore? then NoScore else Sharpe(current.value * 1.10))
  }

  function Compared(p: Params, score: Params -> Score): Params
  {
    if Switches(score(p), score(Challenger(p))) then Challenger(p) else p
  }

  /** Switching always improves the score if and only if the current score is not negative; below zero
      the factor loosens the requirement instead. */
  lemma SwitchImprovesIff(current: Score)
    ensures (forall challenger: Score :: Switches(current, challenger) ==> Greater(challenger, current))
            <==> current.NoScore? || current.value >= 0.0
  {
    if current.Sharpe? && current.value < 0.0 {
      assert Switches(current, current) && !Greater(current, current);
    }
  }

  /** With a negative score a strictly worse challenger can win. */
  lemma WorseChallengerCanWin()
    ensures Switches(Sharpe(-1.0), Sharpe(-1.05)) && Greater(Sharpe(-1.0), Sharpe(-1.05))
  {
  }

  // ---- Searching --------------------------------------------------------

  /** The run's variables, the parameter file, and the proposals made since `visited` was last emptied. */
  datatype Search = Search(params: Params, file: Params, visited: Visited, cursor: nat, baseline: Score,
                           baselineWr: real, keeps: nat, decision: Decision, tried: seq<Proposal>)

  datatype Engine = Engine(score: Params -> Score, guard: Params -> GuardResult)

  function Applied(p: Params, proposal: Proposal): Params
  {
    p.(values := p.values[proposal.param := proposal.newValue])
  }

  function Begin(file: Params, visited: Visited, cursor: nat, e: Engine): Search
  {
    var p := Compared(file, e.score);
    Search(p, p, visited, cursor, e.score(p), e.guard(p).winRate, 0, NotDecided, [])
  }

  /** What one verdict does: a kept change is the new baseline, anything else restores the file. */
  function Concluded(s: Search, changed: Params, score: Score, guard: GuardResult): Search
  {
    if Decide(s.baseline, score, guard.pass, s.baselineWr, guard.winRate) == Keep then
      var keeps := s.keeps + 1;
      var converged := guard.pass && keeps >= 3 && Greater(score, Sharpe(1.5));
      s.(params := changed, file := changed, baseline := score, baselineWr := guard.winRate, keeps := keeps,
         decision := if converged then Converged else Keep)
    else s.(file := s.params, keeps := 0, decision := Rollback)
  }

  function Iteration(s: Search, e: Engine): Search
  {
    if s.decision == Converged then s
    else
      var idea := Ideate(s.params, s.visited, s.cursor);
      var changed := Applied(s.params, idea.proposal);
      var visited := idea.visited + {(idea.proposal.param, idea.proposal.newValue)};
      var tried := if idea.visited == s.visited then s.tried + [idea.proposal] else [idea.proposal];
      Concluded(s.(visited := visited, cursor := idea.cursor, tried := tried), changed,
                e.score(changed), e.guard(changed))
  }

  function Searched(s: Search, e: Engine, n: nat): Search
  {
    if n == 0 then s else Iteration(Searched(s, e, n - 1), e)
  }

  class AutoresearchLoop {
    var visited: Visited
    var cursor: nat
    var file: Params

    constructor (visited: Visited, file: Params)
      ensures this.visited == visited && cursor == 0 && this.file == file
    {
      this.visited, cursor, this.file := visited, 0, file;
    }

    method PhaseIdeate(current: Params) returns (proposal: Proposal)
      modifies `visited, `cursor
      ensures Ideation(proposal, visited, cursor) == Ideate(current, old(visited), old(cursor))
    {
      hide Fresh, Candidate, NearSpec, NearSteps;
      var space := StrategyParams(current);
      var offset := 0;
      while offset < |space|
        invariant 0 <= offset <= |space|
        invariant visited == old(visited) && cursor == old(cursor)
        invariant FirstNear(current, space, visited, cursor, 0)
                == FirstNear(current, space, visited, cursor, 2 * offset)
      {
        var s := space[(cursor + offset) % |space|];
        NearPair(space, cursor, offset);
        if Fresh(current, visited, s, 1) {
          cursor := (cursor + offset + 1) % |space|;
          return Propose(current, s, Candidate(current, s, 1));
        }
        if Fresh(current, visited, s, -1) {
          cursor := (cursor + offset + 1) % |space|;
          return Propose(current, s, Candidate(current, s, -1));
        }
        offset := offset + 1;
      }
      proposal := FarProposal(current);
    }

    /** The larger steps and, when they are exhausted too, the fallback. */
    method FarProposal(current: Params) returns (proposal: Proposal)
      requires FirstNear(current, StrategyParams(current), visited, cursor, 0) == 2 * |StrategyParams(current)|
      modifies `visited
      ensures Ideation(proposal, visited, cursor) == Ideate(current, old(visited), cursor)
    {
      hide Fresh, Candidate, FirstNear, FirstFar, StrategyParams;
      var space := StrategyParams(current);
      var k := 0;
      while k < |space|
        invariant 0 <= k <= |space|
        invariant visited == old(visited)
        invariant FirstFar(current, space, visited, 0) == FirstFar(current, space, visited, 6 * k)
      {
        var m := 0;
        while m < 6
          invariant 0 <= m <= 6
          invariant visited == old(visited)
          invariant FirstFar(current, space, visited, 0) == FirstFar(current, space, visited, 6 * k + m)
        {
          FarStep(current, space, visited, k, m);
          if Fresh(current, visited, space[k], FAR_STEPS[m]) {
            return Propose(current, space[k], Candidate(current, space[k], FAR_STEPS[m]));
          }
          m := m + 1;
        }
        k := k + 1;
      }
      FarEnd(current, space, visited);
      visited := {};
      proposal := Fallback(current, space[0]);
    }

    method PhaseModify(params: Params, proposal: Proposal) returns (changed: Params)
      modifies `file
      ensures changed == file == Applied(params, proposal)
    {
      changed := params.(values := params.values[proposal.param := proposal.newValue]);
      file := changed;
    }

    /** Score both strategies through the file; the file ends up holding the returned parameters. */
    method PhaseCompareStrategies(params: Params, e: Engine) returns (chosen: Params)
      requires file == params
      modifies `file
      ensures chosen == file == Compared(params, e.score)
    {
      var currentScore := e.score(file);
      file := Challenger(params);
      var challengerScore := e.score(file);
      if Switches(currentScore, challengerScore) {
        chosen := file;
      } else {
        file := params;
        chosen := params;
      }
    }

    /** One iteration on the run's variables. */
    method Iterate(s: Search, e: Engine) returns (s': Search)
      requires s.decision != Converged
      requires s.visited == visited && s.cursor == cursor && s.file == file
      modifies this
      ensures s' == Iteration(s, e)
      ensures s'.visited == visited && s'.cursor == cursor && s'.file == file
    {
      hide Ideate, Decide;
      var proposal := PhaseIdeate(s.params);
      var tried := if visited == s.visited then s.tried + [proposal] else [proposal];
      visited := visited + {(proposal.param, proposal.newValue)};
      var changed := PhaseModify(s.params, proposal);
      var newScore := e.score(file);
      var guard := e.guard(file);
      s' := s.(visited := visited, cursor := cursor, tried := tried);
      if Decide(s.baseline, newScore, guard.pass, s.baselineWr, guard.winRate) == Keep {
        s' := s'.(params := changed, file := changed, baseline := newScore,
                  baselineWr := guard.winRate, keeps := s.keeps + 1);
        s' := s'.(decision := if guard.pass && s'.keeps >= 3 && Greater(newScore, Sharpe(1.5))
                               then Converged else Keep);
      } else {
        file := s.params;
        s' := s'.(file := s.params, keeps := 0, decision := Rollback);
      }
    }

    method Run(e: Engine, maxIterations: nat) returns (s: Search)
      modifies this
      ensures s == Searched(Begin(old(file), old(visited), old(cursor), e), e, maxIterations)
      ensures s.visited == visited && s.cursor == cursor && s.file == file
    {
      hide Iteration, Compared;
      var params := PhaseCompareStrategies(file, e);
      s := Search(params, file, visited, cursor, e.score(file), e.guard(file).winRate, 0, NotDecided, []);
      ghost var begun := s;
      var i := 0;
      while i < maxIterations && s.decision != Converged
        invariant 0 <= i <= maxIterations
        invariant s == Searched(begun, e, i)
        invariant s.visited == visited && s.cursor == cursor && s.file == file
      {
        s := Iterate(s, e);
        i := i + 1;
      }
      if s.decision == Converged { ConvergedStays(begun, e, i, maxIterations); }
    }
  }

  lemma {:induction false} ConvergedStays(s: Search, e: Engine, i: nat, n: nat)
    requires i <= n && Searched(s, e, i).decision == Converged
    ensures Searched(s, e, n) == Searched(s, e, i)
  {
    if i < n { ConvergedStays(s, e, i, n - 1); }
  }

  // ---- What every run keeps ---------------------------------------------

  /** The file holds the run's parameters and the baseline is their score and win rate. */
  ghost predicate InSync(s: Search, e: Engine)
  {
    s.file == s.params && s.baseline == e.score(s.params) && s.baselineWr == e.guard(s.params).winRate
  }

  /** What was tried since the last reset: all of it visited, no parameter value twice. */
  ghost predicate TriedOnce(s: Search)
  {
    && (forall i :: 0 <= i < |s.tried| ==> (s.tried[i].param, s.tried[i].newValue) in s.visited)
    && (forall i, j :: 0 <= i < j < |s.tried| ==>
          (s.tried[i].param, s.tried[i].newValue) != (s.tried[j].param, s.tried[j].newValue))
  }

  lemma IterationKeeps(s: Search, e: Engine)
    requires InSync(s, e) && TriedOnce(s)
    ensures InSync(Iteration(s, e), e) && TriedOnce(Iteration(s, e))
  {
    hide Ideate, AllStale, Decide, Applied;
    FreshUnlessAllStale(s.params, s.visited, s.cursor);
  }

  /** After every iteration of every run the file holds the run's parameters, the baseline is exactly
      their score, and no proposal was repeated since the visited set was last emptied. */
  lemma {:induction false} RunStaysInSync(file: Params, visited: Visited, cursor: nat, e: Engine, n: nat)
    ensures var s := Searched(Begin(file, visited, cursor, e), e, n);
            InSync(s, e) && TriedOnce(s)
  {
    hide Iteration, Compared;
    if n > 0 {
      RunStaysInSync(file, visited, cursor, e, n - 1);
      IterationKeeps(Searched(Begin(file, visited, cursor, e), e, n - 1), e);
    }
  }

  /** The score falls between two points of a run only if parameters kept in between passed the guard. */
  lemma {:induction false} ScoreFallsOnlyOnGuardPass(begun: Search, e: Engine, m: nat, n: nat)
    requires m <= n && forall k :: m < k <= n ==> !e.guard(Searched(begun, e, k).params).pass
    ensures !Greater(Searched(begun, e, m).baseline, Searched(begun, e, n).baseline)
  {
    hide Ideate, Applied;
    if m < n {
      ScoreFallsOnlyOnGuardPass(begun, e, m, n - 1);
      assert !e.guard(Searched(begun, e, n).params).pass;
    }
  }
}
