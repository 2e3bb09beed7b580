/** What resuming an interrupted sweep makes of it: nothing recorded is lost but the one combo a process died
    on, and the next process goes on with the combo after it. */
module SupervisorResume {
  import opened Numbers
  import opened Supervisor
  import opened SupervisorRuns

  // ---- Phases that start nothing ----------------------------------------

  /** The same combos started and recorded, by a process that has not come back to life. */
  ghost predicate SameRecords(p: Process, r: Process)
  {
    var s, t := p.world.sweeps, r.world.sweeps;
    && t.starts == s.starts && r.fuel <= p.fuel && |t.iterations| == |s.iterations|
    && (forall i :: 0 <= i < |s.iterations| ==> t.iterations[i].lastCombo == s.iterations[i].lastCombo)
    && (p.fuel == 0 ==> t == s)
  }

  lemma SameRecordsTransitive(p: Process, q: Process, r: Process)
    requires SameRecords(p, q) && SameRecords(q, r)
    ensures SameRecords(p, r)
  {
  }

  lemma MarkStartsNothing(p: Process, id: nat, phase: string, running: bool)
    ensures SameRecords(p, UpdateIteration(p, id, phase, None, running))
  {
  }

  lemma UpkeepStartsNothing(p: Process, cfg: Config, c: Cycle, id: nat)
    ensures SameRecords(p, Upkeep(p, cfg, c, id))
  {
    hide UpdateIteration, HandleFindings, CiGate, InReviewCount;
    var p4 := UpdateIteration(p, id, "phase4", None, true);
    var in5 := UpdateIteration(p4, id, "phase5", None, true);
    var p5 := IssuesAndPatches(in5, cfg, c.findings);
    var p6 := UpdateIteration(p5, id, "phase6", None, true);
    var gated := if cfg.dryRun then p6 else CiGate(p6, c.verdicts, |p6.world.events|);
    var p7 := UpdateIteration(gated, id, "phase7", None, true);
    MarkStartsNothing(p, id, "phase4", true);
    MarkStartsNothing(p4, id, "phase5", true);
    FindingsKeepSweep(PatchLoop(in5, InReviewCount(in5.world.events)), cfg, c.findings);
    MarkStartsNothing(p5, id, "phase6", true);
    GateKeepsSweep(p6, c.verdicts, |p6.world.events|);
    MarkStartsNothing(gated, id, "phase7", true);
    MarkStartsNothing(p7, id, "complete", false);
    assert SameRecords(in5, p5) && SameRecords(p6, gated);
    hide SameRecords;
    SameRecordsTransitive(p, p4, in5);
    SameRecordsTransitive(p, in5, p5);
    SameRecordsTransitive(p, p5, p6);
    SameRecordsTransitive(p, p6, gated);
    SameRecordsTransitive(p, gated, p7);
    SameRecordsTransitive(p, p7, Upkeep(p, cfg, c, id));
  }

  // ---- No combo is skipped but the one a process died on ----------------

  /** The combo recorded last for the latest iteration. */
  predicate LatestRecord(s: Sweeps, c: Start)
  {
    c.iteration + 1 == |s.iterations| && s.iterations[c.iteration].lastCombo == Some(c.combo)
  }

  /** Every combo up to its iteration's recorded index was started, or is in `lost`, or is the latest record
      of a process that is dead. */
  ghost predicate Filled(p: Process, lost: set<Start>)
  {
    var s := p.world.sweeps;
    forall c: Start :: Recorded(s.iterations, c) ==>
      c in s.starts || c in lost || (p.fuel == 0 && LatestRecord(s, c))
  }

  /** A living process is at combo `next` of the latest iteration and has none before it left open. */
  ghost predicate FilledUpTo(p: Process, id: nat, next: nat, lost: set<Start>)
  {
    && Filled(p, lost)
    && (p.fuel > 0 ==>
          && id + 1 == |p.world.sweeps.iterations|
          && forall c :: 0 <= c < next ==> Start(id, c) in p.world.sweeps.starts || Start(id, c) in lost)
  }

  lemma SameRecordsFilled(p: Process, r: Process, id: nat, next: nat, lost: set<Start>)
    requires SameRecords(p, r) && FilledUpTo(p, id, next, lost)
    ensures FilledUpTo(r, id, next, lost)
  {
    assert forall c :: Recorded(r.world.sweeps.iterations, c) == Recorded(p.world.sweeps.iterations, c);
    assert forall c :: LatestRecord(r.world.sweeps, c) == LatestRecord(p.world.sweeps, c);
    hide Recorded, LatestRecord;
  }

  lemma ComboFills(p: Process, id: nat, combo: nat, lost: set<Start>)
    requires FilledUpTo(p, id, combo, lost)
    ensures FilledUpTo(StartCombo(UpdateIteration(p, id, "phase2", Some(combo), true), id, combo), id, combo + 1, lost)
  {
    if p.fuel > 0 {
      var r := StartCombo(UpdateIteration(p, id, "phase2", Some(combo), true), id, combo);
      var before, after := p.world.sweeps, r.world.sweeps;
      assert after.starts == before.starts || after.starts == before.starts + [Start(id, combo)];
      forall c | c in before.starts ensures c in after.starts {}
      assert p.fuel >= 2 ==> after.starts[|before.starts|] == Start(id, combo) && Start(id, combo) in after.starts;
      forall c: Start | Recorded(after.iterations, c)
        ensures c in after.starts || c in lost || (r.fuel == 0 && LatestRecord(after, c))
      {
        if c.iteration != id {
          assert Recorded(before.iterations, c);
        } else if c.combo < combo {
          assert Start(id, c.combo) in before.starts || Start(id, c.combo) in lost;
        } else {
          assert c == Start(id, combo);
        }
      }
    }
  }

  lemma {:induction false} SweepFills(p: Process, id: nat, start: nat, n: nat, lost: set<Start>)
    requires FilledUpTo(p, id, start, lost)
    ensures FilledUpTo(Sweep(p, id, start, n), id, if n <= start then start else n, lost)
  {
    if n > 0 {
      hide StartCombo, UpdateIteration, FilledUpTo;
      SweepFills(p, id, start, n - 1, lost);
      if n - 1 >= start { ComboFills(Sweep(p, id, start, n - 1), id, n - 1, lost); }
    }
  }

  lemma BeginFills(p: Process, lost: set<Start>)
    requires Filled(p, lost)
    ensures var rows := p.world.sweeps.iterations;
            var resume := ResumeInfo(rows);
            FilledUpTo(if resume.Some? then p else CreateIteration(p),
                       if resume.Some? then resume.value.iteration else |rows|,
                       if resume.Some? then resume.value.combo else 0, lost)
  {
    var s := p.world.sweeps;
    var resume := ResumeInfo(s.iterations);
    if resume.Some? {
      var id := |s.iterations| - 1;
      forall c: nat | c < resume.value.combo && p.fuel > 0 ensures Start(id, c) in s.starts || Start(id, c) in lost {
        assert Recorded(s.iterations, Start(id, c));
      }
    } else if p.fuel > 0 {
      var more := CreateIteration(p).world.sweeps.iterations;
      assert forall c :: Recorded(more, c) ==> Recorded(s.iterations, c);
    }
  }

  lemma ResearchFills(p: Process, cfg: Config, bridgeOk: bool, id: nat, start: nat, lost: set<Start>)
    returns (next: nat)
    requires FilledUpTo(p, id, start, lost)
    ensures FilledUpTo(Research(p, cfg, bridgeOk, id, start), id, next, lost)
  {
    hide FilledUpTo, SameRecords, UpdateIteration, Sweep;
    next := start;
    if bridgeOk && !cfg.skipAutoresearch {
      var p2 := UpdateIteration(p, id, "phase2", None, true);
      MarkStartsNothing(p, id, "phase2", true);
      SameRecordsFilled(p, p2, id, start, lost);
      SweepFills(p2, id, start, cfg.combos, lost);
      var swept := Sweep(p2, id, start, cfg.combos);
      next := if cfg.combos <= start then start else cfg.combos;
      MarkStartsNothing(swept, id, "phase3", true);
      SameRecordsFilled(swept, UpdateIteration(swept, id, "phase3", None, true), id, next, lost);
    }
  }

  lemma CycleFills(p: Process, cfg: Config, c: Cycle, lost: set<Start>)
    requires Filled(p, lost)
    ensures Filled(RunCycle(p, cfg, c), lost)
  {
    BeginFills(p, lost);
    var rows := p.world.sweeps.iterations;
    var resume := ResumeInfo(rows);
    var at := if resume.Some? then resume.value else Start(|rows|, 0);
    var begun := if resume.Some? then p else CreateIteration(p);
    var p1 := UpdateIteration(begun, at.iteration, "phase1", None, true);
    hide FilledUpTo, SameRecords, UpdateIteration, Upkeep, Research, ResumeInfo, CreateIteration;
    MarkStartsNothing(begun, at.iteration, "phase1", true);
    SameRecordsFilled(begun, p1, at.iteration, at.combo, lost);
    var next := ResearchFills(p1, cfg, c.bridgeOk, at.iteration, at.combo, lost);
    var p3 := Research(p1, cfg, c.bridgeOk, at.iteration, at.combo);
    UpkeepStartsNothing(p3, cfg, c, at.iteration);
    SameRecordsFilled(p3, Upkeep(p3, cfg, c, at.iteration), at.iteration, next, lost);
    FilledUpToMeansFilled(RunCycle(p, cfg, c), at.iteration, next, lost);
  }

  lemma FilledUpToMeansFilled(p: Process, id: nat, next: nat, lost: set<Start>)
    requires FilledUpTo(p, id, next, lost)
    ensures Filled(p, lost)
  {
  }

  lemma {:induction false} CyclesFill(p: Process, cfg: Config, cycles: seq<Cycle>, lost: set<Start>)
    requires Filled(p, lost)
    ensures Filled(RunCycles(p, cfg, cycles), lost)
  {
    if cycles != [] {
      hide Filled, RunCycle;
      var n := |cycles| - 1;
      CyclesFill(p, cfg, cycles[..n], lost);
      CycleFills(RunCycles(p, cfg, cycles[..n]), cfg, cycles[n], lost);
    }
  }

  /** Process `k` of the succession, when it ends. */
  function ProcessAt(w: World, cfg: Config, lives: seq<Life>, k: nat): Process
    requires k < |lives|
  {
    RunCycles(Process(Lives(w, cfg, lives[..k]), lives[k].fuel), cfg, lives[k].cycles)
  }

  /** Process `k` died with the combo recorded for the then latest iteration. */
  ghost predicate DiedOn(w: World, cfg: Config, lives: seq<Life>, k: nat, c: Start)
    requires k < |lives|
  {
    ProcessAt(w, cfg, lives, k).fuel == 0 && LatestRecord(ProcessAt(w, cfg, lives, k).world.sweeps, c)
  }

  /** What a process leaves open: the latest record, if it is dead. */
  function Pending(p: Process): set<Start>
  {
    var rows := p.world.sweeps.iterations;
    if p.fuel == 0 && rows != [] && rows[|rows| - 1].lastCombo.Some?
    then {Start(|rows| - 1, rows[|rows| - 1].lastCombo.value)} else {}
  }

  lemma PendingIff(p: Process, c: Start)
    ensures c in Pending(p) <==> p.fuel == 0 && LatestRecord(p.world.sweeps, c)
  {
  }

  lemma NextProcessFilled(p: Process, fuel: nat, lost: set<Start>)
    requires Filled(p, lost)
    ensures Filled(Process(p.world, fuel), lost + Pending(p))
  {
    hide Recorded, LatestRecord, Pending;
    forall c ensures c in Pending(p) <==> p.fuel == 0 && LatestRecord(p.world.sweeps, c) { PendingIff(p, c); }
  }

  /** The combos that the processes so far died on. */
  function Lost(w: World, cfg: Config, lives: seq<Life>): set<Start>
  {
    if lives == [] then {}
    else Lost(w, cfg, lives[..|lives| - 1]) + Pending(ProcessAt(w, cfg, lives, |lives| - 1))
  }

  lemma {:induction false} LostDied(w: World, cfg: Config, lives: seq<Life>, c: Start)
    requires c in Lost(w, cfg, lives)
    ensures exists k: nat :: k < |lives| && DiedOn(w, cfg, lives, k, c)
  {
    var n := |lives| - 1;
    hide RunCycles, Lives;
    if c in Lost(w, cfg, lives[..n]) {
      LostDied(w, cfg, lives[..n], c);
      var k: nat :| k < n && DiedOn(w, cfg, lives[..n], k, c);
      assert lives[..n][..k] == lives[..k] && lives[..n][k] == lives[k];
      assert DiedOn(w, cfg, lives, k, c);
    } else {
      PendingIff(ProcessAt(w, cfg, lives, n), c);
      assert DiedOn(w, cfg, lives, n, c);
    }
  }

  lemma {:induction false} LivesFill(w: World, cfg: Config, lives: seq<Life>, fuel: nat)
    requires forall c: Start :: Recorded(w.sweeps.iterations, c) ==> c in w.sweeps.starts
    ensures Filled(Process(Lives(w, cfg, lives), fuel), Lost(w, cfg, lives))
  {
    if lives != [] {
      var n := |lives| - 1;
      LivesFill(w, cfg, lives[..n], lives[n].fuel);
      CyclesFill(Process(Lives(w, cfg, lives[..n]), lives[n].fuel), cfg, lives[n].cycles, Lost(w, cfg, lives[..n]));
      hide RunCycles, Lives, Filled;
      NextProcessFilled(ProcessAt(w, cfg, lives, n), fuel, Lost(w, cfg, lives[..n]));
      LastLife(w, cfg, lives);
    } else {
      assert Lives(w, cfg, []) == w;
    }
  }

  lemma LastLife(w: World, cfg: Config, lives: seq<Life>)
    requires lives != []
    ensures Lives(w, cfg, lives) == ProcessAt(w, cfg, lives, |lives| - 1).world
  {
    hide RunCycles;
  }

  /** Resuming skips nothing: in every succession of processes, a combo up to its iteration's recorded index
      that was never started is one a process died on right after recording it, so at most one is lost
      for every death. */
  lemma OnlyDeathsLoseCombos(today: int, cfg: Config, lives: seq<Life>, c: Start)
    requires var s := Lives(Bootstrapped(today), cfg, lives).sweeps;
             && c.iteration < |s.iterations| && s.iterations[c.iteration].lastCombo.Some?
             && c.combo <= s.iterations[c.iteration].lastCombo.value && c !in s.starts
    ensures exists k: nat :: k < |lives| && DiedOn(Bootstrapped(today), cfg, lives, k, c)
  {
    hide Lives;
    LivesFill(Bootstrapped(today), cfg, lives, 1);
    hide Bootstrapped;
    assert Recorded(Lives(Bootstrapped(today), cfg, lives).sweeps.iterations, c);
    LostDied(Bootstrapped(today), cfg, lives, c);
  }

  // ---- Where a cycle goes on --------------------------------------------

  /** The latest iteration was interrupted in its sweep, after recording a combo. */
  predicate Interrupted(s: Sweeps)
  {
    s.iterations != []
    && s.iterations[|s.iterations| - 1].running && s.iterations[|s.iterations| - 1].lastCombo.Some?
  }

  /** The iteration and the combo a cycle goes on with, and the effects it spends before its sweep. */
  predicate GoesOnAt(s: Sweeps, id: nat, start: nat, overhead: nat)
  {
    if Interrupted(s) then
      id == |s.iterations| - 1 && start == s.iterations[id].lastCombo.value + 1 && overhead == 2
    else id == |s.iterations| && start == 0 && overhead == 3
  }

  /** The process that starts the sweep of a cycle: up to two marks further, on a row that is running. */
  ghost predicate AtSweep(p: Process, r: Process, id: nat, overhead: nat)
  {
    && r.fuel == MaxInt(p.fuel - overhead, 0)
    && r.world.sweeps.starts == p.world.sweeps.starts
    && id + 1 == |r.world.sweeps.iterations|
    && r.world.sweeps.iterations[id].running
  }

  lemma ReachesSweep(p: Process, id: nat, start: nat, overhead: nat)
    requires p.fuel > 0 && GoesOnAt(p.world.sweeps, id, start, overhead)
    ensures var begun := if ResumeInfo(p.world.sweeps.iterations).Some? then p else CreateIteration(p);
            var p2 := UpdateIteration(UpdateIteration(begun, id, "phase1", None, true), id, "phase2", None, true);
            && AtSweep(p, p2, id, overhead)
            && (if ResumeInfo(p.world.sweeps.iterations).Some?
                then ResumeInfo(p.world.sweeps.iterations).value == Start(id, start)
                else id == |p.world.sweeps.iterations| && start == 0)
  {
  }

  /** What a cycle that researches makes of the sweep: it starts the remaining combos of the iteration it goes
      on with, in order, as far as its life reaches; if that ends in the sweep, the iteration stays
      interrupted at the combo recorded last. */
  ghost predicate CycleSweeps(p: Process, r: Process, cfg: Config, id: nat, start: nat, overhead: nat)
  {
    var left := MaxInt(cfg.combos - start, 0);
    var life := MaxInt(p.fuel - overhead, 0);
    && r.world.sweeps.starts == p.world.sweeps.starts + Range(id, start, start + MinInt(life / 2, left))
    && (0 < life <= 2 * left ==>
          Interrupted(r.world.sweeps) && LatestRecord(r.world.sweeps, Start(id, start + (life + 1) / 2 - 1)))
  }

  lemma SweepThenUpkeep(p: Process, p2: Process, cfg: Config, c: Cycle, id: nat, start: nat, overhead: nat)
    requires AtSweep(p, p2, id, overhead)
    ensures var swept := Sweep(p2, id, start, cfg.combos);
            var p3 := UpdateIteration(swept, id, "phase3", None, true);
            CycleSweeps(p, Upkeep(p3, cfg, c, id), cfg, id, start, overhead)
  {
    hide Sweep, UpdateIteration, Upkeep, Range;
    var swept := Sweep(p2, id, start, cfg.combos);
    var p3 := UpdateIteration(swept, id, "phase3", None, true);
    SweepUntilDeath(p2, id, start, cfg.combos);
    MarkStartsNothing(swept, id, "phase3", true);
    UpkeepStartsNothing(p3, cfg, c, id);
  }

  /** Every cycle with market data and research enabled goes on where the last one was interrupted, with the
      combo after the recorded one, or else with the first combo of a new iteration. */
  lemma CyclesGoOn(p: Process, cfg: Config, c: Cycle, id: nat, start: nat, overhead: nat)
    requires p.fuel > 0 && c.bridgeOk && !cfg.skipAutoresearch
    requires GoesOnAt(p.world.sweeps, id, start, overhead)
    ensures CycleSweeps(p, RunCycle(p, cfg, c), cfg, id, start, overhead)
  {
    ReachesSweep(p, id, start, overhead);
    hide UpdateIteration, CreateIteration, Sweep, Upkeep, AtSweep, CycleSweeps, ResumeInfo, GoesOnAt;
    var begun := if ResumeInfo(p.world.sweeps.iterations).Some? then p else CreateIteration(p);
    var p2 := UpdateIteration(UpdateIteration(begun, id, "phase1", None, true), id, "phase2", None, true);
    SweepThenUpkeep(p, p2, cfg, c, id, start, overhead);
  }

  /** A death in the sweep and the next process, together: the same iteration goes on with the combo after the
      recorded one, and the two processes between them started every combo in turn but the one whose
      record was the first one's last effect, if there is one. */
  lemma DeathInSweepResumes(w: World, cfg: Config, first: Cycle, second: Cycle, life: nat, next: nat,
                            id: nat, start: nat, overhead: nat)
    requires !cfg.skipAutoresearch && first.bridgeOk && second.bridgeOk
    requires GoesOnAt(w.sweeps, id, start, overhead)
    requires overhead < life <= overhead + 2 * MaxInt(cfg.combos - start, 0) && next > 0
    ensures var died := RunCycle(Process(w, life), cfg, first).world;
            var resumed := RunCycle(Process(died, next), cfg, second).world;
            var recorded := start + (life - overhead + 1) / 2 - 1;
            && LatestRecord(died.sweeps, Start(id, recorded))
            && died.sweeps.starts == w.sweeps.starts + Range(id, start, start + (life - overhead) / 2)
            && resumed.sweeps.starts == died.sweeps.starts
                 + Range(id, recorded + 1,
                         recorded + 1 + MinInt(MaxInt(next - 2, 0) / 2, MaxInt(cfg.combos - recorded - 1, 0)))
  {
    hide RunCycle, Range;
    CyclesGoOn(Process(w, life), cfg, first, id, start, overhead);
    var died := RunCycle(Process(w, life), cfg, first).world;
    CyclesGoOn(Process(died, next), cfg, second, id, start + (life - overhead + 1) / 2, 2);
  }

  lemma UpkeepCompletes(p: Process, cfg: Config, c: Cycle, id: nat)
    requires id + 1 == |p.world.sweeps.iterations|
    ensures var r := Upkeep(p, cfg, c, id);
            |r.world.sweeps.iterations| == id + 1 && (r.fuel > 0 ==> !r.world.sweeps.iterations[id].running)
  {
    UpkeepStartsNothing(p, cfg, c, id);
    hide HandleFindings, CiGate, InReviewCount, IssuesAndPatches;
    var in5 := UpdateIteration(UpdateIteration(p, id, "phase4", None, true), id, "phase5", None, true);
    var p6 := UpdateIteration(IssuesAndPatches(in5, cfg, c.findings), id, "phase6", None, true);
    var gated := if cfg.dryRun then p6 else CiGate(p6, c.verdicts, |p6.world.events|);
    var p7 := UpdateIteration(gated, id, "phase7", None, true);
    assert Upkeep(p, cfg, c, id) == UpdateIteration(p7, id, "complete", None, false);
    hide Upkeep, SameRecords;
  }

  lemma ResearchKeepsLength(p: Process, cfg: Config, bridgeOk: bool, id: nat, start: nat)
    requires id < |p.world.sweeps.iterations|
    ensures |Research(p, cfg, bridgeOk, id, start).world.sweeps.iterations| == |p.world.sweeps.iterations|
  {
    hide Sweep, Range;
    SweepUntilDeath(UpdateIteration(p, id, "phase2", None, true), id, start, cfg.combos);
  }

  /** A cycle that is survived leaves nothing to resume: the next one begins a new iteration. */
  lemma SurvivedCycleIsComplete(p: Process, cfg: Config, c: Cycle)
    requires RunCycle(p, cfg, c).fuel > 0
    ensures !Interrupted(RunCycle(p, cfg, c).world.sweeps)
  {
    FuelOnlyFalls(p, cfg, c);
    var rows := p.world.sweeps.iterations;
    var resume := ResumeInfo(rows);
    var at := if resume.Some? then resume.value else Start(|rows|, 0);
    var p1 := UpdateIteration(if resume.Some? then p else CreateIteration(p), at.iteration, "phase1", None, true);
    assert at.iteration + 1 == |p1.world.sweeps.iterations|;
    hide UpdateIteration, CreateIteration, Upkeep, Research, ResumeInfo;
    ResearchKeepsLength(p1, cfg, c.bridgeOk, at.iteration, at.combo);
    UpkeepCompletes(Research(p1, cfg, c.bridgeOk, at.iteration, at.combo), cfg, c, at.iteration);
  }

  lemma {:induction false} SweepSpends(p: Process, id: nat, start: nat, n: nat)
    ensures Sweep(p, id, start, n).fuel <= p.fuel
  {
    if n > 0 {
      hide WithIteration;
      SweepSpends(p, id, start, n - 1);
    }
  }

  lemma FuelOnlyFalls(p: Process, cfg: Config, c: Cycle)
    ensures RunCycle(p, cfg, c).fuel <= p.fuel
  {
    hide WithIteration, Sweep, Upkeep, ResumeInfo;
    var rows := p.world.sweeps.iterations;
    var resume := ResumeInfo(rows);
    var at := if resume.Some? then resume.value else Start(|rows|, 0);
    var p1 := UpdateIteration(if resume.Some? then p else CreateIteration(p), at.iteration, "phase1", None, true);
    SweepSpends(UpdateIteration(p1, at.iteration, "phase2", None, true), at.iteration, at.combo, cfg.combos);
    UpkeepStartsNothing(Research(p1, cfg, c.bridgeOk, at.iteration, at.combo), cfg, c, at.iteration);
  }
}
