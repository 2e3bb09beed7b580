/** What every succession of supervisor processes keeps, wherever each of them dies. */
module SupervisorRuns {
  import opened Numbers
  import opened Supervisor

  // ---- Combos are started at most once ----------------------------------

  predicate Before(a: Start, b: Start)
  {
    a.iteration < b.iteration || (a.iteration == b.iteration && a.combo < b.combo)
  }

  ghost predicate Increasing(starts: seq<Start>)
  {
    forall i, j :: 0 <= i < j < |starts| ==> Before(starts[i], starts[j])
  }

  /** A started combo is not beyond its iteration's recorded index. */
  predicate Recorded(rows: seq<IterationRow>, s: Start)
  {
    s.iteration < |rows| && rows[s.iteration].lastCombo.Some? && s.combo <= rows[s.iteration].lastCombo.value
  }

  ghost predicate StartsOk(s: Sweeps)
  {
    Increasing(s.starts) && forall k :: 0 <= k < |s.starts| ==> Recorded(s.iterations, s.starts[k])
  }

  /** The iteration is the latest one and no combo from `start` on has been started for it. */
  ghost predicate ReadyFrom(s: Sweeps, id: nat, start: nat)
  {
    id + 1 == |s.iterations| && forall k :: 0 <= k < |s.starts| ==> Before(s.starts[k], Start(id, start))
  }

  /** Still right for a process sweeping iteration `id` from `start`; a dead one does no harm. */
  ghost predicate SweepOk(p: Process, id: nat, start: nat)
  {
    StartsOk(p.world.sweeps) && (p.fuel > 0 ==> ReadyFrom(p.world.sweeps, id, start))
  }

  lemma MarkKeepsSweep(p: Process, id: nat, start: nat, phase: string, running: bool)
    requires SweepOk(p, id, start)
    ensures SweepOk(UpdateIteration(p, id, phase, None, running), id, start)
  {
    if p.fuel > 0 {
      var before, after := p.world.sweeps, UpdateIteration(p, id, phase, None, running).world.sweeps;
      hide Before;
      assert forall s :: Recorded(before.iterations, s) ==> Recorded(after.iterations, s);
    }
  }

  lemma ComboKeepsSweep(p: Process, id: nat, combo: nat)
    requires SweepOk(p, id, combo)
    ensures SweepOk(StartCombo(UpdateIteration(p, id, "phase2", Some(combo), true), id, combo), id, combo + 1)
  {
    if p.fuel > 0 {
      var before := p.world.sweeps;
      var marked := UpdateIteration(p, id, "phase2", Some(combo), true);
      var rows := marked.world.sweeps.iterations;
      forall k | 0 <= k < |before.starts| ensures Recorded(rows, before.starts[k]) {
        assert Recorded(before.iterations, before.starts[k]) && Before(before.starts[k], Start(id, combo));
      }
      if marked.fuel > 0 {
        var starts := before.starts + [Start(id, combo)];
        assert Recorded(rows, Start(id, combo));
        forall k | 0 <= k < |starts| ensures Before(starts[k], Start(id, combo + 1)) && Recorded(rows, starts[k]) {
          if k < |before.starts| { assert Before(before.starts[k], Start(id, combo)); }
        }
      }
    }
  }

  lemma {:induction false} SweepKeeps(p: Process, id: nat, start: nat, n: nat)
    requires SweepOk(p, id, start)
    ensures SweepOk(Sweep(p, id, start, n), id, if n <= start then start else n)
  {
    if n > 0 {
      hide StartCombo, UpdateIteration, SweepOk;
      SweepKeeps(p, id, start, n - 1);
      if n - 1 >= start { ComboKeepsSweep(Sweep(p, id, start, n - 1), id, n - 1); }
    }
  }

  /** A cycle begins on an iteration that is ready: a new one, or the interrupted one after its
      recorded combo. */
  lemma BeginIsReady(p: Process)
    requires StartsOk(p.world.sweeps)
    ensures var rows := p.world.sweeps.iterations;
            var resume := ResumeInfo(rows);
            SweepOk(if resume.Some? then p else CreateIteration(p),
                    if resume.Some? then resume.value.iteration else |rows|,
                    if resume.Some? then resume.value.combo else 0)
  {
    var s := p.world.sweeps;
    var rows := s.iterations;
    assert forall k :: 0 <= k < |s.starts| ==> Recorded(rows, s.starts[k]);
    if ResumeInfo(rows).None? && p.fuel > 0 {
      var more := CreateIteration(p).world.sweeps.iterations;
      assert forall k :: 0 <= k < |s.starts| ==> Recorded(more, s.starts[k]);
    }
  }

  // The phases that touch neither iterations nor starts.

  lemma PatchingKeepsSweep(s: PatchLoop, cfg: Config, f: Finding)
    ensures var r := HandleFinding(s, cfg, f).process;
            r.world.sweeps == s.process.world.sweeps && r.fuel <= s.process.fuel
  {
    hide AlreadyDetected, WithEvent, AttemptsOn;
  }

  lemma {:induction false} FindingsKeepSweep(s: PatchLoop, cfg: Config, findings: seq<Finding>)
    ensures var r := HandleFindings(s, cfg, findings).process;
            r.world.sweeps == s.process.world.sweeps && r.fuel <= s.process.fuel
  {
    if findings != [] {
      hide HandleFinding;
      var n := |findings| - 1;
      FindingsKeepSweep(s, cfg, findings[..n]);
      PatchingKeepsSweep(HandleFindings(s, cfg, findings[..n]), cfg, findings[n]);
    }
  }

  lemma {:induction false} GateKeepsSweep(p: Process, verdicts: seq<Verdict>, n: nat)
    requires n <= |p.world.events|
    ensures var r := CiGate(p, verdicts, n);
            r.world.sweeps == p.world.sweeps && r.world.ledger == p.world.ledger && r.fuel <= p.fuel
  {
    if n > 0 {
      hide WithEvent, InReview;
      GateKeepsSweep(p, verdicts, n - 1);
    }
  }

  lemma SweepOkElsewhere(p: Process, r: Process, id: nat, start: nat)
    requires SweepOk(p, id, start) && r.world.sweeps == p.world.sweeps && r.fuel <= p.fuel
    ensures SweepOk(r, id, start)
  {
    hide StartsOk, ReadyFrom;
  }

  lemma UpkeepKeepsSweep(p: Process, cfg: Config, c: Cycle, id: nat, start: nat)
    requires SweepOk(p, id, start)
    ensures SweepOk(Upkeep(p, cfg, c, id), id, start)
  {
    hide SweepOk, UpdateIteration, HandleFindings, CiGate, InReviewCount;
    var p4 := UpdateIteration(p, id, "phase4", None, true);
    var in5 := UpdateIteration(p4, id, "phase5", None, true);
    var p5 := IssuesAndPatches(in5, cfg, c.findings);
    var p6 := UpdateIteration(p5, id, "phase6", None, true);
    var gated := if cfg.dryRun then p6 else CiGate(p6, c.verdicts, |p6.world.events|);
    MarkKeepsSweep(p, id, start, "phase4", true);
    MarkKeepsSweep(p4, id, start, "phase5", true);
    FindingsKeepSweep(PatchLoop(in5, InReviewCount(in5.world.events)), cfg, c.findings);
    SweepOkElsewhere(in5, p5, id, start);
    MarkKeepsSweep(p5, id, start, "phase6", true);
    GateKeepsSweep(p6, c.verdicts, |p6.world.events|);
    SweepOkElsewhere(p6, gated, id, start);
    MarkKeepsSweep(gated, id, start, "phase7", true);
    MarkKeepsSweep(UpdateIteration(gated, id, "phase7", None, true), id, start, "complete", false);
  }

  lemma ResearchKeepsSweep(p: Process, cfg: Config, bridgeOk: bool, id: nat, start: nat) returns (next: nat)
    requires SweepOk(p, id, start)
    ensures SweepOk(Research(p, cfg, bridgeOk, id, start), id, next)
  {
    hide SweepOk, UpdateIteration, Sweep;
    if bridgeOk && !cfg.skipAutoresearch {
      var p2 := UpdateIteration(p, id, "phase2", None, true);
      MarkKeepsSweep(p, id, start, "phase2", true);
      SweepKeeps(p2, id, start, cfg.combos);
      next := if cfg.combos <= start then start else cfg.combos;
      MarkKeepsSweep(Sweep(p2, id, start, cfg.combos), id, next, "phase3", true);
    } else {
      next := start;
    }
  }

  lemma CycleKeepsStarts(p: Process, cfg: Config, c: Cycle)
    requires StartsOk(p.world.sweeps)
    ensures StartsOk(RunCycle(p, cfg, c).world.sweeps)
  {
    BeginIsReady(p);
    var rows := p.world.sweeps.iterations;
    var resume := ResumeInfo(rows);
    var at := if resume.Some? then resume.value else Start(|rows|, 0);
    var begun := if resume.Some? then p else CreateIteration(p);
    hide SweepOk, UpdateIteration, Upkeep, Research, ResumeInfo, CreateIteration;
    MarkKeepsSweep(begun, at.iteration, at.combo, "phase1", true);
    var p1 := UpdateIteration(begun, at.iteration, "phase1", None, true);
    var next := ResearchKeepsSweep(p1, cfg, c.bridgeOk, at.iteration, at.combo);
    UpkeepKeepsSweep(Research(p1, cfg, c.bridgeOk, at.iteration, at.combo), cfg, c, at.iteration, next);
    SweepOkMeansStartsOk(RunCycle(p, cfg, c), at.iteration, next);
  }

  lemma SweepOkMeansStartsOk(p: Process, id: nat, start: nat)
    requires SweepOk(p, id, start)
    ensures StartsOk(p.world.sweeps)
  {
  }

  /** The combos `from` up to `upTo` of one iteration, in order. */
  function Range(id: nat, from: nat, upTo: nat): (r: seq<Start>)
    decreases upTo
    ensures |r| == (if from <= upTo then upTo - from else 0)
    ensures forall k :: 0 <= k < |r| ==> r[k] == Start(id, from + k)
  {
    if upTo <= from then [] else Range(id, from, upTo - 1) + [Start(id, upTo - 1)]
  }

  /** What a sweep over `left` remaining combos did before the process died: it started the combos it
      had two effects for, and recorded one more if a single effect was left over. */
  ghost predicate SweptUntilDeath(p: Process, r: Process, id: nat, start: nat, left: nat)
  {
    && r.fuel == MaxInt(p.fuel - 2 * left, 0)
    && r.world.sweeps.starts == p.world.sweeps.starts + Range(id, start, start + MinInt(p.fuel / 2, left))
    && id < |r.world.sweeps.iterations| == |p.world.sweeps.iterations|
    && (p.world.sweeps.iterations[id].running ==> r.world.sweeps.iterations[id].running)
    && r.world.sweeps.iterations[id].lastCombo
       == (if p.fuel == 0 || left == 0 then p.world.sweeps.iterations[id].lastCombo
           else Some(start + MinInt((p.fuel + 1) / 2, left) - 1))
  }

  lemma OneMoreCombo(p: Process, q: Process, id: nat, start: nat, left: nat)
    requires SweptUntilDeath(p, q, id, start, left)
    ensures SweptUntilDeath(p, StartCombo(UpdateIteration(q, id, "phase2", Some(start + left), true), id, start + left),
                            id, start, left + 1)
  {
    ComboUntilDeath(q, id, start + left);
    hide StartCombo, UpdateIteration;
    assert Range(id, start, start + left + 1) == Range(id, start, start + left) + [Start(id, start + left)];
    hide Range;
    if q.fuel >= 2 {
      assert p.fuel / 2 >= left + 1;
    }
  }

  /** A process that lives for `fuel` more effects starts the remaining combos in order, as many as it
      has two effects for; a death costs at most the one combo that was recorded but not started. */
  lemma {:induction false} SweepUntilDeath(p: Process, id: nat, start: nat, n: nat)
    requires id < |p.world.sweeps.iterations|
    ensures SweptUntilDeath(p, Sweep(p, id, start, n), id, start, if start <= n then n - start else 0)
  {
    hide StartCombo, UpdateIteration;
    if n <= start {
      SweepSkips(p, id, start, n);
      assert Range(id, start, start) == [];
    } else {
      hide SweptUntilDeath;
      SweepUntilDeath(p, id, start, n - 1);
      OneMoreCombo(p, Sweep(p, id, start, n - 1), id, start, n - 1 - start);
    }
  }

  /** Recording a combo takes one effect, starting it another. */
  lemma ComboUntilDeath(p: Process, id: nat, combo: nat)
    requires id < |p.world.sweeps.iterations|
    ensures var r := StartCombo(UpdateIteration(p, id, "phase2", Some(combo), true), id, combo);
            && r.fuel == MaxInt(p.fuel - 2, 0)
            && r.world.sweeps.starts == p.world.sweeps.starts + (if p.fuel >= 2 then [Start(id, combo)] else [])
            && |r.world.sweeps.iterations| == |p.world.sweeps.iterations|
            && (p.world.sweeps.iterations[id].running ==> r.world.sweeps.iterations[id].running)
            && r.world.sweeps.iterations[id].lastCombo
               == (if p.fuel >= 1 then Some(combo) else p.world.sweeps.iterations[id].lastCombo)
  {
  }

  lemma {:induction false} SweepSkips(p: Process, id: nat, start: nat, n: nat)
    requires n <= start
    ensures Sweep(p, id, start, n) == p
  {
    if n > 0 { SweepSkips(p, id, start, n - 1); }
  }

  // ---- One open event per regression ------------------------------------

  predicate Resolved(e: EventRow) { e.status in {Merged, Closed} }

  /** No two unresolved events share kind and slug. */
  ghost predicate UniqueOpen(events: seq<EventRow>)
  {
    forall i, j | 0 <= i < j < |events| && !Resolved(events[i]) && !Resolved(events[j]) ::
      events[i].kind != events[j].kind || events[i].slug != events[j].slug
  }

  /** Rows are only added; a row keeps its kind and slug, and once merged or closed never changes. */
  ghost predicate Advances(before: seq<EventRow>, after: seq<EventRow>)
  {
    && |before| <= |after|
    && forall i :: 0 <= i < |before| ==>
         && after[i].kind == before[i].kind && after[i].slug == before[i].slug
         && (Resolved(before[i]) ==> after[i] == before[i])
  }

  lemma AdvancesTransitive(a: seq<EventRow>, b: seq<EventRow>, c: seq<EventRow>)
    requires Advances(a, b) && Advances(b, c)
    ensures Advances(a, c)
  {
  }

  ghost predicate HasOpen(events: seq<EventRow>, kind: string, slug: Option<string>)
  {
    exists i :: 0 <= i < |events| && !Resolved(events[i]) && events[i].kind == kind && events[i].slug == slug
  }

  /** A remark on the query: it finds exactly the open events of a regression, whatever the table holds,
      for every slug but the empty string, which it looks up among rows without a slug. */
  lemma DuplicateQueryIff(kind: string, slug: Option<string>)
    ensures (forall events: seq<EventRow> :: AlreadyDetected(events, kind, slug) <==> HasOpen(events, kind, slug))
            <==> slug != Some("")
  {
    if slug == Some("") {
      var events := [EventRow(kind, slug, None, None, Detected)];
      assert Open(events[0]);
      assert HasOpen(events, kind, slug) && !AlreadyDetected(events, kind, slug);
    } else {
      forall events: seq<EventRow> ensures AlreadyDetected(events, kind, slug) <==> HasOpen(events, kind, slug) {
        if AlreadyDetected(events, kind, slug) {
          var i :| 0 <= i < |events| && Matches(events[i], kind, slug);
          assert events[i].slug == slug;
        }
        if HasOpen(events, kind, slug) {
          var i :| 0 <= i < |events| && !Resolved(events[i]) && events[i].kind == kind && events[i].slug == slug;
          assert Matches(events[i], kind, slug);
        }
      }
    }
  }

  lemma InsertKeepsUnique(events: seq<EventRow>, kind: string, slug: Option<ComboSlug>)
    requires UniqueOpen(events) && !AlreadyDetected(events, kind, slug)
    ensures UniqueOpen(events + [EventRow(kind, slug, None, None, Detected)])
    ensures Advances(events, events + [EventRow(kind, slug, None, None, Detected)])
  {
    DuplicateQueryIff(kind, slug);
    assert !HasOpen(events, kind, slug);
  }

  /** Updating an open row keeps both, whatever its new status. */
  lemma UpdateKeepsUnique(events: seq<EventRow>, id: nat, status: Option<EventStatus>,
                          issue: Option<int>, pr: Option<int>)
    requires UniqueOpen(events) && (id < |events| ==> Open(events[id]))
    ensures UniqueOpen(WithEvent(events, id, status, issue, pr))
    ensures Advances(events, WithEvent(events, id, status, issue, pr))
  {
    if id < |events| {
      var after := WithEvent(events, id, status, issue, pr);
      assert forall i :: 0 <= i < |events| ==> after[i].kind == events[i].kind && after[i].slug == events[i].slug;
      assert forall i :: 0 <= i < |events| && Open(after[i]) ==> Open(events[i]);
    }
  }

  /** The table part of the invariant across an update by a process that may already be dead. */
  ghost predicate EventsOk(first: seq<EventRow>, events: seq<EventRow>)
  {
    UniqueOpen(events) && Advances(first, events)
  }

  /** The row a live process is working on is open. */
  predicate Working(p: Process, id: nat)
  {
    p.fuel > 0 ==> id < |p.world.events| && Open(p.world.events[id])
  }

  lemma UpdateEventKeeps(first: seq<EventRow>, p: Process, id: nat, status: Option<EventStatus>, issue: Option<int>,
                         pr: Option<int>)
    requires EventsOk(first, p.world.events) && Working(p, id)
    requires status.Some? ==> status.value != Merged && status.value != Closed
    ensures EventsOk(first, UpdateEvent(p, id, status, issue, pr).world.events)
    ensures Working(UpdateEvent(p, id, status, issue, pr), id)
  {
    if p.fuel > 0 {
      UpdateKeepsUnique(p.world.events, id, status, issue, pr);
      AdvancesTransitive(first, p.world.events, WithEvent(p.world.events, id, status, issue, pr));
    }
  }

  lemma InsertEventKeeps(first: seq<EventRow>, p: Process, kind: string, slug: Option<ComboSlug>)
    requires EventsOk(first, p.world.events) && !AlreadyDetected(p.world.events, kind, slug)
    ensures EventsOk(first, InsertEvent(p, kind, slug).world.events)
    ensures Working(InsertEvent(p, kind, slug), |p.world.events|)
  {
    if p.fuel > 0 {
      InsertKeepsUnique(p.world.events, kind, slug);
      AdvancesTransitive(first, p.world.events, p.world.events + [EventRow(kind, slug, None, None, Detected)]);
    }
  }

  lemma PatchKeepsEvents(first: seq<EventRow>, s: PatchLoop, id: nat, f: Finding)
    requires EventsOk(first, s.process.world.events) && Working(s.process, id)
    ensures EventsOk(first, Patch(s, id, f).process.world.events)
  {
    var charged := Charge(s.process);
    assert charged.world.events == s.process.world.events;
    var marked := UpdateEvent(charged, id, Some(Patching), None, None);
    UpdateEventKeeps(first, charged, id, Some(Patching), None, None);
    var launched := Launch(marked, s.process.world.ledger.today);
    assert launched.world.events == marked.world.events && launched.fuel <= marked.fuel;
    hide EventsOk, UpdateEvent, Charge, Launch;
    UpdateEventKeeps(first, launched, id, None, None, f.pr);
    UpdateEventKeeps(first, launched, id, Some(PatchFailed), None, None);
  }

  lemma FindingKeepsEvents(first: seq<EventRow>, s: PatchLoop, cfg: Config, f: Finding)
    requires EventsOk(first, s.process.world.events)
    ensures EventsOk(first, HandleFinding(s, cfg, f).process.world.events)
  {
    hide EventsOk, AlreadyDetected, Patch, UpdateEvent, InsertEvent;
    var id := |s.process.world.events|;
    if !AlreadyDetected(s.process.world.events, f.kind, f.slug) {
      var inserted := InsertEvent(s.process, f.kind, f.slug);
      InsertEventKeeps(first, s.process, f.kind, f.slug);
      if !cfg.dryRun {
        UpdateEventKeeps(first, inserted, id, Some(IssueFiled), f.issue, None);
        var filed := if Given(f.issue) then UpdateEvent(inserted, id, Some(IssueFiled), f.issue, None) else inserted;
        if f.agentAvailable {
          PatchKeepsEvents(first, s.(process := Elapse(Elapse(filed, f.daysBeforeCheck), f.daysBeforeCharge)), id, f);
        }
      }
    }
  }

  lemma {:induction false} FindingsKeepEvents(first: seq<EventRow>, s: PatchLoop, cfg: Config, findings: seq<Finding>)
    requires EventsOk(first, s.process.world.events)
    ensures EventsOk(first, HandleFindings(s, cfg, findings).process.world.events)
  {
    if findings != [] {
      hide EventsOk, HandleFinding;
      var n := |findings| - 1;
      FindingsKeepEvents(first, s, cfg, findings[..n]);
      FindingKeepsEvents(first, HandleFindings(s, cfg, findings[..n]), cfg, findings[n]);
    }
  }

  /** From review to merged or failed, everything else as it was. */
  predicate GateMoves(before: EventRow, after: EventRow)
  {
    && before.status == Patching && before.pr.Some?
    && (after == before.(status := Merged) || after == before.(status := PatchFailed))
  }

  /** The gate only moves events in review, to merged or failed. */
  lemma {:induction false} GateMovesReviews(p: Process, verdicts: seq<Verdict>, n: nat)
    requires n <= |p.world.events|
    ensures var after := CiGate(p, verdicts, n).world.events;
            && |after| == |p.world.events|
            && forall i :: 0 <= i < |after| ==>
                 || after[i] == p.world.events[i]
                 || (i < n && GateMoves(p.world.events[i], after[i]))
  {
    if n > 0 { GateMovesReviews(p, verdicts, n - 1); }
  }

  /** What the gate's verdicts make of an event while the process lives on. */
  function Gated(e: EventRow, verdicts: seq<Verdict>, i: nat): EventRow
  {
    if e.status != Patching || e.pr.None? || i >= |verdicts| then e
    else match verdicts[i]
         case Wait => e
         case Merge => e.(status := Merged)
         case Fail => e.(status := PatchFailed)
  }

  /** A process with an effect left for every event carries out every verdict on an event in review: a merge
      closes it, a failure marks it failed, and the others wait. */
  lemma {:induction false} GateOutcome(p: Process, verdicts: seq<Verdict>, n: nat)
    requires n <= |p.world.events| && n <= p.fuel
    ensures var r := CiGate(p, verdicts, n);
            && r.fuel >= p.fuel - n && |r.world.events| == |p.world.events|
            && (forall i :: 0 <= i < n ==> r.world.events[i] == Gated(p.world.events[i], verdicts, i))
            && forall i :: n <= i < |p.world.events| ==> r.world.events[i] == p.world.events[i]
  {
    if n > 0 {
      hide Gated;
      GateOutcome(p, verdicts, n - 1);
      OneGated(CiGate(p, verdicts, n - 1), verdicts, n - 1);
    }
  }

  lemma OneGated(q: Process, verdicts: seq<Verdict>, i: nat)
    requires i < |q.world.events| && q.fuel > 0
    ensures var r := if InReview(q.world.events[i]) && VerdictOn(verdicts, i) != Wait
                     then UpdateEvent(q, i, Some(if VerdictOn(verdicts, i) == Merge then Merged else PatchFailed),
                                      None, None)
                     else q;
            && r.fuel >= q.fuel - 1
            && r.world.events == q.world.events[i := Gated(q.world.events[i], verdicts, i)]
  {
  }

  lemma GateKeepsEvents(first: seq<EventRow>, p: Process, verdicts: seq<Verdict>)
    requires EventsOk(first, p.world.events)
    ensures EventsOk(first, CiGate(p, verdicts, |p.world.events|).world.events)
  {
    var before, after := p.world.events, CiGate(p, verdicts, |p.world.events|).world.events;
    GateMovesReviews(p, verdicts, |p.world.events|);
    hide CiGate;
    assert forall i :: 0 <= i < |after| ==> after[i].kind == before[i].kind && after[i].slug == before[i].slug;
    assert forall i :: 0 <= i < |after| ==> Open(after[i]) ==> Open(before[i]);
  }

  /** Updating the newest of the rows a live process has written. */
  lemma UpdateNewest(p: Process, events: seq<EventRow>, e: EventRow, status: Option<EventStatus>, issue: Option<int>,
                     pr: Option<int>)
    requires p.fuel > 0 && p.world.events == events + [e]
    ensures UpdateEvent(p, |events|, status, issue, pr).world.events
         == events + [EventRow(e.kind, e.slug, if issue.Some? then issue else e.issue, if pr.Some? then pr else e.pr,
                               if status.Some? then status.value else e.status)]
  {
  }

  /** Whether the loop goes on to patch a new finding: both limits are looked at on the day of the check. */
  predicate GoesToPatch(s: PatchLoop, cfg: Config, f: Finding)
  {
    var l := s.process.world.ledger;
    && !cfg.dryRun && f.agentAvailable
    && AttemptsOn(l, l.today + f.daysBeforeCheck) < cfg.maxPerDay
    && s.patchingCount < cfg.maxConcurrent
  }

  /** The agent reports success with a pull request number. */
  predicate Records(f: Finding) { f.success && f.pr.Some? && f.pr.value != 0 }

  /** What becomes of a new finding when the process lives on: one row tells the whole outcome, and an
      agent is launched, charged to the day of the charge, exactly if both limits leave room. */
  lemma FindingOutcome(s: PatchLoop, cfg: Config, f: Finding)
    requires s.process.fuel >= 6
    requires !AlreadyDetected(s.process.world.events, f.kind, f.slug)
    ensures var before, after := s.process.world, HandleFinding(s, cfg, f).process.world;
            var patched := GoesToPatch(s, cfg, f);
            var recorded := patched && Records(f);
            var filed := !cfg.dryRun && f.issue.Some? && f.issue.value != 0;
            var day := before.ledger.today + f.daysBeforeCheck + f.daysBeforeCharge;
            && after.events == before.events
                 + [EventRow(f.kind, f.slug, if filed then f.issue else None, if recorded then f.pr else None,
                             if recorded then Patching else if patched then PatchFailed
                             else if filed then IssueFiled else Detected)]
            && after.ledger.launches == before.ledger.launches + (if patched then [day] else [])
            && (patched ==> AttemptsOn(after.ledger, day) == AttemptsOn(before.ledger, day) + 1)
            && (forall d :: d != day || !patched ==> AttemptsOn(after.ledger, d) == AttemptsOn(before.ledger, d))
  {
    var events := s.process.world.events;
    var id := |events|;
    var inserted := InsertEvent(s.process, f.kind, f.slug);
    var e0 := EventRow(f.kind, f.slug, None, None, Detected);
    hide AlreadyDetected, WithEvent;
    if !cfg.dryRun {
      UpdateNewest(inserted, events, e0, Some(IssueFiled), f.issue, None);
      var filed := if Given(f.issue) then UpdateEvent(inserted, id, Some(IssueFiled), f.issue, None) else inserted;
      var e1 := if Given(f.issue) then EventRow(f.kind, f.slug, f.issue, None, IssueFiled) else e0;
      assert filed.world.events == events + [e1] && filed.fuel >= 4 && filed.world.ledger == s.process.world.ledger;
      if GoesToPatch(s, cfg, f) {
        var ready := s.(process := Elapse(Elapse(filed, f.daysBeforeCheck), f.daysBeforeCharge));
        assert HandleFinding(s, cfg, f) == Patch(ready, id, f);
        PatchOutcome(ready, events, e1, f);
      }
    }
  }

  lemma PatchOutcome(s: PatchLoop, events: seq<EventRow>, e: EventRow, f: Finding)
    requires s.process.fuel >= 4 && s.process.world.events == events + [e] && e.pr == None
    ensures var before, after := s.process.world.ledger, Patch(s, |events|, f).process.world.ledger;
            && after.launches == before.launches + [before.today]
            && forall d :: AttemptsOn(after, d) == AttemptsOn(before, d) + (if d == before.today then 1 else 0)
    ensures Patch(s, |events|, f).process.world.events
         == events + [EventRow(e.kind, e.slug, e.issue, if Records(f) then f.pr else None,
                               if Records(f) then Patching else PatchFailed)]
  {
    hide WithEvent;
    var charged := Charge(s.process);
    var marked := UpdateEvent(charged, |events|, Some(Patching), None, None);
    var e1 := EventRow(e.kind, e.slug, e.issue, e.pr, Patching);
    UpdateNewest(charged, events, e, Some(Patching), None, None);
    var launched := Launch(marked, s.process.world.ledger.today);
    assert launched.world.events == events + [e1] && launched.fuel > 0;
    UpdateNewest(launched, events, e1, None, None, f.pr);
    UpdateNewest(launched, events, e1, Some(PatchFailed), None, None);
  }

  // ---- The concurrency limit --------------------------------------------

  lemma {:induction false} CountAppend(a: seq<EventRow>, b: seq<EventRow>)
    ensures InReviewCount(a + b) == InReviewCount(a) + InReviewCount(b)
  {
    if b == [] {
      assert a + b == a;
    } else {
      CountAppend(a, b[..|b| - 1]);
      assert (a + b)[..|a + b| - 1] == a + b[..|b| - 1];
    }
  }

  lemma CountUpdate(events: seq<EventRow>, id: nat, row: EventRow)
    requires id < |events|
    ensures InReviewCount(events[id := row])
         == InReviewCount(events) - (if InReview(events[id]) then 1 else 0) + (if InReview(row) then 1 else 0)
  {
    var head, tail := events[..id], events[id + 1..];
    assert events == head + [events[id]] + tail;
    assert events[id := row] == head + [row] + tail;
    CountAppend(head + [events[id]], tail);
    CountAppend(head + [row], tail);
    CountAppend(head, [events[id]]);
    CountAppend(head, [row]);
    assert [row][..0] == [] && [events[id]][..0] == [];
  }

  /** An update that records no pull request on a row without one adds no review; one that does adds at
      most one. */
  lemma UpdateCounts(p: Process, id: nat, status: Option<EventStatus>, issue: Option<int>, pr: Option<int>)
    ensures var r := UpdateEvent(p, id, status, issue, pr);
            && InReviewCount(r.world.events) <= InReviewCount(p.world.events) + 1
            && (pr.None? && (id < |p.world.events| ==> p.world.events[id].pr.None?) ==>
                  InReviewCount(r.world.events) == InReviewCount(p.world.events)
                  && (id < |r.world.events| ==> r.world.events[id].pr.None?))
            && |r.world.events| == |p.world.events|
  {
    if p.fuel > 0 && id < |p.world.events| {
      var after := WithEvent(p.world.events, id, status, issue, pr);
      assert after == p.world.events[id := after[id]];
      CountUpdate(p.world.events, id, after[id]);
    }
  }

  /** The counter never runs behind the table. */
  ghost predicate Counted(s: PatchLoop) { InReviewCount(s.process.world.events) <= s.patchingCount }

  lemma PatchCounts(s: PatchLoop, id: nat, f: Finding)
    requires Counted(s)
    requires id < |s.process.world.events| ==> s.process.world.events[id].pr.None?
    ensures Counted(Patch(s, id, f)) && s.patchingCount <= Patch(s, id, f).patchingCount <= s.patchingCount + 1
  {
    var charged := Charge(s.process);
    var marked := UpdateEvent(charged, id, Some(Patching), None, None);
    UpdateCounts(charged, id, Some(Patching), None, None);
    var launched := Launch(marked, s.process.world.ledger.today);
    assert launched.world.events == marked.world.events && charged.world.events == s.process.world.events;
    hide UpdateEvent, Charge, Launch, InReviewCount;
    UpdateCounts(launched, id, None, None, f.pr);
    UpdateCounts(launched, id, Some(PatchFailed), None, None);
  }

  lemma InsertCounts(p: Process, kind: string, slug: Option<string>)
    ensures var after := InsertEvent(p, kind, slug).world.events;
            InReviewCount(after) == InReviewCount(p.world.events)
            && (|p.world.events| < |after| ==> after[|p.world.events|].pr.None?)
  {
    var row := EventRow(kind, slug, None, None, Detected);
    CountAppend(p.world.events, [row]);
    assert [row][..0] == [];
  }

  lemma FindingCounts(s: PatchLoop, cfg: Config, f: Finding)
    requires Counted(s)
    ensures Counted(HandleFinding(s, cfg, f))
    ensures s.patchingCount <= HandleFinding(s, cfg, f).patchingCount <= MaxInt(s.patchingCount, cfg.maxConcurrent)
  {
    hide AlreadyDetected, Patch, UpdateEvent, InsertEvent, InReviewCount, AttemptsOn;
    var id := |s.process.world.events|;
    if !AlreadyDetected(s.process.world.events, f.kind, f.slug) {
      var inserted := InsertEvent(s.process, f.kind, f.slug);
      InsertCounts(s.process, f.kind, f.slug);
      if !cfg.dryRun {
        UpdateCounts(inserted, id, Some(IssueFiled), f.issue, None);
        var filed := if Given(f.issue) then UpdateEvent(inserted, id, Some(IssueFiled), f.issue, None) else inserted;
        if f.agentAvailable {
          PatchCounts(s.(process := Elapse(Elapse(filed, f.daysBeforeCheck), f.daysBeforeCharge)), id, f);
        }
      }
    }
  }

  lemma {:induction false} FindingsCount(s: PatchLoop, cfg: Config, findings: seq<Finding>)
    requires Counted(s)
    ensures Counted(HandleFindings(s, cfg, findings))
    ensures HandleFindings(s, cfg, findings).patchingCount <= MaxInt(s.patchingCount, cfg.maxConcurrent)
  {
    if findings != [] {
      hide HandleFinding, Counted;
      var n := |findings| - 1;
      FindingsCount(s, cfg, findings[..n]);
      FindingCounts(HandleFindings(s, cfg, findings[..n]), cfg, findings[n]);
    }
  }

  lemma {:induction false} FewerReviews(before: seq<EventRow>, after: seq<EventRow>)
    requires |after| == |before| && forall i :: 0 <= i < |after| ==> InReview(after[i]) ==> InReview(before[i])
    ensures InReviewCount(after) <= InReviewCount(before)
  {
    hide InReview;
    if before != [] { FewerReviews(before[..|before| - 1], after[..|after| - 1]); }
  }

  lemma GateCounts(p: Process, verdicts: seq<Verdict>)
    ensures InReviewCount(CiGate(p, verdicts, |p.world.events|).world.events) <= InReviewCount(p.world.events)
  {
    GateMovesReviews(p, verdicts, |p.world.events|);
    hide CiGate, InReviewCount;
    FewerReviews(p.world.events, CiGate(p, verdicts, |p.world.events|).world.events);
  }

  // ---- The daily limit --------------------------------------------------

  function CountDay(launches: seq<int>, day: int): nat
  {
    if launches == [] then 0
    else CountDay(launches[..|launches| - 1], day) + (if launches[|launches| - 1] == day then 1 else 0)
  }

  /** No charge lies in the future or exceeds the limit, and every launch was charged. */
  ghost predicate LedgerOk(l: Ledger, limit: int)
  {
    && (forall day :: day in l.budget ==> day <= l.today)
    && (forall day :: AttemptsOn(l, day) <= MaxInt(limit, 0))
    && (forall day :: CountDay(l.launches, day) <= AttemptsOn(l, day))
  }

  lemma ElapseKeepsLedger(p: Process, days: nat, limit: int)
    requires LedgerOk(p.world.ledger, limit)
    ensures LedgerOk(Elapse(p, days).world.ledger, limit)
    ensures var before, after := p.world.ledger, Elapse(p, days).world.ledger;
            AttemptsOn(after, after.today) == if days == 0 then AttemptsOn(before, before.today) else 0
  {
    hide CountDay;
    var before, after := p.world.ledger, Elapse(p, days).world.ledger;
    assert forall day :: AttemptsOn(after, day) == AttemptsOn(before, day);
  }

  /** The charge comes before the launch, so a death in between can only leave a charge unused. */
  lemma ChargeThenLaunch(before: Ledger, charged: Ledger, launched: Ledger, limit: int)
    requires LedgerOk(before, limit) && AttemptsOn(before, before.today) < limit
    requires charged == before.(budget := before.budget[before.today := AttemptsOn(before, before.today) + 1])
    requires launched == charged.(launches := charged.launches + [before.today])
    ensures LedgerOk(charged, limit) && LedgerOk(launched, limit)
  {
    assert forall day :: AttemptsOn(charged, day) == AttemptsOn(before, day) + (if day == before.today then 1 else 0);
    assert forall day :: AttemptsOn(launched, day) == AttemptsOn(charged, day);
    assert launched.launches[..|before.launches|] == before.launches;
    assert forall day :: CountDay(launched.launches, day)
                      == CountDay(before.launches, day) + (if day == before.today then 1 else 0);
  }

  lemma PatchKeepsLedger(s: PatchLoop, id: nat, f: Finding, limit: int)
    requires LedgerOk(s.process.world.ledger, limit)
    requires AttemptsOn(s.process.world.ledger, s.process.world.ledger.today) < limit
    ensures LedgerOk(Patch(s, id, f).process.world.ledger, limit)
  {
    var l := s.process.world.ledger;
    var charged := l.(budget := l.budget[l.today := AttemptsOn(l, l.today) + 1]);
    ChargeThenLaunch(l, charged, charged.(launches := charged.launches + [l.today]), limit);
    hide LedgerOk, WithEvent;
  }

  lemma FindingKeepsLedger(s: PatchLoop, cfg: Config, f: Finding)
    requires LedgerOk(s.process.world.ledger, cfg.maxPerDay)
    ensures LedgerOk(HandleFinding(s, cfg, f).process.world.ledger, cfg.maxPerDay)
  {
    hide AlreadyDetected, LedgerOk, Patch, WithEvent, AttemptsOn;
    var id := |s.process.world.events|;
    if !AlreadyDetected(s.process.world.events, f.kind, f.slug) && !cfg.dryRun && f.agentAvailable {
      var inserted := InsertEvent(s.process, f.kind, f.slug);
      var filed := if Given(f.issue) then UpdateEvent(inserted, id, Some(IssueFiled), f.issue, None) else inserted;
      assert filed.world.ledger == s.process.world.ledger;
      var checked := Elapse(filed, f.daysBeforeCheck);
      ElapseKeepsLedger(filed, f.daysBeforeCheck, cfg.maxPerDay);
      ElapseKeepsLedger(checked, f.daysBeforeCharge, cfg.maxPerDay);
      if AttemptsOn(checked.world.ledger, checked.world.ledger.today) < cfg.maxPerDay {
        PatchKeepsLedger(s.(process := Elapse(checked, f.daysBeforeCharge)), id, f, cfg.maxPerDay);
      }
    }
  }

  lemma {:induction false} FindingsKeepLedger(s: PatchLoop, cfg: Config, findings: seq<Finding>)
    requires LedgerOk(s.process.world.ledger, cfg.maxPerDay)
    ensures LedgerOk(HandleFindings(s, cfg, findings).process.world.ledger, cfg.maxPerDay)
  {
    if findings != [] {
      hide LedgerOk, HandleFinding;
      var n := |findings| - 1;
      FindingsKeepLedger(s, cfg, findings[..n]);
      FindingKeepsLedger(HandleFindings(s, cfg, findings[..n]), cfg, findings[n]);
    }
  }

  // ---- Whole successions of processes -----------------------------------

  /** Events and ledger: unique open events grown out of `first`, and both limits. */
  ghost predicate Kept(first: seq<EventRow>, w: World, cfg: Config)
  {
    && EventsOk(first, w.events)
    && InReviewCount(w.events) <= MaxInt(cfg.maxConcurrent, 0)
    && LedgerOk(w.ledger, cfg.maxPerDay)
  }

  lemma PatchingKeeps(first: seq<EventRow>, p: Process, cfg: Config, findings: seq<Finding>)
    requires Kept(first, p.world, cfg)
    ensures Kept(first, IssuesAndPatches(p, cfg, findings).world, cfg)
  {
    var s := PatchLoop(p, InReviewCount(p.world.events));
    FindingsKeepEvents(first, s, cfg, findings);
    FindingsCount(s, cfg, findings);
    FindingsKeepLedger(s, cfg, findings);
    hide EventsOk, LedgerOk, HandleFindings, InReviewCount;
  }

  lemma {:induction false} SweepKeepsRest(p: Process, id: nat, start: nat, n: nat)
    ensures var w := Sweep(p, id, start, n).world;
            w.events == p.world.events && w.ledger == p.world.ledger
  {
    if n > 0 {
      hide WithIteration;
      SweepKeepsRest(p, id, start, n - 1);
    }
  }

  lemma ResearchKeepsRest(p: Process, cfg: Config, bridgeOk: bool, id: nat, start: nat)
    ensures var w := Research(p, cfg, bridgeOk, id, start).world;
            w.events == p.world.events && w.ledger == p.world.ledger
  {
    hide Sweep, WithIteration;
    SweepKeepsRest(UpdateIteration(p, id, "phase2", None, true), id, start, cfg.combos);
  }

  lemma MarkKeeps(first: seq<EventRow>, p: Process, cfg: Config, id: nat, phase: string, running: bool)
    requires Kept(first, p.world, cfg)
    ensures Kept(first, UpdateIteration(p, id, phase, None, running).world, cfg)
  {
    hide EventsOk, LedgerOk, InReviewCount, WithIteration;
  }

  lemma GateKeeps(first: seq<EventRow>, p: Process, cfg: Config, verdicts: seq<Verdict>)
    requires Kept(first, p.world, cfg)
    ensures Kept(first, CiGate(p, verdicts, |p.world.events|).world, cfg)
  {
    hide EventsOk, LedgerOk, InReviewCount, CiGate;
    GateKeepsEvents(first, p, verdicts);
    GateCounts(p, verdicts);
    GateKeepsSweep(p, verdicts, |p.world.events|);
  }

  lemma UpkeepKeeps(first: seq<EventRow>, p: Process, cfg: Config, c: Cycle, id: nat)
    requires Kept(first, p.world, cfg)
    ensures Kept(first, Upkeep(p, cfg, c, id).world, cfg)
  {
    hide Kept, UpdateIteration, IssuesAndPatches, CiGate;
    var p4 := UpdateIteration(p, id, "phase4", None, true);
    var in5 := UpdateIteration(p4, id, "phase5", None, true);
    var p5 := IssuesAndPatches(in5, cfg, c.findings);
    var p6 := UpdateIteration(p5, id, "phase6", None, true);
    var gated := if cfg.dryRun then p6 else CiGate(p6, c.verdicts, |p6.world.events|);
    MarkKeeps(first, p, cfg, id, "phase4", true);
    MarkKeeps(first, p4, cfg, id, "phase5", true);
    PatchingKeeps(first, in5, cfg, c.findings);
    MarkKeeps(first, p5, cfg, id, "phase6", true);
    GateKeeps(first, p6, cfg, c.verdicts);
    MarkKeeps(first, gated, cfg, id, "phase7", true);
    MarkKeeps(first, UpdateIteration(gated, id, "phase7", None, true), cfg, id, "complete", false);
  }

  lemma CycleKeeps(first: seq<EventRow>, p: Process, cfg: Config, c: Cycle)
    requires Kept(first, p.world, cfg)
    ensures Kept(first, RunCycle(p, cfg, c).world, cfg)
  {
    hide EventsOk, LedgerOk, InReviewCount, WithIteration, Research, Upkeep, ResumeInfo;
    var rows := p.world.sweeps.iterations;
    var resume := ResumeInfo(rows);
    var at := if resume.Some? then resume.value else Start(|rows|, 0);
    var p1 := UpdateIteration(if resume.Some? then p else CreateIteration(p), at.iteration, "phase1", None, true);
    ResearchKeepsRest(p1, cfg, c.bridgeOk, at.iteration, at.combo);
    UpkeepKeeps(first, Research(p1, cfg, c.bridgeOk, at.iteration, at.combo), cfg, c, at.iteration);
  }

  lemma {:induction false} CyclesKeep(first: seq<EventRow>, p: Process, cfg: Config, cycles: seq<Cycle>)
    requires Kept(first, p.world, cfg) && StartsOk(p.world.sweeps)
    ensures Kept(first, RunCycles(p, cfg, cycles).world, cfg) && StartsOk(RunCycles(p, cfg, cycles).world.sweeps)
  {
    if cycles != [] {
      hide Kept, StartsOk, RunCycle;
      var n := |cycles| - 1;
      CyclesKeep(first, p, cfg, cycles[..n]);
      CycleKeeps(first, RunCycles(p, cfg, cycles[..n]), cfg, cycles[n]);
      CycleKeepsStarts(RunCycles(p, cfg, cycles[..n]), cfg, cycles[n]);
    }
  }

  /** From any world in order, every succession of processes, each dying after any number of durable
      effects, leaves it in order and its events grown from the ones it found. */
  lemma {:induction false} LivesKeep(w: World, cfg: Config, lives: seq<Life>)
    requires Kept(w.events, w, cfg) && StartsOk(w.sweeps)
    ensures Kept(w.events, Lives(w, cfg, lives), cfg) && StartsOk(Lives(w, cfg, lives).sweeps)
  {
    if lives != [] {
      hide Kept, StartsOk, RunCycles;
      var n := |lives| - 1;
      LivesKeep(w, cfg, lives[..n]);
      CyclesKeep(w.events, Process(Lives(w, cfg, lives[..n]), lives[n].fuel), cfg, lives[n].cycles);
    }
  }

  lemma BootstrappedInOrder(today: int, cfg: Config)
    ensures Kept([], Bootstrapped(today), cfg) && StartsOk(Bootstrapped(today).sweeps)
  {
  }

  /** Across all resumes no combo is started twice for one iteration, and the combos of all iterations
      are started in strictly increasing order. */
  lemma CombosStartOnce(today: int, cfg: Config, lives: seq<Life>)
    ensures Increasing(Lives(Bootstrapped(today), cfg, lives).sweeps.starts)
    ensures var starts := Lives(Bootstrapped(today), cfg, lives).sweeps.starts;
            forall i, j :: 0 <= i < j < |starts| ==> starts[i] != starts[j]
  {
    BootstrappedInOrder(today, cfg);
    hide Lives, Kept;
    LivesKeep(Bootstrapped(today), cfg, lives);
  }

  /** At most one open event per kind and slug. */
  lemma OneOpenEventPerSlug(today: int, cfg: Config, lives: seq<Life>)
    ensures UniqueOpen(Lives(Bootstrapped(today), cfg, lives).events)
  {
    BootstrappedInOrder(today, cfg);
    hide Lives, StartsOk, LedgerOk, UniqueOpen;
    LivesKeep(Bootstrapped(today), cfg, lives);
  }

  /** A merged or closed event is never changed again, whatever later processes do. */
  lemma ClosedEventsStay(today: int, cfg: Config, lives: seq<Life>, more: seq<Life>, id: nat)
    requires id < |Lives(Bootstrapped(today), cfg, lives).events|
    requires Lives(Bootstrapped(today), cfg, lives).events[id].status in {Merged, Closed}
    ensures var later := Lives(Lives(Bootstrapped(today), cfg, lives), cfg, more).events;
            id < |later| && later[id] == Lives(Bootstrapped(today), cfg, lives).events[id]
  {
    var w := Lives(Bootstrapped(today), cfg, lives);
    BootstrappedInOrder(today, cfg);
    LivesKeep(Bootstrapped(today), cfg, lives);
    hide Lives, StartsOk, LedgerOk, UniqueOpen, InReviewCount;
    LivesKeep(w, cfg, more);
  }

  /** Events being patched with a pull request never exceed the concurrency limit. */
  lemma ReviewsWithinLimit(today: int, cfg: Config, lives: seq<Life>)
    ensures InReviewCount(Lives(Bootstrapped(today), cfg, lives).events) <= MaxInt(cfg.maxConcurrent, 0)
  {
    BootstrappedInOrder(today, cfg);
    hide Lives, StartsOk, LedgerOk, EventsOk;
    LivesKeep(Bootstrapped(today), cfg, lives);
  }

  /** Patch agents charged to one UTC day never exceed the daily limit. */
  lemma LaunchesWithinBudget(today: int, cfg: Config, lives: seq<Life>, day: int)
    ensures var l := Lives(Bootstrapped(today), cfg, lives).ledger;
            CountDay(l.launches, day) <= AttemptsOn(l, day) <= MaxInt(cfg.maxPerDay, 0)
  {
    BootstrappedInOrder(today, cfg);
    hide Lives, StartsOk, EventsOk, InReviewCount;
    LivesKeep(Bootstrapped(today), cfg, lives);
  }
}
