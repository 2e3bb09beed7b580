/** The supervisor's control loop over its database. A process is given `fuel`, the number of durable
    effects it completes before it dies; a dead process changes nothing any more. Row ids count from 0. */
module Supervisor {
  import opened Numbers

  datatype IterationRow = IterationRow(phase: string, lastCombo: Option<nat>, running: bool)

  datatype EventStatus = Detected | IssueFiled | Patching | PatchFailed | Merged | Closed

  datatype EventRow = EventRow(kind: string, slug: Option<string>, issue: Option<int>, pr: Option<int>,
                               status: EventStatus)

  /** A combo handed to `run_combo` on behalf of an iteration. */
  datatype Start = Start(iteration: nat, combo: nat)

  /** The iterations table and the combos started so far. */
  datatype Sweeps = Sweeps(iterations: seq<IterationRow>, starts: seq<Start>)

  /** The daily budget table, the day each launched patch agent was charged to, and the UTC day. */
  datatype Ledger = Ledger(budget: map<int, nat>, launches: seq<int>, today: int)

  datatype World = World(sweeps: Sweeps, events: seq<EventRow>, ledger: Ledger)

  datatype Process = Process(world: World, fuel: nat)

  datatype Config = Config(combos: nat, maxConcurrent: int, maxPerDay: int, dryRun: bool, skipAutoresearch: bool)

  /** The detector names a combo by its directory. */
  type ComboSlug = s: string | s != "" witness "combo"

  /** A detected regression, global or of one combo, with everything the outside world answers while it is
      handled. */
  datatype Finding = Finding(kind: string, slug: Option<ComboSlug>, issue: Option<int>, agentAvailable: bool,
                             daysBeforeCheck: nat, daysBeforeCharge: nat, success: bool, pr: Option<int>)

  /** The gate's verdict on one patching event. */
  datatype Verdict = Wait | Merge | Fail

  datatype Cycle = Cycle(bridgeOk: bool, findings: seq<Finding>, verdicts: seq<Verdict>)

  /** Python truth of an optional number or string. */
  predicate Given(n: Option<int>) { n.Some? && n.value != 0 }
  predicate GivenText(s: Option<string>) { s.Some? && s.value != "" }

  // ---- Tables -----------------------------------------------------------

  predicate Open(e: EventRow) { e.status != Merged && e.status != Closed }

  /** The duplicate query: by slug when there is one, otherwise among rows without a slug. */
  predicate Matches(e: EventRow, kind: string, slug: Option<string>)
  {
    Open(e) && e.kind == kind && (if GivenText(slug) then e.slug == slug else e.slug == None)
  }

  predicate AlreadyDetected(events: seq<EventRow>, kind: string, slug: Option<string>)
  {
    exists i :: 0 <= i < |events| && Matches(events[i], kind, slug)
  }

  predicate InReview(e: EventRow) { e.status == Patching && e.pr.Some? }

  /** Number of events being patched with a pull request. */
  function InReviewCount(events: seq<EventRow>): nat
  {
    if events == [] then 0
    else InReviewCount(events[..|events| - 1]) + (if InReview(events[|events| - 1]) then 1 else 0)
  }

  function AttemptsOn(l: Ledger, day: int): nat { if day in l.budget then l.budget[day] else 0 }

  function WithEvent(events: seq<EventRow>, id: nat, status: Option<EventStatus>, issue: Option<int>,
                     pr: Option<int>): seq<EventRow>
  {
    if id >= |events| then events
    else
      var e := events[id];
      events[id := EventRow(e.kind, e.slug, if issue.Some? then issue else e.issue, if pr.Some? then pr else e.pr,
                            if status.Some? then status.value else e.status)]
  }

  function WithIteration(rows: seq<IterationRow>, id: nat, phase: string, lastCombo: Option<nat>,
                         running: bool): seq<IterationRow>
  {
    if id >= |rows| then rows
    else rows[id := IterationRow(phase, if lastCombo.Some? then lastCombo else rows[id].lastCombo, running)]
  }

  // ---- Durable effects --------------------------------------------------

  /** Reach `w` by one durable effect, unless the process is already dead. */
  function Spend(p: Process, w: World): Process { if p.fuel == 0 then p else Process(w, p.fuel - 1) }

  function CreateIteration(p: Process): Process
  {
    var s := p.world.sweeps;
    Spend(p, p.world.(sweeps := s.(iterations := s.iterations + [IterationRow("", None, true)])))
  }

  function UpdateIteration(p: Process, id: nat, phase: string, lastCombo: Option<nat>, running: bool): Process
  {
    var s := p.world.sweeps;
    Spend(p, p.world.(sweeps := s.(iterations := WithIteration(s.iterations, id, phase, lastCombo, running))))
  }

  function StartCombo(p: Process, id: nat, combo: nat): Process
  {
    var s := p.world.sweeps;
    Spend(p, p.world.(sweeps := s.(starts := s.starts + [Start(id, combo)])))
  }

  function InsertEvent(p: Process, kind: string, slug: Option<string>): Process
  {
    Spend(p, p.world.(events := p.world.events + [EventRow(kind, slug, None, None, Detected)]))
  }

  function UpdateEvent(p: Process, id: nat, status: Option<EventStatus>, issue: Option<int>, pr: Option<int>): Process
  {
    Spend(p, p.world.(events := WithEvent(p.world.events, id, status, issue, pr)))
  }

  function Charge(p: Process): Process
  {
    var l := p.world.ledger;
    Spend(p, p.world.(ledger := l.(budget := l.budget[l.today := AttemptsOn(l, l.today) + 1])))
  }

  function Launch(p: Process, chargedOn: int): Process
  {
    var l := p.world.ledger;
    Spend(p, p.world.(ledger := l.(launches := l.launches + [chargedOn])))
  }

  function Elapse(p: Process, days: nat): Process
  {
    var l := p.world.ledger;
    p.(world := p.world.(ledger := l.(today := l.today + days)))
  }

  // ---- Phases -----------------------------------------------------------

  /** The iteration to resume with its next combo, if the latest one was interrupted in its sweep. */
  function ResumeInfo(rows: seq<IterationRow>): Option<Start>
  {
    if rows == [] then None
    else
      var last := rows[|rows| - 1];
      if last.running && last.lastCombo.Some? then Some(Start(|rows| - 1, last.lastCombo.value + 1)) else None
  }

  /** The sweep over the first `n` combos. */
  function Sweep(p: Process, id: nat, start: nat, n: nat): Process
  {
    if n == 0 then p
    else
      var q := Sweep(p, id, start, n - 1);
      if n - 1 < start then q
      else StartCombo(UpdateIteration(q, id, "phase2", Some(n - 1), true), id, n - 1)
  }

  /** The patching loop's variables. */
  datatype PatchLoop = PatchLoop(process: Process, patchingCount: int)

  /** An event that passed both limits: charge the day, mark it, run the agent, record the outcome. */
  function Patch(s: PatchLoop, id: nat, f: Finding): PatchLoop
  {
    var charged := Charge(s.process);
    var marked := UpdateEvent(charged, id, Some(Patching), None, None);
    var launched := Launch(marked, s.process.world.ledger.today);
    if f.success && Given(f.pr)
    then PatchLoop(UpdateEvent(launched, id, None, None, f.pr), s.patchingCount + 1)
    else s.(process := UpdateEvent(launched, id, Some(PatchFailed), None, None))
  }

  function HandleFinding(s: PatchLoop, cfg: Config, f: Finding): PatchLoop
  {
    var id := |s.process.world.events|;
    if AlreadyDetected(s.process.world.events, f.kind, f.slug) then s
    else
      var inserted := InsertEvent(s.process, f.kind, f.slug);
      if cfg.dryRun then s.(process := inserted)
      else
        var filed := if Given(f.issue) then UpdateEvent(inserted, id, Some(IssueFiled), f.issue, None) else inserted;
        if !f.agentAvailable then s.(process := filed)
        else
          var checked := Elapse(filed, f.daysBeforeCheck);
          if AttemptsOn(checked.world.ledger, checked.world.ledger.today) >= cfg.maxPerDay
             || s.patchingCount >= cfg.maxConcurrent
          then s.(process := checked)
          else Patch(s.(process := Elapse(checked, f.daysBeforeCharge)), id, f)
  }

  function HandleFindings(s: PatchLoop, cfg: Config, findings: seq<Finding>): PatchLoop
  {
    if findings == [] then s
    else HandleFinding(HandleFindings(s, cfg, findings[..|findings| - 1]), cfg, findings[|findings| - 1])
  }

  function IssuesAndPatches(p: Process, cfg: Config, findings: seq<Finding>): Process
  {
    HandleFindings(PatchLoop(p, InReviewCount(p.world.events)), cfg, findings).process
  }

  function VerdictOn(verdicts: seq<Verdict>, id: nat): Verdict { if id < |verdicts| then verdicts[id] else Wait }

  /** The gate over the first `n` events. */
  function CiGate(p: Process, verdicts: seq<Verdict>, n: nat): Process
    requires n <= |p.world.events|
    ensures |CiGate(p, verdicts, n).world.events| == |p.world.events|
  {
    if n == 0 then p
    else
      var q := CiGate(p, verdicts, n - 1);
      if InReview(p.world.events[n - 1]) && VerdictOn(verdicts, n - 1) != Wait
      then UpdateEvent(q, n - 1, Some(if VerdictOn(verdicts, n - 1) == Merge then Merged else PatchFailed), None, None)
      else q
  }

  /** The part of a cycle that needs market data. */
  function Research(p: Process, cfg: Config, bridgeOk: bool, id: nat, start: nat): Process
  {
    if bridgeOk && !cfg.skipAutoresearch
    then UpdateIteration(Sweep(UpdateIteration(p, id, "phase2", None, true), id, start, cfg.combos),
                         id, "phase3", None, true)
    else p
  }

  /** The part of a cycle that handles regressions. */
  function Upkeep(p: Process, cfg: Config, c: Cycle, id: nat): Process
  {
    var p4 := UpdateIteration(p, id, "phase4", None, true);
    var p5 := IssuesAndPatches(UpdateIteration(p4, id, "phase5", None, true), cfg, c.findings);
    var p6 := UpdateIteration(p5, id, "phase6", None, true);
    var gated := if cfg.dryRun then p6 else CiGate(p6, c.verdicts, |p6.world.events|);
    var p7 := UpdateIteration(gated, id, "phase7", None, true);
    UpdateIteration(p7, id, "complete", None, false)
  }

  function RunCycle(p: Process, cfg: Config, c: Cycle): Process
  {
    var rows := p.world.sweeps.iterations;
    var resume := ResumeInfo(rows);
    var at := if resume.Some? then resume.value else Start(|rows|, 0);
    var begun := if resume.Some? then p else CreateIteration(p);
    var p1 := UpdateIteration(begun, at.iteration, "phase1", None, true);
    Upkeep(Research(p1, cfg, c.bridgeOk, at.iteration, at.combo), cfg, c, at.iteration)
  }

  function RunCycles(p: Process, cfg: Config, cycles: seq<Cycle>): Process
  {
    if cycles == [] then p else RunCycle(RunCycles(p, cfg, cycles[..|cycles| - 1]), cfg, cycles[|cycles| - 1])
  }

  /** One process: how many durable effects it lives for and what it meets. */
  datatype Life = Life(fuel: nat, cycles: seq<Cycle>)

  /** The world after a succession of processes on the same database. */
  function Lives(w: World, cfg: Config, lives: seq<Life>): World
  {
    if lives == [] then w
    else
      var last := lives[|lives| - 1];
      RunCycles(Process(Lives(w, cfg, lives[..|lives| - 1]), last.fuel), cfg, last.cycles).world
  }

  /** A freshly bootstrapped database, on a given day. */
  function Bootstrapped(today: int): World { World(Sweeps([], []), [], Ledger(map[], [], today)) }

  // ---- The loop object --------------------------------------------------

  class SupervisorLoop {
    const cfg: Config
    var iterations: seq<IterationRow>
    var starts: seq<Start>
    var events: seq<EventRow>
    var budget: map<int, nat>
    var launches: seq<int>
    var today: int
    var fuel: nat

    function Value(): Process
      reads this
    {
      Process(World(Sweeps(iterations, starts), events, Ledger(budget, launches, today)), fuel)
    }

    /** A new process opens the database it finds. */
    constructor (cfg: Config, found: World, fuel: nat)
      ensures this.cfg == cfg && Value() == Process(found, fuel)
    {
      this.cfg := cfg;
      iterations, starts := found.sweeps.iterations, found.sweeps.starts;
      events := found.events;
      budget, launches, today := found.ledger.budget, found.ledger.launches, found.ledger.today;
      this.fuel := fuel;
    }

    method SetIteration(id: nat, phase: string, lastCombo: Option<nat>, running: bool)
      modifies this
      ensures Value() == UpdateIteration(old(Value()), id, phase, lastCombo, running)
    {
      if fuel > 0 {
        fuel := fuel - 1;
        if id < |iterations| {
          var row := iterations[id].(phase := phase, running := running);
          iterations := iterations[id := if lastCombo.Some? then row.(lastCombo := lastCombo) else row];
        }
      }
    }

    method SetEvent(id: nat, status: Option<EventStatus>, issue: Option<int>, pr: Option<int>)
      modifies this
      ensures Value() == UpdateEvent(old(Value()), id, status, issue, pr)
    {
      if fuel > 0 {
        fuel := fuel - 1;
        if id < |events| {
          var row := events[id];
          if status.Some? { row := row.(status := status.value); }
          if issue.Some? { row := row.(issue := issue); }
          if pr.Some? { row := row.(pr := pr); }
          events := events[id := row];
        }
      }
    }

    method AddIteration() returns (id: nat)
      modifies this
      ensures Value() == CreateIteration(old(Value())) && id == old(|iterations|)
    {
      id := |iterations|;
      if fuel > 0 {
        fuel := fuel - 1;
        iterations := iterations + [IterationRow("", None, true)];
      }
    }

    method AddEvent(kind: string, slug: Option<string>) returns (id: nat)
      modifies this
      ensures Value() == InsertEvent(old(Value()), kind, slug) && id == old(|events|)
    {
      id := |events|;
      if fuel > 0 {
        fuel := fuel - 1;
        events := events + [EventRow(kind, slug, None, None, Detected)];
      }
    }

    method RunCombo(id: nat, combo: nat)
      modifies this
      ensures Value() == StartCombo(old(Value()), id, combo)
    {
      if fuel > 0 {
        fuel := fuel - 1;
        starts := starts + [Start(id, combo)];
      }
    }

    method ChargeToday()
      modifies this
      ensures Value() == Charge(old(Value()))
    {
      if fuel > 0 {
        fuel := fuel - 1;
        budget := budget[today := (if today in budget then budget[today] else 0) + 1];
      }
    }

    method RunAgent(chargedOn: int)
      modifies this
      ensures Value() == Launch(old(Value()), chargedOn)
    {
      if fuel > 0 {
        fuel := fuel - 1;
        launches := launches + [chargedOn];
      }
    }

    method PassDays(days: nat)
      modifies this
      ensures Value() == Elapse(old(Value()), days)
    {
      today := today + days;
    }

    method Phase2Autoresearch(id: nat, start: nat)
      modifies this
      ensures Value() == Sweep(old(Value()), id, start, cfg.combos)
    {
      ghost var before := Value();
      var idx := 0;
      while idx < cfg.combos
        invariant 0 <= idx <= cfg.combos
        invariant Value() == Sweep(before, id, start, idx)
      {
        hide UpdateIteration, StartCombo;
        if idx >= start {
          SetIteration(id, "phase2", Some(idx), true);
          RunCombo(id, idx);
        }
        idx := idx + 1;
      }
    }

    method CountInReview() returns (count: nat)
      ensures count == InReviewCount(events)
    {
      count := 0;
      var i := 0;
      while i < |events|
        invariant 0 <= i <= |events|
        invariant count == InReviewCount(events[..i])
      {
        assert events[..i + 1][..i] == events[..i];
        if events[i].status == Patching && events[i].pr.Some? { count := count + 1; }
        i := i + 1;
      }
      assert events[..i] == events;
    }

    /** Patch one event within the limits; tells whether a pull request was recorded. */
    method PatchEvent(id: nat, f: Finding, ghost patchingCount: int) returns (recorded: bool)
      modifies this
      ensures Patch(PatchLoop(old(Value()), patchingCount), id, f)
           == PatchLoop(Value(), if recorded then patchingCount + 1 else patchingCount)
    {
      hide Charge, UpdateEvent, Launch;
      var chargedOn := today;
      ChargeToday();
      SetEvent(id, Some(Patching), None, None);
      RunAgent(chargedOn);
      if f.success && Given(f.pr) {
        SetEvent(id, None, None, f.pr);
        recorded := true;
      } else {
        SetEvent(id, Some(PatchFailed), None, None);
        recorded := false;
      }
    }

    /** One finding of the patching loop. */
    method Handle(f: Finding, patchingCount: int) returns (patchingCount': int)
      modifies this
      ensures PatchLoop(Value(), patchingCount') == HandleFinding(PatchLoop(old(Value()), patchingCount), cfg, f)
    {
      hide UpdateEvent, InsertEvent, Patch, AlreadyDetected;
      patchingCount' := patchingCount;
      if AlreadyDetected(events, f.kind, f.slug) { return; }
      var id := AddEvent(f.kind, f.slug);
      if cfg.dryRun { return; }
      if Given(f.issue) { SetEvent(id, Some(IssueFiled), f.issue, None); }
      if !f.agentAvailable { return; }
      PassDays(f.daysBeforeCheck);
      if (if today in budget then budget[today] else 0) >= cfg.maxPerDay { return; }
      if patchingCount >= cfg.maxConcurrent { return; }
      PassDays(f.daysBeforeCharge);
      var recorded := PatchEvent(id, f, patchingCount);
      if recorded { patchingCount' := patchingCount + 1; }
    }

    method Phase5IssuesAndPatches(findings: seq<Finding>)
      modifies this
      ensures Value() == IssuesAndPatches(old(Value()), cfg, findings)
    {
      hide HandleFinding, InReviewCount;
      ghost var before := Value();
      var patchingCount: int := CountInReview();
      ghost var loop := PatchLoop(before, patchingCount);
      var k := 0;
      while k < |findings|
        invariant 0 <= k <= |findings|
        invariant PatchLoop(Value(), patchingCount) == HandleFindings(loop, cfg, findings[..k])
      {
        assert findings[..k + 1][..k] == findings[..k];
        patchingCount := Handle(findings[k], patchingCount);
        k := k + 1;
      }
      assert findings[..k] == findings;
    }

    method Phase6CiGate(verdicts: seq<Verdict>)
      modifies this
      ensures Value() == CiGate(old(Value()), verdicts, |old(events)|)
    {
      ghost var before := Value();
      var rows := events;
      var id := 0;
      while id < |rows|
        invariant 0 <= id <= |rows| == |before.world.events|
        invariant Value() == CiGate(before, verdicts, id)
      {
        hide UpdateEvent;
        if rows[id].status == Patching && rows[id].pr.Some? && VerdictOn(verdicts, id) != Wait {
          SetEvent(id, Some(if VerdictOn(verdicts, id) == Merge then Merged else PatchFailed), None, None);
        }
        id := id + 1;
      }
    }

    /** One pass of the main loop. */
    method Iterate(c: Cycle)
      modifies this
      ensures Value() == RunCycle(old(Value()), cfg, c)
    {
      hide UpdateIteration, CreateIteration, IssuesAndPatches, CiGate, Sweep;
      var resume := ResumeInfo(iterations);
      var id, start := 0, 0;
      if resume.Some? {
        id, start := resume.value.iteration, resume.value.combo;
      } else {
        id := AddIteration();
      }
      SetIteration(id, "phase1", None, true);
      if c.bridgeOk && !cfg.skipAutoresearch {
        SetIteration(id, "phase2", None, true);
        Phase2Autoresearch(id, start);
        SetIteration(id, "phase3", None, true);
      }
      SetIteration(id, "phase4", None, true);
      SetIteration(id, "phase5", None, true);
      Phase5IssuesAndPatches(c.findings);
      SetIteration(id, "phase6", None, true);
      if !cfg.dryRun { Phase6CiGate(c.verdicts); }
      SetIteration(id, "phase7", None, true);
      SetIteration(id, "complete", None, false);
    }

    method Run(cycles: seq<Cycle>)
      modifies this
      ensures Value() == RunCycles(old(Value()), cfg, cycles)
    {
      hide RunCycle;
      ghost var before := Value();
      var k := 0;
      while k < |cycles|
        invariant 0 <= k <= |cycles|
        invariant Value() == RunCycles(before, cfg, cycles[..k])
      {
        assert cycles[..k + 1][..k] == cycles[..k];
        Iterate(cycles[k]);
        k := k + 1;
      }
      assert cycles[..k] == cycles;
    }
  }
}
