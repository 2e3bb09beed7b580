/** Whole runs of the paper broker, with crashes, restarts and damaged files. */
module BrokerRuns {
  import opened Market
  import opened Numbers
  import opened PaperBroker

  datatype Call =
    | PlaceCall(symbol: string, side: Side, volume: int, sl: int, tp: int, time: int, feed: Feed)
    | CloseCall(ticket: int, feed: Feed)
    | PartialCall(ticket: int, fraction: real, feed: Feed)
    | ModifyCall(ticket: int, sl: int)

  /** How far a call gets before the process dies, if it does. */
  datatype Crash = NoCrash | BeforeSave | BeforeJournal

  datatype Event = Invoke(call: Call, crash: Crash) | Restart | Corrupt | Delete

  /** The running process (none after a crash), the files, and the tickets handed out by completed
      `place_order` calls. */
  datatype World = World(mem: Option<Memory>, disk: Disk, issued: seq<int>)

  const FIRST_BOOT := World(None, Disk(Missing, []), [])

  function Execute(mem: Memory, call: Call): Outcome
  {
    match call
    case PlaceCall(symbol, side, volume, sl, tp, time, feed) =>
      PlaceOrder(mem, symbol, side, volume, sl, tp, time, feed)
    case CloseCall(ticket, feed) => ClosePosition(mem, ticket, feed)
    case PartialCall(ticket, fraction, feed) => PartialClose(mem, ticket, fraction, feed)
    case ModifyCall(ticket, sl) => ModifySl(mem, ticket, sl)
  }

  /** The file is saved before the row is journalled; a crash keeps what was done before it. */
  function CrashDisk(disk: Disk, o: Outcome, crash: Crash): Disk
  {
    match crash
    case NoCrash => Commit(disk, o)
    case BeforeSave => disk
    case BeforeJournal => Commit(disk, o.(row := None))
  }

  function Step(w: World, e: Event): World
  {
    match e
    case Restart => w.(mem := Some(Load(w.disk)))
    case Corrupt => w.(disk := if w.disk.file.Missing? then w.disk else w.disk.(file := Unreadable))
    case Delete => w.(disk := w.disk.(file := Missing))
    case Invoke(call, crash) =>
      if w.mem.None? then w
      else
        var o := Execute(w.mem.value, call);
        World(if crash.NoCrash? then Some(o.mem) else None,
              CrashDisk(w.disk, o, crash),
              if crash.NoCrash? && o.reply.Placed? then w.issued + [o.reply.position.ticket] else w.issued)
  }

  function Run(w: World, events: seq<Event>): World
  {
    if events == [] then w else Step(Run(w, events[..|events| - 1]), events[|events| - 1])
  }

  // ---- Log agreement ----------------------------------------------------

  function Signed(r: Row): int { if r.kind.Opened? then r.volume else -r.volume }

  /** Opened minus partially closed minus closed volume of a ticket, replayed from the journal. */
  function Net(journal: seq<Row>, ticket: int): int
  {
    if journal == [] then 0
    else
      var last := journal[|journal| - 1];
      Net(journal[..|journal| - 1], ticket) + (if last.ticket == ticket then Signed(last) else 0)
  }

  function OpenVolume(positions: map<int, Position>, ticket: int): int
  {
    if ticket in positions then positions[ticket].volume else 0
  }

  /** Replaying the journal gives exactly the open positions' volumes. */
  ghost predicate LogAgrees(positions: map<int, Position>, journal: seq<Row>)
  {
    forall t :: Net(journal, t) == OpenVolume(positions, t)
  }

  /** Positions are filed under their own tickets, and every ticket seen is below the counter. */
  ghost predicate TicketsBelow(ticketSeq: int, positions: map<int, Position>, journal: seq<Row>)
  {
    && (forall t :: t in positions ==> positions[t].ticket == t < ticketSeq)
    && (forall i :: 0 <= i < |journal| ==> journal[i].ticket < ticketSeq)
  }

  /** The files read back as the given counter and positions. */
  ghost predicate ReadsAs(disk: Disk, ticketSeq: int, positions: map<int, Position>)
  {
    !disk.file.Unreadable? && Load(disk).ticketSeq == ticketSeq && Load(disk).positions == positions
  }

  /** A readable state file agrees with the journal, and the running process with the file. */
  ghost predicate InAgreement(w: World)
  {
    var m := Load(w.disk);
    && !w.disk.file.Unreadable?
    && LogAgrees(m.positions, w.disk.journal)
    && TicketsBelow(m.ticketSeq, m.positions, w.disk.journal)
    && (w.mem.Some? ==> ReadsAs(w.disk, w.mem.value.ticketSeq, w.mem.value.positions))
  }

  lemma NetAppend(journal: seq<Row>, r: Row, t: int)
    ensures Net(journal + [r], t) == Net(journal, t) + (if r.ticket == t then Signed(r) else 0)
  {
    assert (journal + [r])[..|journal|] == journal;
  }

  lemma {:induction false} NetOfUnseen(journal: seq<Row>, t: int)
    requires forall i :: 0 <= i < |journal| ==> journal[i].ticket != t
    ensures Net(journal, t) == 0
  {
    if journal != [] { NetOfUnseen(journal[..|journal| - 1], t); }
  }

  /** What a successful call does to one ticket's volume is what its row says; other tickets keep
      theirs, and tickets stay below the counter. */
  ghost predicate Balanced(mem: Memory, o: Outcome)
  {
    && (forall t :: OpenVolume(o.mem.positions, t)
                    == OpenVolume(mem.positions, t)
                       + (if o.row.Some? && o.row.value.ticket == t then Signed(o.row.value) else 0))
    && (forall t :: t in o.mem.positions ==> o.mem.positions[t].ticket == t < o.mem.ticketSeq)
    && (o.row.Some? ==> o.row.value.ticket < o.mem.ticketSeq)
    && mem.ticketSeq <= o.mem.ticketSeq
    && (!o.saves ==> o.mem.positions == mem.positions && o.mem.ticketSeq == mem.ticketSeq && o.row.None?)
  }

  lemma CallsBalance(mem: Memory, call: Call)
    requires forall t :: t in mem.positions ==> mem.positions[t].ticket == t < mem.ticketSeq
    ensures Balanced(mem, Execute(mem, call))
  {
    hide PnlCents, CloseVolume, CurrentPrices, EntryFill, ExitFill;
  }

  lemma CommitKeepsLog(mem: Memory, journal: seq<Row>, o: Outcome)
    requires Balanced(mem, o)
    requires LogAgrees(mem.positions, journal)
    ensures LogAgrees(o.mem.positions, if o.row.Some? then journal + [o.row.value] else journal)
  {
    var after := if o.row.Some? then journal + [o.row.value] else journal;
    forall t
      ensures Net(after, t) == OpenVolume(o.mem.positions, t)
    {
      if o.row.Some? { NetAppend(journal, o.row.value, t); }
      assert Net(journal, t) == OpenVolume(mem.positions, t);
    }
  }

  /** No crash between saving and journalling, and nobody damages the state file. */
  predicate Orderly(e: Event)
  {
    e.Restart? || (e.Invoke? && !e.crash.BeforeJournal?)
  }

  lemma OrderlyStepAgrees(w: World, e: Event)
    requires InAgreement(w) && Orderly(e)
    ensures InAgreement(Step(w, e))
  {
    if e.Invoke? && w.mem.Some? && e.crash.NoCrash? {
      var mem := w.mem.value;
      var o := Execute(mem, e.call);
      CallsBalance(mem, e.call);
      CommitKeepsLog(mem, w.disk.journal, o);
    }
  }

  /** Over any run of calls, failed calls, crashes before the save and restarts: replaying the journal
      gives exactly the open positions' volumes, and memory equals the state file. */
  lemma {:induction false} LogAgreement(w: World, events: seq<Event>)
    requires InAgreement(w)
    requires forall i :: 0 <= i < |events| ==> Orderly(events[i])
    ensures InAgreement(Run(w, events))
  {
    hide InAgreement, Step, Orderly;
    if events != [] {
      LogAgreement(w, events[..|events| - 1]);
      OrderlyStepAgrees(Run(w, events[..|events| - 1]), events[|events| - 1]);
    }
  }

  lemma FirstBootAgrees()
    ensures InAgreement(FIRST_BOOT)
  {
  }

  /** Exactly when a crash between save and journal costs the agreement: when the lost row carried volume. */
  lemma CrashBeforeJournalIff(w: World, call: Call)
    requires InAgreement(w) && w.mem.Some?
    ensures var row := Execute(w.mem.value, call).row;
            InAgreement(Step(w, Invoke(call, BeforeJournal))) <==> row.None? || row.value.volume == 0
  {
    var mem := w.mem.value;
    var o := Execute(mem, call);
    CallsBalance(mem, call);
    var after := Step(w, Invoke(call, BeforeJournal));
    assert after.disk.journal == w.disk.journal;
    assert Load(after.disk).positions == o.mem.positions && Load(after.disk).ticketSeq == o.mem.ticketSeq;
    hide Execute, Net;
    if o.row.Some? {
      var t := o.row.value.ticket;
      assert Net(w.disk.journal, t) == OpenVolume(mem.positions, t);
      assert OpenVolume(o.mem.positions, t) == OpenVolume(mem.positions, t) + Signed(o.row.value);
    }
    if o.row.None? || o.row.value.volume == 0 {
      forall t ensures Net(w.disk.journal, t) == OpenVolume(o.mem.positions, t) {
        assert Net(w.disk.journal, t) == OpenVolume(mem.positions, t);
      }
    }
  }

  // ---- Ticket uniqueness ------------------------------------------------

  ghost predicate Distinct(s: seq<int>)
  {
    forall i, j :: 0 <= i < j < |s| ==> s[i] != s[j]
  }

  ghost predicate HasTicket(journal: seq<Row>, ticket: int)
  {
    exists k :: 0 <= k < |journal| && journal[k].ticket == ticket
  }

  ghost predicate Journalled(issued: seq<int>, journal: seq<Row>)
  {
    forall i :: 0 <= i < |issued| ==> HasTicket(journal, issued[i])
  }

  /** Tickets handed out are distinct and journalled, and whatever a process would start from (and the
      running one itself) counts past every journalled ticket. */
  ghost predicate TicketInvariant(w: World)
  {
    && Distinct(w.issued)
    && Journalled(w.issued, w.disk.journal)
    && (w.disk.file.Missing? ==> w.disk.journal == [])
    && TicketsBelow(Load(w.disk).ticketSeq, Load(w.disk).positions, w.disk.journal)
    && (w.mem.Some? ==> TicketsBelow(w.mem.value.ticketSeq, w.mem.value.positions, w.disk.journal))
  }

  lemma {:induction false} ReseedPastJournal(journal: seq<Row>)
    ensures forall i :: 0 <= i < |journal| ==> journal[i].ticket < ReseededSeq(journal)
  {
    if |journal| > 1 {
      var init := journal[..|journal| - 1];
      ReseedPastJournal(init);
      forall i | 0 <= i < |journal| ensures journal[i].ticket < ReseededSeq(journal) {
        if i < |init| { assert init[i] == journal[i]; }
      }
    }
  }

  lemma JournalledGrows(issued: seq<int>, journal: seq<Row>, r: Row)
    requires Journalled(issued, journal)
    ensures Journalled(issued, journal + [r])
    ensures Journalled(issued + [r.ticket], journal + [r])
  {
    var j := journal + [r];
    assert j[|journal|].ticket == r.ticket;
    forall t | HasTicket(journal, t) ensures HasTicket(j, t) {
      var k :| 0 <= k < |journal| && journal[k].ticket == t;
      assert j[k].ticket == t;
    }
  }

  lemma FreshTicketIsDistinct(issued: seq<int>, journal: seq<Row>, ticket: int)
    requires Distinct(issued) && Journalled(issued, journal)
    requires forall k :: 0 <= k < |journal| ==> journal[k].ticket < ticket
    ensures Distinct(issued + [ticket])
  {
    forall i | 0 <= i < |issued| ensures issued[i] != ticket {
      assert HasTicket(journal, issued[i]);
      var k :| 0 <= k < |journal| && journal[k].ticket == issued[i];
    }
  }

  lemma TicketsBelowAppend(ticketSeq: int, next: int, positions: map<int, Position>, after: map<int, Position>,
                           journal: seq<Row>, row: Option<Row>)
    requires TicketsBelow(ticketSeq, positions, journal) && ticketSeq <= next
    requires forall t :: t in after ==> after[t].ticket == t < next
    requires row.Some? ==> row.value.ticket < next
    ensures TicketsBelow(next, after, if row.Some? then journal + [row.value] else journal)
  {
  }

  lemma InvokeKeepsTickets(w: World, call: Call, crash: Crash)
    requires TicketInvariant(w) && w.mem.Some?
    ensures TicketInvariant(Step(w, Invoke(call, crash)))
  {
    var mem := w.mem.value;
    var o := Execute(mem, call);
    CallsBalance(mem, call);
    PlacedTicket(mem, call);
    hide Execute;
    TicketsBelowAppend(mem.ticketSeq, o.mem.ticketSeq, mem.positions, o.mem.positions, w.disk.journal, None);
    if crash.NoCrash? {
      TicketsBelowAppend(mem.ticketSeq, o.mem.ticketSeq, mem.positions, o.mem.positions, w.disk.journal, o.row);
      if o.row.Some? { JournalledGrows(w.issued, w.disk.journal, o.row.value); }
      if o.reply.Placed? { FreshTicketIsDistinct(w.issued, w.disk.journal, mem.ticketSeq); }
    }
    hide Balanced, TicketsBelow, Journalled, Distinct;
  }

  lemma PlacedTicket(mem: Memory, call: Call)
    ensures var o := Execute(mem, call);
            && (o.row.Some? ==> o.saves)
            && (o.reply.Placed? ==> o.row.Some? && o.reply.position.ticket == o.row.value.ticket == mem.ticketSeq)
  {
    hide PnlCents, CloseVolume, CurrentPrices;
  }

  lemma StepKeepsTickets(w: World, e: Event)
    requires TicketInvariant(w) && !e.Delete?
    ensures TicketInvariant(Step(w, e))
  {
    match e
    case Invoke(call, crash) =>
      if w.mem.Some? { InvokeKeepsTickets(w, call, crash); }
    case _ =>
      ReseedPastJournal(w.disk.journal);
  }

  /** Tickets returned by completed orders are pairwise distinct over any run with crashes at any point,
      restarts, and state files that become unreadable (but do not vanish). */
  lemma {:induction false} TicketsAreUnique(w: World, events: seq<Event>)
    requires TicketInvariant(w)
    requires forall i :: 0 <= i < |events| ==> !events[i].Delete?
    ensures TicketInvariant(Run(w, events)) && Distinct(Run(w, events).issued)
  {
    hide Step, Journalled, TicketsBelow;
    if events != [] {
      TicketsAreUnique(w, events[..|events| - 1]);
      StepKeepsTickets(Run(w, events[..|events| - 1]), events[|events| - 1]);
    }
  }

  lemma FirstBootTickets()
    ensures TicketInvariant(FIRST_BOOT)
  {
  }

  /** In particular over any such run from the first boot. */
  lemma TicketsUniqueFromFirstBoot(events: seq<Event>)
    requires forall i :: 0 <= i < |events| ==> !events[i].Delete?
    ensures Distinct(Run(FIRST_BOOT, events).issued)
  {
    FirstBootTickets();
    TicketsAreUnique(FIRST_BOOT, events);
  }

  /** The agreement likewise holds in every orderly run from the first boot. */
  lemma LogAgreesFromFirstBoot(events: seq<Event>)
    requires forall i :: 0 <= i < |events| ==> Orderly(events[i])
    ensures InAgreement(Run(FIRST_BOOT, events))
  {
    FirstBootAgrees();
    LogAgreement(FIRST_BOOT, events);
  }

  /** The lost row at a reachable world: boot, order one hundredth of a lot, die before journalling,
      restart. The position is open and the journal knows nothing of it. */
  lemma LostRowOpensUnlogged()
    ensures var order := PlaceCall("EURUSD", Buy, 1, 0, 0, 0, Feed(Some(Tick(None, 110000, 110002)), 0.0));
            var w := Run(FIRST_BOOT, [Restart, Invoke(order, BeforeJournal), Restart]);
            && w.mem.Some? && 1_000_000 in w.mem.value.positions
            && w.disk.journal == []
            && !LogAgrees(w.mem.value.positions, w.disk.journal)
  {
    var order := PlaceCall("EURUSD", Buy, 1, 0, 0, 0, Feed(Some(Tick(None, 110000, 110002)), 0.0));
    var events := [Restart, Invoke(order, BeforeJournal), Restart];
    assert events[..2][..1] == [Restart] && [Restart][..0] == []
           && events[..2] == [Restart, Invoke(order, BeforeJournal)];
    var booted := Step(FIRST_BOOT, Restart);
    assert Run(FIRST_BOOT, events[..2][..1]) == booted;
    var died := Step(booted, Invoke(order, BeforeJournal));
    assert Run(FIRST_BOOT, events[..2]) == died;
    var w := Step(died, Restart);
    assert Run(FIRST_BOOT, events) == w;
    assert OpenVolume(w.mem.value.positions, INITIAL_TICKET) == 1 && Net([], INITIAL_TICKET) == 0;
  }

  /** A vanished state file restarts the counter even though the journal still knows better: a restart
      counts past everything handed out if and only if the file is there or nothing was handed out. */
  lemma RestartIsFreshIff(w: World)
    requires Journalled(w.issued, w.disk.journal)
    requires forall i :: 0 <= i < |w.issued| ==> w.issued[i] >= INITIAL_TICKET
    requires !w.disk.file.Missing? ==> TicketsBelow(Load(w.disk).ticketSeq, Load(w.disk).positions, w.disk.journal)
    ensures (forall i :: 0 <= i < |w.issued| ==> w.issued[i] < Step(w, Restart).mem.value.ticketSeq)
            <==> !w.disk.file.Missing? || w.issued == []
  {
    if !w.disk.file.Missing? {
      forall i | 0 <= i < |w.issued| ensures w.issued[i] < Load(w.disk).ticketSeq {
        assert HasTicket(w.disk.journal, w.issued[i]);
        var k :| 0 <= k < |w.disk.journal| && w.disk.journal[k].ticket == w.issued[i];
      }
    } else if w.issued != [] {
      assert w.issued[0] >= Load(w.disk).ticketSeq;
    }
  }

  /** A state file that became unreadable loses the open positions: from a world in agreement the log still
      agrees after the restart if and only if none of them had any volume. */
  lemma DamagedFileIff(w: World)
    requires InAgreement(w) && !w.disk.file.Missing?
    ensures var after := Step(Step(w, Corrupt), Restart);
            && after.mem.Some? && after.mem.value.positions == map[]
            && (LogAgrees(after.mem.value.positions, after.disk.journal)
                <==> forall t :: t in Load(w.disk).positions ==> Load(w.disk).positions[t].volume == 0)
  {
    var open, journal := Load(w.disk).positions, w.disk.journal;
    hide Net;
    assert forall t :: Net(journal, t) == OpenVolume(open, t);
    if LogAgrees(map[], journal) {
      forall t | t in open ensures open[t].volume == 0 { assert Net(journal, t) == OpenVolume(map[], t); }
    }
  }

  /** The same ticket twice: order, delete the state file, restart, order. */
  lemma DeletedFileReusesTicket()
    ensures var order := Invoke(PlaceCall("EURUSD", Buy, 1, 0, 0, 0,
                                   Feed(Some(Tick(None, 110000, 110002)), 0.0)), NoCrash);
            Run(FIRST_BOOT, [Restart, order, Delete, Restart, order]).issued == [1_000_000, 1_000_000]
  {
    var order := Invoke(PlaceCall("EURUSD", Buy, 1, 0, 0, 0, Feed(Some(Tick(None, 110000, 110002)), 0.0)), NoCrash);
    var e := [Restart, order, Delete, Restart, order];
    var w1 := Step(FIRST_BOOT, Restart);
    var w2 := Step(w1, order);
    assert w2.issued == [INITIAL_TICKET];
    var w3 := Step(Step(w2, Delete), Restart);
    var w4 := Step(w3, order);
    assert w4.issued == [INITIAL_TICKET, INITIAL_TICKET];
    hide Step;
    assert e[..0] == [] && e[..4][..3] == e[..3] && e[..3][..2] == e[..2] && e[..2][..1] == e[..1] && e[..1][..0] == [];
    assert Run(FIRST_BOOT, e[..1]) == w1;
    assert Run(FIRST_BOOT, e[..2]) == w2;
    assert Run(FIRST_BOOT, e[..3]) == Step(w2, Delete);
    assert Run(FIRST_BOOT, e[..4]) == w3;
    assert Run(FIRST_BOOT, e) == w4;
  }

  // ---- Profit and volume over a position's life -------------------------

  /** A ticket's exit rows, in order. */
  function Exits(journal: seq<Row>, ticket: int): seq<Row>
  {
    if journal == [] then []
    else
      var rest := Exits(journal[..|journal| - 1], ticket);
      var last := journal[|journal| - 1];
      if last.ticket == ticket && !last.kind.Opened? then rest + [last] else rest
  }

  function OpenedVolume(journal: seq<Row>, ticket: int): int
  {
    if journal == [] then 0
    else
      var last := journal[|journal| - 1];
      OpenedVolume(journal[..|journal| - 1], ticket)
      + (if last.ticket == ticket && last.kind.Opened? then last.volume else 0)
  }

  function TotalVolume(rows: seq<Row>): int
  {
    if rows == [] then 0 else TotalVolume(rows[..|rows| - 1]) + rows[|rows| - 1].volume
  }

  function TotalProfit(rows: seq<Row>): int
  {
    if rows == [] then 0 else TotalProfit(rows[..|rows| - 1]) + rows[|rows| - 1].profit
  }

  lemma {:induction false} NetIsOpenedMinusExited(journal: seq<Row>, ticket: int)
    ensures Net(journal, ticket) == OpenedVolume(journal, ticket) - TotalVolume(Exits(journal, ticket))
  {
    if journal != [] {
      var init, last := journal[..|journal| - 1], journal[|journal| - 1];
      NetIsOpenedMinusExited(init, ticket);
      var rest := Exits(init, ticket);
      assert (rest + [last])[..|rest|] == rest;
    }
  }

  /** Exits of one position at one price earn together what a single full exit would have earned. */
  lemma {:induction false} EqualPriceExitsSum(rows: seq<Row>, side: Side, openPrice: int, closePrice: int)
    requires forall i :: 0 <= i < |rows| ==>
               && rows[i].side == side && rows[i].openPrice == openPrice && rows[i].closePrice == closePrice
               && rows[i].profit == PnlCents(side, rows[i].volume, openPrice, closePrice)
    ensures TotalProfit(rows) == PnlCents(side, TotalVolume(rows), openPrice, closePrice)
  {
    hide PnlCents;
    PnlIsExact(side, TotalVolume(rows), openPrice, closePrice);
    if rows != [] {
      var init, last := rows[..|rows| - 1], rows[|rows| - 1];
      EqualPriceExitsSum(init, side, openPrice, closePrice);
      PnlIsExact(side, TotalVolume(init), openPrice, closePrice);
      PnlIsExact(side, last.volume, openPrice, closePrice);
      ProfitAdds(side, TotalVolume(init), last.volume, openPrice, closePrice);
    }
  }

  lemma ProfitAdds(side: Side, v: int, u: int, openPrice: int, closePrice: int)
    ensures Profit(side, v + u, openPrice, closePrice)
         == Profit(side, v, openPrice, closePrice) + Profit(side, u, openPrice, closePrice)
  {
  }

  /** A ticket's rows share one side and open price, and every exit row carries its formula's profit. */
  ghost predicate Priced(journal: seq<Row>)
  {
    && (forall i, j :: 0 <= i < |journal| && 0 <= j < |journal| && journal[i].ticket == journal[j].ticket
                       ==> journal[i].side == journal[j].side && journal[i].openPrice == journal[j].openPrice)
    && (forall i :: 0 <= i < |journal| && !journal[i].kind.Opened? ==>
          journal[i].profit
          == PnlCents(journal[i].side, journal[i].volume, journal[i].openPrice, journal[i].closePrice))
  }

  ghost predicate PositionsMatchJournal(positions: map<int, Position>, journal: seq<Row>)
  {
    forall t, i :: t in positions && 0 <= i < |journal| && journal[i].ticket == t
                   ==> journal[i].side == positions[t].side && journal[i].openPrice == positions[t].openPrice
  }

  ghost predicate PricedWorld(w: World)
  {
    Priced(w.disk.journal) && PositionsMatchJournal(Load(w.disk).positions, w.disk.journal)
  }

  lemma CallKeepsPrices(mem: Memory, journal: seq<Row>, call: Call)
    requires TicketsBelow(mem.ticketSeq, mem.positions, journal)
    requires Priced(journal) && PositionsMatchJournal(mem.positions, journal)
    ensures var o := Execute(mem, call);
            var after := if o.row.Some? then journal + [o.row.value] else journal;
            Priced(after) && PositionsMatchJournal(o.mem.positions, after)
  {
    hide PnlCents, CloseVolume, CurrentPrices, EntryFill, ExitFill;
  }

  lemma StepKeepsPrices(w: World, e: Event)
    requires InAgreement(w) && PricedWorld(w) && Orderly(e)
    ensures PricedWorld(Step(w, e))
  {
    if e.Invoke? && w.mem.Some? && e.crash.NoCrash? {
      CallKeepsPrices(w.mem.value, w.disk.journal, e.call);
      CallsBalance(w.mem.value, e.call);
      hide Execute, LogAgrees, TicketsBelow, Priced, PositionsMatchJournal;
    }
  }

  lemma {:induction false} PricesOverRuns(w: World, events: seq<Event>)
    requires InAgreement(w) && PricedWorld(w)
    requires forall i :: 0 <= i < |events| ==> Orderly(events[i])
    ensures PricedWorld(Run(w, events))
  {
    hide InAgreement, PricedWorld, Step, Orderly;
    if events != [] {
      PricesOverRuns(w, events[..|events| - 1]);
      LogAgreement(w, events[..|events| - 1]);
      StepKeepsPrices(Run(w, events[..|events| - 1]), events[|events| - 1]);
    }
  }

  lemma {:induction false} ExitsAreRows(journal: seq<Row>, ticket: int, k: nat)
    requires k < |Exits(journal, ticket)|
    ensures exists i :: 0 <= i < |journal| && journal[i] == Exits(journal, ticket)[k]
                        && journal[i].ticket == ticket && !journal[i].kind.Opened?
  {
    var n := |journal| - 1;
    var init := journal[..n];
    if k < |Exits(init, ticket)| {
      ExitsAreRows(init, ticket, k);
      var i :| 0 <= i < |init| && init[i] == Exits(init, ticket)[k]
               && init[i].ticket == ticket && !init[i].kind.Opened?;
      assert journal[i] == init[i];
    } else {
      assert journal[n] == Exits(journal, ticket)[k];
    }
  }

  /** Points gained times volume, summed over exits at whatever prices they filled. */
  function Earned(exits: seq<Row>): int
  {
    if exits == [] then 0
    else
      var last := exits[|exits| - 1];
      Earned(exits[..|exits| - 1]) + Profit(last.side, last.volume, last.openPrice, last.closePrice)
  }

  lemma {:induction false} ProfitsAreEarned(exits: seq<Row>)
    requires forall i :: 0 <= i < |exits| ==>
               exits[i].profit == PnlCents(exits[i].side, exits[i].volume, exits[i].openPrice, exits[i].closePrice)
    ensures TotalProfit(exits) == Earned(exits)
  {
    hide PnlCents, Profit;
    if exits != [] {
      var last := exits[|exits| - 1];
      ProfitsAreEarned(exits[..|exits| - 1]);
      PnlIsExact(last.side, last.volume, last.openPrice, last.closePrice);
    }
  }

  /** All rows of a ticket are about one entry. */
  ghost predicate OneEntry(journal: seq<Row>, ticket: int)
  {
    forall i, j :: 0 <= i < |journal| && 0 <= j < |journal| && journal[i].ticket == journal[j].ticket == ticket
                   ==> journal[i].side == journal[j].side && journal[i].openPrice == journal[j].openPrice
  }

  /** The life of a position in any orderly run from the first boot: once it is not open any more its
      exits account for exactly the opened volume and earned, exit by exit, the points gained since the
      one entry times the volume closed. */
  lemma ClosedPositionBalances(events: seq<Event>, ticket: int)
    requires forall i :: 0 <= i < |events| ==> Orderly(events[i])
    ensures var w := Run(FIRST_BOOT, events);
            var exits := Exits(w.disk.journal, ticket);
            && (ticket !in Load(w.disk).positions ==> TotalVolume(exits) == OpenedVolume(w.disk.journal, ticket))
            && OneEntry(w.disk.journal, ticket)
            && TotalProfit(exits) == Earned(exits)
  {
    var w := Run(FIRST_BOOT, events);
    FirstBootAgrees();
    LogAgreement(FIRST_BOOT, events);
    PricesOverRuns(FIRST_BOOT, events);
    var j := w.disk.journal;
    assert Net(j, ticket) == OpenVolume(Load(w.disk).positions, ticket);
    NetIsOpenedMinusExited(j, ticket);
    ExitsArePriced(j, ticket);
    assert OneEntry(j, ticket);
    hide Run, PnlCents, Exits, InAgreement, PricedWorld;
    ProfitsAreEarned(Exits(j, ticket));
  }

  lemma ExitsArePriced(journal: seq<Row>, ticket: int)
    requires Priced(journal)
    ensures var exits := Exits(journal, ticket);
            && (forall i :: 0 <= i < |exits| ==>
                  exits[i].profit == PnlCents(exits[i].side, exits[i].volume, exits[i].openPrice, exits[i].closePrice))
            && forall i, j :: 0 <= i < |exits| && 0 <= j < |exits| ==>
                 exits[i].side == exits[j].side && exits[i].openPrice == exits[j].openPrice
  {
    hide PnlCents, Exits;
    var exits := Exits(journal, ticket);
    forall i | 0 <= i < |exits|
      ensures exits[i].profit == PnlCents(exits[i].side, exits[i].volume, exits[i].openPrice, exits[i].closePrice)
    {
      ExitsAreRows(journal, ticket, i);
    }
    forall i, j | 0 <= i < |exits| && 0 <= j < |exits|
      ensures exits[i].side == exits[j].side && exits[i].openPrice == exits[j].openPrice
    {
      ExitsAreRows(journal, ticket, i);
      ExitsAreRows(journal, ticket, j);
    }
  }

  lemma PricedFromFirstBoot(events: seq<Event>)
    requires forall i :: 0 <= i < |events| ==> Orderly(events[i])
    ensures Priced(Run(FIRST_BOOT, events).disk.journal)
  {
    FirstBootAgrees();
    assert PricedWorld(FIRST_BOOT);
    hide Run, Priced;
    PricesOverRuns(FIRST_BOOT, events);
  }

  /** If all exits of a closed position filled at one price, they earned exactly what one full exit at
      that price would have. */
  lemma EqualPricesEarnOneExit(events: seq<Event>, ticket: int, closePrice: int)
    requires forall i :: 0 <= i < |events| ==> Orderly(events[i])
    ensures var w := Run(FIRST_BOOT, events);
            var exits := Exits(w.disk.journal, ticket);
            ticket !in Load(w.disk).positions && exits != []
            && (forall i :: 0 <= i < |exits| ==> exits[i].closePrice == closePrice) ==>
              TotalProfit(exits)
              == PnlCents(exits[0].side, OpenedVolume(w.disk.journal, ticket), exits[0].openPrice, closePrice)
  {
    hide Run, PnlCents, Exits, Load, Priced, TotalProfit, TotalVolume, Earned, OneEntry, OpenedVolume, Orderly;
    var w := Run(FIRST_BOOT, events);
    var exits := Exits(w.disk.journal, ticket);
    ClosedPositionBalances(events, ticket);
    PricedFromFirstBoot(events);
    ExitsArePriced(w.disk.journal, ticket);
    if exits != [] && forall i :: 0 <= i < |exits| ==> exits[i].closePrice == closePrice {
      EqualPriceExitsSum(exits, exits[0].side, exits[0].openPrice, closePrice);
    }
  }

  /** Opening and closing a position restores the book and earns what the two quotes say: entries pay the
      far side and exits the far side again, so at an unchanged quote the round trip costs the spread. */
  lemma RoundTripCrossesTheSpread(mem: Memory, symbol: string, side: Side, volume: int, sl: int, tp: int, time: int,
                                  entry: Feed, exit: Feed, q: Quote, r: Quote)
    requires mem.ticketSeq !in mem.positions
    requires CurrentPrices(mem.lastTick, symbol, entry).quote == Some(q)
    requires CurrentPrices(PlaceOrder(mem, symbol, side, volume, sl, tp, time, entry).mem.lastTick, symbol, exit)
             .quote == Some(r)
    ensures var held := PlaceOrder(mem, symbol, side, volume, sl, tp, time, entry).mem;
            var closed := ClosePosition(held, mem.ticketSeq, exit);
            && closed.reply.ClosedOut?
            && closed.reply.row.profit == (if side == Buy then r.bid - q.ask else q.bid - r.ask) * volume
            && closed.mem.positions == mem.positions
            && closed.mem.ticketSeq == mem.ticketSeq + 1
  {
    hide CurrentPrices, PnlCents;
    var held := PlaceOrder(mem, symbol, side, volume, sl, tp, time, entry).mem;
    var p := held.positions[mem.ticketSeq];
    PnlIsExact(side, volume, p.openPrice, ExitFill(side, r));
    assert held.positions - {mem.ticketSeq} == mem.positions;
  }
}
