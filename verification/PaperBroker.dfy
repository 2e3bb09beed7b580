/** The paper broker: memory, JSON state file and CSV journal. Prices are in points of 0.00001,
    volumes in hundredths of a lot, profits in cents. */
module PaperBroker {
  import opened Market
  import opened Numbers

  const INITIAL_TICKET := 1_000_000
  const LKG_TTL_SECONDS := 5.0

  datatype Position = Position(ticket: int, symbol: string, side: Side, volume: int, openPrice: int,
                               openTime: int, sl: int, tp: int)

  /** How a journal row reads: a plain row without a close price, a `_PARTIAL` row, a closed row. */
  datatype RowKind = Opened | PartiallyClosed | Closed

  datatype Row = Row(kind: RowKind, ticket: int, symbol: string, side: Side, volume: int, openPrice: int,
                     closePrice: int, profit: int)

  datatype StateFile = Missing | Unreadable | Saved(ticketSeq: int, positions: map<int, Position>)

  datatype Disk = Disk(file: StateFile, journal: seq<Row>)

  /** A bridge tick; older bridges omit the symbol. */
  datatype Tick = Tick(symbol: Option<string>, bid: int, ask: int)

  datatype Quote = Quote(bid: int, ask: int)
  datatype CachedQuote = CachedQuote(quote: Quote, at: real)

  datatype Memory = Memory(ticketSeq: int, positions: map<int, Position>, closed: seq<Row>,
                           lastTick: map<string, CachedQuote>)

  /** The bridge's reply (none when it raises or is empty) and the wall clock. */
  datatype Feed = Feed(tick: Option<Tick>, now: real)

  // ---- Pricing ----------------------------------------------------------

  datatype Priced = Priced(quote: Option<Quote>, lastTick: map<string, CachedQuote>)

  /** A usable tick is cached and returned; otherwise a young enough cached one is; otherwise none. */
  function CurrentPrices(lastTick: map<string, CachedQuote>, symbol: string, feed: Feed): Priced
  {
    if feed.tick.Some? && feed.tick.value.bid != 0 && feed.tick.value.ask != 0
       && (feed.tick.value.symbol in {None, Some(""), Some(symbol)})
    then
      var quote := Quote(feed.tick.value.bid, feed.tick.value.ask);
      Priced(Some(quote), lastTick[symbol := CachedQuote(quote, feed.now)])
    else if symbol in lastTick && feed.now - lastTick[symbol].at <= LKG_TTL_SECONDS
    then Priced(Some(lastTick[symbol].quote), lastTick)
    else Priced(None, lastTick)
  }

  function EntryFill(side: Side, q: Quote): int { if side == Buy then q.ask else q.bid }

  function ExitFill(side: Side, q: Quote): int { if side == Buy then q.bid else q.ask }

  /** Pips gained in the position's direction. */
  function SignedPips(side: Side, openPrice: int, closePrice: int): real
  {
    var deltaPips := (closePrice - openPrice) as real * 0.00001 / 0.0001;
    if side == Sell then -deltaPips else deltaPips
  }

  /** Ten dollars per pip and lot, rounded to cents. */
  function CentsFor(pips: real, volume: int): int
  {
    RoundHalfEven(pips * 10.0 * (volume as real / 100.0) * 100.0)
  }

  function PnlCents(side: Side, volume: int, openPrice: int, closePrice: int): int
  {
    CentsFor(SignedPips(side, openPrice, closePrice), volume)
  }

  /** Profit in whole cents: points gained times hundredths of a lot. */
  function Profit(side: Side, volume: int, openPrice: int, closePrice: int): int
  {
    (if side == Sell then openPrice - closePrice else closePrice - openPrice) * volume
  }

  /** On five-decimal prices and hundredth-lot volumes the rounding never rounds. */
  lemma PnlIsExact(side: Side, volume: int, openPrice: int, closePrice: int)
    ensures PnlCents(side, volume, openPrice, closePrice) == Profit(side, volume, openPrice, closePrice)
  {
    WholeCents(if side == Sell then openPrice - closePrice else closePrice - openPrice, volume);
  }

  lemma WholeCents(delta: int, volume: int)
    ensures CentsFor(delta as real / 10.0, volume) == delta * volume
  {
    var x, v := volume as real / 100.0, volume as real;
    var d := delta as real;
    assert d / 10.0 * 10.0 == d;
    assert d * x * 100.0 == d * (x * 100.0) == d * v;
    assert (delta * volume) as real == d * v;
    RoundOfInteger(delta * volume);
  }

  // ---- Operations -------------------------------------------------------

  datatype Error = StaleTick | UnknownTicket | BadFraction

  datatype Reply =
    | Placed(position: Position)
    | ClosedOut(row: Row)
    | PartlyClosed(row: Row, remaining: int)
    | SlModified(ticket: int, sl: int)
    | Failed(error: Error)

  /** Memory after the call, whether it saved the state file, the journal row it then appended. */
  datatype Outcome = Outcome(mem: Memory, saves: bool, row: Option<Row>, reply: Reply)

  function Fail(mem: Memory, error: Error): Outcome { Outcome(mem, false, None, Failed(error)) }

  function PlaceOrder(mem: Memory, symbol: string, side: Side, volume: int, sl: int, tp: int,
                      time: int, feed: Feed): Outcome
  {
    var priced := CurrentPrices(mem.lastTick, symbol, feed);
    var mem1 := mem.(lastTick := priced.lastTick);
    if priced.quote.None? then Fail(mem1, StaleTick)
    else
      var t := mem.ticketSeq;
      var p := Position(t, symbol, side, volume, EntryFill(side, priced.quote.value), time, sl, tp);
      Outcome(mem1.(ticketSeq := t + 1, positions := mem.positions[t := p]), true,
              Some(Row(Opened, t, symbol, side, volume, p.openPrice, 0, 0)), Placed(p))
  }

  function ExitRow(kind: RowKind, p: Position, volume: int, q: Quote): Row
  {
    var price := ExitFill(p.side, q);
    Row(kind, p.ticket, p.symbol, p.side, volume, p.openPrice, price, PnlCents(p.side, volume, p.openPrice, price))
  }

  function ClosePosition(mem: Memory, ticket: int, feed: Feed): Outcome
  {
    if ticket !in mem.positions then Fail(mem, UnknownTicket)
    else
      var p := mem.positions[ticket];
      var priced := CurrentPrices(mem.lastTick, p.symbol, feed);
      var mem1 := mem.(lastTick := priced.lastTick);
      if priced.quote.None? then Fail(mem1, StaleTick)
      else
        var row := ExitRow(Closed, p, p.volume, priced.quote.value);
        Outcome(mem1.(positions := mem.positions - {ticket}, closed := mem.closed + [row]),
                true, Some(row), ClosedOut(row))
  }

  /** Volume of a partial close: `round(volume * fraction, 2)` in lots. */
  function CloseVolume(volume: int, fraction: real): int
  {
    RoundHalfEven(volume as real * fraction)
  }

  function PartialClose(mem: Memory, ticket: int, fraction: real, feed: Feed): Outcome
  {
    if !(0.0 < fraction < 1.0) then Fail(mem, BadFraction)
    else if ticket !in mem.positions then Fail(mem, UnknownTicket)
    else
      var p := mem.positions[ticket];
      var closing := CloseVolume(p.volume, fraction);
      var remaining := p.volume - closing;
      var priced := CurrentPrices(mem.lastTick, p.symbol, feed);
      var mem1 := mem.(lastTick := priced.lastTick);
      if priced.quote.None? then Fail(mem1, StaleTick)
      else
        var row := ExitRow(PartiallyClosed, p, closing, priced.quote.value);
        Outcome(mem1.(positions := mem.positions[ticket := p.(volume := remaining)], closed := mem.closed + [row]),
                true, Some(row), PartlyClosed(row, remaining))
  }

  function ModifySl(mem: Memory, ticket: int, newSl: int): Outcome
  {
    if ticket !in mem.positions then Fail(mem, UnknownTicket)
    else
      Outcome(mem.(positions := mem.positions[ticket := mem.positions[ticket].(sl := newSl)]), true, None,
              SlModified(ticket, newSl))
  }

  // ---- Disk -------------------------------------------------------------

  function MaxTicket(journal: seq<Row>): int
    requires journal != []
  {
    if |journal| == 1 then journal[0].ticket
    else MaxInt(MaxTicket(journal[..|journal| - 1]), journal[|journal| - 1].ticket)
  }

  function ReseededSeq(journal: seq<Row>): int
  {
    if journal == [] then INITIAL_TICKET else MaxTicket(journal) + 1
  }

  /** Memory of a freshly constructed broker over the files on disk. */
  function Load(disk: Disk): Memory
  {
    match disk.file
    case Missing => Memory(INITIAL_TICKET, map[], [], map[])
    case Unreadable => Memory(ReseededSeq(disk.journal), map[], [], map[])
    case Saved(ticketSeq, positions) => Memory(ticketSeq, positions, [], map[])
  }

  function SaveFile(mem: Memory): StateFile { Saved(mem.ticketSeq, mem.positions) }

  /** Disk after a completed call. */
  function Commit(disk: Disk, o: Outcome): Disk
  {
    Disk(if o.saves then SaveFile(o.mem) else disk.file,
         if o.row.Some? then disk.journal + [o.row.value] else disk.journal)
  }

  // ---- The broker's own form --------------------------------------------

  class Files {
    var file: StateFile
    var journal: seq<Row>

    function Value(): Disk
      reads this
    {
      Disk(file, journal)
    }

    constructor ()
      ensures Value() == Disk(Missing, [])
    {
      file, journal := Missing, [];
    }
  }

  class Broker {
    const files: Files
    var ticketSeq: int
    var positions: map<int, Position>
    var closed: seq<Row>
    var lastTick: map<string, CachedQuote>

    function Mem(): Memory
      reads this
    {
      Memory(ticketSeq, positions, closed, lastTick)
    }

    constructor (files: Files)
      ensures this.files == files && Mem() == Load(files.Value())
    {
      this.files := files;
      ticketSeq, positions, closed, lastTick := INITIAL_TICKET, map[], [], map[];
      new;
      match files.file {
        case Missing =>
        case Saved(next, open) =>
          ticketSeq, positions := next, open;
        case Unreadable =>
          ticketSeq := ReseedTicketSeq();
          positions := map[];
      }
    }

    method ReseedTicketSeq() returns (next: int)
      ensures next == ReseededSeq(files.journal)
    {
      var rows := files.journal;
      if rows == [] { return INITIAL_TICKET; }
      var max, k := rows[0].ticket, 1;
      assert rows[..1] == [rows[0]];
      while k < |rows|
        invariant 1 <= k <= |rows|
        invariant max == MaxTicket(rows[..k])
      {
        assert rows[..k + 1][..k] == rows[..k];
        max := MaxInt(max, rows[k].ticket);
        k := k + 1;
      }
      assert rows[..k] == rows;
      next := max + 1;
    }

    method SaveState()
      modifies files
      ensures files.file == SaveFile(Mem()) && files.journal == old(files.journal)
    {
      files.file := Saved(ticketSeq, positions);
    }

    method Journal(row: Row)
      modifies files
      ensures files.journal == old(files.journal) + [row] && files.file == old(files.file)
    {
      files.journal := files.journal + [row];
    }

    /** A price is only ever answered from the cache it leaves behind, at most five seconds old; other
        symbols' prices stay. */
    method FetchPrices(symbol: string, feed: Feed) returns (quote: Option<Quote>)
      modifies this
      ensures quote.Some? ==>
                && symbol in lastTick && lastTick[symbol].quote == quote.value
                && feed.now - lastTick[symbol].at <= LKG_TTL_SECONDS
      ensures quote.None? ==> lastTick == old(lastTick)
      ensures forall other :: other != symbol ==>
                (other in lastTick <==> other in old(lastTick))
                && (other in lastTick ==> lastTick[other] == old(lastTick)[other])
      ensures var priced := CurrentPrices(old(lastTick), symbol, feed);
              quote == priced.quote && Mem() == old(Mem()).(lastTick := priced.lastTick)
    {
      var bid, ask, tickSymbol := 0, 0, symbol;
      if feed.tick.Some? {
        bid, ask := feed.tick.value.bid, feed.tick.value.ask;
        if feed.tick.value.symbol.Some? && feed.tick.value.symbol.value != "" {
          tickSymbol := feed.tick.value.symbol.value;
        }
      }
      if bid != 0 && ask != 0 && tickSymbol == symbol {
        lastTick := lastTick[symbol := CachedQuote(Quote(bid, ask), feed.now)];
        return Some(Quote(bid, ask));
      }
      if symbol in lastTick {
        var cached := lastTick[symbol];
        if feed.now - cached.at <= LKG_TTL_SECONDS { return Some(cached.quote); }
      }
      quote := None;
    }

    method Place(symbol: string, side: Side, volume: int, sl: int, tp: int, time: int, feed: Feed)
      returns (reply: Reply)
      modifies this, files
      ensures var o := PlaceOrder(old(Mem()), symbol, side, volume, sl, tp, time, feed);
              reply == o.reply && Mem() == o.mem && files.Value() == Commit(old(files.Value()), o)
    {
      var quote := FetchPrices(symbol, feed);
      if quote.None? { return Failed(StaleTick); }
      var ticket := ticketSeq;
      ticketSeq := ticketSeq + 1;
      var p := Position(ticket, symbol, side, volume, EntryFill(side, quote.value), time, sl, tp);
      positions := positions[ticket := p];
      SaveState();
      Journal(Row(Opened, ticket, symbol, side, volume, p.openPrice, 0, 0));
      reply := Placed(p);
    }

    /** The position is taken out first and put back when no fresh price is available. */
    method Close(ticket: int, feed: Feed) returns (reply: Reply)
      modifies this, files
      ensures var o := ClosePosition(old(Mem()), ticket, feed);
              reply == o.reply && Mem() == o.mem && files.Value() == Commit(old(files.Value()), o)
    {
      if ticket !in positions { return Failed(UnknownTicket); }
      var p := positions[ticket];
      positions := positions - {ticket};
      var quote := FetchPrices(p.symbol, feed);
      if quote.None? {
        positions := positions[ticket := p];
        assert positions == old(positions);
        return Failed(StaleTick);
      }
      var row := ExitRow(Closed, p, p.volume, quote.value);
      closed := closed + [row];
      SaveState();
      Journal(row);
      reply := ClosedOut(row);
    }

    method ClosePart(ticket: int, fraction: real, feed: Feed) returns (reply: Reply)
      modifies this, files
      ensures var o := PartialClose(old(Mem()), ticket, fraction, feed);
              reply == o.reply && Mem() == o.mem && files.Value() == Commit(old(files.Value()), o)
    {
      if !(0.0 < fraction < 1.0) { return Failed(BadFraction); }
      if ticket !in positions { return Failed(UnknownTicket); }
      var p := positions[ticket];
      var closing := CloseVolume(p.volume, fraction);
      var remaining := p.volume - closing;
      var quote := FetchPrices(p.symbol, feed);
      if quote.None? { return Failed(StaleTick); }
      var row := ExitRow(PartiallyClosed, p, closing, quote.value);
      positions := positions[ticket := p.(volume := remaining)];
      closed := closed + [row];
      SaveState();
      Journal(row);
      reply := PartlyClosed(row, remaining);
    }

    method ModifyStop(ticket: int, newSl: int) returns (reply: Reply)
      modifies this, files
      ensures var o := ModifySl(old(Mem()), ticket, newSl);
              reply == o.reply && Mem() == o.mem && files.Value() == Commit(old(files.Value()), o)
    {
      if ticket !in positions { return Failed(UnknownTicket); }
      positions := positions[ticket := positions[ticket].(sl := newSl)];
      SaveState();
      reply := SlModified(ticket, newSl);
    }
  }
}
