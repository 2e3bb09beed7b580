/** What callers get back from the paper broker: how a partial close splits a position, and which order and
    which stop every open position goes back to. */
module BrokerOrders {
  import opened BrokerRuns
  import opened Market
  import opened Numbers
  import opened PaperBroker

  // ---- Partial closes ---------------------------------------------------

  /** Rounding a share of a volume stays within the volume, and rounds nothing off half an even one. */
  lemma RoundedShare(volume: int, share: real)
    requires 0.0 <= share <= volume as real
    ensures 0 <= RoundHalfEven(share) <= volume
    ensures volume % 2 == 0 && share == volume as real / 2.0 ==> RoundHalfEven(share) == volume / 2
  {
    RoundMonotone(0.0, share);
    RoundMonotone(share, volume as real);
    RoundOfInteger(0);
    RoundOfInteger(volume);
    if volume % 2 == 0 && share == volume as real / 2.0 {
      assert share == (volume / 2) as real;
      RoundOfInteger(volume / 2);
    }
  }

  /** The part of a volume that a caller asks to close. */
  function Share(volume: int, fraction: real): real { volume as real * fraction }

  /** What closing some volume of a position pays at a quote, in cents. */
  function ExitGain(p: Position, q: Quote, volume: int): int
  {
    (if p.side == Buy then q.bid - p.openPrice else p.openPrice - q.ask) * volume
  }

  lemma ShareOfVolume(volume: int, fraction: real)
    requires volume >= 0 && 0.0 < fraction < 1.0
    ensures 0.0 <= Share(volume, fraction) <= volume as real
  {
    assert volume as real * (1.0 - fraction) >= 0.0;
  }

  /** The closed part is the asked-for share of the volume, rounded to hundredths of a lot and never more than
      there is; the rest stays open, and an even volume is halved exactly. */
  ghost predicate SplitsVolume(volume: int, share: real, part: int, rest: int)
  {
    && 0 <= part <= volume
    && part + rest == volume
    && -0.5 <= part as real - share <= 0.5
    && (share == volume as real / 2.0 && volume % 2 == 0 ==> part == volume / 2)
  }

  lemma CloseVolumeSplits(volume: int, fraction: real)
    requires volume >= 0 && 0.0 < fraction < 1.0
    ensures var part := CloseVolume(volume, fraction);
            SplitsVolume(volume, Share(volume, fraction), part, volume - part)
  {
    ShareOfVolume(volume, fraction);
    RoundedShare(volume, Share(volume, fraction));
    hide RoundHalfEven;
  }

  /** A partial close that finds its ticket and a price books the closed part at the side's exit price, leaves
      exactly the rest open, and touches no other position and no other field. */
  ghost predicate ClosesPart(mem: Memory, ticket: int, fraction: real, q: Quote, o: Outcome)
    requires ticket in mem.positions
  {
    var p := mem.positions[ticket];
    && o.saves && o.reply.PartlyClosed? && o.row == Some(o.reply.row)
    && var row, rest := o.reply.row, o.reply.remaining;
    && SplitsVolume(p.volume, Share(p.volume, fraction), row.volume, rest)
    && row.kind == PartiallyClosed && row.ticket == p.ticket && row.symbol == p.symbol && row.side == p.side
    && row.openPrice == p.openPrice && row.closePrice == (if p.side == Buy then q.bid else q.ask)
    && row.profit == ExitGain(p, q, row.volume)
    && o.mem.positions == mem.positions[ticket := p.(volume := rest)]
    && o.mem.closed == mem.closed + [row] && o.mem.ticketSeq == mem.ticketSeq
  }

  lemma ExitProfit(p: Position, q: Quote, volume: int)
    ensures PnlCents(p.side, volume, p.openPrice, ExitFill(p.side, q)) == ExitGain(p, q, volume)
  {
    PnlIsExact(p.side, volume, p.openPrice, ExitFill(p.side, q));
    hide PnlCents;
  }

  lemma PricedPartialClose(mem: Memory, ticket: int, fraction: real, feed: Feed, q: Quote)
    requires 0.0 < fraction < 1.0 && ticket in mem.positions && mem.positions[ticket].volume >= 0
    requires CurrentPrices(mem.lastTick, mem.positions[ticket].symbol, feed).quote == Some(q)
    ensures ClosesPart(mem, ticket, fraction, q, PartialClose(mem, ticket, fraction, feed))
  {
    var p := mem.positions[ticket];
    CloseVolumeSplits(p.volume, fraction);
    ExitProfit(p, q, CloseVolume(p.volume, fraction));
    hide CurrentPrices, PnlCents, CloseVolume, SplitsVolume, Share, ExitGain;
  }

  lemma RefusedPartialClose(mem: Memory, ticket: int, fraction: real, feed: Feed)
    ensures var o := PartialClose(mem, ticket, fraction, feed);
            && (fraction <= 0.0 || fraction >= 1.0 ==> o == Outcome(mem, false, None, Failed(BadFraction)))
            && (0.0 < fraction < 1.0 && ticket !in mem.positions ==>
                  o == Outcome(mem, false, None, Failed(UnknownTicket)))
            && (0.0 < fraction < 1.0 && ticket in mem.positions
                && CurrentPrices(mem.lastTick, mem.positions[ticket].symbol, feed).quote.None? ==>
                  o.reply == Failed(StaleTick) && !o.saves && o.row == None
                  && o.mem == mem.(lastTick := o.mem.lastTick))
  {
    hide CurrentPrices, PnlCents, CloseVolume;
  }

  /** What a partial close answers, case by case, for a position whose volume is not negative. */
  lemma PartialCloseSplits(mem: Memory, ticket: int, fraction: real, feed: Feed)
    ensures var o := PartialClose(mem, ticket, fraction, feed);
            if fraction <= 0.0 || fraction >= 1.0 then o == Outcome(mem, false, None, Failed(BadFraction))
            else if ticket !in mem.positions then o == Outcome(mem, false, None, Failed(UnknownTicket))
            else match CurrentPrices(mem.lastTick, mem.positions[ticket].symbol, feed).quote
                 case None => o.reply == Failed(StaleTick) && !o.saves && o.mem == mem.(lastTick := o.mem.lastTick)
                 case Some(q) => mem.positions[ticket].volume >= 0 ==> ClosesPart(mem, ticket, fraction, q, o)
  {
    hide CurrentPrices, PartialClose, ClosesPart;
    RefusedPartialClose(mem, ticket, fraction, feed);
    if 0.0 < fraction < 1.0 && ticket in mem.positions && mem.positions[ticket].volume >= 0 {
      var quote := CurrentPrices(mem.lastTick, mem.positions[ticket].symbol, feed).quote;
      if quote.Some? {
        PricedPartialClose(mem, ticket, fraction, feed, quote.value);
      }
    }
  }

  // ---- Open positions and their orders ----------------------------------

  predicate Undamaged(e: Event) { e.Restart? || e.Invoke? }

  /** The call reached a running process and got as far as saving. */
  predicate Effective(w: World, events: seq<Event>, i: nat)
    requires i < |events|
  {
    events[i].Invoke? && !events[i].crash.BeforeSave? && Run(w, events[..i]).mem.Some?
  }

  /** Event `i` is the order the position was opened by. */
  ghost predicate OrderedAt(w: World, events: seq<Event>, p: Position, i: nat)
  {
    && i < |events| && Effective(w, events, i) && events[i].call.PlaceCall?
    && var c, mem := events[i].call, Run(w, events[..i]).mem.value;
    && var quote := CurrentPrices(mem.lastTick, c.symbol, c.feed).quote;
    && quote.Some?
    && p.ticket == mem.ticketSeq
    && p.symbol == c.symbol && p.side == c.side && p.openTime == c.time && p.tp == c.tp
    && p.openPrice == (if c.side == Buy then quote.value.ask else quote.value.bid)
  }

  predicate MovesStop(w: World, events: seq<Event>, ticket: int, k: nat)
    requires k < |events|
  {
    Effective(w, events, k) && events[k].call.ModifyCall? && events[k].call.ticket == ticket
  }

  /** Event `j` is the last one to move the ticket's stop. */
  ghost predicate LastMove(w: World, events: seq<Event>, ticket: int, j: nat)
  {
    j < |events| && MovesStop(w, events, ticket, j)
    && forall k :: j < k < |events| ==> !MovesStop(w, events, ticket, k)
  }

  /** The stop is the one given by the last modification after event `i`, or else by the order itself. */
  ghost predicate StopSince(w: World, events: seq<Event>, p: Position, i: nat)
    requires i < |events| && events[i].Invoke? && events[i].call.PlaceCall?
  {
    || (p.sl == events[i].call.sl && forall k :: i < k < |events| ==> !MovesStop(w, events, p.ticket, k))
    || exists j: nat :: i < j && LastMove(w, events, p.ticket, j) && p.sl == events[j].call.sl
  }

  ghost predicate Accounted(w: World, events: seq<Event>, p: Position)
  {
    exists i: nat :: OrderedAt(w, events, p, i) && StopSince(w, events, p, i)
  }

  /** The state file is readable, and the running process has what it says. */
  ghost predicate Synced(w: World)
  {
    && !w.disk.file.Unreadable?
    && (w.mem.Some? ==> w.mem.value.ticketSeq == Load(w.disk).ticketSeq
                        && w.mem.value.positions == Load(w.disk).positions)
    && forall t :: t in Load(w.disk).positions ==> Load(w.disk).positions[t].ticket == t < Load(w.disk).ticketSeq
  }

  lemma CallKeepsTickets(mem: Memory, call: Call)
    requires forall t :: t in mem.positions ==> mem.positions[t].ticket == t < mem.ticketSeq
    ensures var o := Execute(mem, call);
            && (forall t :: t in o.mem.positions ==> o.mem.positions[t].ticket == t < o.mem.ticketSeq)
            && (!o.saves ==> o.mem.positions == mem.positions && o.mem.ticketSeq == mem.ticketSeq)
  {
    hide PnlCents, CloseVolume, CurrentPrices, EntryFill, ExitFill;
  }

  lemma StepKeepsSync(w: World, e: Event)
    requires Synced(w) && Undamaged(e)
    ensures Synced(Step(w, e))
  {
    if e.Invoke? && w.mem.Some? {
      CallKeepsTickets(w.mem.value, e.call);
      hide Execute;
    }
  }

  lemma {:induction false} RunKeepsSync(w: World, events: seq<Event>)
    requires Synced(w) && forall i :: 0 <= i < |events| ==> Undamaged(events[i])
    ensures Synced(Run(w, events))
  {
    hide Synced, Step;
    if events != [] {
      RunKeepsSync(w, events[..|events| - 1]);
      StepKeepsSync(Run(w, events[..|events| - 1]), events[|events| - 1]);
    }
  }

  /** What one call leaves of a position: the one just ordered, or one that was open before and kept all but
      its volume and, if this call moved it, its stop. */
  ghost predicate Inherits(mem: Memory, call: Call, p: Position)
  {
    if p.ticket in mem.positions then
      var b := mem.positions[p.ticket];
      && p == b.(volume := p.volume, sl := p.sl)
      && p.sl == (if call.ModifyCall? && call.ticket == p.ticket then call.sl else b.sl)
    else
      && call.PlaceCall?
      && var quote := CurrentPrices(mem.lastTick, call.symbol, call.feed).quote;
      && quote.Some?
      && p == Position(mem.ticketSeq, call.symbol, call.side, call.volume,
                       if call.side == Buy then quote.value.ask else quote.value.bid, call.time, call.sl, call.tp)
  }

  lemma CallInherits(mem: Memory, call: Call, t: int)
    requires forall u :: u in mem.positions ==> mem.positions[u].ticket == u < mem.ticketSeq
    requires t in Execute(mem, call).mem.positions
    ensures Inherits(mem, call, Execute(mem, call).mem.positions[t])
  {
    hide PnlCents, CloseVolume, CurrentPrices;
  }

  lemma EffectiveEarlier(w: World, events: seq<Event>, ticket: int, k: nat)
    requires k < |events| - 1
    ensures Effective(w, events, k) == Effective(w, events[..|events| - 1], k)
    ensures MovesStop(w, events, ticket, k) == MovesStop(w, events[..|events| - 1], ticket, k)
  {
    assert events[..|events| - 1][..k] == events[..k];
  }

  lemma OrderedStill(w: World, events: seq<Event>, b: Position, p: Position, i: nat)
    requires events != [] && OrderedAt(w, events[..|events| - 1], b, i)
    requires p == b.(volume := p.volume, sl := p.sl)
    ensures OrderedAt(w, events, p, i)
  {
    EffectiveEarlier(w, events, p.ticket, i);
    assert events[..|events| - 1][..i] == events[..i];
    hide Effective, Run, CurrentPrices;
  }

  lemma LastMoveStill(w: World, events: seq<Event>, ticket: int, j: nat)
    requires events != [] && LastMove(w, events[..|events| - 1], ticket, j)
    requires !MovesStop(w, events, ticket, |events| - 1)
    ensures LastMove(w, events, ticket, j) && events[j] == events[..|events| - 1][j]
  {
    hide MovesStop;
    forall k: nat | k < |events| - 1
      ensures MovesStop(w, events, ticket, k) == MovesStop(w, events[..|events| - 1], ticket, k)
    {
      EffectiveEarlier(w, events, ticket, k);
    }
  }

  lemma NeverMovedStill(w: World, events: seq<Event>, init: seq<Event>, ticket: int, i: nat)
    requires events != [] && init == events[..|events| - 1]
    requires forall k :: i < k < |init| ==> !MovesStop(w, init, ticket, k)
    requires !MovesStop(w, events, ticket, |events| - 1)
    ensures forall k :: i < k < |events| ==> !MovesStop(w, events, ticket, k)
  {
    hide MovesStop;
    forall k | i < k < |events| - 1 ensures !MovesStop(w, events, ticket, k) {
      EffectiveEarlier(w, events, ticket, k);
    }
  }

  lemma StopStill(w: World, events: seq<Event>, b: Position, p: Position, i: nat)
    requires i < |events| - 1 && events[i].Invoke? && events[i].call.PlaceCall?
    requires StopSince(w, events[..|events| - 1], b, i) && p.ticket == b.ticket
    requires MovesStop(w, events, p.ticket, |events| - 1) ==> events[|events| - 1].call.sl == p.sl
    requires !MovesStop(w, events, p.ticket, |events| - 1) ==> p.sl == b.sl
    ensures StopSince(w, events, p, i)
  {
    var n := |events| - 1;
    var init := events[..n];
    hide Effective;
    if MovesStop(w, events, p.ticket, n) {
      assert LastMove(w, events, p.ticket, n);
    } else if forall k :: i < k < n ==> !MovesStop(w, init, p.ticket, k) {
      NoLastMove(w, init, p.ticket, i);
      NeverMovedStill(w, events, init, p.ticket, i);
    } else {
      var j: nat :| i < j && LastMove(w, init, p.ticket, j) && b.sl == init[j].call.sl;
      LastMoveStill(w, events, p.ticket, j);
    }
  }

  lemma NoLastMove(w: World, events: seq<Event>, ticket: int, i: nat)
    requires forall k :: i < k < |events| ==> !MovesStop(w, events, ticket, k)
    ensures forall j: nat :: i < j ==> !LastMove(w, events, ticket, j)
  {
    hide MovesStop;
  }

  /** A position that the last event leaves alone is accounted for as before. */
  lemma AccountedStill(w: World, events: seq<Event>, b: Position, p: Position)
    requires events != [] && Accounted(w, events[..|events| - 1], b)
    requires p == b.(volume := p.volume, sl := p.sl)
    requires MovesStop(w, events, p.ticket, |events| - 1) ==> events[|events| - 1].call.sl == p.sl
    requires !MovesStop(w, events, p.ticket, |events| - 1) ==> p.sl == b.sl
    ensures Accounted(w, events, p)
  {
    var n := |events| - 1;
    var i: nat :| OrderedAt(w, events[..n], b, i) && StopSince(w, events[..n], b, i);
    OrderedStill(w, events, b, p, i);
    assert i < n && events[i] == events[..n][i] && events[i].Invoke? && events[i].call.PlaceCall?;
    hide MovesStop, OrderedAt, StopSince;
    StopStill(w, events, b, p, i);
  }

  lemma AccountedNow(w: World, events: seq<Event>, p: Position)
    requires events != [] && Effective(w, events, |events| - 1)
    requires var mem := Run(w, events[..|events| - 1]).mem.value;
             p.ticket !in mem.positions && Inherits(mem, events[|events| - 1].call, p)
    ensures Accounted(w, events, p)
  {
    hide CurrentPrices, Run;
    var n := |events| - 1;
    assert OrderedAt(w, events, p, n) && StopSince(w, events, p, n);
  }

  lemma LastEventAccounts(w: World, events: seq<Event>, t: int)
    requires events != [] && Undamaged(events[|events| - 1])
    requires var before := Run(w, events[..|events| - 1]);
             && Synced(before)
             && forall u :: u in Load(before.disk).positions ==>
                  Accounted(w, events[..|events| - 1], Load(before.disk).positions[u])
    requires t in Load(Run(w, events).disk).positions
    ensures Accounted(w, events, Load(Run(w, events).disk).positions[t])
  {
    hide Run, Accounted, Execute, Inherits;
    var n := |events| - 1;
    var before, e := Run(w, events[..n]), events[n];
    var p := Load(Run(w, events).disk).positions[t];
    assert Run(w, events) == Step(before, e) by { LastStep(w, events); }
    if Effective(w, events, n) {
      var mem := before.mem.value;
      assert Load(Run(w, events).disk).positions == Execute(mem, e.call).mem.positions by {
        CallKeepsTickets(mem, e.call);
      }
      CallInherits(mem, e.call, t);
      CallKeepsTickets(mem, e.call);
      if t in mem.positions {
        InheritedIsKept(w, events, mem, p);
        AccountedStill(w, events, mem.positions[t], p);
      } else {
        AccountedNow(w, events, p);
      }
    } else {
      assert Load(Run(w, events).disk).positions == Load(before.disk).positions;
      AccountedStill(w, events, p, p);
    }
  }

  lemma LastStep(w: World, events: seq<Event>)
    requires events != []
    ensures Run(w, events) == Step(Run(w, events[..|events| - 1]), events[|events| - 1])
  {
  }

  lemma InheritedIsKept(w: World, events: seq<Event>, mem: Memory, p: Position)
    requires events != [] && Effective(w, events, |events| - 1)
    requires p.ticket in mem.positions && Inherits(mem, events[|events| - 1].call, p)
    ensures p == mem.positions[p.ticket].(volume := p.volume, sl := p.sl)
    ensures MovesStop(w, events, p.ticket, |events| - 1) ==> events[|events| - 1].call.sl == p.sl
    ensures !MovesStop(w, events, p.ticket, |events| - 1) ==> p.sl == mem.positions[p.ticket].sl
  {
    hide Run;
  }

  /** Over any run without damaged files, whatever crashes: every open position goes back to one order that was
      carried out, with that order's symbol, side, time, target and fill, and its stop is the last one asked
      for. The running process holds the same positions as the file. */
  lemma {:induction false} PositionsKeepTheirOrders(w: World, events: seq<Event>)
    requires Synced(w) && Load(w.disk).positions == map[]
    requires forall i :: 0 <= i < |events| ==> Undamaged(events[i])
    ensures Synced(Run(w, events))
    ensures forall t :: t in Load(Run(w, events).disk).positions ==>
              Accounted(w, events, Load(Run(w, events).disk).positions[t])
  {
    hide Synced, Accounted, Step, Load, Run;
    RunKeepsSync(w, events);
    if events != [] {
      PositionsKeepTheirOrders(w, events[..|events| - 1]);
      forall t | t in Load(Run(w, events).disk).positions
        ensures Accounted(w, events, Load(Run(w, events).disk).positions[t])
      {
        LastEventAccounts(w, events, t);
      }
    } else {
      EmptyRun(w);
    }
  }

  lemma EmptyRun(w: World)
    ensures Run(w, []) == w
  {
  }

  lemma OrdersFromFirstBoot(events: seq<Event>)
    requires forall i :: 0 <= i < |events| ==> Undamaged(events[i])
    ensures forall t :: t in Load(Run(FIRST_BOOT, events).disk).positions ==>
              Accounted(FIRST_BOOT, events, Load(Run(FIRST_BOOT, events).disk).positions[t])
  {
    PositionsKeepTheirOrders(FIRST_BOOT, events);
  }
}
