/** The history client against this repository's own bridge, which fills short answers with synthetic bars. */
module LocalBridge {
  import opened BarStore
  import opened HistoryClient
  import opened HistoryStore
  import opened Market
  import opened Numbers
  import opened TimeSeries

  /** Rows of the random walk: one timeframe apart, the last one stamped with the bar forming now. */
  ghost predicate Synthetic(pad: seq<Bar>, count: int, seconds: int, current: int)
  {
    && |pad| == count
    && (pad != [] ==> Last(pad).time == current)
    && forall i :: 0 < i < |pad| ==> pad[i].time == pad[i - 1].time + seconds
  }

  /** The bridge's answer to the first request of a fetch, while its live bars are `buffer`; a request for more
      than 20000 bars is rejected. Nothing is said about later requests: the buffer may change meanwhile. */
  ghost predicate Serves(bridge: Bridge, buffer: seq<Bar>, pad: seq<Bar>, bars: int, seconds: int, current: int)
    requires bars >= 1
  {
    if bars > 20_000 then bridge(0, bars, 0) == None
    else exists h: History ::
           && Answers(h, buffer, bars, None, 0)
           && Synthetic(pad, h.padding, seconds, current)
           && bridge(0, bars, 0) == Some(pad + h.page)
  }

  lemma FirstPage(buffer: seq<Bar>, n: int)
    requires n >= 0
    ensures LiveSlice(buffer, n, 0) == Newest(buffer, n)
  {
  }

  /** The first answer always has exactly as many rows as asked for, so the walk never runs and the rest
      of the exchange does not matter. */
  lemma FetchIsFirstAnswer(bridge: Bridge, buffer: seq<Bar>, pad: seq<Bar>, bars: int, seconds: int, current: int)
    requires bars >= 1 && Serves(bridge, buffer, pad, bars, seconds, current)
    ensures if bars > 20_000 then FetchSpec(bridge, bars) == BridgeUnavailable
            else
              && |pad| == MaxInt(0, bars - |buffer|) && Synthetic(pad, |pad|, seconds, current)
              && FetchSpec(bridge, bars) == Fetched(CoerceSchema(pad + Newest(buffer, bars)))
  {
    if bars <= 20_000 {
      FirstPage(buffer, bars);
      var rows := pad + Newest(buffer, bars);
      assert UpTo(buffer, None) == buffer;
      assert bridge(0, bars, 0) == Some(rows) && |rows| == bars;
      hide Newest, LiveSlice, CoerceSchema, Answers, Synthetic;
      WalkUnroll(bridge, bars, 1, bars, rows);
      CoerceNoLonger(rows);
      assert Combine(rows, bars) == CoerceSchema(rows);
    }
  }

  lemma SyntheticAscends(pad: seq<Bar>, seconds: int, current: int)
    requires seconds > 0 && Synthetic(pad, |pad|, seconds, current)
    ensures Ascending(pad)
  {
    forall i, j | 0 <= i < j < |pad| ensures pad[i].time < pad[j].time { LaterStamp(pad, seconds, current, i, j); }
  }

  lemma {:induction false} LaterStamp(pad: seq<Bar>, seconds: int, current: int, i: nat, j: nat)
    requires seconds > 0 && Synthetic(pad, |pad|, seconds, current) && i < j < |pad|
    ensures pad[i].time < pad[j].time
  {
    if i < j - 1 { LaterStamp(pad, seconds, current, i, j - 1); }
  }

  /** Which bar the fetch holds for each time: a synthetic one wherever there is one, even over a live bar
      of the same time. */
  lemma SyntheticRowsWin(bridge: Bridge, buffer: seq<Bar>, pad: seq<Bar>, bars: int, seconds: int, current: int)
    requires 1 <= bars <= 20_000 && seconds > 0 && Serves(bridge, buffer, pad, bars, seconds, current)
    ensures FetchSpec(bridge, bars).Fetched?
    ensures var rows := FetchSpec(bridge, bars).rows;
            && Ascending(rows)
            && (forall t :: Lookup(rows, t) == Else(Lookup(pad, t), LookupFirst(Newest(buffer, bars), t)))
            && forall i :: 0 <= i < |pad| ==> pad[i] in rows
  {
    FetchIsFirstAnswer(bridge, buffer, pad, bars, seconds, current);
    var live := Newest(buffer, bars);
    var rows := CoerceSchema(pad + live);
    hide CoerceSchema, Newest, Serves, FetchSpec;
    CoerceProps(pad + live);
    SyntheticAscends(pad, seconds, current);
    forall t ensures Lookup(rows, t) == Else(Lookup(pad, t), LookupFirst(live, t)) {
      LookupConcat(pad, live, t);
      AscendingLookup(pad, t);
    }
    forall i | 0 <= i < |pad| ensures pad[i] in rows {
      AscendingAt(pad, i);
      LookupHasTime(rows, pad[i].time);
    }
  }

  lemma AscendingAt(s: seq<Bar>, i: nat)
    requires Ascending(s) && i < |s|
    ensures Lookup(s, s[i].time) == Some(s[i])
  {
    assert s[0..|s|] == s;
    SliceLookup(s, 0, |s|, s[i].time, i);
  }

  // ---- When a fetch is live ---------------------------------------------

  ghost predicate OnlyFrom(rows: seq<Bar>, buffer: seq<Bar>)
  {
    forall i :: 0 <= i < |rows| ==> rows[i] in buffer
  }

  ghost predicate LiveFetch(bridge: Bridge, buffer: seq<Bar>, bars: int)
  {
    FetchSpec(bridge, bars).Fetched? && OnlyFrom(FetchSpec(bridge, bars).rows, buffer)
  }

  lemma {:induction false} LookupFirstIn(s: seq<Bar>, t: int)
    requires LookupFirst(s, t).Some?
    ensures LookupFirst(s, t).value in s
  {
    if LookupFirst(Init(s), t).Some? {
      LookupFirstIn(Init(s), t);
      assert forall x :: x in Init(s) ==> x in s;
    }
  }

  lemma CoercedFrom(rows: seq<Bar>, buffer: seq<Bar>)
    requires OnlyFrom(rows, buffer)
    ensures OnlyFrom(CoerceSchema(rows), buffer)
  {
    var r := CoerceSchema(rows);
    CoerceProps(rows);
    forall i | 0 <= i < |r| ensures r[i] in buffer {
      AscendingAt(r, i);
      LookupFirstIn(rows, r[i].time);
    }
  }

  /** With enough live bars nothing else is fetched: of an ordered buffer exactly the newest ones. */
  lemma EnoughIsLive(bridge: Bridge, buffer: seq<Bar>, pad: seq<Bar>, bars: int, seconds: int, current: int)
    requires 1 <= bars <= 20_000 && bars <= |buffer| && Serves(bridge, buffer, pad, bars, seconds, current)
    ensures LiveFetch(bridge, buffer, bars)
    ensures Ascending(buffer) ==> FetchSpec(bridge, bars) == Fetched(Newest(buffer, bars))
  {
    FetchIsFirstAnswer(bridge, buffer, pad, bars, seconds, current);
    var live := Newest(buffer, bars);
    assert pad + live == live;
    assert OnlyFrom(live, buffer);
    if Ascending(buffer) { NewestAscending(buffer, bars); }
    hide Newest, Serves, FetchSpec, OnlyFrom, CoerceSchema;
    CoercedFrom(live, buffer);
    if Ascending(buffer) {
      forall t ensures Lookup(live, t) == LookupFirst(live, t) { AscendingLookup(live, t); }
      CoerceUnique(live, live);
    }
  }

  /** Answer by answer: the fetch is live exactly if every row filled in happens to be a live bar. */
  lemma LiveIffPaddingIs(bridge: Bridge, buffer: seq<Bar>, pad: seq<Bar>, bars: int, seconds: int, current: int)
    requires 1 <= bars <= 20_000 && seconds > 0 && Serves(bridge, buffer, pad, bars, seconds, current)
    ensures LiveFetch(bridge, buffer, bars) <==> OnlyFrom(pad, buffer)
  {
    FetchIsFirstAnswer(bridge, buffer, pad, bars, seconds, current);
    SyntheticRowsWin(bridge, buffer, pad, bars, seconds, current);
    var live := Newest(buffer, bars);
    assert OnlyFrom(live, buffer);
    hide Newest, Serves, FetchSpec, CoerceSchema;
    if OnlyFrom(pad, buffer) { CoercedFrom(pad + live, buffer); }
  }

  function RowAt(time: int, price: real): Bar { Bar(time, price, price, price, price, 50) }

  function Flat(count: nat, seconds: int, current: int, price: real): seq<Bar>
  {
    if count == 0 then [] else Flat(count - 1, seconds, current - seconds, price) + [RowAt(current, price)]
  }

  lemma {:induction false} FlatIsSynthetic(count: nat, seconds: int, current: int, price: real)
    ensures var pad := Flat(count, seconds, current, price);
            Synthetic(pad, count, seconds, current) && forall i :: 0 <= i < |pad| ==> pad[i].open == price
  {
    if count > 0 {
      FlatIsSynthetic(count - 1, seconds, current - seconds, price);
    }
  }

  function AboveAll(buffer: seq<Bar>): (p: real)
    ensures forall i :: 0 <= i < |buffer| ==> buffer[i].open < p
  {
    if buffer == [] then 1.0
    else MaxReal(AboveAll(buffer[..|buffer| - 1]), buffer[|buffer| - 1].open + 1.0)
  }

  /** With too few live bars, an answer that is not live. */
  lemma TooFewIsNotLive(buffer: seq<Bar>, bars: int, seconds: int, current: int)
    returns (bridge: Bridge, pad: seq<Bar>)
    requires |buffer| < bars <= 20_000 && seconds > 0
    ensures Serves(bridge, buffer, pad, bars, seconds, current) && !LiveFetch(bridge, buffer, bars)
  {
    var price := AboveAll(buffer);
    pad := Flat(bars - |buffer|, seconds, current, price);
    FlatIsSynthetic(bars - |buffer|, seconds, current, price);
    var rows := pad + buffer;
    bridge := (r: nat, n: int, o: int) => Some(rows);
    ShortAnswer(bridge, buffer, pad, bars, seconds, current);
    SyntheticRowsWin(bridge, buffer, pad, bars, seconds, current);
    hide Serves, FetchSpec;
    assert pad[0] in FetchSpec(bridge, bars).rows && pad[0] !in buffer;
  }

  lemma ShortAnswer(bridge: Bridge, buffer: seq<Bar>, pad: seq<Bar>, bars: int, seconds: int, current: int)
    requires |buffer| < bars <= 20_000 && Synthetic(pad, bars - |buffer|, seconds, current)
    requires bridge(0, bars, 0) == Some(pad + buffer)
    ensures Serves(bridge, buffer, pad, bars, seconds, current)
  {
    FirstPage(buffer, bars);
    assert Answers(History(buffer, bars - |buffer|, |buffer|), buffer, bars, None, 0);
    hide Synthetic, Answers;
  }

  /** The client's promise never to return synthetic data is kept, whatever the bridge draws, if and only
      if the bridge holds at least as many live bars as are asked for. */
  lemma LiveOnlyIff(buffer: seq<Bar>, bars: int, seconds: int, current: int)
    requires 1 <= bars <= 20_000 && seconds > 0
    ensures (forall bridge: Bridge, pad: seq<Bar> ::
               Serves(bridge, buffer, pad, bars, seconds, current) ==> LiveFetch(bridge, buffer, bars))
            <==> |buffer| >= bars
  {
    hide Serves, LiveFetch;
    if |buffer| >= bars {
      forall bridge: Bridge, pad: seq<Bar> | Serves(bridge, buffer, pad, bars, seconds, current)
        ensures LiveFetch(bridge, buffer, bars)
      {
        EnoughIsLive(bridge, buffer, pad, bars, seconds, current);
      }
    } else {
      var bridge, pad := TooFewIsNotLive(buffer, bars, seconds, current);
    }
  }

  /** One live bar, two asked for: the synthetic bar carries the live bar's time and is all that is
      returned. */
  lemma ShortBufferLosesItsBar(bridge: Bridge, pad: seq<Bar>)
    requires Serves(bridge, [Bar(7200, 1.1, 1.2, 1.0, 1.1, 7)], pad, 2, 3600, 7200)
    ensures |pad| == 1 && FetchSpec(bridge, 2) == Fetched(pad)
  {
    var buffer := [Bar(7200, 1.1, 1.2, 1.0, 1.1, 7)];
    FetchIsFirstAnswer(bridge, buffer, pad, 2, 3600, 7200);
    var live := Newest(buffer, 2);
    assert live == buffer && |pad| == 1 && pad[0].time == 7200;
    hide Serves, FetchSpec;
    forall t ensures Lookup(pad, t) == LookupFirst(pad + live, t) {
      LookupConcat(pad, live, t);
      AscendingLookup(pad, t);
      if t != 7200 { LookupAbsent(live, t); } else { AscendingAt(pad, 0); }
    }
    CoerceUnique(pad + live, pad);
  }
}
