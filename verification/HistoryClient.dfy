/** Paged history fetching against a bridge that may cap its answers and keep growing. */
module HistoryClient {
  import opened BarStore
  import opened HistoryStore
  import opened Market
  import opened Numbers
  import opened TimeSeries

  const PAGE_SIZE := 500

  /** The answer to the r-th request for `n` bars at an offset; none when the bridge is unreachable. */
  type Bridge = (nat, int, int) -> Option<seq<Bar>>

  datatype FetchResult = Fetched(rows: seq<Bar>) | InvalidCount | BridgeUnavailable

  datatype Walked = Walked(rows: seq<Bar>, collected: int) | Lost

  /** The paged walk: continue from `collected` rows with request `r`. */
  function Walk(bridge: Bridge, bars: int, r: nat, collected: int, rows: seq<Bar>): Walked
    decreases bars - collected
  {
    if collected >= bars then Walked(rows, collected)
    else
      var need := MinInt(PAGE_SIZE, bars - collected);
      var answer := bridge(r, need, collected);
      if answer.None? then Lost
      else if answer.value == [] then Walked(rows, collected)
      else if |answer.value| < need then Walked(rows + answer.value, collected + |answer.value|)
      else Walk(bridge, bars, r + 1, collected + |answer.value|, rows + answer.value)
  }

  /** Coerced, deduplicated, sorted and cut to at most `bars` rows. */
  function Combine(rows: seq<Bar>, bars: int): seq<Bar>
    requires bars > 0
  {
    var df := CoerceSchema(rows);
    if |df| > bars then df[..bars] else df
  }

  function FetchSpec(bridge: Bridge, bars: int): FetchResult
  {
    if bars <= 0 then InvalidCount
    else
      var bulk := bridge(0, bars, 0);
      if bulk.None? then BridgeUnavailable
      else
        var w := Walk(bridge, bars, 1, |bulk.value|, bulk.value);
        if w.Lost? || w.rows == [] then BridgeUnavailable else Fetched(Combine(w.rows, bars))
  }

  /** Bulk request first, then pages of at most 500 bars until enough, a short page or an empty one. */
  method Fetch(bridge: Bridge, bars: int) returns (result: FetchResult)
    ensures result == FetchSpec(bridge, bars)
  {
    if bars <= 0 { return InvalidCount; }
    var frames: seq<Bar> := [];
    var offset, collected := 0, 0;
    var requests: nat := 0;
    var bulk := bridge(requests, bars, 0);
    requests := requests + 1;
    if bulk.None? { return BridgeUnavailable; }
    if bulk.value != [] {
      frames := frames + bulk.value;
      collected := |bulk.value|;
      offset := collected;
    }
    assert frames == bulk.value;
    ghost var w := Walk(bridge, bars, requests, collected, frames);
    while collected < bars
      invariant offset == collected
      invariant w == Walk(bridge, bars, requests, collected, frames)
      decreases bars - collected
    {
      var need := MinInt(PAGE_SIZE, bars - collected);
      var rows := bridge(requests, need, offset);
      requests := requests + 1;
      if rows.None? { return BridgeUnavailable; }
      if rows.value == [] { break; }
      frames := frames + rows.value;
      collected := collected + |rows.value|;
      offset := offset + |rows.value|;
      if |rows.value| < need { break; }
    }
    if frames == [] { return BridgeUnavailable; }
    result := Fetched(Combine(frames, bars));
  }

  lemma CombineIsBounded(rows: seq<Bar>, bars: int)
    requires bars > 0
    ensures var all := CoerceSchema(rows);
            Combine(rows, bars) <= all && |Combine(rows, bars)| == MinInt(bars, |all|) && Ascending(Combine(rows, bars))
  {
    hide CoerceSchema;
    CoerceProps(rows);
  }

  /** Whatever the bridge answers, a fetch returns at most what was asked for, in order and without repeats. */
  lemma FetchIsBounded(bridge: Bridge, bars: int)
    ensures var r := FetchSpec(bridge, bars);
            r.Fetched? ==> bars > 0 && |r.rows| <= bars && Ascending(r.rows)
  {
    hide Walk, Combine;
    if FetchSpec(bridge, bars).Fetched? {
      var bulk := bridge(0, bars, 0).value;
      CombineIsBounded(Walk(bridge, bars, 1, |bulk|, bulk).rows, bars);
    }
  }

  /** Of a first answer with more rows than asked for the oldest are kept, not the newest. */
  lemma OverAnswerKeepsOldest(bridge: Bridge, bars: int, rows: seq<Bar>)
    requires bars > 0 && bridge(0, bars, 0) == Some(rows) && |rows| >= bars
    ensures var all := CoerceSchema(rows);
            FetchSpec(bridge, bars) == Fetched(all[..MinInt(bars, |all|)])
  {
    CombineIsBounded(rows, bars);
    hide Combine, CoerceSchema;
    assert Walk(bridge, bars, 1, |rows|, rows) == Walked(rows, |rows|);
  }

  // ---- What the bridge serves -------------------------------------------

  datatype Window = Window(lo: nat, hi: nat)

  /** Over one underlying history, each request sees a live window that only moves forward (the last
      one listed serves every later request) and is answered with the newest `min(n, cap)` bars of it
      past the offset. */
  datatype Server = Server(history: seq<Bar>, windows: seq<Window>, cap: nat)
  {
    ghost predicate Valid()
    {
      && Ascending(history)
      && cap >= 1
      && windows != []
      && (forall i :: 0 <= i < |windows| ==> windows[i].lo <= windows[i].hi <= |history|)
      && (forall i, j :: 0 <= i <= j < |windows| ==> windows[i].lo <= windows[j].lo && windows[i].hi <= windows[j].hi)
    }

    function Lo(r: nat): nat
      requires windows != []
    {
      windows[MinInt(r, |windows| - 1)].lo
    }

    function Hi(r: nat): nat
      requires windows != []
    {
      windows[MinInt(r, |windows| - 1)].hi
    }

    /** Start and end, in the history, of the page answered to a request. */
    function PageEnd(r: nat, offset: int): int
      requires windows != []
    {
      MaxInt(Lo(r), Hi(r) - offset)
    }

    function PageStart(r: nat, n: int, offset: int): int
      requires windows != []
    {
      MaxInt(Lo(r), PageEnd(r, offset) - MinInt(n, cap))
    }

    ghost function Answer(r: nat, n: int, offset: int): seq<Bar>
      requires Valid() && n >= 0 && offset >= 0
    {
      LiveSlice(history[Lo(r)..Hi(r)], MinInt(n, cap), offset)
    }

    ghost predicate Answers(bridge: Bridge, r: nat, n: int, offset: int)
      requires Valid() && n >= 0 && offset >= 0
    {
      bridge(r, n, offset) == Some(Answer(r, n, offset))
    }

    ghost predicate AnswersFor(bridge: Bridge)
      requires Valid()
    {
      forall r: nat, n: int, offset: int :: n >= 1 && offset >= 0 ==> Answers(bridge, r, n, offset)
    }
  }

  lemma WindowsMoveForward(s: Server, q: nat, r: nat)
    requires s.Valid() && q <= r
    ensures s.Lo(q) <= s.Lo(r) && s.Hi(q) <= s.Hi(r)
    ensures s.Lo(r) <= s.Hi(r) <= |s.history|
  {
  }

  /** In the history's own coordinates a page is a slice of it. */
  lemma PageIsSlice(s: Server, bridge: Bridge, r: nat, n: int, offset: int)
    requires s.Valid() && s.AnswersFor(bridge) && n >= 1 && offset >= 0
    ensures 0 <= s.PageStart(r, n, offset) <= s.PageEnd(r, offset) <= |s.history|
    ensures bridge(r, n, offset) == Some(s.history[s.PageStart(r, n, offset)..s.PageEnd(r, offset)])
  {
    var lo, hi := s.Lo(r), s.Hi(r);
    var live := s.history[lo..hi];
    var end := MaxInt(0, |live| - offset);
    var start := MaxInt(0, end - MinInt(n, s.cap));
    WindowsMoveForward(s, r, r);
    assert s.Answers(bridge, r, n, offset);
    assert LiveSlice(live, MinInt(n, s.cap), offset) == live[start..end];
    hide Server.AnswersFor, LiveSlice;
    assert lo + end == s.PageEnd(r, offset) && lo + start == s.PageStart(r, n, offset);
    SliceOfSlice(s.history, lo, hi, start, end);
  }

  lemma SliceOfSlice(h: seq<Bar>, lo: int, hi: int, x: int, y: int)
    requires 0 <= lo <= hi <= |h| && 0 <= x <= y <= hi - lo
    ensures h[lo..hi][x..y] == h[lo + x..lo + y]
  {
    var a, b := h[lo..hi][x..y], h[lo + x..lo + y];
    assert forall i :: 0 <= i < y - x ==> a[i] == h[lo..hi][x + i] == h[lo + x + i] == b[i];
  }

  ghost predicate Covers(rows: seq<Bar>, s: seq<Bar>)
  {
    forall t :: LookupFirst(rows, t) == Lookup(s, t)
  }

  lemma SliceLookup(h: seq<Bar>, a: int, b: int, t: int, i: int)
    requires Ascending(h) && 0 <= a <= i < b <= |h| && h[i].time == t
    ensures Lookup(h[a..b], t) == Some(h[i])
  {
    LookupFound(h[a..b], i - a);
    LookupHasTime(h[a..b], t);
    var x := Lookup(h[a..b], t).value;
    var j :| 0 <= j < b - a && h[a..b][j] == x;
    assert h[a + j].time == h[i].time;
  }

  /** Overlapping or adjacent slices of an ascending history look up like their union. */
  lemma SliceUnion(h: seq<Bar>, a: int, b: int, c: int, d: int, t: int)
    requires Ascending(h)
    requires 0 <= a <= b <= |h| && 0 <= c <= d <= |h| && c <= b && a <= d
    ensures Else(Lookup(h[a..b], t), Lookup(h[c..d], t)) == Lookup(h[MinInt(a, c)..MaxInt(b, d)], t)
  {
    var lo, hi := MinInt(a, c), MaxInt(b, d);
    if i :| lo <= i < hi && h[i].time == t {
      SliceLookup(h, lo, hi, t, i);
      if a <= i < b { SliceLookup(h, a, b, t, i); }
      else {
        SliceLookup(h, c, d, t, i);
        forall j | 0 <= j < b - a ensures h[a..b][j].time != t { assert h[a + j].time != h[i].time; }
        LookupAbsent(h[a..b], t);
      }
    } else {
      LookupAbsent(h[a..b], t);
      LookupAbsent(h[c..d], t);
      LookupAbsent(h[lo..hi], t);
    }
  }

  lemma CoverMore(h: seq<Bar>, rows: seq<Bar>, a: int, b: int, c: int, d: int)
    requires Ascending(h)
    requires 0 <= a <= b <= |h| && 0 <= c <= d <= |h| && c <= b && a <= d
    requires Covers(rows, h[a..b])
    ensures Covers(rows + h[c..d], h[MinInt(a, c)..MaxInt(b, d)])
  {
    forall t
      ensures LookupFirst(rows + h[c..d], t) == Lookup(h[MinInt(a, c)..MaxInt(b, d)], t)
    {
      LookupConcat(rows, h[c..d], t);
      AscendingLookup(h[c..d], t);
      SliceUnion(h, a, b, c, d, t);
    }
  }

  lemma CoveredIsCoerced(rows: seq<Bar>, s: seq<Bar>)
    requires Ascending(s) && Covers(rows, s)
    ensures CoerceSchema(rows) == s
  {
    CoerceUnique(rows, s);
  }

  /** From request `r` on, by each request the walk sends and gets bars for, the window has gained at its
      newest end no more bars than were collected before it. */
  ghost predicate GrowthCovered(s: Server, bridge: Bridge, bars: int, r: nat, collected: int)
    requires s.windows != []
    decreases bars - collected
  {
    collected < bars ==>
      var need := MinInt(PAGE_SIZE, bars - collected);
      var answer := bridge(r, need, collected);
      answer.Some? && answer.value != [] ==>
        && s.Hi(r) - s.Hi(0) <= collected
        && (|answer.value| >= need ==> GrowthCovered(s, bridge, bars, r + 1, collected + |answer.value|))
  }

  /** The walk's rows cover the gap-free slice from `a` to the bulk request's newest bar, and the
      oldest page reached back `collected` bars from the newest bar of some request. */
  ghost predicate GapFreeFrom(s: Server, w: Walked, a: int)
    requires s.Valid()
  {
    && w.Walked?
    && 0 <= a <= s.Hi(0) && s.Hi(0) - w.collected <= a
    && Covers(w.rows, s.history[a..s.Hi(0)])
    && exists r: nat :: a <= s.Hi(r) - w.collected
  }

  /** One page of the walk: it lies against or inside what is covered, and extends it. */
  lemma PageExtends(s: Server, bridge: Bridge, r: nat, need: int, collected: int, rows: seq<Bar>, a: int)
    returns (a': int)
    requires s.Valid() && s.AnswersFor(bridge) && r >= 1 && need >= 1 && collected >= 0
    requires s.Hi(r) - s.Hi(0) <= collected
    requires 0 <= a <= s.Hi(0) && s.Hi(0) - collected <= a <= s.Hi(r - 1) - collected
    requires Covers(rows, s.history[a..s.Hi(0)])
    ensures bridge(r, need, collected).Some? && |bridge(r, need, collected).value| <= need
    ensures var page := bridge(r, need, collected).value;
            page != [] ==>
              && 0 <= a' <= s.Hi(0)
              && s.Hi(0) - (collected + |page|) <= a' <= s.Hi(r) - (collected + |page|)
              && Covers(rows + page, s.history[a'..s.Hi(0)])
  {
    var from, to := s.PageStart(r, need, collected), s.PageEnd(r, collected);
    PageIsSlice(s, bridge, r, need, collected);
    a' := a;
    if from < to {
      WindowsMoveForward(s, r - 1, r);
      CoverMore(s.history, rows, a, s.Hi(0), from, to);
      a' := MinInt(a, from);
    }
  }

  /** One step of the walk, spelled out. */
  lemma WalkUnroll(bridge: Bridge, bars: int, r: nat, collected: int, rows: seq<Bar>)
    ensures collected >= bars ==> Walk(bridge, bars, r, collected, rows) == Walked(rows, collected)
    ensures var need := MinInt(PAGE_SIZE, bars - collected);
            collected < bars && bridge(r, need, collected).Some? ==>
              var page := bridge(r, need, collected).value;
              Walk(bridge, bars, r, collected, rows) ==
                if |page| < need then Walked(rows + page, collected + |page|)
                else Walk(bridge, bars, r + 1, collected + |page|, rows + page)
  {
    var need := MinInt(PAGE_SIZE, bars - collected);
    if collected < bars && bridge(r, need, collected).Some? && bridge(r, need, collected).value == [] {
      assert rows + [] == rows;
    }
  }

  lemma GrowthUnroll(s: Server, bridge: Bridge, bars: int, r: nat, collected: int)
    requires s.windows != [] && collected < bars
    ensures var need := MinInt(PAGE_SIZE, bars - collected);
            bridge(r, need, collected).Some? && bridge(r, need, collected).value != [] ==>
              var page := bridge(r, need, collected).value;
              GrowthCovered(s, bridge, bars, r, collected) <==>
                && s.Hi(r) - s.Hi(0) <= collected
                && (|page| >= need ==> GrowthCovered(s, bridge, bars, r + 1, collected + |page|))
  {
  }

  lemma {:induction false} WalkIsGapFree(s: Server, bridge: Bridge, bars: int, r: nat, collected: int,
                                        rows: seq<Bar>, a: int)
    returns (a': int)
    requires s.Valid() && s.AnswersFor(bridge) && r >= 1
    requires GrowthCovered(s, bridge, bars, r, collected)
    requires 0 <= collected <= bars
    requires 0 <= a <= s.Hi(0) && s.Hi(0) - collected <= a <= s.Hi(r - 1) - collected
    requires Covers(rows, s.history[a..s.Hi(0)])
    ensures var w := Walk(bridge, bars, r, collected, rows);
            GapFreeFrom(s, w, a') && w.collected <= bars
    decreases bars - collected
  {
    assert s.windows != [];
    hide Server.Lo, Server.Hi, Server.Valid, Server.AnswersFor, Covers, GapFreeFrom, GrowthCovered, Walk;
    WalkUnroll(bridge, bars, r, collected, rows);
    a' := a;
    if collected >= bars {
      StopsGapFree(s, rows, collected, a, r - 1);
    } else {
      var need := MinInt(PAGE_SIZE, bars - collected);
      GrowthUnroll(s, bridge, bars, r, collected);
      PageIsShort(s, bridge, r, need, collected);
      var page := bridge(r, need, collected).value;
      if page == [] {
        assert rows + page == rows;
        StopsGapFree(s, rows, collected, a, r - 1);
      } else {
        a' := PageExtends(s, bridge, r, need, collected, rows, a);
        if |page| < need {
          StopsGapFree(s, rows + page, collected + |page|, a', r);
        } else {
          a' := WalkIsGapFree(s, bridge, bars, r + 1, collected + need, rows + page, a');
        }
      }
    }
  }

  lemma PageIsShort(s: Server, bridge: Bridge, r: nat, n: int, offset: int)
    requires s.Valid() && s.AnswersFor(bridge) && n >= 1 && offset >= 0
    ensures bridge(r, n, offset).Some? && |bridge(r, n, offset).value| <= n
  {
    PageIsSlice(s, bridge, r, n, offset);
  }

  lemma StopsGapFree(s: Server, rows: seq<Bar>, collected: int, a: int, r: nat)
    requires s.Valid()
    requires 0 <= a <= s.Hi(0) && s.Hi(0) - collected <= a <= s.Hi(r) - collected
    requires Covers(rows, s.history[a..s.Hi(0)])
    ensures GapFreeFrom(s, Walked(rows, collected), a)
  {
    hide Covers;
  }

  /** The bulk answer: the newest bars of the first window. */
  lemma BulkIsNewest(s: Server, bridge: Bridge, bars: int)
    requires s.Valid() && s.AnswersFor(bridge) && bars >= 1
    ensures 0 <= s.PageStart(0, bars, 0) <= s.Hi(0) <= |s.history|
    ensures bridge(0, bars, 0) == Some(s.history[s.PageStart(0, bars, 0)..s.Hi(0)])
    ensures |bridge(0, bars, 0).value| <= bars
    ensures bridge(0, bars, 0).value == [] <==> s.Lo(0) == s.Hi(0)
  {
    PageIsSlice(s, bridge, 0, bars, 0);
  }

  /** The growth of the server's buffer is covered all through a fetch. */
  ghost predicate FetchCovered(s: Server, bridge: Bridge, bars: int)
    requires s.windows != []
  {
    bridge(0, bars, 0).Some? && GrowthCovered(s, bridge, bars, 1, |bridge(0, bars, 0).value|)
  }

  lemma BulkIsGapFree(s: Server, bridge: Bridge, bars: int) returns (a: int)
    requires s.Valid() && s.AnswersFor(bridge) && bars >= 1
    requires FetchCovered(s, bridge, bars)
    ensures bridge(0, bars, 0).Some? && |bridge(0, bars, 0).value| == s.Hi(0) - s.PageStart(0, bars, 0)
    ensures var bulk := bridge(0, bars, 0).value;
            var w := Walk(bridge, bars, 1, |bulk|, bulk);
            GapFreeFrom(s, w, a) && w.collected <= bars && (bulk != [] ==> w.rows != [])
  {
    BulkIsNewest(s, bridge, bars);
    var from := s.PageStart(0, bars, 0);
    var bulk := s.history[from..s.Hi(0)];
    assert Covers(bulk, bulk) by {
      forall t ensures LookupFirst(bulk, t) == Lookup(bulk, t) { AscendingLookup(bulk, t); }
    }
    hide Covers, Server.AnswersFor, Server.PageStart, GapFreeFrom, GrowthCovered, Walk;
    a := WalkIsGapFree(s, bridge, bars, 1, |bulk|, bulk, from);
    if bulk != [] { WalkKeepsRows(bridge, bars, 1, |bulk|, bulk); }
  }

  lemma {:induction false} WalkKeepsRows(bridge: Bridge, bars: int, r: nat, collected: int, rows: seq<Bar>)
    requires rows != []
    ensures var w := Walk(bridge, bars, r, collected, rows); w.Walked? ==> w.rows != []
    decreases bars - collected
  {
    if collected < bars {
      var need := MinInt(PAGE_SIZE, bars - collected);
      var answer := bridge(r, need, collected);
      if answer.Some? && |answer.value| >= need {
        WalkKeepsRows(bridge, bars, r + 1, collected + |answer.value|, rows + answer.value);
      }
    }
  }

  lemma CombineGapFree(s: Server, w: Walked, a: int, bars: int)
    requires s.Valid() && GapFreeFrom(s, w, a) && w.collected <= bars && bars >= 1
    ensures Combine(w.rows, bars) == s.history[a..s.Hi(0)]
  {
    CoveredIsCoerced(w.rows, s.history[a..s.Hi(0)]);
  }

  /** Against a bridge whose buffer keeps growing while the fetch runs, the result is one gap-free
      stretch of the history ending at the newest bar of the bulk request, never more than asked for. */
  lemma GrowingFetchHasNoGaps(s: Server, bridge: Bridge, bars: int) returns (a: int)
    requires s.Valid() && s.AnswersFor(bridge) && bars >= 1
    requires s.Lo(0) < s.Hi(0)
    requires FetchCovered(s, bridge, bars)
    ensures 0 <= a <= s.Hi(0) && s.Hi(0) - a <= bars
    ensures FetchSpec(bridge, bars) == Fetched(s.history[a..s.Hi(0)])
  {
    BulkIsNewest(s, bridge, bars);
    a := BulkIsGapFree(s, bridge, bars);
    var bulk := bridge(0, bars, 0).value;
    CombineGapFree(s, Walk(bridge, bars, 1, |bulk|, bulk), a, bars);
  }

  /** The walk collects what it says and never more than asked for. */
  lemma {:induction false} WalkCounts(s: Server, bridge: Bridge, bars: int, r: nat, collected: int, rows: seq<Bar>)
    requires s.Valid() && s.AnswersFor(bridge) && 0 <= collected == |rows| <= bars
    ensures var w := Walk(bridge, bars, r, collected, rows);
            w.Walked? && rows <= w.rows && |w.rows| == w.collected <= bars
    decreases bars - collected
  {
    hide Server.Valid, Server.AnswersFor, Walk;
    WalkUnroll(bridge, bars, r, collected, rows);
    if collected < bars {
      var need := MinInt(PAGE_SIZE, bars - collected);
      PageIsShort(s, bridge, r, need, collected);
      var page := bridge(r, need, collected).value;
      if |page| == need { WalkCounts(s, bridge, bars, r + 1, collected + need, rows + page); }
    }
  }

  /** Growth that is not covered shows: some row of the walk is newer than the bulk request's newest bar. */
  lemma {:induction false} UncoveredRowIsNewer(s: Server, bridge: Bridge, bars: int, r: nat, collected: int,
                                              rows: seq<Bar>)
    returns (i: int)
    requires s.Valid() && s.AnswersFor(bridge) && 0 <= collected == |rows| <= bars
    requires !GrowthCovered(s, bridge, bars, r, collected)
    ensures s.Hi(0) <= i < |s.history|
    ensures var w := Walk(bridge, bars, r, collected, rows); w.Walked? && s.history[i] in w.rows
    decreases bars - collected
  {
    var need := MinInt(PAGE_SIZE, bars - collected);
    PageIsSlice(s, bridge, r, need, collected);
    PageIsShort(s, bridge, r, need, collected);
    var page := bridge(r, need, collected).value;
    GrowthUnroll(s, bridge, bars, r, collected);
    WalkUnroll(bridge, bars, r, collected, rows);
    if s.Hi(r) - s.Hi(0) > collected {
      i := s.PageEnd(r, collected) - 1;
      assert page[|page| - 1] == s.history[i];
      WalkCounts(s, bridge, bars, r, collected, rows);
      hide Server.Valid, Server.AnswersFor, Walk, GrowthCovered;
      if |page| == need {
        WalkCounts(s, bridge, bars, r + 1, collected + need, rows + page);
      }
      assert (rows + page)[|rows| + |page| - 1] == s.history[i];
    } else {
      i := UncoveredRowIsNewer(s, bridge, bars, r + 1, collected + need, rows + page);
    }
  }

  /** The fetch is a stretch of the history ending at the bulk request's newest bar. */
  ghost predicate StretchFetched(s: Server, bridge: Bridge, bars: int)
    requires s.Valid()
  {
    exists a :: 0 <= a <= s.Hi(0) && FetchSpec(bridge, bars) == Fetched(s.history[a..s.Hi(0)])
  }

  lemma FetchedRowIsThere(s: Server, rows: seq<Bar>, bars: int, a: int, i: int)
    requires s.Valid() && 1 <= bars && |rows| <= bars
    requires 0 <= a <= s.Hi(0) <= i < |s.history| && s.history[i] in rows
    ensures Combine(rows, bars) != s.history[a..s.Hi(0)]
  {
    var t := s.history[i].time;
    CoerceNoLonger(rows);
    CoerceProps(rows);
    var k :| 0 <= k < |rows| && rows[k] == s.history[i];
    LookupFound(rows, k);
    LookupAbsent(s.history[a..s.Hi(0)], t);
  }

  /** Exactly when a fetch from a changing buffer is one stretch of the history ending at the bulk
      request's newest bar: the growth is covered at every page that brings bars. */
  lemma GapFreeIff(s: Server, bridge: Bridge, bars: int)
    requires s.Valid() && s.AnswersFor(bridge) && bars >= 1
    requires s.Lo(0) < s.Hi(0)
    ensures StretchFetched(s, bridge, bars) <==> FetchCovered(s, bridge, bars)
  {
    BulkIsNewest(s, bridge, bars);
    var bulk := bridge(0, bars, 0).value;
    if FetchCovered(s, bridge, bars) {
      var a := GrowingFetchHasNoGaps(s, bridge, bars);
    } else {
      WalkCounts(s, bridge, bars, 1, |bulk|, bulk);
      var i := UncoveredRowIsNewer(s, bridge, bars, 1, |bulk|, bulk);
      var w := Walk(bridge, bars, 1, |bulk|, bulk);
      hide Server.Valid, Server.AnswersFor, Walk, GrowthCovered, Combine;
      forall a | 0 <= a <= s.Hi(0) ensures FetchSpec(bridge, bars) != Fetched(s.history[a..s.Hi(0)]) {
        FetchedRowIsThere(s, w.rows, bars, a, i);
      }
    }
  }

  /** A bridge that answers as the server does. */
  ghost function BridgeOf(s: Server): Bridge
    requires s.Valid()
  {
    (r: nat, n: int, offset: int) =>
      if n >= 1 && offset >= 0 then Some(s.Answer(r, n, offset)) else None
  }

  lemma BridgeOfAnswers(s: Server)
    requires s.Valid()
    ensures s.AnswersFor(BridgeOf(s))
  {
    var bridge := BridgeOf(s);
    forall r: nat, n: int, offset: int | n >= 1 && offset >= 0 ensures s.Answers(bridge, r, n, offset) {
      assert bridge(r, n, offset) == Some(s.Answer(r, n, offset));
    }
  }

  function Hourly(i: nat): Bar { Bar(3600 * i, 1.0, 1.0, 1.0, 1.0, 1) }

  function HourlyBars(n: nat): (bars: seq<Bar>)
    ensures |bars| == n && forall i :: 0 <= i < n ==> bars[i] == Hourly(i)
    ensures Ascending(bars)
  {
    seq(n, i requires 0 <= i < n => Hourly(i))
  }

  /** One answer of an hourly server, a single bar at a time. */
  lemma OneBarAnswer(s: Server, r: nat, n: int, offset: int, i: nat)
    requires s.Valid() && s.cap == 1 && n >= 1 && offset >= 0
    requires i < |s.history| && s.Lo(r) <= i == s.Hi(r) - offset - 1
    ensures BridgeOf(s)(r, n, offset) == Some([s.history[i]])
  {
    BridgeOfAnswers(s);
    PageIsSlice(s, BridgeOf(s), r, n, offset);
    assert s.history[i..i + 1] == [s.history[i]];
  }

  lemma TwoRowsCoerced(a: Bar, b: Bar)
    requires a.time < b.time
    ensures CoerceSchema([a, b]) == [a, b]
  {
    forall t ensures Lookup([a, b], t) == LookupFirst([a, b], t) { AscendingLookup([a, b], t); }
    CoerceUnique([a, b], [a, b]);
  }

  /** A buffer that gains three bars after a one-bar bulk answer: the next page starts two bars on, and
      the bar in between is missing from the result. */
  lemma GrowthBeyondCoverLeavesAGap()
    ensures var s := Server(HourlyBars(4), [Window(0, 1), Window(0, 4)], 1);
            && s.Valid() && !FetchCovered(s, BridgeOf(s), 2)
            && FetchSpec(BridgeOf(s), 2) == Fetched([Hourly(0), Hourly(2)])
  {
    var s := Server(HourlyBars(4), [Window(0, 1), Window(0, 4)], 1);
    var bridge := BridgeOf(s);
    var a, b := Hourly(0), Hourly(2);
    assert s.Hi(1) - s.Hi(0) == 3;
    OneBarAnswer(s, 0, 2, 0, 0);
    OneBarAnswer(s, 1, 1, 1, 2);
    TwoRowsCoerced(a, b);
    hide BridgeOf, HourlyBars, Hourly, CoerceSchema;
    WalkUnroll(bridge, 2, 1, 1, [a]);
    WalkUnroll(bridge, 2, 2, 2, [a, b]);
    assert [a] + [b] == [a, b];
    hide Walk;
  }

  /** A buffer that does not change during the fetch. */
  ghost predicate Static(s: Server)
    requires s.windows != []
  {
    forall r: nat :: s.Lo(r) == s.Lo(0) && s.Hi(r) == s.Hi(0)
  }

  lemma StaticPageLength(s: Server, bridge: Bridge, r: nat, n: int, offset: int)
    requires s.Valid() && s.AnswersFor(bridge) && Static(s) && n >= 1
    requires 0 <= offset <= s.Hi(0) - s.Lo(0)
    ensures bridge(r, n, offset).Some?
    ensures |bridge(r, n, offset).value| == MinInt(MinInt(n, s.cap), s.Hi(0) - s.Lo(0) - offset)
  {
    PageIsSlice(s, bridge, r, n, offset);
  }

  lemma {:induction false} WalkCollectsAll(s: Server, bridge: Bridge, bars: int, r: nat, collected: int, rows: seq<Bar>)
    requires s.Valid() && s.AnswersFor(bridge) && Static(s) && s.cap >= PAGE_SIZE
    requires 0 <= collected <= MinInt(bars, s.Hi(0) - s.Lo(0))
    ensures var w := Walk(bridge, bars, r, collected, rows);
            w.Walked? && w.collected == MinInt(bars, s.Hi(0) - s.Lo(0))
    decreases bars - collected
  {
    if collected < bars {
      var need := MinInt(PAGE_SIZE, bars - collected);
      StaticPageLength(s, bridge, r, need, collected);
      hide Server.AnswersFor, Server.Valid;
      var page := bridge(r, need, collected).value;
      if |page| == need {
        WalkCollectsAll(s, bridge, bars, r + 1, collected + need, rows + page);
      }
    }
  }

  /** A cap below the page size makes the first capped page look like the end of history. */
  lemma WalkStopsAtSmallCap(s: Server, bridge: Bridge, bars: int, collected: int, rows: seq<Bar>)
    requires s.Valid() && s.AnswersFor(bridge) && Static(s) && s.cap < PAGE_SIZE && bars >= 1
    requires collected == MinInt(MinInt(bars, s.cap), s.Hi(0) - s.Lo(0))
    ensures var w := Walk(bridge, bars, 1, collected, rows);
            w.Walked? && w.collected == MinInt(MinInt(bars, 2 * s.cap), s.Hi(0) - s.Lo(0))
  {
    WalkUnroll(bridge, bars, 1, collected, rows);
    if collected < bars {
      var need := MinInt(PAGE_SIZE, bars - collected);
      StaticPageLength(s, bridge, 1, need, collected);
      hide Walk, Server.Valid, Server.AnswersFor, Static;
      WalkUnroll(bridge, bars, 2, collected + need, rows + bridge(1, need, collected).value);
    }
  }

  /** How far back a fetch reaches: all the way with a cap of at least a page, else two capped answers. */
  function Reach(bars: int, cap: nat): int
  {
    if cap >= 500 then bars else MinInt(bars, 2 * cap)
  }

  lemma {:induction false} StaticGrowthCovered(s: Server, bridge: Bridge, bars: int, r: nat, collected: int)
    requires s.windows != [] && Static(s) && collected >= 0
    ensures GrowthCovered(s, bridge, bars, r, collected)
    decreases bars - collected
  {
    hide Server.Hi, Server.Lo;
    if collected < bars {
      var need := MinInt(PAGE_SIZE, bars - collected);
      var answer := bridge(r, need, collected);
      if answer.Some? && answer.value != [] && |answer.value| >= need {
        StaticGrowthCovered(s, bridge, bars, r + 1, collected + |answer.value|);
      }
    }
  }

  /** Against an unchanging buffer the fetch returns exactly the newest bars within its reach, in
      ascending order: with a cap of at least 500 all `min(bars, total)` of them. */
  lemma StaticFetchIsNewest(s: Server, bridge: Bridge, bars: int)
    requires s.Valid() && s.AnswersFor(bridge) && Static(s) && bars >= 1
    ensures var live := s.history[s.Lo(0)..s.Hi(0)];
            FetchSpec(bridge, bars)
            == if live == [] then BridgeUnavailable else Fetched(Newest(live, Reach(bars, s.cap)))
  {
    var total := s.Hi(0) - s.Lo(0);
    BulkIsNewest(s, bridge, bars);
    StaticGrowthCovered(s, bridge, bars, 1, |bridge(0, bars, 0).value|);
    var a := BulkIsGapFree(s, bridge, bars);
    StaticPageLength(s, bridge, 0, bars, 0);
    var bulk := bridge(0, bars, 0).value;
    var w := Walk(bridge, bars, 1, |bulk|, bulk);
    StaticReach(s, bridge, bars);
    CombineGapFree(s, w, a, bars);
    GapFreeStart(s, w, a);
    var live := s.history[s.Lo(0)..s.Hi(0)];
    assert Newest(live, Reach(bars, s.cap)) == s.history[a..s.Hi(0)];
    hide Walk, Server.AnswersFor, Server.Valid, GapFreeFrom, Covers, Newest, Combine;
    if live == [] {
      GapFreeNothing(s, w, a);
    }
  }

  lemma StaticReach(s: Server, bridge: Bridge, bars: int)
    requires s.Valid() && s.AnswersFor(bridge) && Static(s) && bars >= 1
    requires bridge(0, bars, 0).Some?
    ensures var bulk := bridge(0, bars, 0).value;
            var w := Walk(bridge, bars, 1, |bulk|, bulk);
            w.Walked? && w.collected == MinInt(Reach(bars, s.cap), s.Hi(0) - s.Lo(0))
  {
    StaticPageLength(s, bridge, 0, bars, 0);
    hide Walk, Server.AnswersFor;
    var bulk := bridge(0, bars, 0).value;
    if s.cap >= PAGE_SIZE {
      WalkCollectsAll(s, bridge, bars, 1, |bulk|, bulk);
    } else {
      WalkStopsAtSmallCap(s, bridge, bars, |bulk|, bulk);
    }
  }

  lemma GapFreeStart(s: Server, w: Walked, a: int)
    requires s.Valid() && Static(s) && GapFreeFrom(s, w, a)
    ensures a == s.Hi(0) - w.collected
  {
    hide Covers;
  }

  lemma GapFreeNothing(s: Server, w: Walked, a: int)
    requires s.Valid() && GapFreeFrom(s, w, a) && a == s.Hi(0)
    ensures w.rows == []
  {
    CoversNothing(w.rows, s.history[a..s.Hi(0)]);
  }

  lemma CoversNothing(rows: seq<Bar>, s: seq<Bar>)
    requires Covers(rows, s) && s == []
    ensures rows == []
  {
    if rows != [] {
      LookupFound(rows, 0);
    }
  }

  /** The fetch delivers all it promises: every one of the newest `bars` live bars there is. */
  ghost predicate FullFetch(s: Server, bridge: Bridge, bars: nat)
    requires s.Valid()
  {
    var live := s.history[s.Lo(0)..s.Hi(0)];
    FetchSpec(bridge, bars) == if live == [] then BridgeUnavailable else Fetched(Newest(live, bars))
  }

  ghost predicate StaticBridge(s: Server, bridge: Bridge, cap: nat)
  {
    s.Valid() && s.cap == cap && Static(s) && s.AnswersFor(bridge)
  }

  /** A server with one bar more than two capped answers, asked for all of them, delivers one too few. */
  lemma SmallCapStopsShort(cap: nat)
    requires 1 <= cap < 500
    ensures var s := Server(HourlyBars(2 * cap + 1), [Window(0, 2 * cap + 1)], cap);
            && StaticBridge(s, BridgeOf(s), cap)
            && FetchSpec(BridgeOf(s), 2 * cap + 1) == Fetched(HourlyBars(2 * cap + 1)[1..])
            && !FullFetch(s, BridgeOf(s), 2 * cap + 1)
  {
    var n := 2 * cap + 1;
    var s := Server(HourlyBars(n), [Window(0, n)], cap);
    BridgeOfAnswers(s);
    StaticFetchIsNewest(s, BridgeOf(s), n);
    assert s.history[s.Lo(0)..s.Hi(0)] == HourlyBars(n);
    hide FetchSpec, BridgeOf, HourlyBars, Server.AnswersFor, Static;
    assert Newest(HourlyBars(n), 2 * cap) == HourlyBars(n)[1..];
    assert |HourlyBars(n)[1..]| == 2 * cap;
  }

  /** Every fetch from every unchanging server with a given cap delivers all of the newest `bars` live
      bars there are, if and only if the cap is at least the client's page. */
  lemma FullFetchIff(cap: nat)
    requires cap >= 1
    ensures (forall s: Server, bridge: Bridge, bars: nat ::
               StaticBridge(s, bridge, cap) && bars >= 1 ==> FullFetch(s, bridge, bars))
            <==> cap >= 500
  {
    hide FetchSpec, Server.Valid, Server.AnswersFor, Static, Newest;
    if cap >= PAGE_SIZE {
      forall s: Server, bridge: Bridge, bars: nat | StaticBridge(s, bridge, cap) && bars >= 1
        ensures FullFetch(s, bridge, bars)
      {
        StaticFetchIsNewest(s, bridge, bars);
      }
    } else {
      SmallCapStopsShort(cap);
    }
  }
}
