/** The bridge's rolling bar buffer for one symbol and timeframe. */
module BarStore {
  import opened Market
  import opened Numbers
  import opened TimeSeries

  // ---- Batch ingestion --------------------------------------------------

  /** Put a bar into an ascending sequence, replacing a bar of the same time. */
  function Put(s: seq<Bar>, b: Bar): seq<Bar>
  {
    if s == [] || Last(s).time < b.time then s + [b]
    else if Last(s).time == b.time then Init(s) + [b]
    else Put(Init(s), b) + [Last(s)]
  }

  function PutAll(s: seq<Bar>, batch: seq<Bar>): seq<Bar>
  {
    if batch == [] then s else Put(PutAll(s, Init(batch)), Last(batch))
  }

  /** The ascending form of a bar list in which later entries win. */
  function Canonical(s: seq<Bar>): seq<Bar> { PutAll([], s) }

  /** What a batch does to the buffer: merge with the incoming bars winning, keep the newest. */
  function Ingest(q: seq<Bar>, batch: seq<Bar>, maxLen: nat): seq<Bar>
  {
    if batch == [] then q else Newest(Canonical(q + batch), maxLen)
  }

  lemma {:induction false} PutAscends(s: seq<Bar>, b: Bar)
    requires Ascending(s)
    ensures Ascending(Put(s, b)) && Put(s, b) != []
    ensures Last(Put(s, b)).time == if s == [] then b.time else MaxInt(Last(s).time, b.time)
  {
    hide Ascending;
    AscendingAppend(s, b);
    if s != [] {
      SplitLast(s);
      AscendingAppend(Init(s), Last(s));
      AscendingAppend(Init(s), b);
      if Last(s).time > b.time {
        PutAscends(Init(s), b);
        AscendingAppend(Put(Init(s), b), Last(s));
      }
    }
  }

  lemma {:induction false} PutLookup(s: seq<Bar>, b: Bar, t: int)
    requires Ascending(s)
    ensures Lookup(Put(s, b), t) == if t == b.time then Some(b) else Lookup(s, t)
  {
    LookupAppend(s, b, t);
    if s != [] && Last(s).time >= b.time {
      var init, last := Init(s), Last(s);
      SplitLast(s);
      AscendingAppend(init, last);
      PutUnroll(init, last, b);
      hide Lookup, Ascending, Put;
      LookupAppend(init, last, t);
      LookupAppend(init, b, t);
      if last.time > b.time {
        PutLookup(init, b, t);
        LookupAppend(Put(init, b), last, t);
      }
    }
  }

  lemma {:induction false} PutAllAscends(s: seq<Bar>, batch: seq<Bar>)
    requires Ascending(s)
    ensures Ascending(PutAll(s, batch))
  {
    if batch != [] {
      PutAllAscends(s, Init(batch));
      PutAscends(PutAll(s, Init(batch)), Last(batch));
    }
  }

  lemma {:induction false} PutAllLookup(s: seq<Bar>, batch: seq<Bar>, t: int)
    requires Ascending(s)
    ensures Lookup(PutAll(s, batch), t) == Else(Lookup(batch, t), Lookup(s, t))
  {
    if batch != [] {
      PutAllLookup(s, Init(batch), t);
      PutAllAscends(s, Init(batch));
      PutLookup(PutAll(s, Init(batch)), Last(batch), t);
    }
  }

  lemma {:induction false} PutAllConcat(s: seq<Bar>, a: seq<Bar>, b: seq<Bar>)
    ensures PutAll(s, a + b) == PutAll(PutAll(s, a), b)
  {
    if b == [] {
      assert a + b == a;
    } else {
      PutAllConcat(s, a, Init(b));
      assert Init(a + b) == a + Init(b);
    }
  }

  lemma CanonicalProps(s: seq<Bar>)
    ensures Ascending(Canonical(s)) && SameBars(Canonical(s), s)
  {
    PutAllAscends([], s);
    forall t ensures Lookup(Canonical(s), t) == Lookup(s, t) {
      PutAllLookup([], s, t);
    }
  }

  lemma CanonicalOfAscending(s: seq<Bar>)
    requires Ascending(s)
    ensures Canonical(s) == s
  {
    CanonicalProps(s);
    AscendingUnique(Canonical(s), s);
  }

  lemma NewestUnroll(s: seq<Bar>, b: Bar, k: nat)
    requires k > 0
    ensures Newest(s + [b], k) == Newest(s, k - 1) + [b]
  {
  }

  lemma PutUnroll(s: seq<Bar>, last: Bar, b: Bar)
    ensures Put(s + [last], b) == if last.time < b.time then s + [last] + [b]
                                  else if last.time == b.time then s + [b]
                                  else Put(s, b) + [last]
  {
    Append(s, last);
  }

  lemma PutNewestAfterTruncation(s: seq<Bar>, b: Bar, k: nat)
    requires k > 0 && s != [] && Last(s).time < b.time
    ensures Newest(Put(Newest(s, k), b), k) == Newest(Put(s, b), k)
  {
    assert Newest(s, k) != [] && Last(Newest(s, k)) == Last(s);
    NewestUnroll(Newest(s, k), b, k);
    NewestUnroll(s, b, k);
    NewestTwice(s, k);
  }

  lemma ReplaceNewestAfterTruncation(init: seq<Bar>, last: Bar, b: Bar, k: nat)
    requires k > 0 && last.time == b.time
    ensures Newest(Put(Newest(init, k - 1) + [last], b), k) == Newest(Put(init + [last], b), k)
  {
    PutUnroll(init, last, b);
    PutUnroll(Newest(init, k - 1), last, b);
    hide Put, Newest;
    NewestUnroll(Newest(init, k - 1), b, k);
    NewestUnroll(init, b, k);
    NewestTwice(init, k - 1);
  }

  lemma PutOlderAfterTruncation(init: seq<Bar>, last: Bar, b: Bar, k: nat)
    requires k > 0 && last.time > b.time
    requires Newest(Put(Newest(init, k - 1), b), k - 1) == Newest(Put(init, b), k - 1)
    ensures Newest(Put(Newest(init, k - 1) + [last], b), k) == Newest(Put(init + [last], b), k)
  {
    PutUnroll(init, last, b);
    PutUnroll(Newest(init, k - 1), last, b);
    hide Put, Newest;
    NewestUnroll(Put(Newest(init, k - 1), b), last, k);
    NewestUnroll(Put(init, b), last, k);
  }

  /** Bars that truncation drops never come back: putting a bar and truncating gives the same with or
      without an earlier truncation. */
  lemma {:induction false} PutAfterTruncation(s: seq<Bar>, b: Bar, k: nat)
    ensures Newest(Put(Newest(s, k), b), k) == Newest(Put(s, b), k)
    decreases |s|
  {
    hide Put;
    if s == [] {
      assert Newest(s, k) == s;
    } else if k > 0 {
      var init, last := Init(s), Last(s);
      assert |init| < |s|;
      SplitLast(s);
      NewestUnroll(init, last, k);
      hide Newest;
      if last.time < b.time {
        PutNewestAfterTruncation(s, b, k);
      } else if last.time == b.time {
        ReplaceNewestAfterTruncation(init, last, b, k);
      } else {
        PutAfterTruncation(init, b, k - 1);
        PutOlderAfterTruncation(init, last, b, k);
      }
    }
  }

  lemma NewestTwice(s: seq<Bar>, k: nat)
    ensures Newest(Newest(s, k), k) == Newest(s, k)
    ensures k > 0 ==> Newest(Newest(s, k), k - 1) == Newest(s, k - 1)
  {
  }

  lemma {:induction false} PutAllAfterTruncation(s: seq<Bar>, batch: seq<Bar>, k: nat)
    ensures Newest(PutAll(Newest(s, k), batch), k) == Newest(PutAll(s, batch), k)
  {
    hide Newest, Put;
    NewestTwice(s, k);
    if batch != [] {
      PutAllAfterTruncation(s, Init(batch), k);
      PutAfterTruncation(PutAll(s, Init(batch)), Last(batch), k);
      PutAfterTruncation(PutAll(Newest(s, k), Init(batch)), Last(batch), k);
    }
  }

  lemma NewestAscending(s: seq<Bar>, k: nat)
    requires Ascending(s)
    ensures Ascending(Newest(s, k))
  {
  }

  lemma CanonicalContinues(a: seq<Bar>, b: seq<Bar>)
    ensures Canonical(a + b) == PutAll(Canonical(a), b)
  {
    PutAllConcat([], a, b);
  }

  lemma TruncationStaysCanonical(s: seq<Bar>, k: nat)
    ensures Canonical(Newest(Canonical(s), k)) == Newest(Canonical(s), k)
  {
    CanonicalProps(s);
    NewestAscending(Canonical(s), k);
    CanonicalOfAscending(Newest(Canonical(s), k));
  }

  lemma MergeAfterTruncation(s: seq<Bar>, batch: seq<Bar>, k: nat)
    ensures Newest(Canonical(Newest(Canonical(s), k) + batch), k) == Newest(Canonical(s + batch), k)
  {
    hide Newest, PutAll, Canonical;
    var kept := Newest(Canonical(s), k);
    TruncationStaysCanonical(s, k);
    CanonicalContinues(kept, batch);
    CanonicalContinues(s, batch);
    PutAllAfterTruncation(Canonical(s), batch, k);
  }

  /** Ingesting two batches one after the other leaves the same buffer as ingesting them as one, for
      every starting buffer, despite the truncation in between. */
  lemma ChunkedIngestion(q: seq<Bar>, first: seq<Bar>, second: seq<Bar>, maxLen: nat)
    ensures Ingest(Ingest(q, first, maxLen), second, maxLen) == Ingest(q, first + second, maxLen)
  {
    hide Newest, Canonical;
    if first == [] {
      assert first + second == second;
    } else if second == [] {
      assert first + second == first;
    } else {
      MergeAfterTruncation(q + first, second, maxLen);
      assert q + (first + second) == (q + first) + second;
    }
  }

  /** The buffer is strictly ascending after every non-empty batch, whatever it was before. */
  lemma IngestAscending(q: seq<Bar>, batch: seq<Bar>, maxLen: nat)
    requires batch != [] || Ascending(q)
    ensures Ascending(Ingest(q, batch, maxLen))
  {
    CanonicalProps(q + batch);
    NewestAscending(Canonical(q + batch), maxLen);
  }

  // ---- The open bar -----------------------------------------------------

  datatype Ohlc = Ohlc(open: real, high: real, low: real, close: real)

  /** An EA tick; older EAs send no bar snapshot. A missing volume reads as zero. */
  datatype Tick = Tick(time: int, snapshot: Option<Ohlc>, volume: int)

  datatype Buffer = Buffer(bars: seq<Bar>, open: Option<Bar>)

  /** `round(x, 5)`. */
  function Round5(x: real): real { RoundHalfEven(x * 100000.0) as real / 100000.0 }

  function BarTime(time: int, seconds: int): int
    requires seconds > 0
  {
    time - time % seconds
  }

  function OpenBar(t: int, o: Ohlc, volume: int): Bar
  {
    Bar(t, Round5(o.open), Round5(o.high), Round5(o.low), Round5(o.close), volume)
  }

  function UpdateBar(current: Bar, o: Ohlc, volume: int): Bar
  {
    current.(high := Round5(MaxReal(current.high, o.high)),
             low := Round5(MinReal(current.low, o.low)),
             close := Round5(o.close),
             volume := if volume != 0 then volume else current.volume)
  }

  function Accumulate(buf: Buffer, tick: Tick, seconds: int, maxLen: nat): Buffer
    requires seconds > 0
  {
    if tick.snapshot.None? then buf
    else
      var t := BarTime(tick.time, seconds);
      if buf.open.Some? && buf.open.value.time == t
      then buf.(open := Some(UpdateBar(buf.open.value, tick.snapshot.value, tick.volume)))
      else
        Buffer(if buf.open.Some? then Newest(buf.bars + [buf.open.value], maxLen) else buf.bars,
               Some(OpenBar(t, tick.snapshot.value, tick.volume)))
  }

  /** Sealed bars strictly ascending and all before the open bar. */
  ghost predicate Ordered(buf: Buffer)
  {
    && Ascending(buf.bars)
    && (buf.open.Some? && buf.bars != [] ==> Last(buf.bars).time < buf.open.value.time)
  }

  datatype Event = TickPushed(tick: Tick) | BatchPushed(batch: seq<Bar>)

  function Apply(buf: Buffer, e: Event, seconds: int, maxLen: nat): Buffer
    requires seconds > 0
  {
    match e
    case TickPushed(tick) => Accumulate(buf, tick, seconds, maxLen)
    case BatchPushed(batch) => buf.(bars := Ingest(buf.bars, batch, maxLen))
  }

  /** What a caller can check before an event: a batch is older than the open bar, a tick does not go
      back before the open bar (or, with none open, not to or before the newest sealed bar). */
  ghost predicate Timely(buf: Buffer, e: Event, seconds: int)
    requires seconds > 0
  {
    match e
    case BatchPushed(batch) =>
      buf.open.Some? ==> Before(batch, buf.open.value.time)
    case TickPushed(tick) =>
      tick.snapshot.Some? ==>
        if buf.open.Some? then buf.open.value.time <= BarTime(tick.time, seconds)
        else buf.bars != [] ==> Last(buf.bars).time < BarTime(tick.time, seconds)
  }

  ghost predicate Before(batch: seq<Bar>, bound: int)
  {
    forall i :: 0 <= i < |batch| ==> batch[i].time < bound
  }

  lemma {:induction false} PutAllLast(s: seq<Bar>, batch: seq<Bar>, bound: int)
    requires Ascending(s) && (s != [] ==> Last(s).time < bound) && batch != []
    ensures PutAll(s, batch) != []
    ensures Last(PutAll(s, batch)).time < bound <==> Before(batch, bound)
  {
    hide Ascending, Put, Before;
    PutAllAscends(s, Init(batch));
    PutAscends(PutAll(s, Init(batch)), Last(batch));
    BeforeAppend(batch, bound);
    if Init(batch) != [] {
      PutAllLast(s, Init(batch), bound);
    } else {
      EmptyIsBefore(Init(batch), bound);
    }
  }

  lemma EmptyIsBefore(batch: seq<Bar>, bound: int)
    requires batch == []
    ensures Before(batch, bound)
  {
  }

  lemma BeforeAppend(batch: seq<Bar>, bound: int)
    requires batch != []
    ensures Before(batch, bound) <==> Before(Init(batch), bound) && Last(batch).time < bound
  {
    assert forall i :: 0 <= i < |batch| - 1 ==> Init(batch)[i] == batch[i];
    if Before(Init(batch), bound) && Last(batch).time < bound {
      forall i | 0 <= i < |batch| ensures batch[i].time < bound {
        if i < |batch| - 1 { assert Init(batch)[i].time < bound; }
      }
    }
  }

  /** An event keeps the buffer ordered if and only if it is timely. */
  lemma OrderedIffTimely(buf: Buffer, e: Event, seconds: int, maxLen: nat)
    requires seconds > 0 && maxLen > 0
    requires Ordered(buf)
    ensures Ordered(Apply(buf, e, seconds, maxLen)) <==> Timely(buf, e, seconds)
  {
    match e
    case BatchPushed(batch) =>
      IngestAscending(buf.bars, batch, maxLen);
      if batch != [] && buf.open.Some? {
        var bound := buf.open.value.time;
        CanonicalOfAscending(buf.bars);
        PutAllConcat([], buf.bars, batch);
        PutAllLast(buf.bars, batch, bound);
        var merged := Canonical(buf.bars + batch);
        assert Last(Newest(merged, maxLen)) == Last(merged);
      }
    case TickPushed(tick) =>
      if tick.snapshot.Some? && buf.open.Some? && buf.open.value.time != BarTime(tick.time, seconds) {
        var sealed := buf.bars + [buf.open.value];
        assert Ascending(sealed);
        NewestAscending(sealed, maxLen);
        assert Last(Newest(sealed, maxLen)) == buf.open.value;
      }
  }

  function Replay(buf: Buffer, events: seq<Event>, seconds: int, maxLen: nat): Buffer
    requires seconds > 0
  {
    if events == [] then buf
    else Apply(Replay(buf, events[..|events| - 1], seconds, maxLen), events[|events| - 1], seconds, maxLen)
  }

  ghost predicate OrderedThroughout(buf: Buffer, events: seq<Event>, seconds: int, maxLen: nat)
    requires seconds > 0
  {
    forall k :: 0 <= k <= |events| ==> Ordered(Replay(buf, events[..k], seconds, maxLen))
  }

  ghost predicate TimelyThroughout(buf: Buffer, events: seq<Event>, seconds: int, maxLen: nat)
    requires seconds > 0
  {
    forall k :: 0 <= k < |events| ==> Timely(Replay(buf, events[..k], seconds, maxLen), events[k], seconds)
  }

  lemma OrderedUnroll(buf: Buffer, events: seq<Event>, seconds: int, maxLen: nat)
    requires seconds > 0 && events != []
    ensures var init := events[..|events| - 1];
            OrderedThroughout(buf, events, seconds, maxLen)
            <==> OrderedThroughout(buf, init, seconds, maxLen) && Ordered(Replay(buf, events, seconds, maxLen))
  {
    hide Ordered, Apply, Replay;
    var n := |events| - 1;
    var init := events[..n];
    assert events[..n + 1] == events;
    assert forall k :: 0 <= k <= n ==> init[..k] == events[..k];
    if OrderedThroughout(buf, events, seconds, maxLen) {
      forall k | 0 <= k <= n ensures Ordered(Replay(buf, init[..k], seconds, maxLen)) {
        assert Ordered(Replay(buf, events[..k], seconds, maxLen));
      }
    }
    if OrderedThroughout(buf, init, seconds, maxLen) && Ordered(Replay(buf, events, seconds, maxLen)) {
      forall k | 0 <= k <= |events| ensures Ordered(Replay(buf, events[..k], seconds, maxLen)) {
        if k <= n { assert Ordered(Replay(buf, init[..k], seconds, maxLen)); }
      }
    }
  }

  lemma TimelyUnroll(buf: Buffer, events: seq<Event>, seconds: int, maxLen: nat)
    requires seconds > 0 && events != []
    ensures var n := |events| - 1;
            TimelyThroughout(buf, events, seconds, maxLen)
            <==> TimelyThroughout(buf, events[..n], seconds, maxLen)
                 && Timely(Replay(buf, events[..n], seconds, maxLen), events[n], seconds)
  {
    hide Timely, Apply, Replay;
    var n := |events| - 1;
    var init := events[..n];
    assert forall k :: 0 <= k <= n ==> init[..k] == events[..k];
    if TimelyThroughout(buf, events, seconds, maxLen) {
      forall k | 0 <= k < n ensures Timely(Replay(buf, init[..k], seconds, maxLen), init[k], seconds) {
        assert Timely(Replay(buf, events[..k], seconds, maxLen), events[k], seconds);
      }
    }
    if TimelyThroughout(buf, init, seconds, maxLen) && Timely(Replay(buf, init, seconds, maxLen), events[n], seconds) {
      forall k | 0 <= k < |events| ensures Timely(Replay(buf, events[..k], seconds, maxLen), events[k], seconds) {
        if k < n { assert Timely(Replay(buf, init[..k], seconds, maxLen), init[k], seconds); }
      }
    }
  }

  /** Over any run of ticks and batches: the buffer is ordered after every prefix exactly when each
      event was timely when it arrived. */
  lemma {:induction false} OrderedRunIff(buf: Buffer, events: seq<Event>, seconds: int, maxLen: nat)
    requires seconds > 0 && maxLen > 0 && Ordered(buf)
    ensures OrderedThroughout(buf, events, seconds, maxLen) <==> TimelyThroughout(buf, events, seconds, maxLen)
  {
    if events == [] {
      assert forall k :: 0 <= k <= |events| ==> events[..k] == [];
    } else {
      var init := events[..|events| - 1];
      OrderedRunIff(buf, init, seconds, maxLen);
      OrderedUnroll(buf, events, seconds, maxLen);
      TimelyUnroll(buf, events, seconds, maxLen);
      assert init[..|init|] == init;
      assert OrderedThroughout(buf, init, seconds, maxLen) ==> Ordered(Replay(buf, init[..|init|], seconds, maxLen));
      hide Ordered, Timely, Apply, OrderedThroughout, TimelyThroughout;
      if Ordered(Replay(buf, init, seconds, maxLen)) {
        OrderedIffTimely(Replay(buf, init, seconds, maxLen), events[|init|], seconds, maxLen);
      }
    }
  }

  /** A batch that includes the bar still forming puts two bars of the same time in the buffer. */
  lemma BatchWithOpenBarDuplicates()
    ensures var bar := Bar(3600, 1.0, 1.0, 1.0, 1.0, 1);
            var buf := Buffer([], Some(bar));
            var tick := Tick(7200, Some(Ohlc(1.0, 1.0, 1.0, 1.0)), 1);
            var r := Replay(buf, [BatchPushed([bar]), TickPushed(tick)], 3600, 2000);
            r.bars == [bar, bar]
  {
    var bar := Bar(3600, 1.0, 1.0, 1.0, 1.0, 1);
    var buf := Buffer([], Some(bar));
    var tick := Tick(7200, Some(Ohlc(1.0, 1.0, 1.0, 1.0)), 1);
    var events := [BatchPushed([bar]), TickPushed(tick)];
    assert events[..1] == [BatchPushed([bar])] && events[..1][..0] == [];
    assert Init([bar]) == [];
    assert PutAll([], [bar]) == Put([], bar) == [bar];
    assert [] + [bar] == [bar];
    assert Replay(buf, events[..1], 3600, 2000) == Buffer([bar], Some(bar));
    hide Ingest, Round5;
    assert BarTime(7200, 3600) == 7200;
    assert Apply(Buffer([bar], Some(bar)), TickPushed(tick), 3600, 2000).bars == [bar] + [bar] == [bar, bar];
  }

  // ---- History pages ----------------------------------------------------

  /** The newest `n` bars of a sequence once its newest `offset` bars are skipped. */
  function LiveSlice(live: seq<Bar>, n: int, offset: int): seq<Bar>
    requires n >= 0 && offset >= 0
  {
    var end := MaxInt(0, |live| - offset);
    live[MaxInt(0, end - n)..end]
  }

  /** A history answer: the live bars, and how many synthetic bars are put in front of them. */
  datatype History = History(page: seq<Bar>, padding: int, totalAvailable: int)

  function UpTo(bars: seq<Bar>, fromTime: Option<int>): seq<Bar>
  {
    if fromTime.None? then bars
    else if bars == [] then []
    else if Last(bars).time <= fromTime.value then UpTo(Init(bars), fromTime) + [Last(bars)]
    else UpTo(Init(bars), fromTime)
  }

  /** Without a time everything is available; with one exactly the bars up to it, as often as they are there. */
  lemma {:induction false} UpToKeeps(bars: seq<Bar>, fromTime: Option<int>, b: Bar)
    ensures fromTime == None ==> UpTo(bars, fromTime) == bars
    ensures multiset(UpTo(bars, fromTime))[b]
         == if fromTime == None || b.time <= fromTime.value then multiset(bars)[b] else 0
  {
    if fromTime.Some? && bars != [] {
      UpToKeeps(Init(bars), fromTime, b);
      SplitLast(bars);
      assert multiset(bars) == multiset(Init(bars)) + multiset{Last(bars)};
    }
  }

  /** Of bars in the order of time it is the front part. */
  lemma {:induction false} UpToIsPrefix(bars: seq<Bar>, t: int)
    requires Sorted(bars)
    ensures UpTo(bars, Some(t)) <= bars
    ensures forall i :: 0 <= i < |bars| ==> (i < |UpTo(bars, Some(t))| <==> bars[i].time <= t)
  {
    if bars != [] {
      var n := |bars| - 1;
      var init := bars[..n];
      SplitLast(bars);
      assert forall i :: 0 <= i < n ==> init[i].time <= bars[n].time;
      assert Sorted(init);
      hide Sorted;
      UpToIsPrefix(init, t);
      assert UpTo(bars, Some(t)) == if bars[n].time <= t then UpTo(init, Some(t)) + [bars[n]] else UpTo(init, Some(t));
      PrefixGrows(bars, UpTo(init, Some(t)), t);
      hide UpTo;
    }
  }

  lemma PrefixGrows(bars: seq<Bar>, u: seq<Bar>, t: int)
    requires bars != [] && u <= bars[..|bars| - 1]
    requires forall i :: 0 <= i < |bars| - 1 ==> (i < |u| <==> bars[i].time <= t) && bars[i].time <= Last(bars).time
    ensures var r := if Last(bars).time <= t then u + [Last(bars)] else u;
            r <= bars && forall i :: 0 <= i < |bars| ==> (i < |r| <==> bars[i].time <= t)
  {
    var n := |bars| - 1;
    if bars[n].time <= t {
      assert n > 0 ==> bars[n - 1].time <= t;
      assert u == bars[..n];
    }
  }

  // ---- Disk -------------------------------------------------------------

  /** What a request for `n` bars is answered with: in pagination mode just the live slice, otherwise
      padded in front to `n` bars. */
  ghost predicate Answers(h: History, live: seq<Bar>, n: int, fromTime: Option<int>, offset: int)
    requires n >= 1 && offset >= 0
  {
    var available := UpTo(live, fromTime);
    && h.page == LiveSlice(available, n, offset)
    && h.totalAvailable == |available|
    && h.padding == if offset > 0 || fromTime.Some? then 0 else n - |h.page|
  }

  /** The parquet file after a flush: skipped when memory holds fewer rows than the file. */
  function Flush(disk: Option<seq<Bar>>, rows: seq<Bar>): Option<seq<Bar>>
  {
    if rows == [] || (disk.Some? && |rows| < |disk.value|) then disk
    else Some(KeepFirst(StableSort(rows)))
  }

  lemma KeepFirstOfAscending(rows: seq<Bar>)
    requires Ascending(rows)
    ensures KeepFirst(StableSort(rows)) == rows
  {
    StableSortSorted(rows);
    KeepFirstAscends(StableSort(rows));
    forall t ensures Lookup(KeepFirst(StableSort(rows)), t) == Lookup(rows, t) {
      KeepFirstLookup(StableSort(rows), t);
      StableSortLookup(rows, t);
      AscendingLookup(rows, t);
    }
    AscendingUnique(KeepFirst(StableSort(rows)), rows);
  }

  /** Flushing an ordered buffer never shrinks the file, and a flush that is not skipped can be
      loaded back as exactly the buffer. */
  lemma FlushKeepsRows(disk: Option<seq<Bar>>, rows: seq<Bar>, maxLen: nat)
    requires Ascending(rows) && |rows| <= maxLen
    ensures disk.Some? ==> Flush(disk, rows).Some? && |Flush(disk, rows).value| >= |disk.value|
    ensures Flush(disk, rows) != disk ==> Flush(disk, rows).Some? && Newest(Flush(disk, rows).value, maxLen) == rows
  {
    KeepFirstOfAscending(rows);
  }

  /** The distinct times of a bar list. */
  function Times(s: seq<Bar>): set<int>
  {
    if s == [] then {} else Times(Init(s)) + {Last(s).time}
  }

  lemma {:induction false} TimesAreLookups(s: seq<Bar>, t: int)
    ensures t in Times(s) <==> Lookup(s, t).Some?
    ensures t in Times(s) <==> LookupFirst(s, t).Some?
  {
    if s != [] { TimesAreLookups(Init(s), t); }
  }

  lemma {:induction false} AscendingTimes(s: seq<Bar>)
    requires Ascending(s)
    ensures |Times(s)| == |s|
  {
    if s != [] {
      AscendingTimes(Init(s));
      LookupAbsent(Init(s), Last(s).time);
      TimesAreLookups(Init(s), Last(s).time);
    }
  }

  /** What a flush that is not skipped writes: one row for each distinct time. */
  lemma FlushedTimes(rows: seq<Bar>)
    ensures Ascending(KeepFirst(StableSort(rows))) && Times(KeepFirst(StableSort(rows))) == Times(rows)
    ensures |KeepFirst(StableSort(rows))| == |Times(rows)|
  {
    hide KeepFirst, StableSort, Times;
    var r := KeepFirst(StableSort(rows));
    StableSortSorted(rows);
    KeepFirstAscends(StableSort(rows));
    forall t ensures t in Times(r) <==> t in Times(rows) {
      StableSortLookup(rows, t);
      KeepFirstLookup(StableSort(rows), t);
      TimesAreLookups(r, t);
      TimesAreLookups(rows, t);
    }
    AscendingTimes(r);
  }

  /** Exactly when a flush shrinks the file, for every buffer: its guard compares row counts, so it lets a
      buffer pass that has rows enough but fewer distinct times than the file has rows. */
  lemma FlushShrinksIff(disk: seq<Bar>, rows: seq<Bar>)
    ensures Flush(Some(disk), rows).Some?
    ensures |Flush(Some(disk), rows).value| < |disk| <==> |Times(rows)| < |disk| <= |rows|
  {
    FlushedTimes(rows);
    hide KeepFirst, StableSort, Times;
    if rows == [] { assert |disk| <= |rows| ==> |disk| == 0; }
  }

  /** The two equal bars of `BatchWithOpenBarDuplicates`, flushed over a file of two bars, leave one row. */
  lemma FlushOfDuplicatesShrinks(a: Bar)
    requires a.time < 3600
    ensures var bar := Bar(3600, 1.0, 1.0, 1.0, 1.0, 1);
            Flush(Some([a, bar]), [bar, bar]) == Some([bar])
  {
    var bar := Bar(3600, 1.0, 1.0, 1.0, 1.0, 1);
    var rows := [bar, bar];
    assert Init(rows) == [bar] && Init([bar]) == [];
    assert StableSort([bar]) == [bar] && StableSort(rows) == rows;
    assert KeepFirst([bar]) == [bar];
  }

  // ---- The server's own form --------------------------------------------

  /** Insert or overwrite in an insertion-ordered dictionary keyed by time. */
  function DictPut(d: seq<Bar>, b: Bar): seq<Bar>
  {
    if d == [] then [b]
    else if Last(d).time == b.time then Init(d) + [b]
    else DictPut(Init(d), b) + [Last(d)]
  }

  function DictPutAll(d: seq<Bar>, bars: seq<Bar>): seq<Bar>
  {
    if bars == [] then d else DictPut(DictPutAll(d, Init(bars)), Last(bars))
  }

  /** Add bars to an insertion-ordered dictionary one by one, later bars winning. */
  method DictOf(d: seq<Bar>, bars: seq<Bar>) returns (d': seq<Bar>)
    ensures d' == DictPutAll(d, bars)
  {
    hide DictPut;
    d' := d;
    var k := 0;
    while k < |bars|
      invariant 0 <= k <= |bars|
      invariant d' == DictPutAll(d, bars[..k])
    {
      assert Init(bars[..k + 1]) == bars[..k];
      d' := DictPut(d', bars[k]);
      k := k + 1;
    }
    assert bars[..k] == bars;
  }

  /** Sort the batch, overlay it on a dictionary of the buffer, sort the dictionary's values. */
  method MergeBatch(q: seq<Bar>, batch: seq<Bar>) returns (merged: seq<Bar>)
    ensures merged == Canonical(q + batch)
  {
    hide DictPutAll, StableSort, Canonical;
    var incoming := StableSort(batch);
    var existing := DictOf([], q);
    existing := DictOf(existing, incoming);
    merged := StableSort(existing);
    MergedIsCanonical(q, batch);
  }

  class BarBuffer {
    var bars: seq<Bar>
    var openBar: Option<Bar>
    const maxLen: nat
    const seconds: int

    ghost predicate Valid()
      reads this
    {
      maxLen > 0 && seconds > 0
    }

    function Value(): Buffer
      reads this
    {
      Buffer(bars, openBar)
    }

    constructor (maxLen: nat, seconds: int)
      requires maxLen > 0 && seconds > 0
      ensures Valid() && Value() == Buffer([], None) && this.maxLen == maxLen && this.seconds == seconds
    {
      this.maxLen, this.seconds := maxLen, seconds;
      bars, openBar := [], None;
    }

    method AccumulateBar(tick: Tick)
      requires Valid()
      modifies this
      ensures Value() == Accumulate(old(Value()), tick, seconds, maxLen)
    {
      if tick.snapshot.None? { return; }
      var o := tick.snapshot.value;
      var barTime := tick.time - tick.time % seconds;
      if openBar.None? || openBar.value.time != barTime {
        if openBar.Some? {
          bars := Newest(bars + [openBar.value], maxLen);
        }
        openBar := Some(OpenBar(barTime, o, tick.volume));
      } else {
        openBar := Some(UpdateBar(openBar.value, o, tick.volume));
      }
    }

    /** The handler: merge a batch in and refill the bounded queue with the newest bars. */
    method PushHistoryBatch(batch: seq<Bar>) returns (ingested: int, total: int)
      requires Valid()
      modifies this
      ensures Value() == Apply(old(Value()), BatchPushed(batch), seconds, maxLen)
      ensures ingested == |batch|
      ensures total == if batch == [] then 0 else |bars|
    {
      if batch == [] { return 0, 0; }
      hide DictPutAll, StableSort, Canonical, Newest;
      var merged := MergeBatch(bars, batch);
      bars := Newest(merged, maxLen);
      ingested, total := |batch|, |bars|;
    }

    /** `/history`: in pagination mode, or with enough live bars, exactly a live slice. */
    method GetHistory(n: int, fromTime: Option<int>, offset: int) returns (h: History)
      requires n >= 1 && offset >= 0
      ensures Answers(h, if openBar.Some? then bars + [openBar.value] else bars, n, fromTime, offset)
    {
      var available := bars;
      if openBar.Some? {
        available := available + [openBar.value];
      }
      available := UpTo(available, fromTime);
      var paginating := offset > 0 || fromTime.Some?;
      if available != [] {
        var end := if offset > 0 then MaxInt(0, |available| - offset) else |available|;
        var start := MaxInt(0, end - n);
        var page := available[start..end];
        if paginating || |page| >= n {
          return History(page, 0, |available|);
        }
        return History(page, n - |page|, |available|);
      }
      h := History([], if paginating then 0 else n, 0);
    }
  }

  lemma {:induction false} DictPutDistinct(d: seq<Bar>, b: Bar)
    requires DistinctTimes(d)
    ensures DistinctTimes(DictPut(d, b))
    ensures forall x :: x in DictPut(d, b) ==> x == b || x in d
  {
    if d != [] {
      DictPutDistinct(Init(d), b);
      assert forall x :: x in Init(d) ==> x in d;
      var r := DictPut(Init(d), b);
      if Last(d).time != b.time {
        forall i | 0 <= i < |r| ensures r[i].time != Last(d).time {
          assert r[i] in r;
        }
      }
    }
  }

  lemma {:induction false} DictPutLookup(d: seq<Bar>, b: Bar, t: int)
    requires DistinctTimes(d)
    ensures Lookup(DictPut(d, b), t) == if t == b.time then Some(b) else Lookup(d, t)
  {
    if d != [] {
      Append(Init(d), b);
      if Last(d).time != b.time {
        DictPutLookup(Init(d), b, t);
        Append(DictPut(Init(d), b), Last(d));
        if t == b.time { LookupAbsentLast(d, t); }
      }
    }
  }

  lemma LookupAbsentLast(d: seq<Bar>, t: int)
    requires d != [] && Last(d).time != t
    ensures Lookup(d, t) == Lookup(Init(d), t)
  {
  }

  lemma {:induction false} DictPutAllProps(d: seq<Bar>, bars: seq<Bar>)
    requires DistinctTimes(d)
    ensures DistinctTimes(DictPutAll(d, bars))
    ensures forall t :: Lookup(DictPutAll(d, bars), t) == Else(Lookup(bars, t), Lookup(d, t))
  {
    if bars != [] {
      DictPutAllProps(d, Init(bars));
      var before := DictPutAll(d, Init(bars));
      DictPutDistinct(before, Last(bars));
      hide DistinctTimes, DictPut;
      forall t
        ensures Lookup(DictPutAll(d, bars), t) == Else(Lookup(bars, t), Lookup(d, t))
      {
        DictPutLookup(before, Last(bars), t);
      }
    }
  }

  /** Overlaying the sorted batch on a dictionary of the buffer and sorting its values gives the
      canonical merge. */
  lemma MergedIsCanonical(q: seq<Bar>, batch: seq<Bar>)
    ensures StableSort(DictPutAll(DictPutAll([], q), StableSort(batch))) == Canonical(q + batch)
  {
    var existing := DictPutAll(DictPutAll([], q), StableSort(batch));
    DictPutAllProps([], q);
    DictPutAllProps(DictPutAll([], q), StableSort(batch));
    DistinctSortAscends(existing);
    CanonicalProps(q + batch);
    forall t
      ensures Lookup(StableSort(existing), t) == Lookup(Canonical(q + batch), t)
    {
      StableSortLookup(existing, t);
      StableSortLookup(batch, t);
      LookupConcat(q, batch, t);
    }
    AscendingUnique(StableSort(existing), Canonical(q + batch));
  }
}
