/** What a run of ticks leaves in the open bar. */
module TickBars {
  import opened BarStore
  import opened Market
  import opened Numbers
  import opened TimeSeries

  /** The ticks carry snapshots and fall into the bar that starts at `t`. */
  ghost predicate InBar(ticks: seq<Tick>, t: int, seconds: int)
    requires seconds > 0
  {
    && t % seconds == 0
    && forall i :: 0 <= i < |ticks| ==> ticks[i].snapshot.Some? && t <= ticks[i].time < t + seconds
  }

  /** The bar a tick falls into starts on the timeframe's grid, less than a timeframe before the tick. */
  lemma BarTimeIff(time: int, t: int, seconds: int)
    requires seconds > 0
    ensures BarTime(time, seconds) == t <==> t % seconds == 0 && t <= time < t + seconds
  {
    var bar := BarTime(time, seconds);
    MultipleOf(time, seconds);
    GridTime(time / seconds, seconds);
    if t % seconds == 0 && t <= time < t + seconds {
      MultipleOf(t, seconds);
      Difference(time / seconds, t / seconds, seconds);
      SmallMultiple(time / seconds - t / seconds, seconds);
    }
  }

  lemma MultipleOf(x: int, seconds: int)
    requires seconds > 0
    ensures x - x % seconds == x / seconds * seconds
  {
  }

  lemma Difference(a: int, b: int, c: int)
    ensures (a - b) * c == a * c - b * c
  {
  }

  lemma SmallMultiple(k: int, seconds: int)
    requires seconds > 0 && -seconds < k * seconds < seconds
    ensures k == 0
  {
    if k > 0 { NonNegativeProduct(k - 1, seconds); }
    if k < 0 { NonNegativeProduct(-k - 1, seconds); }
  }

  lemma NonNegativeProduct(a: int, b: int)
    requires a >= 0 && b >= 0
    ensures a * b >= 0
    ensures (a + 1) * b >= b && (-a - 1) * b <= -b
  {
  }

  lemma GridTime(k: int, seconds: int)
    requires seconds > 0
    ensures k * seconds % seconds == 0
  {
    var m := k * seconds;
    MultipleOf(m, seconds);
    Difference(k, m / seconds, seconds);
    SmallMultiple(k - m / seconds, seconds);
  }

  function Folded(buf: Buffer, ticks: seq<Tick>, seconds: int, maxLen: nat): Buffer
    requires seconds > 0
  {
    if ticks == [] then buf
    else Accumulate(Folded(buf, ticks[..|ticks| - 1], seconds, maxLen), ticks[|ticks| - 1], seconds, maxLen)
  }

  ghost predicate HighestIs(ticks: seq<Tick>, m: real)
    requires forall i :: 0 <= i < |ticks| ==> ticks[i].snapshot.Some?
  {
    && (forall i :: 0 <= i < |ticks| ==> ticks[i].snapshot.value.high <= m)
    && exists i :: 0 <= i < |ticks| && ticks[i].snapshot.value.high == m
  }

  ghost predicate LowestIs(ticks: seq<Tick>, m: real)
    requires forall i :: 0 <= i < |ticks| ==> ticks[i].snapshot.Some?
  {
    && (forall i :: 0 <= i < |ticks| ==> m <= ticks[i].snapshot.value.low)
    && exists i :: 0 <= i < |ticks| && ticks[i].snapshot.value.low == m
  }

  /** The latest volume that is not zero, or zero. */
  function LatestVolume(ticks: seq<Tick>): int
  {
    if ticks == [] then 0
    else if ticks[|ticks| - 1].volume != 0 then ticks[|ticks| - 1].volume
    else LatestVolume(ticks[..|ticks| - 1])
  }

  /** Rounding moves a price by at most half of the fifth decimal, onto the grid of fifth decimals. */
  lemma Round5IsNear(x: real) returns (k: int)
    ensures Round5(x) == k as real / 100000.0
    ensures -0.000005 <= Round5(x) - x <= 0.000005
  {
    k := RoundHalfEven(x * 100000.0);
  }

  lemma Round5Monotone(x: real, y: real)
    requires x <= y
    ensures Round5(x) <= Round5(y)
  {
    RoundMonotone(x * 100000.0, y * 100000.0);
  }

  lemma Round5Twice(x: real)
    ensures Round5(Round5(x)) == Round5(x)
  {
    var k := RoundHalfEven(x * 100000.0);
    assert k as real / 100000.0 * 100000.0 == k as real;
    RoundOfInteger(k);
  }

  /** Rounding in between does not change a rounded extreme. */
  lemma RoundedExtremes(a: real, b: real)
    ensures Round5(MaxReal(Round5(a), b)) == Round5(MaxReal(a, b))
    ensures Round5(MinReal(Round5(a), b)) == Round5(MinReal(a, b))
  {
    hide Round5;
    Round5Twice(a);
    if a <= b { Round5Monotone(a, b); } else { Round5Monotone(b, a); }
    if Round5(a) <= b { Round5Monotone(Round5(a), b); } else { Round5Monotone(b, Round5(a)); }
  }

  /** The bar summarizes the ticks: first open, highest high, lowest low, last close, latest volume. */
  ghost predicate Summarizes(bar: Bar, ticks: seq<Tick>, t: int)
    requires ticks != [] && forall i :: 0 <= i < |ticks| ==> ticks[i].snapshot.Some?
  {
    && bar.time == t
    && bar.open == Round5(ticks[0].snapshot.value.open)
    && (exists m :: HighestIs(ticks, m) && bar.high == Round5(m))
    && (exists m :: LowestIs(ticks, m) && bar.low == Round5(m))
    && bar.close == Round5(ticks[|ticks| - 1].snapshot.value.close)
    && bar.volume == LatestVolume(ticks)
  }

  lemma FirstTick(tick: Tick, t: int)
    requires tick.snapshot.Some?
    ensures Summarizes(OpenBar(t, tick.snapshot.value, tick.volume), [tick], t)
  {
    hide Round5;
    assert [tick][0] == tick;
    assert HighestIs([tick], tick.snapshot.value.high) && LowestIs([tick], tick.snapshot.value.low);
    assert [tick][..0] == [];
    assert LatestVolume([tick]) == tick.volume;
    var bar := OpenBar(t, tick.snapshot.value, tick.volume);
    assert bar.high == Round5(tick.snapshot.value.high) && bar.low == Round5(tick.snapshot.value.low);
  }

  lemma NextTick(bar: Bar, ticks: seq<Tick>, tick: Tick, t: int)
    requires ticks != [] && (forall i :: 0 <= i < |ticks| ==> ticks[i].snapshot.Some?) && tick.snapshot.Some?
    requires Summarizes(bar, ticks, t)
    ensures Summarizes(UpdateBar(bar, tick.snapshot.value, tick.volume), ticks + [tick], t)
  {
    hide Round5;
    var more := ticks + [tick];
    var hi :| HighestIs(ticks, hi) && bar.high == Round5(hi);
    var lo :| LowestIs(ticks, lo) && bar.low == Round5(lo);
    RoundedExtremes(hi, tick.snapshot.value.high);
    RoundedExtremes(lo, tick.snapshot.value.low);
    assert more[|ticks|] == tick && more[..|ticks|] == ticks;
    HighestExtends(ticks, hi, tick);
    LowestExtends(ticks, lo, tick);
  }

  lemma HighestExtends(ticks: seq<Tick>, m: real, tick: Tick)
    requires (forall i :: 0 <= i < |ticks| ==> ticks[i].snapshot.Some?) && tick.snapshot.Some?
    requires HighestIs(ticks, m)
    ensures HighestIs(ticks + [tick], MaxReal(m, tick.snapshot.value.high))
  {
    var i :| 0 <= i < |ticks| && ticks[i].snapshot.value.high == m;
    var more := ticks + [tick];
    assert more[i] == ticks[i] && more[|ticks|] == tick;
  }

  lemma LowestExtends(ticks: seq<Tick>, m: real, tick: Tick)
    requires (forall i :: 0 <= i < |ticks| ==> ticks[i].snapshot.Some?) && tick.snapshot.Some?
    requires LowestIs(ticks, m)
    ensures LowestIs(ticks + [tick], MinReal(m, tick.snapshot.value.low))
  {
    var i :| 0 <= i < |ticks| && ticks[i].snapshot.value.low == m;
    var more := ticks + [tick];
    assert more[i] == ticks[i] && more[|ticks|] == tick;
  }

  /** Ticks of one bar, following a buffer in which another bar (or none) is open: the previous bar is
      sealed once and the new open bar summarizes all of the ticks, whatever was rounded on the way. */
  lemma {:induction false} OpenBarSummarizesTicks(buf: Buffer, ticks: seq<Tick>, t: int, seconds: int, maxLen: nat)
    requires seconds > 0 && ticks != [] && InBar(ticks, t, seconds)
    requires buf.open.Some? ==> buf.open.value.time != t
    ensures var r := Folded(buf, ticks, seconds, maxLen);
            && r.open.Some? && Summarizes(r.open.value, ticks, t)
            && r.bars == if buf.open.Some? then Newest(buf.bars + [buf.open.value], maxLen) else buf.bars
  {
    hide BarTime, OpenBar, UpdateBar, Summarizes, Newest;
    var n := |ticks| - 1;
    var init, last := ticks[..n], ticks[n];
    BarTimeIff(last.time, t, seconds);
    assert ticks == init + [last];
    if n == 0 {
      assert init == [] && ticks == [last];
      FirstTick(last, t);
    } else {
      OpenBarSummarizesTicks(buf, init, t, seconds, maxLen);
      var open := Folded(buf, init, seconds, maxLen).open.value;
      NextTick(open, init, last, t);
      assert open.time == t by { SummaryTime(open, init, t); }
    }
  }

  lemma SummaryTime(bar: Bar, ticks: seq<Tick>, t: int)
    requires ticks != [] && forall i :: 0 <= i < |ticks| ==> ticks[i].snapshot.Some?
    requires Summarizes(bar, ticks, t)
    ensures bar.time == t
  {
  }
}
