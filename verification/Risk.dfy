/** Position sizing, the Kelly multiplier and the circuit breakers of `RiskManager`. */
module Risk {
  import opened Numbers

  const PIP_SIZE := 0.0001
  const PIP_VALUE_USD_PER_LOT := 10.0
  const LOT_STEP := 0.01
  const KELLY_MIN_TRADES := 30

  /** The thresholds read from the `risk` section of the configuration. */
  datatype RiskConfig = RiskConfig(
    maxRiskPerTrade: real,
    kellyFraction: real,
    dailyLossLimit: real,
    trailingDdWarn: real,
    trailingDdReduce: real,
    trailingDdHalt: real,
    maxLots: real,
    consecutiveLossHalt: int,
    atrMultiplier: real)

  // ---- Kelly multiplier -------------------------------------------------

  /** The winning profits, in order. */
  function Wins(profits: seq<real>): (w: seq<real>)
    ensures |w| <= |profits|
    ensures forall i :: 0 <= i < |w| ==> w[i] > 0.0
  {
    if profits == [] then [] else
      var n := |profits| - 1;
      if profits[n] > 0.0 then Wins(profits[..n]) + [profits[n]] else Wins(profits[..n])
  }

  /** The sizes of the losing profits, in order. */
  function Losses(profits: seq<real>): (l: seq<real>)
    ensures |l| + |Wins(profits)| <= |profits|
    ensures forall i :: 0 <= i < |l| ==> l[i] > 0.0
  {
    if profits == [] then [] else
      var n := |profits| - 1;
      if profits[n] < 0.0 then Losses(profits[..n]) + [-profits[n]] else Losses(profits[..n])
  }

  function Average(xs: seq<real>): (a: real)
    requires xs != []
    ensures (forall i :: 0 <= i < |xs| ==> xs[i] > 0.0) ==> a > 0.0
  {
    var a := Sum(xs) / |xs| as real;
    assert (forall i :: 0 <= i < |xs| ==> xs[i] > 0.0) ==> a > 0.0 by {
      if forall i :: 0 <= i < |xs| ==> xs[i] > 0.0 {
        SumPositive(xs);
        QuotientSign(Sum(xs), |xs| as real);
      }
    }
    a
  }

  /** The full Kelly fraction for a win rate and the average win and loss. */
  function KellyFull(winRate: real, avgWin: real, avgLoss: real): real
    requires avgWin > 0.0 && avgLoss > 0.0
  {
    var b := avgWin / avgLoss;
    assert b > 0.0;
    (b * winRate - (1.0 - winRate)) / b
  }

  function HistoryKelly(profits: seq<real>): real
    requires Wins(profits) != [] && Losses(profits) != []
  {
    KellyFull(|Wins(profits)| as real / |profits| as real, Average(Wins(profits)), Average(Losses(profits)))
  }

  function KellyMultiplier(cfg: RiskConfig, profits: seq<real>): real
  {
    if |profits| < KELLY_MIN_TRADES then cfg.kellyFraction
    else if Wins(profits) == [] then 0.0
    else if Losses(profits) == [] then cfg.kellyFraction
    else MinReal(cfg.kellyFraction, MaxReal(0.0, HistoryKelly(profits) * 0.5))
  }

  lemma KellyMultiplierBounds(cfg: RiskConfig, profits: seq<real>)
    requires cfg.kellyFraction >= 0.0
    ensures 0.0 <= KellyMultiplier(cfg, profits) <= cfg.kellyFraction
  {
  }

  /** Every profit is a win, a loss or a break-even trade, so the total is wins minus losses. */
  lemma {:induction false} WinsMinusLosses(profits: seq<real>)
    ensures Sum(profits) == Sum(Wins(profits)) - Sum(Losses(profits))
    ensures (forall i :: 0 <= i < |profits| ==> profits[i] != 0.0)
            ==> |Wins(profits)| + |Losses(profits)| == |profits|
  {
    if profits != [] {
      var n := |profits| - 1;
      WinsMinusLosses(profits[..n]);
      if profits[n] > 0.0 {
        SumAppend(Wins(profits[..n]), profits[n]);
      } else if profits[n] < 0.0 {
        SumAppend(Losses(profits[..n]), -profits[n]);
      }
    }
  }

  lemma KellyFullSign(q: real, aw: real, al: real)
    requires aw > 0.0 && al > 0.0
    ensures KellyFull(q, aw, al) > 0.0 <==> aw * q > al * (1.0 - q)
  {
    var b := aw / al;
    assert b * al == aw && b > 0.0;
    var x := b * q - (1.0 - q);
    QuotientSign(x, b);
    ProductSign(x, al);
    assert x * al == (b * al) * q - al * (1.0 - q);
  }

  /** Sign of the Kelly fraction, with the averages written as total / count. */
  lemma KellySign(sumW: real, sumL: real, w: real, l: real, n: real)
    requires sumW > 0.0 && sumL > 0.0 && w > 0.0 && l > 0.0 && n > 0.0
    requires sumW / w > 0.0 && sumL / l > 0.0
    ensures KellyFull(w / n, sumW / w, sumL / l) > 0.0 <==> sumW * l > sumL * (n - w)
  {
    hide KellyFull;
    var aw, al, q := sumW / w, sumL / l, w / n;
    KellyFullSign(q, aw, al);
    assert q * n == w && aw * w == sumW && al * l == sumL;
    ScaledOrder(aw * q, al * (1.0 - q), n);
    assert (aw * q) * n == aw * (q * n) == sumW;
    assert (al * (1.0 - q)) * n == al * (n - q * n) == al * (n - w);
    ScaledOrder(sumW, al * (n - w), l);
    assert (al * (n - w)) * l == (al * l) * (n - w);
  }

  lemma ProductSign(x: real, y: real)
    requires y > 0.0
    ensures x * y > 0.0 <==> x > 0.0
  {
    if x > 0.0 { assert x * y > 0.0; } else { assert x * y <= 0.0; }
  }

  lemma QuotientSign(x: real, y: real)
    requires y > 0.0
    ensures x / y > 0.0 <==> x > 0.0
  {
    var q := x / y;
    assert q * y == x;
    ProductSign(q, y);
  }

  /** Once 30 trades include a win and a loss, the multiplier is positive only for a history that
      made money overall; break-even trades count against it, and without any the two coincide. */
  lemma KellyPositiveMeansProfit(cfg: RiskConfig, profits: seq<real>)
    requires cfg.kellyFraction > 0.0
    requires |profits| >= KELLY_MIN_TRADES
    requires Wins(profits) != [] && Losses(profits) != []
    ensures KellyMultiplier(cfg, profits) > 0.0 ==> Sum(profits) > 0.0
    ensures (forall i :: 0 <= i < |profits| ==> profits[i] != 0.0)
            ==> (KellyMultiplier(cfg, profits) > 0.0 <==> Sum(profits) > 0.0)
  {
    hide HistoryKelly, Wins, Losses, Sum;
    assert KellyMultiplier(cfg, profits) > 0.0 <==> HistoryKelly(profits) > 0.0;
    HistoryKellySign(profits);
    WinsMinusLosses(profits);
  }

  /** Full Kelly is the edge per trade over the average win. */
  lemma KellyIsEdgeOverWin(q: real, aw: real, al: real)
    requires aw > 0.0 && al > 0.0
    ensures KellyFull(q, aw, al) == (q * aw - (1.0 - q) * al) / aw
  {
    var b := aw / al;
    assert b * al == aw && b > 0.0;
    var f := KellyFull(q, aw, al);
    assert f * b == b * q - (1.0 - q);
    assert f * aw == f * b * al == b * al * q - (1.0 - q) * al;
  }

  lemma EdgeIsAverageProfit(sumW: real, sumL: real, w: real, l: real, n: real)
    requires w > 0.0 && l > 0.0 && n == w + l
    ensures (w / n) * (sumW / w) - (1.0 - w / n) * (sumL / l) == (sumW - sumL) / n
  {
    var aw, al, q := sumW / w, sumL / l, w / n;
    assert q * n == w && aw * w == sumW && al * l == sumL;
    assert (q * aw) * n == (q * n) * aw == sumW;
    assert ((1.0 - q) * al) * n == (n - q * n) * al == l * al == sumL;
    assert (q * aw - (1.0 - q) * al) * n == sumW - sumL;
  }

  /** From 30 trades on, without break-even trades but with a win and a loss, the multiplier is half the
      average profit over the average win, kept between zero and the configured fraction. */
  lemma KellyIsHalfTheEdge(cfg: RiskConfig, profits: seq<real>)
    requires |profits| >= KELLY_MIN_TRADES
    requires Wins(profits) != [] && Losses(profits) != []
    requires forall i :: 0 <= i < |profits| ==> profits[i] != 0.0
    ensures Average(Wins(profits)) > 0.0
    ensures KellyMultiplier(cfg, profits)
         == MinReal(cfg.kellyFraction, MaxReal(0.0, 0.5 * (Average(profits) / Average(Wins(profits)))))
  {
    hide Wins, Losses, HistoryKelly, Average;
    HistoryKellyIsEdge(profits);
  }

  lemma HistoryKellyIsEdge(profits: seq<real>)
    requires Wins(profits) != [] && Losses(profits) != []
    requires forall i :: 0 <= i < |profits| ==> profits[i] != 0.0
    ensures profits != [] && HistoryKelly(profits) == Average(profits) / Average(Wins(profits))
  {
    hide Sum, Wins, Losses, KellyFull, Average;
    WinsMinusLosses(profits);
    AverageIsQuotient(profits);
    AverageIsQuotient(Wins(profits));
    AverageIsQuotient(Losses(profits));
    KellyOfTotals(Sum(Wins(profits)), Sum(Losses(profits)),
                  |Wins(profits)| as real, |Losses(profits)| as real, |profits| as real);
  }

  lemma KellyOfTotals(sumW: real, sumL: real, w: real, l: real, n: real)
    requires w > 0.0 && l > 0.0 && n == w + l
    requires sumW / w > 0.0 && sumL / l > 0.0
    ensures KellyFull(w / n, sumW / w, sumL / l) == (sumW - sumL) / n / (sumW / w)
  {
    hide KellyFull;
    EdgeIsAverageProfit(sumW, sumL, w, l, n);
    KellyIsEdgeOverWin(w / n, sumW / w, sumL / l);
  }

  lemma AverageIsQuotient(xs: seq<real>)
    requires xs != []
    ensures Average(xs) == Sum(xs) / |xs| as real
  {
  }

  lemma HistoryKellySign(profits: seq<real>)
    requires Wins(profits) != [] && Losses(profits) != []
    ensures HistoryKelly(profits) > 0.0 ==> Sum(profits) > 0.0
    ensures |Wins(profits)| + |Losses(profits)| == |profits|
            ==> (HistoryKelly(profits) > 0.0 <==> Sum(profits) > 0.0)
  {
    hide Sum, Wins, Losses, KellyFull;
    var sumW, sumL := Sum(Wins(profits)), Sum(Losses(profits));
    var w, l, n := |Wins(profits)| as real, |Losses(profits)| as real, |profits| as real;
    SumPositive(Wins(profits));
    SumPositive(Losses(profits));
    assert sumW / w == Average(Wins(profits));
    assert sumL / l == Average(Losses(profits));
    KellySignOfTotals(sumW, sumL, w, l, n);
    assert HistoryKelly(profits) == KellyFull(w / n, sumW / w, sumL / l);
    assert Sum(profits) == sumW - sumL by { WinsMinusLosses(profits); }
  }

  lemma KellySignOfTotals(sumW: real, sumL: real, w: real, l: real, n: real)
    requires sumW > 0.0 && sumL > 0.0 && w > 0.0 && l > 0.0 && n >= w + l
    requires sumW / w > 0.0 && sumL / l > 0.0
    ensures KellyFull(w / n, sumW / w, sumL / l) > 0.0 ==> sumW > sumL
    ensures n == w + l ==> (KellyFull(w / n, sumW / w, sumL / l) > 0.0 <==> sumW > sumL)
  {
    hide KellyFull;
    KellySign(sumW, sumL, w, l, n);
    ProductMonotone(sumL, l, n - w);
    ScaledOrder(sumW, sumL, l);
  }

  lemma ProductMonotone(x: real, y: real, z: real)
    requires x >= 0.0 && y <= z
    ensures x * y <= x * z
  {
    assert x * (z - y) >= 0.0;
  }

  lemma ScaledOrder(x: real, y: real, l: real)
    requires l > 0.0
    ensures x * l > y * l <==> x > y
  {
    ProductSign(x - y, l);
    assert (x - y) * l == x * l - y * l;
  }

  /** The trades that made money. */
  function WinningTrades(profits: seq<real>): set<int> { set i | 0 <= i < |profits| && profits[i] > 0.0 }

  function LosingTrades(profits: seq<real>): set<int> { set i | 0 <= i < |profits| && profits[i] < 0.0 }

  lemma {:induction false} WinsAreCounted(profits: seq<real>)
    ensures |Wins(profits)| == |WinningTrades(profits)|
  {
    if profits != [] {
      var n := |profits| - 1;
      WinsAreCounted(profits[..n]);
      hide Sum;
      assert WinningTrades(profits) == WinningTrades(profits[..n]) + (if profits[n] > 0.0 then {n} else {});
      hide WinningTrades;
    } else {
      assert WinningTrades(profits) == {};
    }
  }

  lemma {:induction false} LossesAreCounted(profits: seq<real>)
    ensures |Losses(profits)| == |LosingTrades(profits)|
  {
    if profits != [] {
      var n := |profits| - 1;
      LossesAreCounted(profits[..n]);
      hide Sum, Wins;
      assert LosingTrades(profits) == LosingTrades(profits[..n]) + (if profits[n] < 0.0 then {n} else {});
      hide LosingTrades;
    } else {
      assert LosingTrades(profits) == {};
    }
  }

  lemma {:induction false} WinsIff(profits: seq<real>)
    ensures Wins(profits) == [] <==> forall i :: 0 <= i < |profits| ==> profits[i] <= 0.0
    ensures Losses(profits) == [] <==> forall i :: 0 <= i < |profits| ==> profits[i] >= 0.0
  {
    if profits != [] {
      var n := |profits| - 1;
      WinsIff(profits[..n]);
      assert forall i :: 0 <= i < n ==> profits[..n][i] == profits[i];
    }
  }

  /** The histories that say nothing about the edge: a short one and one without losses get the configured
      fraction, one that never won gets nothing. */
  lemma KellyOfOneSidedHistory(cfg: RiskConfig, profits: seq<real>)
    ensures |profits| < 30 ==> KellyMultiplier(cfg, profits) == cfg.kellyFraction
    ensures |profits| >= 30 && (forall i :: 0 <= i < |profits| ==> profits[i] <= 0.0)
            ==> KellyMultiplier(cfg, profits) == 0.0
    ensures |profits| >= 30 && (exists i :: 0 <= i < |profits| && profits[i] > 0.0)
            && (forall i :: 0 <= i < |profits| ==> profits[i] >= 0.0)
            ==> KellyMultiplier(cfg, profits) == cfg.kellyFraction
  {
    hide Wins, Losses;
    WinsIff(profits);
  }

  lemma KellyOverPayoff(q: real, aw: real, al: real)
    requires aw > 0.0 && al > 0.0
    ensures KellyFull(q, aw, al) == q - (1.0 - q) * (al / aw)
  {
    hide KellyFull;
    KellyIsEdgeOverWin(q, aw, al);
    var r := al / aw;
    assert r * aw == al;
    var edge := q * aw - (1.0 - q) * al;
    assert (q - (1.0 - q) * r) * aw == q * aw - (1.0 - q) * (r * aw) == edge;
    assert edge / aw * aw == edge;
    SameQuotient(edge / aw, q - (1.0 - q) * r, aw);
  }

  lemma SameQuotient(x: real, y: real, b: real)
    requires b > 0.0 && x * b == y * b
    ensures x == y
  {
    assert (x - y) * b == 0.0;
  }

  /** The share of all trades that won. */
  function WinShare(profits: seq<real>): real
    requires profits != []
  {
    |WinningTrades(profits)| as real / |profits| as real
  }

  function LossOverWin(profits: seq<real>): real
    requires Wins(profits) != [] && Losses(profits) != []
  {
    Average(Losses(profits)) / Average(Wins(profits))
  }

  /** The winning share less the rest weighed by the average loss over the average win, halved. */
  function HalfKelly(share: real, ratio: real): real { 0.5 * (share - (1.0 - share) * ratio) }

  lemma HistoryKellyIsHalved(profits: seq<real>)
    requires Wins(profits) != [] && Losses(profits) != []
    ensures profits != [] && HistoryKelly(profits) * 0.5 == HalfKelly(WinShare(profits), LossOverWin(profits))
  {
    hide Wins, Losses, Average, KellyFull, WinningTrades, HalfKelly;
    WinsAreCounted(profits);
    var q := WinShare(profits);
    HalvedKelly(q, Average(Wins(profits)), Average(Losses(profits)));
  }

  lemma HalvedKelly(q: real, aw: real, al: real)
    requires aw > 0.0 && al > 0.0
    ensures KellyFull(q, aw, al) * 0.5 == HalfKelly(q, al / aw)
  {
    hide KellyFull;
    KellyOverPayoff(q, aw, al);
  }

  /** From 30 trades on with wins and losses, break-even trades or not, the multiplier is the half-Kelly of the
      winning share and the average loss over the average win, kept between zero and the fraction. */
  lemma KellyIsHalfKelly(cfg: RiskConfig, profits: seq<real>)
    requires |profits| >= 30
    requires exists i :: 0 <= i < |profits| && profits[i] > 0.0
    requires exists i :: 0 <= i < |profits| && profits[i] < 0.0
    ensures Wins(profits) != [] && Losses(profits) != []
    ensures KellyMultiplier(cfg, profits)
         == MinReal(cfg.kellyFraction, MaxReal(0.0, HalfKelly(WinShare(profits), LossOverWin(profits))))
  {
    hide Wins, Losses, HalfKelly, WinShare, LossOverWin, HistoryKelly;
    WinsIff(profits);
    HistoryKellyIsHalved(profits);
  }

  // ---- Sizing -----------------------------------------------------------

  /** `round(round(x / 0.01) * 0.01, 2)`. */
  function RoundToStep(x: real): real
  {
    RoundHalfEven(x * 100.0) as real / 100.0
  }

  function StopPips(cfg: RiskConfig, atr: real): real
  {
    atr * cfg.atrMultiplier / PIP_SIZE
  }

  /** The lot size before capping and rounding: budget over the money one lot loses at the stop. */
  function IdealLots(cfg: RiskConfig, balance: real, pips: real, profits: seq<real>, correlation: real): real
    requires pips > 0.0
  {
    balance * cfg.maxRiskPerTrade / (pips * PIP_VALUE_USD_PER_LOT)
    * KellyMultiplier(cfg, profits) * MaxReal(0.0, 1.0 - correlation)
  }

  function CapAndRound(cfg: RiskConfig, lots: real): real
  {
    MaxReal(LOT_STEP, RoundToStep(MinReal(lots, cfg.maxLots)))
  }

  /** `atr` is absent when the indicator yields NaN. */
  function SizePosition(cfg: RiskConfig, balance: real, atr: Option<real>, profits: seq<real>, correlation: real): real
  {
    if balance <= 0.0 then LOT_STEP
    else if atr.None? || atr.value <= 0.0 then LOT_STEP
    else
      var pips := StopPips(cfg, atr.value);
      if pips <= 0.0 then LOT_STEP
      else CapAndRound(cfg, IdealLots(cfg, balance, pips, profits, correlation))
  }

  lemma RoundToStepClose(x: real)
    ensures x - 0.005 <= RoundToStep(x) <= x + 0.005
  {
  }

  /** What a number of lots loses at the stop. */
  function MoneyAtRisk(lots: real, pips: real): real { lots * PerLot(pips) }

  function PerLot(pips: real): real { pips * PIP_VALUE_USD_PER_LOT }

  /** What a trade may lose: the configured share of the balance, scaled by Kelly and correlation. */
  function RiskBudget(cfg: RiskConfig, balance: real, profits: seq<real>, correlation: real): real
  {
    balance * cfg.maxRiskPerTrade * KellyMultiplier(cfg, profits) * MaxReal(0.0, 1.0 - correlation)
  }

  /** What a number of lots of 100000 units loses when the price moves to the stop. */
  function LossAtStop(cfg: RiskConfig, atr: real, lots: real): real { lots * (100000.0 * (atr * cfg.atrMultiplier)) }

  lemma LossIsMoneyAtRisk(cfg: RiskConfig, atr: real, lots: real)
    ensures MoneyAtRisk(lots, StopPips(cfg, atr)) == LossAtStop(cfg, atr, lots)
  {
    var move := atr * cfg.atrMultiplier;
    assert move / PIP_SIZE * PIP_VALUE_USD_PER_LOT == 100000.0 * move;
  }

  lemma StopPipsPositive(cfg: RiskConfig, atr: real)
    requires atr > 0.0
    ensures StopPips(cfg, atr) > 0.0 <==> cfg.atrMultiplier > 0.0
  {
    ProductSign(cfg.atrMultiplier, atr);
    QuotientSign(atr * cfg.atrMultiplier, PIP_SIZE);
  }

  /** Without a balance, an ATR or a stop distance the smallest lot is taken. */
  lemma DegenerateSizes(cfg: RiskConfig, balance: real, atr: Option<real>, profits: seq<real>, correlation: real)
    requires balance <= 0.0 || atr.None? || atr.value <= 0.0 || cfg.atrMultiplier <= 0.0
    ensures SizePosition(cfg, balance, atr, profits, correlation) == 0.01
  {
    hide StopPips, CapAndRound, IdealLots;
    if atr.Some? && atr.value > 0.0 { StopPipsPositive(cfg, atr.value); }
  }

  /** A position above the minimum lot risks at most half a lot step more than budgeted at its stop, and never
      leaves the configured lot range. Unless the budget exceeds what the largest lot risks, it falls
      short of it by at most half a step too; if it does, the largest lot is taken. */
  lemma SizedRiskBound(cfg: RiskConfig, balance: real, atr: real, profits: seq<real>, correlation: real)
    requires balance > 0.0 && atr > 0.0 && cfg.atrMultiplier > 0.0
    ensures var lots := SizePosition(cfg, balance, Some(atr), profits, correlation);
            var risked, halfStep := LossAtStop(cfg, atr, lots), LossAtStop(cfg, atr, 0.005);
            var budget := RiskBudget(cfg, balance, profits, correlation);
            && 0.01 <= lots <= MaxReal(0.01, RoundToStep(cfg.maxLots))
            && (lots > 0.01 ==> risked <= budget + halfStep)
            && (if budget <= LossAtStop(cfg, atr, cfg.maxLots) then risked >= budget - halfStep
                else lots == MaxReal(0.01, RoundToStep(cfg.maxLots)))
  {
    hide CapAndRound, IdealLots, RiskBudget, StopPips, RoundToStep, MoneyAtRisk, LossAtStop;
    StopPipsPositive(cfg, atr);
    var pips := StopPips(cfg, atr);
    var ideal := IdealLots(cfg, balance, pips, profits, correlation);
    var lots := CapAndRound(cfg, ideal);
    CapAndRoundBounds(cfg, ideal);
    IdealLotsSpendBudget(cfg, balance, pips, profits, correlation);
    RiskOfLots(lots, ideal, pips, cfg.maxLots);
    LossIsMoneyAtRisk(cfg, atr, lots);
    LossIsMoneyAtRisk(cfg, atr, 0.5 * LOT_STEP);
    LossIsMoneyAtRisk(cfg, atr, cfg.maxLots);
  }

  /** A bound on lots is a bound on the money they risk. */
  lemma RiskOfLots(lots: real, ideal: real, pips: real, cap: real)
    requires pips > 0.0
    ensures lots <= ideal + 0.5 * LOT_STEP ==>
              MoneyAtRisk(lots, pips) <= MoneyAtRisk(ideal, pips) + MoneyAtRisk(0.5 * LOT_STEP, pips)
    ensures ideal <= lots + 0.5 * LOT_STEP ==>
              MoneyAtRisk(ideal, pips) <= MoneyAtRisk(lots, pips) + MoneyAtRisk(0.5 * LOT_STEP, pips)
    ensures ideal <= cap <==> MoneyAtRisk(ideal, pips) <= MoneyAtRisk(cap, pips)
  {
    var perLot := PerLot(pips);
    assert perLot > 0.0;
    hide PerLot;
    ScaledOrder(ideal, cap, perLot);
    ScaledSum(lots, ideal, 0.5 * LOT_STEP, perLot);
    ScaledSum(ideal, lots, 0.5 * LOT_STEP, perLot);
  }

  lemma ScaledSum(x: real, y: real, h: real, l: real)
    requires l > 0.0
    ensures x <= y + h <==> x * l <= y * l + h * l
  {
    ScaledOrder(x, y + h, l);
    assert (y + h) * l == y * l + h * l;
  }

  lemma CapAndRoundBounds(cfg: RiskConfig, ideal: real)
    ensures LOT_STEP <= CapAndRound(cfg, ideal) <= MaxReal(LOT_STEP, RoundToStep(cfg.maxLots))
    ensures CapAndRound(cfg, ideal) > LOT_STEP ==> CapAndRound(cfg, ideal) <= ideal + 0.5 * LOT_STEP
    ensures if ideal <= cfg.maxLots then CapAndRound(cfg, ideal) >= ideal - 0.5 * LOT_STEP
            else CapAndRound(cfg, ideal) == MaxReal(LOT_STEP, RoundToStep(cfg.maxLots))
  {
    RoundToStepClose(MinReal(ideal, cfg.maxLots));
    RoundMonotone(MinReal(ideal, cfg.maxLots) * 100.0, cfg.maxLots * 100.0);
  }

  lemma IdealLotsSpendBudget(cfg: RiskConfig, balance: real, pips: real, profits: seq<real>, correlation: real)
    requires pips > 0.0
    ensures MoneyAtRisk(IdealLots(cfg, balance, pips, profits, correlation), pips)
         == RiskBudget(cfg, balance, profits, correlation)
  {
    hide KellyMultiplier, MaxReal;
    ScaledQuotient(balance * cfg.maxRiskPerTrade, pips * PIP_VALUE_USD_PER_LOT, KellyMultiplier(cfg, profits),
                   MaxReal(0.0, 1.0 - correlation));
  }

  lemma ScaledQuotient(stake: real, perLot: real, kelly: real, corr: real)
    requires perLot > 0.0
    ensures perLot * (stake / perLot * kelly * corr) == stake * kelly * corr
  {
    var base := stake / perLot;
    assert perLot * (base * kelly * corr) == (base * perLot) * kelly * corr;
  }

  function PositionAdjustment(cfg: RiskConfig, equity: real, peak: real): real
  {
    if peak <= 0.0 then 1.0
    else
      var dd := MaxReal(0.0, (peak - equity) / peak);
      if dd >= cfg.trailingDdHalt then 0.0
      else if dd >= cfg.trailingDdReduce then 0.5
      else if dd >= cfg.trailingDdWarn then 0.7
      else 1.0
  }

  /** The equity has fallen from the peak by at least the given share. */
  predicate FallenBy(equity: real, peak: real, share: real)
  {
    share <= 0.0 || equity <= peak * (1.0 - share)
  }

  lemma DrawdownReaches(equity: real, peak: real, share: real)
    requires peak > 0.0
    ensures MaxReal(0.0, (peak - equity) / peak) >= share <==> FallenBy(equity, peak, share)
  {
    var dd := (peak - equity) / peak;
    assert dd * peak == peak - equity;
    ScaledOrder(share, dd, peak);
    assert peak * (1.0 - share) == peak - share * peak;
  }

  /** The drawdown tiers in terms of equity and peak: nothing, half, seven tenths, or all of the size. */
  lemma AdjustmentTiers(cfg: RiskConfig, equity: real, peak: real)
    ensures PositionAdjustment(cfg, equity, peak)
         == (if peak <= 0.0 then 1.0
             else if FallenBy(equity, peak, cfg.trailingDdHalt) then 0.0
             else if FallenBy(equity, peak, cfg.trailingDdReduce) then 0.5
             else if FallenBy(equity, peak, cfg.trailingDdWarn) then 0.7
             else 1.0)
  {
    hide MaxReal, FallenBy;
    if peak > 0.0 {
      DrawdownReaches(equity, peak, cfg.trailingDdHalt);
      DrawdownReaches(equity, peak, cfg.trailingDdReduce);
      DrawdownReaches(equity, peak, cfg.trailingDdWarn);
    }
  }

  /** The drawdown-scaled, re-rounded volume of an entry. */
  function AdjustVolume(volume: real, adjustment: real): real
  {
    var v := MaxReal(0.0, volume * adjustment);
    if v > 0.0 then RoundToStep(v) else v
  }

  lemma SizeIsWholeSteps(cfg: RiskConfig, balance: real, atr: Option<real>, profits: seq<real>, correlation: real)
    returns (k: int)
    ensures k >= 1
    ensures SizePosition(cfg, balance, atr, profits, correlation) == k as real / 100.0
  {
    var lots := SizePosition(cfg, balance, atr, profits, correlation);
    if lots == LOT_STEP {
      k := 1;
    } else {
      k := CapAndRoundSteps(cfg, IdealLots(cfg, balance, StopPips(cfg, atr.value), profits, correlation));
    }
  }

  lemma CapAndRoundSteps(cfg: RiskConfig, ideal: real) returns (k: int)
    ensures k >= 1
    ensures CapAndRound(cfg, ideal) == k as real / 100.0
  {
    k := MaxInt(1, RoundHalfEven(MinReal(ideal, cfg.maxLots) * 100.0));
  }

  /** Scaling a sized position down by the drawdown tier and rounding again never enlarges it. */
  lemma AdjustmentNeverIncreases(cfg: RiskConfig, balance: real, atr: Option<real>, profits: seq<real>,
                                 correlation: real, equity: real, peak: real)
    ensures var lots := SizePosition(cfg, balance, atr, profits, correlation);
            0.0 <= AdjustVolume(lots, PositionAdjustment(cfg, equity, peak)) <= lots
  {
    var lots := SizePosition(cfg, balance, atr, profits, correlation);
    var k := SizeIsWholeSteps(cfg, balance, atr, profits, correlation);
    var adj := PositionAdjustment(cfg, equity, peak);
    ProductMonotone(lots, adj, 1.0);
    ProductMonotone(lots, 0.0, adj);
    var v := lots * adj;
    RoundMonotone(v * 100.0, k as real);
    RoundMonotone(0.0, v * 100.0);
    RoundOfInteger(k);
    RoundOfInteger(0);
  }

  // ---- Circuit breakers -------------------------------------------------

  datatype Verdict = Ok | TrailingDrawdown | ConsecutiveLosses | DailyLoss

  /** Python's `s[-count:]` when `len(s) >= count`, including zero and negative counts. */
  function LastSlice(s: seq<real>, count: int): seq<real>
    requires |s| >= count
  {
    if count > 0 then s[|s| - count..]
    else if -count <= |s| then s[-count..]
    else []
  }

  predicate DrawdownHalts(cfg: RiskConfig, equity: real, peak: real)
  {
    peak > 0.0 && MaxReal(0.0, (peak - equity) / peak) >= cfg.trailingDdHalt
  }

  predicate StreakHalts(cfg: RiskConfig, profits: seq<real>)
  {
    |profits| >= cfg.consecutiveLossHalt &&
    var tail := LastSlice(profits, cfg.consecutiveLossHalt);
    forall i :: 0 <= i < |tail| ==> tail[i] < 0.0
  }

  predicate DailyLossHalts(cfg: RiskConfig, equity: real, dayStart: real)
  {
    dayStart > 0.0 && (equity - dayStart) / dayStart <= -cfg.dailyLossLimit
  }

  function CheckBreakers(cfg: RiskConfig, equity: real, profits: seq<real>, peak: real, dayStart: real): Verdict
  {
    if DrawdownHalts(cfg, equity, peak) then TrailingDrawdown
    else if StreakHalts(cfg, profits) then ConsecutiveLosses
    else if DailyLossHalts(cfg, equity, dayStart) then DailyLoss
    else Ok
  }

  /** The equity breakers in terms of equities: the fall from the peak, and the fall from the equity the day
      started with. */
  lemma EquityBreakersIff(cfg: RiskConfig, equity: real, peak: real, dayStart: real)
    ensures DrawdownHalts(cfg, equity, peak) <==> peak > 0.0 && FallenBy(equity, peak, cfg.trailingDdHalt)
    ensures DailyLossHalts(cfg, equity, dayStart)
            <==> dayStart > 0.0 && equity <= dayStart * (1.0 - cfg.dailyLossLimit)
  {
    hide FallenBy, MaxReal;
    if peak > 0.0 { DrawdownReaches(equity, peak, cfg.trailingDdHalt); }
    if dayStart > 0.0 {
      var change := (equity - dayStart) / dayStart;
      assert change * dayStart == equity - dayStart;
      ScaledOrder(change, -cfg.dailyLossLimit, dayStart);
      assert dayStart * (1.0 - cfg.dailyLossLimit) == dayStart + -cfg.dailyLossLimit * dayStart;
    }
  }

  /** The streak breaker in terms of the profits: the last `consecutive_loss_halt` trades exist and all lost; a
      count of zero or less looks at all trades from that many on. */
  lemma StreakHaltsIff(cfg: RiskConfig, profits: seq<real>)
    ensures var count := cfg.consecutiveLossHalt;
            StreakHalts(cfg, profits)
            <==> if count > 0 then
                   |profits| >= count && forall i :: |profits| - count <= i < |profits| ==> profits[i] < 0.0
                 else forall i :: -count <= i < |profits| ==> profits[i] < 0.0
  {
    var count, n := cfg.consecutiveLossHalt, |profits|;
    if n >= count {
      var tail := LastSlice(profits, count);
      var start := if count > 0 then n - count else MinInt(n, -count);
      assert tail == profits[start..];
      assert forall i :: start <= i < n ==> profits[i] == tail[i - start];
      assert forall i :: 0 <= i < |tail| ==> tail[i] == profits[start + i];
    }
  }

  /** An entry the breakers let through is never scaled to nothing by the drawdown tiers. */
  lemma PassedBreakersKeepSize(cfg: RiskConfig, equity: real, profits: seq<real>, peak: real, dayStart: real)
    requires CheckBreakers(cfg, equity, profits, peak, dayStart) == Ok
    ensures PositionAdjustment(cfg, equity, peak) >= 0.5
  {
  }
}
