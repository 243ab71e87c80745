/**
 The relative strength index and its inversion (src/core/signal_engine.py).

 Wilder averages are exponential means with weight 1/period.  The `ta` library seeds
 them with a zero change for the first candle, while the algebraic guess of the
 signal engine seeds them with the first real change; `Seeding` tells the two apart,
 and every theorem about the search holds for an index computed with either.  The
 guess itself hits its target for the first always, for the second exactly when the
 first two closes are equal.
 */
module Rsi {
  import opened Prelude

  datatype Averages = Averages(gain: real, loss: real)

  datatype Seeding = FromZero | FromFirstChange

  function Smoothed(mean: real, x: real, period: nat): real
    requires period >= 1
  {
    ((period as real - 1.0) * mean + x) / period as real
  }

  function Update(a: Averages, prev: real, next: real, period: nat): Averages
    requires period >= 1
  {
    Averages(Smoothed(a.gain, Max(next - prev, 0.0), period), Smoothed(a.loss, Max(prev - next, 0.0), period))
  }

  /** Average gain and loss after the last of `closes`. */
  function AveragesOf(closes: seq<real>, period: nat, seeding: Seeding): Averages
    requires |closes| >= 1 && period >= 1
  {
    var n := |closes|;
    if n == 1 then Averages(0.0, 0.0)
    else if n == 2 && seeding == FromFirstChange then
      Averages(Max(closes[1] - closes[0], 0.0), Max(closes[0] - closes[1], 0.0))
    else Update(AveragesOf(closes[..n - 1], period, seeding), closes[n - 2], closes[n - 1], period)
  }

  function Index(a: Averages): real
    requires a.gain >= 0.0 && a.loss >= 0.0
  {
    if a.loss == 0.0 then 100.0
    else
      RatioNonneg(a.gain, a.loss);
      100.0 - 100.0 / (1.0 + a.gain / a.loss)
  }

  /** The index of a price history. */
  function RsiOf(closes: seq<real>, period: nat, seeding: Seeding): real
    requires |closes| >= 1 && period >= 1
  {
    AveragesNonneg(closes, period, seeding);
    Index(AveragesOf(closes, period, seeding))
  }

  /** The index a history would have if `next` were its next close. */
  function RsiWithNext(closes: seq<real>, next: real, period: nat, seeding: Seeding): real
    requires |closes| >= 1 && period >= 1
  {
    RsiOf(closes + [next], period, seeding)
  }

  // ---------- Monotonicity ----------

  lemma RatioNonneg(x: real, y: real)
    requires x >= 0.0 && y > 0.0
    ensures x / y >= 0.0
  {}

  lemma SmoothedNonneg(mean: real, x: real, period: nat)
    requires period >= 1 && mean >= 0.0 && x >= 0.0
    ensures Smoothed(mean, x, period) >= 0.0
  {}

  lemma {:induction false} AveragesNonneg(closes: seq<real>, period: nat, seeding: Seeding)
    requires |closes| >= 1 && period >= 1
    ensures AveragesOf(closes, period, seeding).gain >= 0.0
    ensures AveragesOf(closes, period, seeding).loss >= 0.0
  {
    var n := |closes|;
    if n > 1 && !(n == 2 && seeding == FromFirstChange) {
      AveragesNonneg(closes[..n - 1], period, seeding);
      var a := AveragesOf(closes[..n - 1], period, seeding);
      SmoothedNonneg(a.gain, Max(closes[n - 1] - closes[n - 2], 0.0), period);
      SmoothedNonneg(a.loss, Max(closes[n - 2] - closes[n - 1], 0.0), period);
    }
  }

  lemma QuotientMonotone(a: real, b: real, x: real, y: real)
    requires 0.0 <= a <= b && 0.0 < y <= x
    ensures a / x <= b / y
  {
    var p, q := a / x, b / y;
    assert p * x == a && q * y == b;
    RatioNonneg(b, y);
    assert q * x >= q * y;
    if p > q {
      assert p * x > q * x;
    }
  }

  lemma IndexMonotone(a: Averages, b: Averages)
    requires 0.0 <= a.gain <= b.gain && 0.0 <= b.loss <= a.loss
    ensures Index(a) <= Index(b) <= 100.0
  {
    if b.loss > 0.0 {
      QuotientMonotone(a.gain, b.gain, a.loss, b.loss);
      RatioNonneg(a.gain, a.loss);
      QuotientMonotone(100.0, 100.0, 1.0 + b.gain / b.loss, 1.0 + a.gain / a.loss);
      RatioNonneg(100.0, 1.0 + b.gain / b.loss);
    } else if a.loss > 0.0 {
      RatioNonneg(a.gain, a.loss);
      RatioNonneg(100.0, 1.0 + a.gain / a.loss);
    }
  }

  lemma SmoothedMonotone(mean: real, x: real, y: real, period: nat)
    requires period >= 1 && x <= y
    ensures Smoothed(mean, x, period) <= Smoothed(mean, y, period)
  {}

  /** Unfolds the averages of a history extended by one close. */
  lemma AveragesWithNext(closes: seq<real>, next: real, period: nat, seeding: Seeding)
    requires |closes| >= 1 && period >= 1
    ensures var c := closes[|closes| - 1];
            AveragesOf(closes + [next], period, seeding) ==
            if |closes| == 1 && seeding == FromFirstChange then Averages(Max(next - c, 0.0), Max(c - next, 0.0))
            else Update(AveragesOf(closes, period, seeding), c, next, period)
  {
    assert (closes + [next])[..|closes|] == closes;
  }

  /** A higher next close never lowers the index, whatever the history. */
  lemma RsiMonotone(closes: seq<real>, p: real, q: real, period: nat, seeding: Seeding)
    requires |closes| >= 1 && period >= 1 && p <= q
    ensures RsiWithNext(closes, p, period, seeding) <= RsiWithNext(closes, q, period, seeding) <= 100.0
  {
    var c := closes[|closes| - 1];
    var a := AveragesOf(closes, period, seeding);
    AveragesWithNext(closes, p, period, seeding);
    AveragesWithNext(closes, q, period, seeding);
    AveragesNonneg(closes + [p], period, seeding);
    AveragesNonneg(closes + [q], period, seeding);
    SmoothedMonotone(a.gain, Max(p - c, 0.0), Max(q - c, 0.0), period);
    SmoothedMonotone(a.loss, Max(c - q, 0.0), Max(c - p, 0.0), period);
    IndexMonotone(AveragesOf(closes + [p], period, seeding), AveragesOf(closes + [q], period, seeding));
  }

  lemma ScaledRatio(k: real, x: real, y: real)
    requires k > 0.0 && y > 0.0
    ensures k * y > 0.0
    ensures (k * x) / (k * y) == x / y
  {
    var q := x / y;
    assert q * y == x;
    assert q * (k * y) == k * x;
  }

  lemma IndexScaled(a: Averages, k: real)
    requires k > 0.0 && a.gain >= 0.0 && a.loss >= 0.0
    ensures k * a.gain >= 0.0 && k * a.loss >= 0.0
    ensures Index(Averages(k * a.gain, k * a.loss)) == Index(a)
  {
    ProductNonneg(k, a.gain);
    ProductNonneg(k, a.loss);
    if a.loss > 0.0 {
      ScaledRatio(k, a.gain, a.loss);
    } else {
      assert k * a.loss == 0.0;
    }
  }

  lemma FlatUpdate(a: Averages, c: real, period: nat)
    requires period >= 1 && a.gain >= 0.0 && a.loss >= 0.0
    ensures var b := Update(a, c, c, period);
            b.gain >= 0.0 && b.loss >= 0.0 && (Index(b) == Index(a) <==> period >= 2 || a.loss == 0.0)
  {
    if period >= 2 {
      SmoothedFlat(a.gain, period);
      SmoothedFlat(a.loss, period);
      IndexScaled(a, (period as real - 1.0) / period as real);
    } else if a.loss > 0.0 {
      RatioNonneg(a.gain, a.loss);
      BelowHundred(a.gain / a.loss);
    }
  }

  /** Repeating the last close leaves the index alone, except with period 1 and some loss before. */
  lemma FlatClose(closes: seq<real>, period: nat, seeding: Seeding)
    requires |closes| >= 2 && period >= 1
    ensures RsiWithNext(closes, closes[|closes| - 1], period, seeding) == RsiOf(closes, period, seeding)
            <==> period >= 2 || AveragesOf(closes, period, seeding).loss == 0.0
  {
    var c := closes[|closes| - 1];
    AveragesNonneg(closes, period, seeding);
    AveragesWithNext(closes, c, period, seeding);
    FlatUpdate(AveragesOf(closes, period, seeding), c, period);
  }

  lemma SmoothedFlat(mean: real, period: nat)
    requires period >= 2
    ensures Smoothed(mean, 0.0, period) == (period as real - 1.0) / period as real * mean
  {}

  lemma BelowHundred(ratio: real)
    requires ratio >= 0.0
    ensures 100.0 - 100.0 / (1.0 + ratio) < 100.0
  {
    var t := 100.0 / (1.0 + ratio);
    assert t * (1.0 + ratio) == 100.0;
  }

  // ---------- The algebraic inverse ----------

  function TargetRatio(target: real): real {
    if target < 100.0 then target / (100.0 - target) else 1000000000.0
  }

  /** The closed-form guess; None when the guess is not a usable price. */
  function GuessFrom(a: Averages, price: real, target: real, side: Side, period: nat): Option<real>
    requires period >= 1
  {
    var w := period as real - 1.0;
    var rs := TargetRatio(target);
    match side
    case Bid =>
      if rs == 0.0 then None
      else
        var loss := (w * a.gain) / rs - w * a.loss;
        if loss > 0.0 && 0.0 < price - loss <= price then Some(price - loss) else None
    case Ask =>
      var gain := rs * w * a.loss - w * a.gain;
      if gain > 0.0 && price + gain >= price then Some(price + gain) else None
  }

  /** The guess after a history; None also while the averages are undefined. */
  function AlgebraicGuess(closes: seq<real>, price: real, target: real, side: Side, period: nat): Option<real>
    requires |closes| >= 1 && period >= 1
  {
    if |closes| - 1 < period then None
    else GuessFrom(AveragesOf(closes, period, FromFirstChange), price, target, side, period)
  }

  lemma TargetFromRatio(target: real)
    requires 0.0 < target < 100.0
    ensures TargetRatio(target) > 0.0
    ensures 100.0 - 100.0 / (1.0 + TargetRatio(target)) == target
  {
    var rs := TargetRatio(target);
    assert rs * (100.0 - target) == target;
    assert rs > 0.0;
    assert (1.0 + rs) * (100.0 - target) == 100.0;
    assert 100.0 / (1.0 + rs) == 100.0 - target;
  }

  lemma BidGuessUpdate(a: Averages, c: real, p: real, rs: real, period: nat)
    requires period >= 1 && a.gain >= 0.0 && a.loss >= 0.0 && rs > 0.0
    requires c - p == ((period as real - 1.0) * a.gain) / rs - (period as real - 1.0) * a.loss > 0.0
    ensures Update(a, c, p, period).loss > 0.0
    ensures Update(a, c, p, period).gain / Update(a, c, p, period).loss == rs
  {
    var n := period as real;
    var w := n - 1.0;
    var x := (w * a.gain) / rs;
    ProductNonneg(w, a.loss);
    assert x * rs == w * a.gain;
    RatioIs(x, rs, n);
  }

  lemma AskGuessUpdate(a: Averages, c: real, p: real, rs: real, period: nat)
    requires period >= 1 && a.gain >= 0.0 && a.loss >= 0.0 && rs > 0.0
    requires p - c == rs * (period as real - 1.0) * a.loss - (period as real - 1.0) * a.gain > 0.0
    ensures Update(a, c, p, period).loss > 0.0
    ensures Update(a, c, p, period).gain / Update(a, c, p, period).loss == rs
  {
    var n := period as real;
    var w := n - 1.0;
    var y := w * a.loss;
    ProductNonneg(w, a.gain);
    ProductNonneg(w, a.loss);
    assert rs * w * a.loss == y * rs;
    RatioIs(y, rs, n);
  }

  lemma GuessFromIsExact(a: Averages, c: real, p: real, target: real, side: Side, period: nat)
    requires period >= 1 && 0.0 < target < 100.0 && a.gain >= 0.0 && a.loss >= 0.0
    requires GuessFrom(a, c, target, side, period) == Some(p)
    ensures Update(a, c, p, period).loss > 0.0
    ensures Update(a, c, p, period).gain / Update(a, c, p, period).loss == TargetRatio(target)
  {
    var rs := TargetRatio(target);
    assert rs > 0.0 by { TargetFromRatio(target); }
    if side == Bid {
      BidGuessUpdate(a, c, p, rs, period);
    } else {
      AskGuessUpdate(a, c, p, rs, period);
    }
  }

  /** In exact arithmetic the guess hits the target, when the index is seeded the way the guess is. */
  lemma GuessIsExact(closes: seq<real>, target: real, side: Side, period: nat)
    requires |closes| >= 2 && period >= 1 && 0.0 < target < 100.0
    requires AlgebraicGuess(closes, closes[|closes| - 1], target, side, period).Some?
    ensures RsiWithNext(closes, AlgebraicGuess(closes, closes[|closes| - 1], target, side, period).value,
                        period, FromFirstChange) == target
  {
    var c := closes[|closes| - 1];
    var a := AveragesOf(closes, period, FromFirstChange);
    var p := GuessFrom(a, c, target, side, period).value;
    AveragesNonneg(closes, period, FromFirstChange);
    AveragesNonneg(closes + [p], period, FromFirstChange);
    AveragesWithNext(closes, p, period, FromFirstChange);
    GuessFromIsExact(a, c, p, target, side, period);
    TargetFromRatio(target);
  }

  // ---------- The guess against the index of the library ----------

  /** The share of an old average that survives one more candle. */
  function Decay(period: nat): real
    requires period >= 1
  {
    (period as real - 1.0) / period as real
  }

  lemma SmoothedGap(m: real, k: real, x: real, period: nat)
    requires period >= 1
    ensures Smoothed(m, x, period) - Smoothed(k, x, period) == (m - k) * Decay(period)
  {
    var n := period as real;
    var d := Decay(period);
    assert d * n == n - 1.0;
    assert Smoothed(m, x, period) * n == (n - 1.0) * m + x;
    assert Smoothed(k, x, period) * n == (n - 1.0) * k + x;
    SameQuotient(Smoothed(m, x, period) - Smoothed(k, x, period), (m - k) * d, n);
  }

  lemma SameQuotient(x: real, y: real, n: real)
    requires n > 0.0 && x * n == y * n
    ensures x == y
  {}

  /** What a change of the first candle leaves in an average after `n` candles. */
  function Left(change: real, period: nat, n: nat): real
    requires period >= 1
  {
    Scaled(change, Decay(period), n)
  }

  lemma LeftStep(change: real, period: nat, n: nat)
    requires period >= 1
    ensures Left(change, period, n + 1) == Left(change, period, n) * Decay(period)
  {}

  lemma FirstGap(closes: seq<real>, period: nat)
    requires |closes| == 2 && period >= 1
    ensures var a, b := AveragesOf(closes, period, FromFirstChange), AveragesOf(closes, period, FromZero);
            && a.gain - b.gain == Left(Max(closes[1] - closes[0], 0.0), period, 1)
            && a.loss - b.loss == Left(Max(closes[0] - closes[1], 0.0), period, 1)
  {
    var up, down := Max(closes[1] - closes[0], 0.0), Max(closes[0] - closes[1], 0.0);
    assert AveragesOf(closes[..1], period, FromZero) == Averages(0.0, 0.0);
    LeftStep(up, period, 0);
    LeftStep(down, period, 0);
    hide Decay;
    SmoothedGap(up, 0.0, up, period);
    SmoothedGap(down, 0.0, down, period);
    SmoothedSame(up, period);
    SmoothedSame(down, period);
  }

  lemma SmoothedSame(x: real, period: nat)
    requires period >= 1
    ensures Smoothed(x, x, period) == x
  {}

  /** The two seedings differ by what is left of the first change. */
  lemma {:induction false} SeedingGap(closes: seq<real>, period: nat)
    requires |closes| >= 2 && period >= 1
    ensures var a, b := AveragesOf(closes, period, FromFirstChange), AveragesOf(closes, period, FromZero);
            && a.gain - b.gain == Left(Max(closes[1] - closes[0], 0.0), period, |closes| - 1)
            && a.loss - b.loss == Left(Max(closes[0] - closes[1], 0.0), period, |closes| - 1)
  {
    hide Smoothed, Scaled, Decay, Left, Max;
    var n := |closes|;
    if n == 2 {
      FirstGap(closes, period);
    } else {
      var rest := closes[..n - 1];
      var a, b := AveragesOf(rest, period, FromFirstChange), AveragesOf(rest, period, FromZero);
      SeedingGap(rest, period);
      SmoothedGap(a.gain, b.gain, Max(closes[n - 1] - closes[n - 2], 0.0), period);
      SmoothedGap(a.loss, b.loss, Max(closes[n - 2] - closes[n - 1], 0.0), period);
      LeftStep(Max(closes[1] - closes[0], 0.0), period, n - 2);
      LeftStep(Max(closes[0] - closes[1], 0.0), period, n - 2);
    }
  }

  lemma ScaledSign(a: real, factor: real, n: nat)
    requires a >= 0.0 && factor > 0.0
    ensures Scaled(a, factor, n) >= 0.0
    ensures Scaled(a, factor, n) == 0.0 <==> a == 0.0
  {}

  lemma IndexIs(a: Averages, target: real)
    requires a.gain >= 0.0 && a.loss >= 0.0 && 0.0 < target < 100.0
    ensures Index(a) == target <==> a.loss > 0.0 && a.gain == TargetRatio(target) * a.loss
  {
    if a.loss > 0.0 {
      var q, rs := a.gain / a.loss, TargetRatio(target);
      assert q * a.loss == a.gain;
      RatioNonneg(a.gain, a.loss);
      TargetFromRatio(target);
      SameHundredth(1.0 + q, 1.0 + rs);
      if q != rs && q * a.loss == rs * a.loss {
        SameQuotient(q, rs, a.loss);
      }
    }
  }

  lemma SameHundredth(x: real, y: real)
    requires x > 0.0 && y > 0.0
    ensures 100.0 / x == 100.0 / y <==> x == y
  {
    var p, q := 100.0 / x, 100.0 / y;
    assert p * x == 100.0 && q * y == 100.0;
    if p == q {
      assert p > 0.0;
      SameQuotient(x, y, p);
    }
  }

  /** Averages on the target's ratio leave it as soon as one of them alone is lowered. */
  lemma OffTarget(a: Averages, b: Averages, target: real)
    requires 0.0 < target < 100.0 && a.loss > 0.0 && a.gain == TargetRatio(target) * a.loss
    requires 0.0 <= b.gain <= a.gain && 0.0 <= b.loss <= a.loss && (b.gain == a.gain || b.loss == a.loss)
    ensures Index(b) == target <==> b == a
  {
    IndexIs(b, target);
    TargetFromRatio(target);
    var rs := TargetRatio(target);
    if Index(b) == target {
      SameQuotient(b.loss, if b.loss == a.loss then b.loss else a.loss, rs);
    }
  }

  /** The index with the library's seeding meets the target exactly when the first two closes are equal;
      with period one there is no guess at all. */
  lemma GuessHitsIff(closes: seq<real>, target: real, side: Side, period: nat)
    requires |closes| >= 2 && period >= 1 && 0.0 < target < 100.0
    requires AlgebraicGuess(closes, closes[|closes| - 1], target, side, period).Some?
    ensures period >= 2
    ensures var guess := AlgebraicGuess(closes, closes[|closes| - 1], target, side, period).value;
            RsiWithNext(closes, guess, period, FromZero) == target <==> closes[0] == closes[1]
  {
    hide Smoothed, Scaled, Decay, Left, Index, TargetRatio, GuessFrom, AveragesOf;
    var c := closes[|closes| - 1];
    var a := AveragesOf(closes, period, FromFirstChange);
    var b := AveragesOf(closes, period, FromZero);
    var p := GuessFrom(a, c, target, side, period).value;
    AveragesNonneg(closes, period, FromFirstChange);
    PeriodOfGuess(a, c, target, side, period);
    GuessFromIsExact(a, c, p, target, side, period);
    AveragesWithNext(closes, p, period, FromZero);
    AveragesNonneg(closes + [p], period, FromZero);
    var x, y := Update(a, c, p, period), Update(b, c, p, period);
    SmoothedGap(a.gain, b.gain, Max(p - c, 0.0), period);
    SmoothedGap(a.loss, b.loss, Max(c - p, 0.0), period);
    SeedingGap(closes, period);
    LeftSign(Max(closes[1] - closes[0], 0.0), period, |closes| - 1);
    LeftSign(Max(closes[0] - closes[1], 0.0), period, |closes| - 1);
    QuotientTimes(x.gain, x.loss);
    OffTarget(x, y, target);
  }

  lemma QuotientTimes(x: real, y: real)
    requires y > 0.0
    ensures x / y * y == x
  {}

  lemma LeftSign(change: real, period: nat, n: nat)
    requires change >= 0.0 && period >= 2
    ensures Left(change, period, n) * Decay(period) >= 0.0
    ensures Left(change, period, n) * Decay(period) == 0.0 <==> change == 0.0
  {
    assert Decay(period) > 0.0;
    ScaledSign(change, Decay(period), n + 1);
  }

  lemma PeriodOfGuess(a: Averages, c: real, target: real, side: Side, period: nat)
    requires period >= 1 && GuessFrom(a, c, target, side, period).Some?
    ensures period >= 2
  {
    var w, rs := period as real - 1.0, TargetRatio(target);
    assert w == 0.0 ==> w * a.gain == 0.0 && w * a.loss == 0.0 && rs * w * a.loss == 0.0;
    assert rs != 0.0 ==> 0.0 / rs == 0.0;
  }

  /** Closes 10, 11, 10 with period 2 and target 25: the guess is 9, where the library's index is below 20. */
  lemma GuessMissesTarget()
    ensures AlgebraicGuess([10.0, 11.0, 10.0], 10.0, 25.0, Bid, 2) == Some(9.0)
    ensures RsiWithNext([10.0, 11.0, 10.0], 9.0, 2, FromZero) < 20.0
  {
    var closes := [10.0, 11.0, 10.0];
    assert closes[..2] == [10.0, 11.0] && closes[..2][..1] == [10.0];
    assert TargetRatio(25.0) == 1.0 / 3.0;
    assert AveragesOf(closes[..2], 2, FromFirstChange) == Averages(1.0, 0.0);
    assert AveragesOf(closes, 2, FromFirstChange) == Averages(0.5, 0.5);
    assert AveragesOf(closes[..2][..1], 2, FromZero) == Averages(0.0, 0.0);
    assert AveragesOf(closes[..2], 2, FromZero) == Averages(0.5, 0.0);
    assert AveragesOf(closes, 2, FromZero) == Averages(0.25, 0.5);
    AveragesWithNext(closes, 9.0, 2, FromZero);
    assert AveragesOf(closes + [9.0], 2, FromZero) == Averages(0.125, 0.75);
    assert 0.125 / 0.75 == 1.0 / 6.0;
    assert 100.0 / (1.0 + 1.0 / 6.0) == 600.0 / 7.0;
  }

  lemma ProductNonneg(x: real, y: real)
    requires x >= 0.0 && y >= 0.0
    ensures x * y >= 0.0
  {}

  lemma RatioIs(y: real, rs: real, n: real)
    requires y > 0.0 && n > 0.0
    ensures y / n > 0.0 && ((y * rs) / n) / (y / n) == rs
  {
    var d := y / n;
    assert d * n == y;
    assert (y * rs) / n == d * rs;
  }
}
