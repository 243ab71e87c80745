/**
 Order volumes (src/core/exchanges/base.py, kis.py, toss.py).

 Stock brokers truncate to whole shares.  Coin exchanges round to four decimals, to the nearest multiple and,
 half way, to the even one, so rounding may go up by as much as half a lot.
 */
module Volumes {
  import opened Prelude

  datatype Rounding = WholeShares | FourDecimals

  function Lot(r: Rounding): real {
    if r == WholeShares then 1.0 else 0.0001
  }

  /** The largest amount by which rounding can exceed its argument. */
  function Slack(r: Rounding): real {
    if r == WholeShares then 0.0 else 0.00005
  }

  /** `raw` counted in lots, a real number. */
  function InLots(r: Rounding, raw: real): real {
    if r == WholeShares then raw else raw * 10000.0
  }

  function NearestEven(x: real): int {
    var n := x.Floor;
    var d := x - n as real;
    if d < 0.5 || (d == 0.5 && n % 2 == 0) then n else n + 1
  }

  function Truncated(x: real): int {
    if x >= 0.0 then x.Floor else -((-x).Floor)
  }

  /** The number of lots `raw` is rounded to. */
  function Units(r: Rounding, raw: real): int {
    if r == WholeShares then Truncated(raw) else NearestEven(raw * 10000.0)
  }

  function RoundVolume(r: Rounding, raw: real): real {
    Units(r, raw) as real * Lot(r)
  }

  /** Half way between two multiples of the lot. */
  predicate Tie(r: Rounding, raw: real) {
    r == FourDecimals && InLots(r, raw) - InLots(r, raw).Floor as real == 0.5
  }

  predicate WholeLots(r: Rounding, v: real) {
    InLots(r, v).Floor as real == InLots(r, v)
  }

  function LotsOf(r: Rounding, v: real): int {
    InLots(r, v).Floor
  }

  /** A rounded volume is a whole number of lots, within the slack above and less than a lot below. */
  lemma RoundVolumeBounds(r: Rounding, raw: real)
    requires raw >= 0.0
    ensures WholeLots(r, RoundVolume(r, raw)) && RoundVolume(r, raw) >= 0.0
    ensures raw - Lot(r) < RoundVolume(r, raw) <= raw + Slack(r)
    ensures raw - Lot(r) / 2.0 <= RoundVolume(r, raw) || r == WholeShares
  {}

  /** In figures: shares are never rounded up and lose less than one; coins move by at most half of 0.0001, and from
      half way to an even number of lots. */
  lemma RoundingInFigures(raw: real)
    requires raw >= 0.0
    ensures raw - 1.0 < RoundVolume(WholeShares, raw) <= raw
    ensures RoundVolume(WholeShares, raw).Floor as real == RoundVolume(WholeShares, raw)
    ensures -0.00005 <= RoundVolume(FourDecimals, raw) - raw <= 0.00005
    ensures var lots := RoundVolume(FourDecimals, raw) * 10000.0; var x := raw * 10000.0;
            lots == lots.Floor as real && (x - x.Floor as real == 0.5 ==> lots.Floor % 2 == 0)
  {
    var n := NearestEven(raw * 10000.0);
    assert RoundVolume(FourDecimals, raw) * 10000.0 == n as real;
  }

  lemma WholeLotsSum(r: Rounding, v: real, w: real)
    requires WholeLots(r, v) && WholeLots(r, w)
    ensures WholeLots(r, v + w) && LotsOf(r, v + w) == LotsOf(r, v) + LotsOf(r, w)
  {
    assert InLots(r, v + w) == (LotsOf(r, v) + LotsOf(r, w)) as real;
  }

  /** Rounding what is still missing tops a whole number of lots up to the rounded total,
      except at a tie, where the parity of the lots already there decides. */
  lemma RoundTheRest(r: Rounding, total: real, done: real)
    requires WholeLots(r, done) && 0.0 <= done <= total
    ensures done + RoundVolume(r, total - done) == RoundVolume(r, total)
            <==> !Tie(r, total) || LotsOf(r, done) % 2 == 0
  {
    var k := LotsOf(r, done);
    var x := InLots(r, total);
    assert InLots(r, total - done) == x - k as real;
    assert (x - k as real).Floor == x.Floor - k;
    assert done == k as real * Lot(r);
    assert done + RoundVolume(r, total - done) == (k + Units(r, total - done)) as real * Lot(r);
  }

  function Amount(price: real, volume: real): real {
    price * volume
  }

  lemma AmountMonotone(price: real, a: real, b: real)
    requires price >= 0.0 && a <= b
    ensures Amount(price, a) <= Amount(price, b) && Amount(price, 0.0) == 0.0
  {}

  /** What a budget buys costs no more than the budget, up to what rounding the volume may add. */
  lemma BudgetCovers(price: real, budget: real, r: Rounding)
    requires price > 0.0 && (budget >= 0.0 || RoundVolume(r, budget / price) > 0.0)
    ensures Amount(price, RoundVolume(r, budget / price)) <= budget + Slack(r) * price
  {
    var raw := budget / price;
    assert raw >= 0.0 by {
      RoundsUpFromPositive(r, raw);
      if budget >= 0.0 {
        QuotientSign(budget, price);
      }
    }
    RoundVolumeBounds(r, raw);
    hide RoundVolume, Slack;
    AmountMonotone(price, RoundVolume(r, raw), raw + Slack(r));
    AmountOfQuotient(price, budget, Slack(r));
  }

  lemma RoundsUpFromPositive(r: Rounding, raw: real)
    ensures RoundVolume(r, raw) > 0.0 ==> raw > 0.0
  {}

  lemma QuotientSign(x: real, y: real)
    requires x >= 0.0 && y > 0.0
    ensures x / y >= 0.0
  {}

  lemma AmountOfQuotient(price: real, budget: real, extra: real)
    requires price > 0.0
    ensures Amount(price, budget / price + extra) == budget + extra * price
  {}

  // ---------- Volumes for an amount of money ----------

  /** `volume` is `wanted` in whole lots, less than a lot below it and above it by no more than rounding to the nearest
      lot can explain; nothing is asked for when less than nothing is wanted. */
  predicate InWholeLots(r: Rounding, wanted: real, volume: real) {
    && WholeLots(r, volume)
    && if wanted < 0.0 then volume <= 0.0
       else 0.0 <= volume && wanted - Lot(r) < volume <= wanted + Slack(r)
            && (r == FourDecimals ==> wanted - volume <= 0.00005)
  }

  /** The same for the money it costs at a price. */
  predicate WorthOf(r: Rounding, money: real, price: real, volume: real) {
    && WholeLots(r, volume)
    && if money < 0.0 then volume <= 0.0
       else 0.0 <= volume && money - Lot(r) * price < price * volume <= money + Slack(r) * price
            && (r == FourDecimals ==> money - price * volume <= 0.00005 * price)
  }

  lemma RoundedIsWhole(r: Rounding, raw: real)
    ensures InWholeLots(r, raw, RoundVolume(r, raw))
  {
    if raw >= 0.0 {
      RoundVolumeBounds(r, raw);
    } else {
      NegativeIsWhole(r, raw);
    }
  }

  lemma NegativeIsWhole(r: Rounding, raw: real)
    requires raw < 0.0
    ensures WholeLots(r, RoundVolume(r, raw)) && RoundVolume(r, raw) <= 0.0
  {}

  lemma TimesPrice(price: real, a: real, b: real)
    requires price > 0.0
    ensures a < b ==> price * a < price * b
    ensures a <= b ==> price * a <= price * b
  {}

  lemma QuotientTimesPrice(price: real, money: real, extra: real)
    requires price > 0.0
    ensures price * (money / price + extra) == money + extra * price
    ensures money < 0.0 <==> money / price < 0.0
  {}

  lemma WorthOfQuotient(r: Rounding, money: real, price: real)
    requires price > 0.0
    ensures WorthOf(r, money, price, RoundVolume(r, money / price))
  {
    hide RoundVolume, WholeLots;
    var raw, volume := money / price, RoundVolume(r, money / price);
    RoundedIsWhole(r, raw);
    QuotientTimesPrice(price, money, 0.0);
    if money >= 0.0 {
      QuotientTimesPrice(price, money, -Lot(r));
      QuotientTimesPrice(price, money, Slack(r));
      QuotientTimesPrice(price, money, -0.00005);
      TimesPrice(price, raw - Lot(r), volume);
      TimesPrice(price, volume, raw + Slack(r));
      TimesPrice(price, raw - 0.00005, volume);
    }
  }

  /** Rounding to the nearest lot stays within a budget of which a thousandth is held back, for every order from
      some size on, exactly if that size is at least 498.501 lots. */
  lemma ReserveCoversRounding(size: real)
    requires size >= 0.0
    ensures (forall lots: real :: lots >= size ==> NearestEven(lots) as real * 0.999 <= lots) <==> size >= 498.501
  {
    if size >= 498.501 {
      forall lots: real | lots >= size ensures NearestEven(lots) as real * 0.999 <= lots {
        if NearestEven(lots) >= 500 {
          assert NearestEven(lots) as real - 0.5 <= lots;
        }
      }
    } else {
      var lots := if size < 498.5005 then 498.5005 else size;
      assert NearestEven(lots) == 499;
      assert lots >= size && NearestEven(lots) as real * 0.999 > lots;
    }
  }
}
