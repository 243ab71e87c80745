/** The search for a price with a given index (src/core/signal_engine.py): brackets, bisection and a batch of
    targets. */
module RsiSearch {
  import opened Prelude
  import opened Rsi

  // ---------- The search ----------

  function LowLimit(price: real): real {
    Max(price * 0.0001, 0.00000001)
  }

  function HighLimit(price: real): real {
    price * 10.0
  }

  /** The index crosses the target within `width` of p: for a bid it is at most the target at p and above it from
      `width` further up on; for an ask it is at least the target at p and below it from `width` further down on. */
  ghost predicate Crosses(closes: seq<real>, target: real, side: Side, period: nat, seeding: Seeding, p: real,
                          width: real)
    requires |closes| >= 1 && period >= 1
  {
    match side
    case Bid =>
      && RsiWithNext(closes, p, period, seeding) <= target
      && forall q :: q >= p + width ==> RsiWithNext(closes, q, period, seeding) > target
    case Ask =>
      && RsiWithNext(closes, p, period, seeding) >= target
      && forall q :: q < p - width ==> RsiWithNext(closes, q, period, seeding) < target
  }

  /** The bracket the bisection starts from. */
  function Bracket(closes: seq<real>, price: real, target: real, side: Side, period: nat,
                   seeding: Seeding): (b: (real, real))
    requires |closes| >= 1 && period >= 1
  {
    match (side, AlgebraicGuess(closes, price, target, side, period))
    case (Bid, None) => (price * 0.5, price)
    case (Bid, Some(g)) =>
      if RsiWithNext(closes, g, period, seeding) <= target then (Max(g * 0.9, LowLimit(price)), price)
      else (Max(g * 0.5, LowLimit(price)), g)
    case (Ask, None) => (price, price * 1.5)
    case (Ask, Some(g)) =>
      if RsiWithNext(closes, g, period, seeding) >= target then (price, Min(g * 1.1, HighLimit(price)))
      else (g, Min(g * 1.5, HighLimit(price)))
  }

  /** The larger, or the smaller, of two prices. */
  predicate IsLarger(x: real, a: real, b: real) {
    x >= a && x >= b && (x == a || x == b)
  }

  predicate IsSmaller(x: real, a: real, b: real) {
    x <= a && x <= b && (x == a || x == b)
  }

  /** Where the search starts: without a guess from half the price up to it, or from the price up to half as much again;
      beyond a guess that reaches the target within a tenth of it, and short of one that does not at most as far as
      half of it again, but never past the limits, a ten-thousandth of the price and ten times it. */
  lemma BracketMeans(closes: seq<real>, price: real, target: real, side: Side, period: nat, seeding: Seeding)
    requires |closes| >= 1 && period >= 1
    ensures var (low, high) := Bracket(closes, price, target, side, period, seeding);
            var floor := if price > 0.0001 then price / 10000.0 else 0.00000001;
            match (side, AlgebraicGuess(closes, price, target, side, period))
            case (Bid, None) => 2.0 * low == price && high == price
            case (Ask, None) => low == price && 2.0 * high == 3.0 * price
            case (Bid, Some(g)) =>
              if RsiWithNext(closes, g, period, seeding) <= target
              then high == price && IsLarger(10.0 * low, 9.0 * g, 10.0 * floor)
              else high == g && IsLarger(2.0 * low, g, 2.0 * floor)
            case (Ask, Some(g)) =>
              if RsiWithNext(closes, g, period, seeding) >= target
              then low == price && IsSmaller(10.0 * high, 11.0 * g, 100.0 * price)
              else low == g && IsSmaller(2.0 * high, 3.0 * g, 20.0 * price)
  {
    hide RsiWithNext, AlgebraicGuess;
  }

  /** What sixteen halvings leave of a bracket: of itself if the crossing lies in it, else of what it may grow to. */
  function Precision(closes: seq<real>, price: real, target: real, side: Side, period: nat, seeding: Seeding,
                     low: real, high: real): real
    requires |closes| >= 1 && period >= 1
  {
    match side
    case Bid => (if RsiWithNext(closes, low, period, seeding) <= target then high - low else high) / 65536.0
    case Ask => (if RsiWithNext(closes, high, period, seeding) >= target then high - low
                 else 15.0 * price - low) / 65536.0
  }

  /** The search takes the guess as it is. */
  predicate TakesGuess(closes: seq<real>, price: real, target: real, side: Side, period: nat, seeding: Seeding)
    requires |closes| >= 1 && period >= 1
  {
    var guess := AlgebraicGuess(closes, price, target, side, period);
    guess.Some? && Abs(RsiWithNext(closes, guess.value, period, seeding) - target) <= 0.2
  }

  /** What a price found for a buy order promises: at most the current price, index at most 0.2 above target,
      and unless it is the current price or the guess, the crossing lies within price/2^16 above it. */
  ghost predicate GoodBid(closes: seq<real>, price: real, target: real, period: nat, seeding: Seeding, p: real)
    requires |closes| >= 1 && period >= 1
  {
    && 0.0 < p <= price
    && RsiWithNext(closes, p, period, seeding) <= target + 0.2
    && (|| p == price
        || (TakesGuess(closes, price, target, Bid, period, seeding)
            && AlgebraicGuess(closes, price, target, Bid, period) == Some(p))
        || Crosses(closes, target, Bid, period, seeding, p, price / 65536.0))
  }

  /** The mirror image for sell orders, whose bracket may grow to 14 times the price. */
  ghost predicate GoodAsk(closes: seq<real>, price: real, target: real, period: nat, seeding: Seeding, p: real)
    requires |closes| >= 1 && period >= 1
  {
    && price <= p
    && RsiWithNext(closes, p, period, seeding) >= target - 0.2
    && (|| p == price
        || (TakesGuess(closes, price, target, Ask, period, seeding)
            && AlgebraicGuess(closes, price, target, Ask, period) == Some(p))
        || Crosses(closes, target, Ask, period, seeding, p, 14.0 * price / 65536.0))
  }

  /** No price the search may propose reaches the target. */
  ghost predicate Unreachable(closes: seq<real>, price: real, target: real, side: Side, period: nat, seeding: Seeding)
    requires |closes| >= 1 && period >= 1
  {
    match side
    case Bid => forall q :: q >= LowLimit(price) ==> RsiWithNext(closes, q, period, seeding) > target
    case Ask => forall q :: q <= HighLimit(price) ==> RsiWithNext(closes, q, period, seeding) < target
  }

  /** No answer means that no price from a ten-thousandth of the current one on, or up to ten times it, will do. */
  lemma OutOfReach(closes: seq<real>, price: real, target: real, side: Side, period: nat, seeding: Seeding)
    requires |closes| >= 1 && period >= 1
    ensures Unreachable(closes, price, target, side, period, seeding) <==>
            forall q :: (if side == Bid then 10000.0 * q >= price && q >= 0.00000001 else q <= 10.0 * price) ==>
                          if side == Bid then RsiWithNext(closes, q, period, seeding) > target
                          else RsiWithNext(closes, q, period, seeding) < target
  {
    hide RsiWithNext;
  }

  ghost predicate GoodAnswer(closes: seq<real>, target: real, side: Side, period: nat, seeding: Seeding,
                             answer: Option<real>)
    requires |closes| >= 1 && period >= 1
  {
    var price := closes[|closes| - 1];
    match answer
    case Some(p) =>
      if side == Bid then GoodBid(closes, price, target, period, seeding, p)
      else GoodAsk(closes, price, target, period, seeding, p)
    case None => Unreachable(closes, price, target, side, period, seeding)
  }

  lemma AboveCrossing(closes: seq<real>, p: real, target: real, period: nat, seeding: Seeding)
    requires |closes| >= 1 && period >= 1
    requires RsiWithNext(closes, p, period, seeding) > target
    ensures forall q :: q >= p ==> RsiWithNext(closes, q, period, seeding) > target
  {
    forall q | q >= p ensures RsiWithNext(closes, q, period, seeding) > target {
      RsiMonotone(closes, p, q, period, seeding);
    }
  }

  lemma BelowCrossing(closes: seq<real>, p: real, target: real, period: nat, seeding: Seeding)
    requires |closes| >= 1 && period >= 1
    requires RsiWithNext(closes, p, period, seeding) < target
    ensures forall q :: q <= p ==> RsiWithNext(closes, q, period, seeding) < target
  {
    forall q | q <= p ensures RsiWithNext(closes, q, period, seeding) < target {
      RsiMonotone(closes, q, p, period, seeding);
    }
  }

  lemma Halvings(a: real)
    ensures Scaled(a, 0.5, 15) == a / 32768.0
    ensures Scaled(a, 0.5, 16) == a / 65536.0
  {
    FourHalvings(a, 0);
    FourHalvings(a, 4);
    FourHalvings(a, 8);
    FourHalvings(a, 11);
    FourHalvings(a, 12);
    assert Scaled(a, 0.5, 11) == Scaled(a, 0.5, 12) * 2.0;
  }

  lemma FourHalvings(a: real, n: nat)
    ensures Scaled(a, 0.5, n + 4) == Scaled(a, 0.5, n) / 16.0
  {
    assert Scaled(a, 0.5, n + 2) == Scaled(a, 0.5, n) / 4.0;
  }

  lemma GrownPast(a: real)
    requires a > 0.0
    ensures Scaled(a, 1.5, 15) > 10.0 * a
  {
    ThreeGrowths(a, 0);
    ThreeGrowths(a, 3);
    ThreeGrowths(a, 6);
    ThreeGrowths(a, 9);
    ThreeGrowths(a, 12);
  }

  lemma ThreeGrowths(a: real, n: nat)
    ensures Scaled(a, 1.5, n + 3) == Scaled(a, 1.5, n) * 3.375
  {
    assert Scaled(a, 1.5, n + 2) == Scaled(a, 1.5, n) * 2.25;
  }

  /** The bisection below the current price, from the first bracket on. */
  method BisectBelow(closes: seq<real>, price: real, target: real, period: nat, seeding: Seeding,
                     low0: real, high0: real)
    returns (answer: Option<real>)
    requires |closes| >= 1 && period >= 1 && 0.0 < high0 <= price && 0.0 < low0
    requires low0 <= price || low0 <= LowLimit(price)
    requires RsiWithNext(closes, high0, period, seeding) > target
    ensures answer.Some? ==>
              0.0 < answer.value < high0 && Crosses(closes, target, Bid, period, seeding, answer.value,
                                                    Precision(closes, price, target, Bid, period, seeding, low0, high0))
    ensures answer.None? ==> Unreachable(closes, price, target, Bid, period, seeding)
  {
    var lowLimit := LowLimit(price);
    var low, high := low0, high0;
    var lowRsi := RsiWithNext(closes, low, period, seeding);
    var iterations := 0;
    while low > lowLimit && lowRsi > target && iterations < 15
      invariant 0 <= iterations <= 15 && low > 0.0
      invariant lowRsi == RsiWithNext(closes, low, period, seeding)
      invariant RsiWithNext(closes, low0, period, seeding) <= target ==> low == low0
      invariant low <= Scaled(price, 0.5, iterations) || low <= lowLimit
      decreases 15 - iterations
    {
      low := low * 0.5;
      lowRsi := RsiWithNext(closes, low, period, seeding);
      iterations := iterations + 1;
    }
    Halvings(price);
    if lowRsi > target {
      AboveCrossing(closes, low, target, period, seeding);
      return None;
    }
    if low >= high {
      RsiMonotone(closes, high, low, period, seeding);
    }
    ghost var width := high - low;
    for i := 0 to 16
      invariant 0.0 < low < high <= high0 && high - low == Scaled(width, 0.5, i)
      invariant RsiWithNext(closes, low, period, seeding) <= target < RsiWithNext(closes, high, period, seeding)
    {
      var mid := (low + high) / 2.0;
      if RsiWithNext(closes, mid, period, seeding) <= target {
        low := mid;
      } else {
        high := mid;
      }
    }
    Halvings(width);
    AboveCrossing(closes, high, target, period, seeding);
    return Some(low);
  }

  method BisectAbove(closes: seq<real>, price: real, target: real, period: nat, seeding: Seeding,
                     low0: real, high0: real)
    returns (answer: Option<real>)
    requires |closes| >= 1 && period >= 1 && 0.0 < price <= low0 && price <= high0 <= HighLimit(price)
    requires forall q :: q < low0 ==> RsiWithNext(closes, q, period, seeding) < target
    ensures answer.Some? ==>
              low0 <= answer.value && Crosses(closes, target, Ask, period, seeding, answer.value,
                                              Precision(closes, price, target, Ask, period, seeding, low0, high0))
    ensures answer.None? ==> Unreachable(closes, price, target, Ask, period, seeding)
  {
    var highLimit := HighLimit(price);
    var low, high := low0, high0;
    var highRsi := RsiWithNext(closes, high, period, seeding);
    var iterations := 0;
    while high < highLimit && highRsi < target && iterations < 15
      invariant 0 <= iterations <= 15 && price <= high < 15.0 * price
      invariant highRsi == RsiWithNext(closes, high, period, seeding)
      invariant RsiWithNext(closes, high0, period, seeding) >= target ==> high == high0
      invariant high >= Scaled(price, 1.5, iterations)
      decreases 15 - iterations
    {
      high := high * 1.5;
      highRsi := RsiWithNext(closes, high, period, seeding);
      iterations := iterations + 1;
    }
    GrownPast(price);
    if highRsi < target {
      BelowCrossing(closes, high, target, period, seeding);
      return None;
    }
    ghost var width := high - low;
    for i := 0 to 16
      invariant low0 <= low <= high && high - low == Scaled(width, 0.5, i)
      invariant forall q :: q < low ==> RsiWithNext(closes, q, period, seeding) < target
      invariant target <= RsiWithNext(closes, high, period, seeding)
    {
      var mid := (low + high) / 2.0;
      if RsiWithNext(closes, mid, period, seeding) >= target {
        high := mid;
      } else {
        BelowCrossing(closes, mid, target, period, seeding);
        low := mid;
      }
    }
    Halvings(width);
    return Some(high);
  }

  // ---------- The starting point ----------

  /** The one input on which a bid starts wrong: with period one a loss puts the index at zero, so that any target
      looks reached, although repeating the last close puts it at one hundred. */
  predicate FalseStart(closes: seq<real>, target: real, side: Side, period: nat) {
    && side == Bid && period == 1 && 0.0 <= target < 99.8
    && |closes| >= 2 && closes[|closes| - 1] < closes[|closes| - 2]
  }

  /** With period one only the last change counts: the index is one hundred unless that change is a loss. */
  lemma PeriodOne(closes: seq<real>, next: real, seeding: Seeding)
    requires |closes| >= 1
    ensures RsiWithNext(closes, next, 1, seeding) == if next >= closes[|closes| - 1] then 100.0 else 0.0
  {
    var c := closes[|closes| - 1];
    AveragesWithNext(closes, next, 1, seeding);
    if next < c {
      assert AveragesOf(closes + [next], 1, seeding) == Averages(0.0, c - next);
      assert 0.0 / (c - next) == 0.0;
    }
  }

  lemma CurrentAtPeriodOne(closes: seq<real>, seeding: Seeding)
    requires |closes| >= 1
    ensures RsiOf(closes, 1, seeding)
            == if |closes| == 1 || closes[|closes| - 1] >= closes[|closes| - 2] then 100.0 else 0.0
  {
    var n := |closes|;
    if n > 1 {
      assert closes[..n - 1] + [closes[n - 1]] == closes;
      PeriodOne(closes[..n - 1], closes[n - 1], seeding);
    }
  }

  /** What comparing the target with the current index says about the index at the current price. */
  lemma StartingPoint(closes: seq<real>, target: real, period: nat, seeding: Seeding)
    requires |closes| >= period >= 1
    ensures var current := RsiOf(closes, period, seeding);
            var start := RsiWithNext(closes, closes[|closes| - 1], period, seeding);
            && (target >= current ==> (start <= target + 0.2 <==> !FalseStart(closes, target, Bid, period)))
            && (target < current ==> start > target && !FalseStart(closes, target, Bid, period))
            && (target <= current ==> start >= target)
            && (target > current ==>
                  forall q :: q < closes[|closes| - 1] ==> RsiWithNext(closes, q, period, seeding) < target)
  {
    var price := closes[|closes| - 1];
    if period == 1 {
      CurrentAtPeriodOne(closes, seeding);
      PeriodOne(closes, price, seeding);
      forall q | q < price ensures RsiWithNext(closes, q, period, seeding) == 0.0 {
        PeriodOne(closes, q, seeding);
      }
    } else {
      FlatClose(closes, period, seeding);
      if target > RsiOf(closes, period, seeding) {
        BelowCrossing(closes, price, target, period, seeding);
      }
    }
  }

  /** Closes 10 and 9, period one, target 30: the index reads zero, so the bid stays at 9, where it would be one
      hundred. */
  lemma FalseStartExample(seeding: Seeding)
    ensures FalseStart([10.0, 9.0], 30.0, Bid, 1)
    ensures RsiOf([10.0, 9.0], 1, seeding) == 0.0 && RsiWithNext([10.0, 9.0], 9.0, 1, seeding) == 100.0
  {
    CurrentAtPeriodOne([10.0, 9.0], seeding);
    PeriodOne([10.0, 9.0], 9.0, seeding);
  }

  /** A guess is a price on the side of the order, made from at least two closes. */
  lemma GuessSide(closes: seq<real>, price: real, target: real, side: Side, period: nat)
    requires |closes| >= 1 && period >= 1 && AlgebraicGuess(closes, price, target, side, period).Some?
    ensures var guess := AlgebraicGuess(closes, price, target, side, period).value;
            |closes| > period && (if side == Bid then 0.0 < guess < price else price < guess)
  {}

  /** The bracket is one the bisection can start from. */
  lemma BracketOf(closes: seq<real>, price: real, target: real, side: Side, period: nat, seeding: Seeding)
    requires |closes| >= 1 && period >= 1 && price > 0.0
    ensures var (low, high) := Bracket(closes, price, target, side, period, seeding);
            && (side == Bid ==> 0.0 < high <= price && 0.0 < low && (low <= price || low <= LowLimit(price)))
            && (side == Ask ==> price <= low && price <= high <= HighLimit(price))
  {
    if AlgebraicGuess(closes, price, target, side, period).Some? {
      GuessSide(closes, price, target, side, period);
    }
  }

  /** A crossing found by the bisection is a good answer. */
  lemma CrossingIsGood(closes: seq<real>, price: real, target: real, side: Side, period: nat, seeding: Seeding, p: real)
    requires |closes| >= 1 && period >= 1 && price > 0.0
    requires var (low, high) := Bracket(closes, price, target, side, period, seeding);
             && Crosses(closes, target, side, period, seeding, p,
                        Precision(closes, price, target, side, period, seeding, low, high))
             && (if side == Bid then 0.0 < p < high else low <= p)
    ensures if side == Bid then GoodBid(closes, price, target, period, seeding, p)
            else GoodAsk(closes, price, target, period, seeding, p)
  {
    BracketOf(closes, price, target, side, period, seeding);
    hide RsiWithNext, AlgebraicGuess, Bracket, TakesGuess;
  }

  /** The second part of the search: brackets from the guess, and the bisection. */
  method Bisect(closes: seq<real>, price: real, target: real, side: Side, period: nat, seeding: Seeding,
                guess: Option<real>)
    returns (answer: Option<real>)
    requires |closes| >= 1 && period >= 1 && price > 0.0 && guess == AlgebraicGuess(closes, price, target, side, period)
    requires side == Bid ==> RsiWithNext(closes, price, period, seeding) > target
    requires side == Ask ==> forall q :: q < price ==> RsiWithNext(closes, q, period, seeding) < target
    ensures var (low, high) := Bracket(closes, price, target, side, period, seeding);
            match answer
            case None => Unreachable(closes, price, target, side, period, seeding)
            case Some(p) =>
              && Crosses(closes, target, side, period, seeding, p,
                         Precision(closes, price, target, side, period, seeding, low, high))
              && (if side == Bid then 0.0 < p < high else low <= p)
  {
    hide RsiWithNext, AlgebraicGuess, Crosses, Precision, Unreachable;
    BracketOf(closes, price, target, side, period, seeding);
    if side == Bid {
      var low, high := price * 0.5, price;
      var lowLimit := LowLimit(price);
      if guess.Some? {
        if RsiWithNext(closes, guess.value, period, seeding) <= target {
          low, high := Max(guess.value * 0.9, lowLimit), price;
        } else {
          low, high := Max(guess.value * 0.5, lowLimit), guess.value;
        }
      }
      assert (low, high) == Bracket(closes, price, target, side, period, seeding);
      answer := BisectBelow(closes, price, target, period, seeding, low, high);
    } else {
      var low, high := price, price * 1.5;
      var highLimit := HighLimit(price);
      if guess.Some? {
        if RsiWithNext(closes, guess.value, period, seeding) >= target {
          low, high := price, Min(guess.value * 1.1, highLimit);
        } else {
          low, high := guess.value, Min(guess.value * 1.5, highLimit);
          BelowCrossing(closes, guess.value, target, period, seeding);
        }
      }
      assert (low, high) == Bracket(closes, price, target, side, period, seeding);
      answer := BisectAbove(closes, price, target, period, seeding, low, high);
    }
  }

  /** The target is reached already, as far as the current index tells. */
  predicate StaysPut(current: real, target: real, side: Side) {
    if side == Bid then target >= current else target <= current
  }

  /** Finds the next close at which the index would reach `target`. */
  method SearchPriceForTargetRsi(closes: seq<real>, currentRsi: real, target: real, side: Side, period: nat,
                                 seeding: Seeding)
    returns (answer: Option<real>)
    requires |closes| >= period >= 1 && closes[|closes| - 1] > 0.0
    requires currentRsi == RsiOf(closes, period, seeding)
    ensures GoodAnswer(closes, target, side, period, seeding, answer) <==> !FalseStart(closes, target, side, period)
    ensures FalseStart(closes, target, side, period) ==> StaysPut(currentRsi, target, side)
    ensures var price := closes[|closes| - 1];
            var (low, high) := Bracket(closes, price, target, side, period, seeding);
            if StaysPut(currentRsi, target, side) then answer == Some(price)
            else if TakesGuess(closes, price, target, side, period, seeding) then
              answer == AlgebraicGuess(closes, price, target, side, period)
            else
              match answer
              case None => Unreachable(closes, price, target, side, period, seeding)
              case Some(p) => Crosses(closes, target, side, period, seeding, p,
                                      Precision(closes, price, target, side, period, seeding, low, high))
    ensures var guess := AlgebraicGuess(closes, closes[|closes| - 1], target, side, period);
            0.0 < target < 100.0 && guess.Some? && (seeding == FromFirstChange || closes[0] == closes[1])
            && !StaysPut(currentRsi, target, side)
            ==> answer == guess && RsiWithNext(closes, guess.value, period, seeding) == target
  {
    hide AveragesOf, Index, GuessFrom, AlgebraicGuess, RsiWithNext, Scaled, Crosses, Precision, Bracket, Unreachable;
    var price := closes[|closes| - 1];
    StartingPoint(closes, target, period, seeding);
    if side == Bid && target >= currentRsi {
      return Some(price);
    }
    if side == Ask && target <= currentRsi {
      return Some(price);
    }
    var guess := AlgebraicGuess(closes, price, target, side, period);
    if guess.Some? {
      GuessSide(closes, price, target, side, period);
    }
    if guess.Some? && 0.0 < target < 100.0 {
      GuessIsExact(closes, target, side, period);
      GuessHitsIff(closes, target, side, period);
    }
    if guess.Some? && Abs(RsiWithNext(closes, guess.value, period, seeding) - target) <= 0.2 {
      return guess;
    }
    answer := Bisect(closes, price, target, side, period, seeding, guess);
    if answer.Some? {
      CrossingIsGood(closes, price, target, side, period, seeding, answer.value);
    }
  }

  // ---------- The batch of prices ----------

  /** The 0.1% safety margin, on the side that makes the order fill later. */
  function Buffered(price: real, side: Side): real {
    if side == Bid then price * (1.0 - 0.001) else price * (1.0 + 0.001)
  }

  /** `v` is a tick-rounded, buffered good answer for `target`, or the current price after a false start. */
  ghost predicate Quoted(closes: seq<real>, target: real, side: Side, period: nat, seeding: Seeding,
                         adjust: real -> real, v: real)
    requires |closes| >= 1 && period >= 1
  {
    exists p :: v == adjust(Buffered(p, side)) &&
                (GoodAnswer(closes, target, side, period, seeding, Some(p))
                 || (FalseStart(closes, target, side, period) && p == closes[|closes| - 1]))
  }

  method GetPricesByRsi(closes: seq<real>, currentRsi: Option<real>, targets: seq<real>, side: Side, period: nat,
                        seeding: Seeding, adjust: real -> real)
    returns (prices: seq<Option<real>>)
    requires period >= 1 && (closes != [] ==> closes[|closes| - 1] > 0.0)
    requires currentRsi.Some? ==> closes != [] && currentRsi.value == RsiOf(closes, period, seeding)
    ensures |prices| == |targets|
    ensures currentRsi.None? || |closes| < period ==> forall i :: 0 <= i < |targets| ==> prices[i] == None
    ensures currentRsi.Some? && |closes| >= period ==> forall i :: 0 <= i < |targets| ==>
              match prices[i]
              case None => Unreachable(closes, closes[|closes| - 1], targets[i], side, period, seeding)
              case Some(v) => Quoted(closes, targets[i], side, period, seeding, adjust, v)
  {
    if currentRsi.None? || |closes| < period {
      return seq(|targets|, i => None);
    }
    prices := [];
    for k := 0 to |targets|
      invariant |prices| == k
      invariant forall i :: 0 <= i < k ==>
                  match prices[i]
                  case None => Unreachable(closes, closes[|closes| - 1], targets[i], side, period, seeding)
                  case Some(v) => Quoted(closes, targets[i], side, period, seeding, adjust, v)
    {
      var found := SearchPriceForTargetRsi(closes, currentRsi.value, targets[k], side, period, seeding);
      match found {
        case None =>
          prices := prices + [None];
        case Some(p) =>
          prices := prices + [Some(adjust(Buffered(p, side)))];
      }
    }
  }

  /** A quoted bid is safe: the buffer and tick rounding go down, and after a false start the margin makes up for it. */
  lemma QuotedBidIsSafe(closes: seq<real>, target: real, period: nat, seeding: Seeding, adjust: real -> real, v: real)
    requires |closes| >= 1 && period >= 1 && closes[|closes| - 1] > 0.0
    requires Quoted(closes, target, Bid, period, seeding, adjust, v)
    requires forall x :: x >= 0.0 ==> 0.0 <= adjust(x) <= x
    ensures 0.0 <= v < closes[|closes| - 1]
    ensures RsiWithNext(closes, v, period, seeding) <= target + 0.2
  {
    var p :| v == adjust(Buffered(p, Bid)) && (GoodAnswer(closes, target, Bid, period, seeding, Some(p))
                                               || (FalseStart(closes, target, Bid, period)
                                                   && p == closes[|closes| - 1]));
    if GoodAnswer(closes, target, Bid, period, seeding, Some(p)) {
      RsiMonotone(closes, v, p, period, seeding);
    } else {
      PeriodOne(closes, v, seeding);
    }
  }

  /** A quote lies a thousandth off a good answer, below it for a bid and above it for an ask, and less than a tick
      under that. */
  lemma QuoteIsClose(closes: seq<real>, target: real, side: Side, period: nat, seeding: Seeding, adjust: real -> real,
                     tick: real, v: real)
    requires |closes| >= 1 && period >= 1 && Quoted(closes, target, side, period, seeding, adjust, v)
    requires forall x :: x - tick < adjust(x) <= x
    ensures exists p :: (GoodAnswer(closes, target, side, period, seeding, Some(p))
                         || (FalseStart(closes, target, side, period) && p == closes[|closes| - 1]))
                        && if side == Bid then 0.999 * p - tick < v <= 0.999 * p
                           else 1.001 * p - tick < v <= 1.001 * p
  {
    var p :| v == adjust(Buffered(p, side)) && (GoodAnswer(closes, target, side, period, seeding, Some(p))
                                                || (FalseStart(closes, target, side, period)
                                                    && p == closes[|closes| - 1]));
    hide GoodAnswer, FalseStart;
  }

  // ---------- Ticks and the margin of an ask ----------

  /** Rounds `x` down to a multiple of the tick `t`. */
  function TickDown(x: real, t: real): real
    requires t > 0.0
  {
    (x / t).Floor as real * t
  }

  /** The tick of coins at a price. */
  function CoinTick(x: real): (t: real)
    ensures t > 0.0
  {
    if x >= 2000000.0 then 1000.0
    else if x >= 1000000.0 then 500.0
    else if x >= 500000.0 then 100.0
    else if x >= 100000.0 then 50.0
    else if x >= 10000.0 then 10.0
    else if x >= 1000.0 then 5.0
    else if x >= 100.0 then 1.0
    else if x >= 10.0 then 0.1
    else if x >= 1.0 then 0.01
    else if x >= 0.1 then 0.001
    else 0.0001
  }

  /** The tick of domestic stocks at a price. */
  function KrxTick(x: real): (t: real)
    ensures t > 0.0
  {
    if x >= 500000.0 then 1000.0
    else if x >= 200000.0 then 500.0
    else if x >= 50000.0 then 100.0
    else if x >= 20000.0 then 50.0
    else if x >= 5000.0 then 10.0
    else if x >= 2000.0 then 5.0
    else 1.0
  }

  /** The ticks of coins and of domestic stocks, each with the price it is for, up to the next one's. */
  const COIN_TICKS: seq<(real, real)> :=
    [(0.1, 0.001), (1.0, 0.01), (10.0, 0.1), (100.0, 1.0), (1000.0, 5.0), (10000.0, 10.0), (100000.0, 50.0),
     (500000.0, 100.0), (1000000.0, 500.0), (2000000.0, 1000.0)]

  const KRX_TICKS: seq<(real, real)> :=
    [(2000.0, 5.0), (5000.0, 10.0), (20000.0, 50.0), (50000.0, 100.0), (200000.0, 500.0), (500000.0, 1000.0)]

  /** The first i rows are those whose price is reached, and the tick is the last one's, or `least`. */
  predicate TickOf(table: seq<(real, real)>, least: real, x: real, tick: real, i: int) {
    && 0 <= i <= |table| && tick == (if i == 0 then least else table[i - 1].1)
    && (i > 0 ==> x >= table[i - 1].0) && (i < |table| ==> x < table[i].0)
  }

  lemma TicksAreTabled(x: real)
    ensures exists i :: TickOf(COIN_TICKS, 0.0001, x, CoinTick(x), i)
    ensures exists i :: TickOf(KRX_TICKS, 1.0, x, KrxTick(x), i)
  {
    var i := if x < 0.1 then 0 else if x < 1.0 then 1 else if x < 10.0 then 2 else if x < 100.0 then 3
             else if x < 1000.0 then 4 else if x < 10000.0 then 5 else if x < 100000.0 then 6
             else if x < 500000.0 then 7 else if x < 1000000.0 then 8 else if x < 2000000.0 then 9 else 10;
    assert TickOf(COIN_TICKS, 0.0001, x, CoinTick(x), i);
    var j := if x < 2000.0 then 0 else if x < 5000.0 then 1 else if x < 20000.0 then 2 else if x < 50000.0 then 3
             else if x < 200000.0 then 4 else if x < 500000.0 then 5 else 6;
    assert TickOf(KRX_TICKS, 1.0, x, KrxTick(x), j);
  }

  lemma TimesLess(x: real, y: real, t: real)
    requires t > 0.0
    ensures x * t < y * t <==> x < y
  {}

  lemma PartOfTick(part: real, t: real)
    requires t > 0.0 && 0.0 <= part < 1.0
    ensures 0.0 <= part * t < t
  {
    TimesLess(part, 1.0, t);
  }

  lemma Within(q: real, n: real, t: real, x: real)
    requires t > 0.0 && n <= q < n + 1.0 && q * t == x
    ensures n * t <= x < n * t + t
  {
    var part := q - n;
    PartOfTick(part, t);
    assert part * t == x - n * t;
  }

  lemma TickDownBounds(x: real, t: real)
    requires t > 0.0
    ensures TickDown(x, t) <= x < TickDown(x, t) + t
  {
    var q := x / t;
    var n := q.Floor as real;
    assert q * t == x;
    assert n <= q < n + 1.0;
    Within(q, n, t, x);
  }

  /** Fewer than `k` ticks fit into a price below `k` ticks. */
  lemma TicksBelow(x: real, t: real, k: int)
    requires t > 0.0
    ensures x < k as real * t <==> (x / t).Floor < k
  {
    var q := x / t;
    assert q * t == x;
    TimesLess(q, k as real, t);
  }

  lemma Enough(down: real, t: real, p: real)
    requires down >= 1000.0 * t && 1.001 * p < down + t
    ensures down >= p
  {}

  /** The margin survives rounding down as soon as the buffered price is worth a thousand ticks. */
  lemma MarginSurvives(p: real, t: real)
    requires t > 0.0 && 1.001 * p >= 1000.0 * t
    ensures TickDown(Buffered(p, Ask), t) >= p
  {
    var y := Buffered(p, Ask);
    var n := (y / t).Floor as real;
    TickDownBounds(y, t);
    TicksBelow(y, t, 1000);
    TimesLess(n, 1000.0, t);
    Enough(n * t, t, p);
  }

  /** Just below a thousand ticks it does not: this price loses more than its margin. */
  lemma MarginLost(p: real, t: real)
    requires t > 0.0 && 999.0005 * t <= p && 1.001 * p < 1000.0 * t
    ensures TickDown(Buffered(p, Ask), t) < p
  {
    var y := Buffered(p, Ask);
    var n := (y / t).Floor as real;
    TicksBelow(y, t, 1000);
    TimesLess(999.0, n, t);
    assert TickDown(y, t) == n * t <= 999.0 * t;
  }

  /** Whatever the tick, all asks from `size` on keep their margin iff a buffered price of `size` is a thousand
      ticks. */
  lemma AskMarginIff(size: real, t: real)
    requires t > 0.0
    ensures (forall p :: p >= size ==> TickDown(Buffered(p, Ask), t) >= p) <==> 1.001 * size >= 1000.0 * t
  {
    if 1.001 * size >= 1000.0 * t {
      forall p | p >= size ensures TickDown(Buffered(p, Ask), t) >= p {
        MarginSurvives(p, t);
      }
    } else {
      var p := Max(size, 999.0005 * t);
      MarginLost(p, t);
    }
  }

  /** Over the whole table of coins the margin is safe from 5000 / 1.001 won on and not below. */
  lemma CoinAsksKeepMarginIff(size: real)
    ensures (forall p :: p >= size ==> TickDown(Buffered(p, Ask), CoinTick(Buffered(p, Ask))) >= p)
            <==> 1.001 * size >= 5000.0
  {
    if 1.001 * size >= 5000.0 {
      forall p | p >= size ensures TickDown(Buffered(p, Ask), CoinTick(Buffered(p, Ask))) >= p {
        MarginSurvives(p, CoinTick(Buffered(p, Ask)));
      }
    } else {
      var p := Max(size, 4995.0025);
      assert CoinTick(Buffered(p, Ask)) == 5.0;
      MarginLost(p, 5.0);
    }
  }

  /** Over the whole table of domestic stocks it is safe from 1000000 / 1.001 won on and not below. */
  lemma KrxAsksKeepMarginIff(size: real)
    ensures (forall p :: p >= size ==> TickDown(Buffered(p, Ask), KrxTick(Buffered(p, Ask))) >= p)
            <==> 1.001 * size >= 1000000.0
  {
    if 1.001 * size >= 1000000.0 {
      forall p | p >= size ensures TickDown(Buffered(p, Ask), KrxTick(Buffered(p, Ask))) >= p {
        MarginSurvives(p, KrxTick(Buffered(p, Ask)));
      }
    } else {
      var p := Max(size, 999000.5);
      assert KrxTick(Buffered(p, Ask)) == 1000.0;
      MarginLost(p, 1000.0);
    }
  }

  /** A quoted ask keeps its index when the answer it was made from is worth a thousand ticks with its margin. */
  lemma QuotedAskIsSafe(closes: seq<real>, target: real, period: nat, seeding: Seeding, tick: real -> real, p: real)
    requires |closes| >= 1 && period >= 1 && GoodAnswer(closes, target, Ask, period, seeding, Some(p))
    requires 0.0 < 1000.0 * tick(Buffered(p, Ask)) <= 1.001 * p
    ensures var v := TickDown(Buffered(p, Ask), tick(Buffered(p, Ask)));
            p <= v <= Buffered(p, Ask) && RsiWithNext(closes, v, period, seeding) >= target - 0.2
  {
    var t := tick(Buffered(p, Ask));
    MarginSurvives(p, t);
    TickDownBounds(Buffered(p, Ask), t);
    RsiMonotone(closes, p, TickDown(Buffered(p, Ask), t), period, seeding);
  }

  lemma TickExample()
    ensures var closes := [10.0, 10.0, 9.0];
            && AveragesOf(closes, 2, FromFirstChange) == AveragesOf(closes, 2, FromZero) == Averages(0.0, 0.5)
            && AlgebraicGuess(closes, 9.0, 100.0 / 3.0, Ask, 2) == Some(9.25)
            && RsiOf(closes, 2, FromZero) == 0.0
  {
    var closes := [10.0, 10.0, 9.0];
    assert closes[..2] == [10.0, 10.0] && closes[..2][..1] == [10.0];
    assert AveragesOf(closes[..2][..1], 2, FromZero) == Averages(0.0, 0.0);
    assert AveragesOf(closes[..2], 2, FromZero) == Averages(0.0, 0.0);
    assert AveragesOf(closes[..2], 2, FromFirstChange) == Averages(0.0, 0.0);
    assert TargetRatio(100.0 / 3.0) == 0.5;
    assert 0.0 / 0.5 == 0.0;
  }

  /** Closes 10, 10 and 9, period 2, target 100/3, with the seeding of the library: the search answers exactly 9.25,
      the tick of a stock makes it 9, and there the index is 0. */
  method TickUndoesMargin() returns (answer: Option<real>)
    ensures answer == Some(9.25)
    ensures RsiWithNext([10.0, 10.0, 9.0], 9.25, 2, FromZero) == 100.0 / 3.0
    ensures TickDown(Buffered(9.25, Ask), KrxTick(Buffered(9.25, Ask))) == 9.0
    ensures RsiWithNext([10.0, 10.0, 9.0], 9.0, 2, FromZero) == 0.0
  {
    var closes := [10.0, 10.0, 9.0];
    TickExample();
    AveragesWithNext(closes, 9.0, 2, FromZero);
    assert 0.0 / 0.75 == 0.0 && 0.0 / 0.25 == 0.0;
    hide AveragesOf, AlgebraicGuess, Crosses, Precision, Bracket, GoodAnswer, TakesGuess;
    answer := SearchPriceForTargetRsi(closes, 0.0, 100.0 / 3.0, Ask, 2, FromZero);
  }
}
