/**
 * The decision layer of the monitor: the z-score of the latest spread value,
 * its classification into a trading signal (`check_trading_signals`) and the
 * position-size recommendation (`generate_position_sizing`).
 */
module Signals {
  import opened Optional

  /** The default `alert_threshold` of the monitor. */
  const DefaultAlert: real := 0.8

  /** What `check_trading_signals` reports, one value per branch of its chain. */
  datatype Category =
    | StrongShort
    | StrongLong
    | Short
    | Long
    | ApproachingShort
    | ApproachingLong
    | Neutral

  datatype Side = Buy | Sell

  /** One leg of a recommendation: the side taken and the number of units. */
  datatype Leg = Leg(side: Side, units: real)

  /** The recommendation for the NZDJPY and the CADJPY legs. */
  datatype Position = Position(nzd: Leg, cad: Leg)

  function Abs(x: real): real {
    if x < 0.0 then -x else x
  }

  /**
   * `(current_spread - spread_mean) / spread_std`. The source divides
   * without a guard, so a zero deviation is excluded here.
   */
  function ZScore(latest: real, mean: real, std: real): (z: real)
    requires std != 0.0
    ensures z * std == latest - mean
    ensures std > 0.0 ==> (z > 0.0 <==> latest > mean) && (z < 0.0 <==> latest < mean)
  {
    (latest - mean) / std
  }

  /**
   * The band of z-scores each category covers, written as disjoint ranges
   * rather than as an ordered chain of tests.
   */
  ghost predicate InBand(c: Category, z: real, alert: real) {
    match c
    case StrongShort => 2.0 <= z
    case StrongLong => z <= -2.0
    case Short => 1.0 <= z < 2.0
    case Long => -2.0 < z <= -1.0
    case ApproachingShort => -1.0 < z < 1.0 && alert <= Abs(z) && 0.0 < z
    case ApproachingLong => -1.0 < z < 1.0 && alert <= Abs(z) && z <= 0.0
    case Neutral => -1.0 < z < 1.0 && Abs(z) < alert
  }

  /** No z-score lies in two bands. */
  lemma BandsDisjoint(z: real, alert: real, c: Category, d: Category)
    requires InBand(c, z, alert) && InBand(d, z, alert)
    ensures c == d
  {
  }

  /**
   * The first-match-wins chain of `check_trading_signals`. Its result is the
   * one category whose band holds `z`: the bands cover every real and
   * overlap nowhere.
   */
  function Classify(z: real, alert: real): (c: Category)
    ensures forall d :: InBand(d, z, alert) <==> d == c
  {
    var c :=
      if z >= 2.0 then StrongShort
      else if z <= -2.0 then StrongLong
      else if z >= 1.0 then Short
      else if z <= -1.0 then Long
      else if Abs(z) >= alert then (if z > 0.0 then ApproachingShort else ApproachingLong)
      else Neutral;
    assert InBand(c, z, alert);
    forall d | InBand(d, z, alert) ensures d == c {
      BandsDisjoint(z, alert, c, d);
    }
    c
  }

  /** With the default threshold, the quiet zone is exactly `|z| < 0.8`. */
  lemma NeutralUnderDefault(z: real)
    ensures Classify(z, DefaultAlert) == Neutral <==> Abs(z) < DefaultAlert
  {
  }

  /**
   * `base_size / 3.0` with `base_size = min(abs(zscore), 3.0)`, for the
   * z-scores that get a recommendation.
   */
  function Multiplier(z: real): (m: real)
    requires Abs(z) >= 1.0
    ensures 1.0 / 3.0 <= m <= 1.0
    ensures Abs(z) >= 3.0 ==> m == 1.0
    ensures Abs(z) <= 3.0 ==> 3.0 * m == Abs(z)
  {
    var base := if Abs(z) < 3.0 then Abs(z) else 3.0;
    base / 3.0
  }

  /** A larger deviation never gets a smaller multiplier. */
  lemma MultiplierMonotone(z1: real, z2: real)
    requires 1.0 <= Abs(z1) <= Abs(z2)
    ensures Multiplier(z1) <= Multiplier(z2)
  {
  }

  /**
   * `generate_position_sizing`: no recommendation below `|z| = 1`; otherwise
   * NZDJPY is traded at the multiplier and CADJPY at the multiplier times the
   * hedge ratio, on opposite sides, NZDJPY sold exactly when `z > 0`.
   */
  function PositionSizing(z: real, hedge: real): (p: Option<Position>)
    ensures p.Some? <==> Abs(z) >= 1.0
    ensures p.Some? ==> p.value.nzd.units == Multiplier(z) && p.value.cad.units == Multiplier(z) * hedge
    ensures p.Some? ==> (p.value.nzd.side == Sell <==> z > 0.0) && p.value.cad.side != p.value.nzd.side
  {
    if Abs(z) >= 1.0 then
      var m := Multiplier(z);
      if z > 0.0 then Some(Position(Leg(Sell, m), Leg(Buy, m * hedge)))
      else Some(Position(Leg(Buy, m), Leg(Sell, m * hedge)))
    else None
  }

  /**
   * A recommendation is made exactly for the short and long signals, whatever
   * the alert threshold, and it sells NZDJPY exactly for the short ones.
   */
  lemma SizingFollowsSignal(z: real, alert: real, hedge: real)
    ensures var c := Classify(z, alert);
      && (PositionSizing(z, hedge).Some? <==> c in {StrongShort, StrongLong, Short, Long})
      && (PositionSizing(z, hedge).Some? ==> (PositionSizing(z, hedge).value.nzd.side == Sell <==> c in {StrongShort, Short}))
  {
  }

  /**
   * A latest spread of 4.0 against mean 0.0 and deviation 2.0 scores 2.0, a
   * strong short signal, sized at two thirds: the cap at 3.0 is not reached.
   */
  lemma WorkedScenario()
    ensures ZScore(4.0, 0.0, 2.0) == 2.0
    ensures Classify(2.0, DefaultAlert) == StrongShort
    ensures Multiplier(2.0) == 2.0 / 3.0
  {
  }
}
