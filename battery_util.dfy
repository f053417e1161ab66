/** Conversions between stored energy and battery percentage, and the
    clamp of a requested charge to the usable capacity. */
module BatteryUtil {
  import opened Common
  import opened Rounding

  const MAX_PERC: real := 100.0

  /** Pack capacity in kWh and the reserve that is never used, as a
      fraction of capacity. */
  datatype Battery = Battery(capacity: real, minSoc: real) {
    predicate Valid() {
      capacity > 0.0 && 0.0 <= minSoc <= 1.0
    }

    /** Usable energy above the reserve, unrounded. */
    function Available(): real {
      capacity - minSoc * capacity
    }
  }

  /** `charge_to_perc(charge)`: kWh above the reserve as a percentage of
      the whole pack, reserve included, never above 100. */
  function ChargeToPerc(b: Battery, charge: real): (r: real)
    requires b.Valid()
    ensures r <= MAX_PERC
  {
    Min(MAX_PERC, Round0(((charge / b.capacity) + b.minSoc) * 100.0))
  }

  /** The rounded usable capacity `ceiling_charge_total` clamps to. */
  function RoundedAvailable(b: Battery): real {
    Round2(b.capacity - b.minSoc * b.capacity)
  }

  /** `ceiling_charge_total(charge_total)` */
  function CeilingChargeTotal(b: Battery, total: real): (r: real)
    ensures r <= RoundedAvailable(b)
  {
    Round2Monotone(Min(RoundedAvailable(b), total), RoundedAvailable(b));
    Round2Idempotent(b.capacity - b.minSoc * b.capacity);
    Round2(Min(RoundedAvailable(b), total))
  }

  /** An empty battery reads as the reserve percentage, capped at 100. */
  lemma ChargeToPercOfEmpty(b: Battery)
    requires b.Valid()
    ensures ChargeToPerc(b, 0.0) == Min(MAX_PERC, Round0(b.minSoc * 100.0))
  {
    assert 0.0 / b.capacity == 0.0;
  }

  /** More stored energy never reads as a lower percentage. */
  lemma ChargeToPercMonotone(b: Battery, c1: real, c2: real)
    requires b.Valid() && c1 <= c2
    ensures ChargeToPerc(b, c1) <= ChargeToPerc(b, c2)
  {
    assert c1 / b.capacity <= c2 / b.capacity;
    Round0Monotone(((c1 / b.capacity) + b.minSoc) * 100.0, ((c2 / b.capacity) + b.minSoc) * 100.0);
  }

  /** An energy between zero and the usable capacity reads as a percentage
      between the reserve (rounded) and 100. */
  lemma ChargeToPercBounds(b: Battery, charge: real)
    requires b.Valid() && 0.0 <= charge <= b.Available()
    ensures Min(MAX_PERC, Round0(b.minSoc * 100.0)) <= ChargeToPerc(b, charge) <= MAX_PERC
  {
    ChargeToPercOfEmpty(b);
    ChargeToPercMonotone(b, 0.0, charge);
  }

  lemma CeilingMonotone(b: Battery, x: real, y: real)
    requires x <= y
    ensures CeilingChargeTotal(b, x) <= CeilingChargeTotal(b, y)
  {
    Round2Monotone(Min(RoundedAvailable(b), x), Min(RoundedAvailable(b), y));
  }

  /** Clamping twice is clamping once. */
  lemma CeilingIdempotent(b: Battery, x: real)
    ensures CeilingChargeTotal(b, CeilingChargeTotal(b, x)) == CeilingChargeTotal(b, x)
  {
    var c := CeilingChargeTotal(b, x);
    assert Min(RoundedAvailable(b), c) == c;
    Round2Idempotent(Min(RoundedAvailable(b), x));
  }

  /** Below the rounded usable capacity the clamp only rounds. */
  lemma CeilingBelowCapacity(b: Battery, x: real)
    requires x <= RoundedAvailable(b)
    ensures CeilingChargeTotal(b, x) == Round2(x)
  {
  }

  /** A non-negative request stays non-negative after clamping, as long as
      the pack has usable capacity. */
  lemma CeilingNonNegative(b: Battery, x: real)
    requires b.Valid() && x >= 0.0
    ensures CeilingChargeTotal(b, x) >= 0.0
  {
    AvailableNonNegative(b);
    Round2NonNegative(b.Available());
    Round2NonNegative(Min(RoundedAvailable(b), x));
  }

  /** The reserve never exceeds the pack. */
  lemma AvailableNonNegative(b: Battery)
    requires b.Valid()
    ensures b.Available() >= 0.0 && RoundedAvailable(b) == Round2(b.Available())
  {
    assert b.Available() == (1.0 - b.minSoc) * b.capacity;
  }
}
