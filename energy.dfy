/** Power samples integrated into energy: each sample's power is held until
    the next sample (a left-rectangle rule), and an interval longer than an
    hour counts as missing data and contributes nothing. */
module EnergyIntegration {
  import opened Common
  import opened AverageLoad

  /** The energy in kWh of the interval from `a` to `b` at `a`'s power in
      kW. */
  function Contribution(a: Sample, b: Sample): (e: real)
    ensures b.at - a.at > HOUR ==> e == 0.0
    ensures b.at - a.at <= HOUR ==> e == a.value * ((b.at - a.at) as real) / 3600.0
  {
    var power := if b.at - a.at > HOUR then 0.0 else a.value;
    power * ((b.at - a.at) as real) / 3600.0
  }

  /** The total over every consecutive pair; fewer than two samples hold
      no interval and give zero. */
  function Energy(values: seq<Sample>): (e: real)
    ensures |values| < 2 ==> e == 0.0
  {
    if |values| < 2 then 0.0
    else Energy(values[..|values| - 1]) + Contribution(values[|values| - 2], values[|values| - 1])
  }

  /** `sum_energy(values)` */
  method SumEnergy(values: seq<Sample>) returns (total: real)
    ensures total == Energy(values)
  {
    total := 0.0;
    if |values| < 2 {
      return;
    }
    for i := 0 to |values| - 1
      invariant total == Energy(values[..i + 1])
    {
      var power := values[i].value;
      var delta := values[i + 1].at - values[i].at;
      if delta > HOUR {
        power := 0.0;
      }
      assert values[..i + 2][..i + 1] == values[..i + 1];
      total := total + (power * (delta as real)) / 3600.0;
    }
    assert values[..|values|] == values;
  }

  /** The total splits at any sample: the intervals up to it and the
      intervals after it. */
  lemma {:induction false} EnergySplit(values: seq<Sample>, k: nat)
    requires k < |values|
    ensures Energy(values) == Energy(values[..k + 1]) + Energy(values[k..])
    decreases |values|
  {
    if |values| >= 2 && k < |values| - 1 {
      var init := values[..|values| - 1];
      EnergySplit(init, k);
      assert init[..k + 1] == values[..k + 1];
      assert values[k..][..|values[k..]| - 1] == init[k..];
    } else if |values| >= 2 {
      assert values[..k + 1] == values;
    }
  }

  /** With non-negative power and timestamps that never go back, the total
      is never negative. */
  lemma {:induction false} EnergyNonNegative(values: seq<Sample>)
    requires forall i :: 0 <= i < |values| ==> values[i].value >= 0.0
    requires forall i :: 0 <= i < |values| - 1 ==> values[i].at <= values[i + 1].at
    ensures Energy(values) >= 0.0
  {
    if |values| >= 2 {
      EnergyNonNegative(values[..|values| - 1]);
      var a := values[|values| - 2];
      var b := values[|values| - 1];
      assert Contribution(a, b) >= 0.0 by {
        if b.at - a.at <= HOUR {
          assert a.value * ((b.at - a.at) as real) >= 0.0;
        }
      }
    }
  }

  /** At a constant power with no gap over an hour, the total is that power
      times the hours from the first sample to the last. */
  lemma {:induction false} EnergyOfConstantPower(values: seq<Sample>, p: real)
    requires |values| >= 1
    requires forall i :: 0 <= i < |values| ==> values[i].value == p
    requires forall i :: 0 <= i < |values| - 1 ==> values[i + 1].at - values[i].at <= HOUR
    ensures Energy(values) == p * ((values[|values| - 1].at - values[0].at) as real) / 3600.0
  {
    if |values| >= 2 {
      var init := values[..|values| - 1];
      EnergyOfConstantPower(init, p);
      var a := values[|values| - 2];
      var b := values[|values| - 1];
      assert Contribution(a, b) == p * ((b.at - a.at) as real) / 3600.0;
      assert p * ((a.at - values[0].at) as real) / 3600.0 + p * ((b.at - a.at) as real) / 3600.0
          == p * ((b.at - values[0].at) as real) / 3600.0;
    }
  }
}
