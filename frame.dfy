/** The merged per-minute frame the battery model walks: one row per
    minute with house load, solar estimate and their difference, plus the
    simulated battery level and grid flow once the walk has written them
    (absent, as pandas' NaN, until then). */
module Frame {
  import opened Common

  /** One minute of merged load and forecast, before simulation. */
  datatype Minute = Minute(periodStart: Instant, date: int, load: real, pv: real, delta: real)

  /** One row of the model table. */
  datatype Row = Row(periodStart: Instant, date: int, load: real, pv: real, delta: real,
                     battery: Option<real>, grid: Option<real>)

  datatype Column = Load | Pv | Delta

  datatype Flow = Import | Export

  function Blank(m: Minute): Row {
    Row(m.periodStart, m.date, m.load, m.pv, m.delta, None, None)
  }

  /** The merged frame as a table whose battery and grid columns are
      still empty. */
  function Fresh(frame: seq<Minute>): (rows: seq<Row>)
    ensures |rows| == |frame|
    ensures forall i :: 0 <= i < |frame| ==> rows[i] == Blank(frame[i])
  {
    seq(|frame|, i requires 0 <= i < |frame| => Blank(frame[i]))
  }

  /** Rows are in strictly increasing `period_start` order. */
  predicate Sorted(frame: seq<Minute>) {
    forall i, j :: 0 <= i < j < |frame| ==> frame[i].periodStart < frame[j].periodStart
  }

  /** The rows after `now` are in strictly increasing `period_start`
      order; rows at or before it may repeat. */
  predicate FutureSorted(rows: seq<Row>, now: Instant) {
    forall i, j :: 0 <= i < j < |rows| && rows[i].periodStart > now && rows[j].periodStart > now ==>
      rows[i].periodStart < rows[j].periodStart
  }

  function Col(r: Row, c: Column): real {
    match c
    case Load => r.load
    case Pv => r.pv
    case Delta => r.delta
  }

  /** Sum of a column over the rows with `lo < period_start < hi`. */
  function SumBetween(rows: seq<Row>, lo: Instant, hi: Instant, c: Column): real {
    if rows == [] then 0.0
    else (if lo < rows[0].periodStart < hi then Col(rows[0], c) else 0.0)
         + SumBetween(rows[1..], lo, hi, c)
  }

  /** Whether a row's grid flow is an import (negative) or an export
      (positive) one; rows without a grid value are neither. */
  predicate IsFlow(r: Row, f: Flow) {
    r.grid.Some? && (if f == Import then r.grid.value < 0.0 else r.grid.value > 0.0)
  }

  /** Sum of the grid values of one sign over the rows with
      `lo < period_start < hi`. */
  function GridSum(rows: seq<Row>, lo: Instant, hi: Instant, f: Flow): real {
    if rows == [] then 0.0
    else (if lo < rows[0].periodStart < hi && IsFlow(rows[0], f) then rows[0].grid.value else 0.0)
         + GridSum(rows[1..], lo, hi, f)
  }

  /** Whether the table has a simulated battery column at all: pandas
      creates the column only when the walk writes a first value into it. */
  predicate HasBattery(rows: seq<Row>) {
    exists i :: 0 <= i < |rows| && rows[i].battery.Some?
  }

  /** Whether the table has a grid column at all (see `HasBattery`). */
  predicate HasGrid(rows: seq<Row>) {
    exists i :: 0 <= i < |rows| && rows[i].grid.Some?
  }

  /** Whether any row with `lo < period_start < hi` has a grid flow of the
      given sign. */
  predicate AnyFlow(rows: seq<Row>, lo: Instant, hi: Instant, f: Flow) {
    exists i :: 0 <= i < |rows| && lo < rows[i].periodStart < hi && IsFlow(rows[i], f)
  }

  /** Imports sum to at most zero and exports to at least zero. */
  lemma {:induction false} GridSumSign(rows: seq<Row>, lo: Instant, hi: Instant, f: Flow)
    ensures f == Import ==> GridSum(rows, lo, hi, f) <= 0.0
    ensures f == Export ==> GridSum(rows, lo, hi, f) >= 0.0
  {
    if rows != [] {
      GridSumSign(rows[1..], lo, hi, f);
    }
  }

  /** With no qualifying row the grid sum is zero. */
  lemma {:induction false} GridSumEmpty(rows: seq<Row>, lo: Instant, hi: Instant, f: Flow)
    requires !AnyFlow(rows, lo, hi, f)
    ensures GridSum(rows, lo, hi, f) == 0.0
  {
    if rows != [] {
      assert !AnyFlow(rows[1..], lo, hi, f) by {
        forall i | 0 <= i < |rows[1..]|
          ensures !(lo < rows[1..][i].periodStart < hi && IsFlow(rows[1..][i], f))
        {
          assert rows[1..][i] == rows[i + 1];
        }
      }
      GridSumEmpty(rows[1..], lo, hi, f);
    }
  }

  /** Window sums only read the load, solar and delta columns, so writing
      battery and grid values leaves them as they were. */
  lemma {:induction false} SumBetweenIgnoresSimulation(a: seq<Row>, b: seq<Row>, lo: Instant, hi: Instant, c: Column)
    requires |a| == |b|
    requires forall i :: 0 <= i < |a| ==> a[i].periodStart == b[i].periodStart && Col(a[i], c) == Col(b[i], c)
    ensures SumBetween(a, lo, hi, c) == SumBetween(b, lo, hi, c)
  {
    if a != [] {
      SumBetweenIgnoresSimulation(a[1..], b[1..], lo, hi, c);
    }
  }
}
