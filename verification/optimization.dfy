/**
 * The grid optimiser: a three-point grid around each default parameter, and
 * the choice of the run whose broker reports the highest portfolio value.
 *
 * Running the strategy for each grid point happens in the backtesting engine;
 * here a run is represented by the portfolio value its broker reports.
 */
module Optimization {

  /** A Python number as the defaults and steps hold it: an `int` or a `float`. */
  datatype Num = Int(i: int) | Float(f: real)

  function AsReal(v: Num): real
  {
    match v
    case Int(n) => n as real
    case Float(x) => x
  }

  /** Python's `-`: int minus int is an int, anything involving a float is a float. */
  function Sub(a: Num, b: Num): (r: Num)
    ensures r.Int? <==> a.Int? && b.Int?
    ensures AsReal(r) == AsReal(a) - AsReal(b)
  {
    if a.Int? && b.Int? then Int(a.i - b.i) else Float(AsReal(a) - AsReal(b))
  }

  /** Python's `+`, with the same typing rule. */
  function Add(a: Num, b: Num): (r: Num)
    ensures r.Int? <==> a.Int? && b.Int?
    ensures AsReal(r) == AsReal(a) + AsReal(b)
  {
    if a.Int? && b.Int? then Int(a.i + b.i) else Float(AsReal(a) + AsReal(b))
  }

  /** `v if v > 0 else 1`. */
  function AtLeastOne(v: Num): (r: Num)
    ensures AsReal(r) >= 1.0 || (AsReal(r) > 0.0 && r == v)
    ensures AsReal(v) > 0.0 ==> r == v
    ensures AsReal(v) <= 0.0 ==> r == Int(1)
  {
    if AsReal(v) > 0.0 then v else Int(1)
  }

  /** The three candidates one step below, at, and one step above the default. */
  function Around(default: Num, step: Num): seq<Num>
  {
    [Sub(default, step), default, Add(default, step)]
  }

  /** The grid values of one parameter: the three candidates, kept positive when the default is an `int`. */
  function GridValues(default: Num, step: Num): (vs: seq<Num>)
    ensures |vs| == 3
    ensures default.Float? ==> vs == Around(default, step)
    ensures default.Int? ==> forall k :: 0 <= k < 3 ==> vs[k] == AtLeastOne(Around(default, step)[k])
  {
    var around := Around(default, step);
    if default.Int? then [AtLeastOne(around[0]), AtLeastOne(around[1]), AtLeastOne(around[2])]
    else around
  }

  /** For an integer default and step, every grid value is a positive integer (at least 1). */
  lemma IntGridPositive(default: int, step: int)
    ensures forall v :: v in GridValues(Int(default), Int(step)) ==> v.Int? && v.i >= 1
  {
  }

  /** For a positive integer default the middle grid value is the default itself, and the ends are default -/+ step when positive. */
  lemma IntGridKeepsPositiveValues(default: int, step: int)
    requires default > 0
    ensures GridValues(Int(default), Int(step))[1] == Int(default)
    ensures default - step > 0 ==> GridValues(Int(default), Int(step))[0] == Int(default - step)
    ensures default + step > 0 ==> GridValues(Int(default), Int(step))[2] == Int(default + step)
  {
  }

  /** A float default is never clamped: its grid is exactly default - step, default, default + step. */
  lemma FloatGridUnclamped(default: real, step: real)
    ensures GridValues(Float(default), Float(step)) == [Float(default - step), Float(default), Float(default + step)]
  {
  }

  /** The keys of an ordered dictionary's items are pairwise distinct. */
  predicate DistinctKeys<V>(items: seq<(string, V)>)
  {
    forall j, k :: 0 <= j < k < |items| ==> items[j].0 != items[k].0
  }

  /**
   * The `param_grid` loop: for each default parameter in order, look up its
   * step and append its three grid values under its name. The grid is an
   * insertion-ordered dictionary, kept as its items in insertion order.
   */
  method BuildParamGrid(defaults: seq<(string, Num)>, steps: map<string, Num>)
    returns (grid: seq<(string, seq<Num>)>)
    requires DistinctKeys(defaults)
    requires forall j :: 0 <= j < |defaults| ==> defaults[j].0 in steps
    ensures |grid| == |defaults|
    ensures forall j :: 0 <= j < |defaults| ==>
      grid[j].0 == defaults[j].0 && grid[j].1 == GridValues(defaults[j].1, steps[defaults[j].0])
    ensures DistinctKeys(grid)
    ensures forall j :: 0 <= j < |grid| ==> |grid[j].1| == 3
  {
    grid := [];
    var n := 0;
    while n < |defaults|
      invariant 0 <= n <= |defaults|
      invariant |grid| == n
      invariant forall j :: 0 <= j < n ==>
        grid[j].0 == defaults[j].0 && grid[j].1 == GridValues(defaults[j].1, steps[defaults[j].0])
    {
      var (key, default) := defaults[n];
      var step := steps[key];
      grid := grid + [(key, GridValues(default, step))];
      n := n + 1;
    }
  }

  /** The default parameters the grid is centred on, in order. */
  const DefaultParams: seq<(string, Num)> := [
    ("longTermFastLen", Int(50)),
    ("longTermSlowLen", Int(200)),
    ("shortTermFastLen", Int(10)),
    ("shortTermSlowLen", Int(20)),
    ("fixedStopLossPct", Float(0.01)),
    ("fixedTakeProfitPct", Float(0.02)),
    ("fixedTrailingPct", Float(0.01))
  ]

  /** One step below and above each default. */
  const Steps: map<string, Num> := map[
    "longTermFastLen" := Int(1),
    "longTermSlowLen" := Int(1),
    "shortTermFastLen" := Int(1),
    "shortTermSlowLen" := Int(1),
    "fixedStopLossPct" := Float(0.001),
    "fixedTakeProfitPct" := Float(0.001),
    "fixedTrailingPct" := Float(0.001)
  ]

  /** The module's own defaults and steps satisfy what the grid loop needs, so it never fails a lookup. */
  lemma DefaultsFitGrid()
    ensures |DefaultParams| == 7
    ensures DistinctKeys(DefaultParams)
    ensures forall j :: 0 <= j < |DefaultParams| ==> DefaultParams[j].0 in Steps
  {
  }

  /** The grid around each distinct default: 49-51, 199-201, 9-11, 19-21, and 0.01 and 0.02 each -/+ 0.001. */
  lemma DefaultGridValues()
    ensures GridValues(Int(50), Int(1)) == [Int(49), Int(50), Int(51)]
    ensures GridValues(Int(200), Int(1)) == [Int(199), Int(200), Int(201)]
    ensures GridValues(Int(10), Int(1)) == [Int(9), Int(10), Int(11)]
    ensures GridValues(Int(20), Int(1)) == [Int(19), Int(20), Int(21)]
    ensures GridValues(Float(0.01), Float(0.001)) == [Float(0.009), Float(0.01), Float(0.011)]
    ensures GridValues(Float(0.02), Float(0.001)) == [Float(0.019), Float(0.02), Float(0.021)]
  {
  }

  /** The best value seen so far: minus infinity before any run. */
  datatype Best = NegInf | Finite(value: real)

  datatype Option<T> = None | Some(value: T)

  /** `portfolio_value > best_value`, where every real exceeds minus infinity. */
  predicate Exceeds(v: real, b: Best)
  {
    b.NegInf? || v > b.value
  }

  /**
   * The best-run loop: `values[k]` is the value `strat.broker.getvalue()`
   * gives for run `k`, read after all runs have finished.
   * Answers the highest value and the first run that reaches it, or minus
   * infinity and no run when there are no runs.
   */
  method SelectBest(values: seq<real>) returns (bestValue: Best, bestRun: Option<nat>)
    ensures values == [] <==> bestRun == None
    ensures values == [] ==> bestValue == NegInf
    ensures bestRun.Some? ==>
      bestRun.value < |values| && bestValue == Finite(values[bestRun.value])
    ensures bestRun.Some? ==> forall j :: 0 <= j < |values| ==> values[j] <= values[bestRun.value]
    ensures bestRun.Some? ==> forall j :: 0 <= j < bestRun.value ==> values[j] < values[bestRun.value]
  {
    bestValue, bestRun := NegInf, None;
    for n := 0 to |values|
      invariant bestRun == None <==> n == 0
      invariant bestRun == None ==> bestValue == NegInf
      invariant bestRun.Some? ==> bestRun.value < n && bestValue == Finite(values[bestRun.value])
      invariant bestRun.Some? ==> forall j :: 0 <= j < n ==> values[j] <= values[bestRun.value]
      invariant bestRun.Some? ==> forall j :: 0 <= j < bestRun.value ==> values[j] < values[bestRun.value]
    {
      if Exceeds(values[n], bestValue) {
        bestValue, bestRun := Finite(values[n]), Some(n);
      }
    }
  }
}
