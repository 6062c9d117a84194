/**
 * The genetic optimiser's genotype: the 20-entry bound table, gene sampling,
 * the decode of a gene vector into strategy parameters, and the fitness
 * evaluation with its penalty for a failing backtest.
 *
 * The random generator and the evolutionary operators are library code and are
 * not modelled; a uniform draw appears as a number `r` in [0, 1].
 */
module GaOptimization {
  import Strategy

  const NumParams: nat := 20

  /** `PARAM_BOUNDARIES`: the [lo, hi] bound of each gene, in gene order. */
  const ParamBoundaries: seq<(real, real)> := [
    (10.0, 200.0),    // longTermFastLen
    (100.0, 400.0),   // longTermSlowLen
    (5.0, 20.0),      // shortTermFastLen
    (15.0, 30.0),     // shortTermSlowLen
    (0.005, 0.11),    // fixedStopLossPct
    (0.015, 0.12),    // fixedTakeProfitPct
    (0.005, 0.11),    // fixedTrailingPct
    (0.0, 1.0),       // useAdxFilter
    (10.0, 18.0),     // adxPeriod
    (15.0, 25.0),     // adxThreshold
    (0.0, 1.0),       // useVolumeFilter
    (15.0, 25.0),     // volumeMALen
    (0.0, 1.0),       // useRSIFilter
    (10.0, 18.0),     // rsiPeriod
    (45.0, 55.0),     // rsiLongThreshold
    (45.0, 55.0),     // rsiShortThreshold
    (0.0, 1.0),       // useAtrFilter
    (0.005, 0.015),   // atrFilterThreshold
    (0.0, 1.0),       // enableHigherTFFilter
    (0.0, 1.0)        // enableSessionFilter
  ]

  /** The keys of the parameters dictionary: the 20 parameter names. */
  datatype ParamKey =
    | LongTermFastLen | LongTermSlowLen | ShortTermFastLen | ShortTermSlowLen
    | FixedStopLossPct | FixedTakeProfitPct | FixedTrailingPct
    | UseAdxFilter | AdxPeriod | AdxThreshold
    | UseVolumeFilter | VolumeMALen
    | UseRSIFilter | RsiPeriod | RsiLongThreshold | RsiShortThreshold
    | UseAtrFilter | AtrFilterThreshold
    | EnableHigherTFFilter | EnableSessionFilter

  /** The parameter name each gene decodes to, in gene order. */
  const ParamNames: seq<ParamKey> := [
    LongTermFastLen, LongTermSlowLen, ShortTermFastLen, ShortTermSlowLen,
    FixedStopLossPct, FixedTakeProfitPct, FixedTrailingPct,
    UseAdxFilter, AdxPeriod, AdxThreshold,
    UseVolumeFilter, VolumeMALen,
    UseRSIFilter, RsiPeriod, RsiLongThreshold, RsiShortThreshold,
    UseAtrFilter, AtrFilterThreshold,
    EnableHigherTFFilter, EnableSessionFilter
  ]

  /** How a gene is decoded: rounded to an integer, passed through, or thresholded to a flag. */
  datatype Kind = IntField | RealField | FlagField

  const ParamKinds: seq<Kind> := [
    IntField, IntField, IntField, IntField,
    RealField, RealField, RealField,
    FlagField, IntField, RealField,
    FlagField, IntField,
    FlagField, IntField, RealField, RealField,
    FlagField, RealField,
    FlagField, FlagField
  ]

  /** The schema has 20 entries, each with lo < hi, and integer bounds on integer fields. */
  lemma SchemaWellFormed()
    ensures |ParamBoundaries| == |ParamNames| == |ParamKinds| == NumParams
    ensures forall i :: 0 <= i < NumParams ==> ParamBoundaries[i].0 < ParamBoundaries[i].1
    ensures forall i :: 0 <= i < NumParams && ParamKinds[i] == IntField ==>
      ParamBoundaries[i].0 == ParamBoundaries[i].0.Floor as real &&
      ParamBoundaries[i].1 == ParamBoundaries[i].1.Floor as real
    ensures forall i, j :: 0 <= i < j < NumParams ==> ParamNames[i] != ParamNames[j]
  {
  }

  /** A point a fraction `r` of the way from `lo` to `hi` lies between them. */
  lemma DrawBetween(lo: real, hi: real, r: real, g: real)
    requires 0.0 <= r <= 1.0 && g == lo + (hi - lo) * r
    ensures lo <= hi ==> lo <= g <= hi
    ensures hi <= lo ==> hi <= g <= lo
  {
    var span, q := hi - lo, 1.0 - r;
    assert span * r + span * q == span;
    if span >= 0.0 {
      assert span * r >= 0.0 && span * q >= 0.0;
      assert lo <= lo + span * r <= lo + span;
    } else {
      assert span * r <= 0.0 && span * q <= 0.0;
      assert lo + span <= lo + span * r <= lo;
    }
  }

  /** `random_gene`: a uniform draw `r` scaled into the bound. */
  function RandomGene(bound: (real, real), r: real): (g: real)
    requires 0.0 <= r <= 1.0
    ensures bound.0 <= bound.1 ==> bound.0 <= g <= bound.1
    ensures bound.1 <= bound.0 ==> bound.1 <= g <= bound.0
  {
    var g := bound.0 + (bound.1 - bound.0) * r;
    DrawBetween(bound.0, bound.1, r, g);
    g
  }

  /** A gene vector of the right length with every gene inside its bound. */
  predicate InBounds(genes: seq<real>)
  {
    |genes| == NumParams &&
    forall i :: 0 <= i < NumParams ==> ParamBoundaries[i].0 <= genes[i] <= ParamBoundaries[i].1
  }

  /** `create_individual`: one gene per bound, from one draw per bound. */
  function CreateIndividual(draws: seq<real>): (genes: seq<real>)
    requires |draws| == NumParams
    requires forall i :: 0 <= i < |draws| ==> 0.0 <= draws[i] <= 1.0
    ensures InBounds(genes)
  {
    SchemaWellFormed();
    seq(NumParams, i requires 0 <= i < NumParams => RandomGene(ParamBoundaries[i], draws[i]))
  }

  /** Python 3's `round` on one argument: nearest integer, ties to the even one. */
  function RoundHalfEven(x: real): (n: int)
    ensures n as real - 0.5 <= x <= n as real + 0.5
    ensures (x == n as real - 0.5 || x == n as real + 0.5) ==> n % 2 == 0
  {
    var f := x.Floor;
    var d := x - f as real;
    if d < 0.5 then f
    else if d > 0.5 then f + 1
    else if f % 2 == 0 then f
    else f + 1
  }

  /** The contract of RoundHalfEven determines its result: no other integer meets it. */
  lemma RoundHalfEvenUnique(x: real, m: int)
    requires m as real - 0.5 <= x <= m as real + 0.5
    requires (x == m as real - 0.5 || x == m as real + 0.5) ==> m % 2 == 0
    ensures m == RoundHalfEven(x)
  {
  }

  lemma RoundOfInteger(k: int)
    ensures RoundHalfEven(k as real) == k
  {
    RoundHalfEvenUnique(k as real, k);
  }

  lemma RoundMonotone(x: real, y: real)
    requires x <= y
    ensures RoundHalfEven(x) <= RoundHalfEven(y)
  {
  }

  /** A gene between two integers rounds to an integer between them. */
  lemma RoundWithin(lo: int, hi: int, x: real)
    requires lo as real <= x <= hi as real
    ensures lo <= RoundHalfEven(x) <= hi
  {
    RoundMonotone(lo as real, x);
    RoundMonotone(x, hi as real);
    RoundOfInteger(lo);
    RoundOfInteger(hi);
  }

  /** A decoded parameter value, as the parameters dictionary holds it. */
  datatype Value = IntV(i: int) | RealV(r: real) | BoolV(b: bool)

  /** The decode of one gene under its kind. */
  function DecodeGene(k: Kind, x: real): (v: Value)
    ensures k == IntField ==> v.IntV? && -0.5 <= x - v.i as real <= 0.5
    ensures k == IntField ==> (x - v.i as real == 0.5 || x - v.i as real == -0.5) ==> v.i % 2 == 0
    ensures k == RealField ==> v == RealV(x)
    ensures k == FlagField ==> v.BoolV? && (v.b <==> x >= 0.5)
  {
    match k
    case IntField => IntV(RoundHalfEven(x))
    case RealField => RealV(x)
    case FlagField => BoolV(x >= 0.5)
  }

  /** The typed configuration a gene vector decodes to (the 20 searched parameters). */
  datatype Config = Config(
    longTermFastLen: int,
    longTermSlowLen: int,
    shortTermFastLen: int,
    shortTermSlowLen: int,
    fixedStopLossPct: real,
    fixedTakeProfitPct: real,
    fixedTrailingPct: real,
    useAdxFilter: bool,
    adxPeriod: int,
    adxThreshold: real,
    useVolumeFilter: bool,
    volumeMALen: int,
    useRSIFilter: bool,
    rsiPeriod: int,
    rsiLongThreshold: real,
    rsiShortThreshold: real,
    useAtrFilter: bool,
    atrFilterThreshold: real,
    enableHigherTFFilter: bool,
    enableSessionFilter: bool)

  /** The field of a configuration that a parameter name denotes. */
  function FieldByKey(c: Config, k: ParamKey): Value
  {
    match k
    case LongTermFastLen => IntV(c.longTermFastLen)
    case LongTermSlowLen => IntV(c.longTermSlowLen)
    case ShortTermFastLen => IntV(c.shortTermFastLen)
    case ShortTermSlowLen => IntV(c.shortTermSlowLen)
    case FixedStopLossPct => RealV(c.fixedStopLossPct)
    case FixedTakeProfitPct => RealV(c.fixedTakeProfitPct)
    case FixedTrailingPct => RealV(c.fixedTrailingPct)
    case UseAdxFilter => BoolV(c.useAdxFilter)
    case AdxPeriod => IntV(c.adxPeriod)
    case AdxThreshold => RealV(c.adxThreshold)
    case UseVolumeFilter => BoolV(c.useVolumeFilter)
    case VolumeMALen => IntV(c.volumeMALen)
    case UseRSIFilter => BoolV(c.useRSIFilter)
    case RsiPeriod => IntV(c.rsiPeriod)
    case RsiLongThreshold => RealV(c.rsiLongThreshold)
    case RsiShortThreshold => RealV(c.rsiShortThreshold)
    case UseAtrFilter => BoolV(c.useAtrFilter)
    case AtrFilterThreshold => RealV(c.atrFilterThreshold)
    case EnableHigherTFFilter => BoolV(c.enableHigherTFFilter)
    case EnableSessionFilter => BoolV(c.enableSessionFilter)
  }

  /** The position of a parameter's gene in the gene vector. */
  function GeneIndex(k: ParamKey): (i: nat)
    ensures i < NumParams && ParamNames[i] == k
  {
    match k
    case LongTermFastLen => 0
    case LongTermSlowLen => 1
    case ShortTermFastLen => 2
    case ShortTermSlowLen => 3
    case FixedStopLossPct => 4
    case FixedTakeProfitPct => 5
    case FixedTrailingPct => 6
    case UseAdxFilter => 7
    case AdxPeriod => 8
    case AdxThreshold => 9
    case UseVolumeFilter => 10
    case VolumeMALen => 11
    case UseRSIFilter => 12
    case RsiPeriod => 13
    case RsiLongThreshold => 14
    case RsiShortThreshold => 15
    case UseAtrFilter => 16
    case AtrFilterThreshold => 17
    case EnableHigherTFFilter => 18
    case EnableSessionFilter => 19
  }

  /** The decode in `eval_individual`: every field is its gene decoded under the schema's kind. */
  function Decode(genes: seq<real>): Config
    requires |genes| >= NumParams
  {
    Config(
      RoundHalfEven(genes[0]),
      RoundHalfEven(genes[1]),
      RoundHalfEven(genes[2]),
      RoundHalfEven(genes[3]),
      genes[4],
      genes[5],
      genes[6],
      genes[7] >= 0.5,
      RoundHalfEven(genes[8]),
      genes[9],
      genes[10] >= 0.5,
      RoundHalfEven(genes[11]),
      genes[12] >= 0.5,
      RoundHalfEven(genes[13]),
      genes[14],
      genes[15],
      genes[16] >= 0.5,
      genes[17],
      genes[18] >= 0.5,
      genes[19] >= 0.5)
  }

  /** A decoded value lies in the bound of its gene (flags are unconstrained). */
  predicate WithinBound(v: Value, bound: (real, real))
  {
    match v
    case IntV(n) => bound.0 <= n as real <= bound.1
    case RealV(x) => bound.0 <= x <= bound.1
    case BoolV(_) => true
  }

  /**
   * The decode rules: a parameter is its gene rounded half to even (integer
   * fields), the gene itself (percentages and thresholds), or the gene compared
   * with 0.5 (flags).
   */
  lemma DecodeBySchema(genes: seq<real>, k: ParamKey)
    requires |genes| >= NumParams
    ensures FieldByKey(Decode(genes), k) == DecodeGene(ParamKinds[GeneIndex(k)], genes[GeneIndex(k)])
  {
  }

  /** Decoding an in-bounds vector gives integer fields inside their integer bounds and reals inside theirs. */
  lemma DecodeInBounds(genes: seq<real>, k: ParamKey)
    requires InBounds(genes)
    ensures WithinBound(FieldByKey(Decode(genes), k), ParamBoundaries[GeneIndex(k)])
  {
    SchemaWellFormed();
    var i := GeneIndex(k);
    DecodeBySchema(genes, k);
    if ParamKinds[i] == IntField {
      RoundWithin(ParamBoundaries[i].0.Floor, ParamBoundaries[i].1.Floor, genes[i]);
    }
  }

  /** The set of all 20 parameter names. */
  const AllKeys: set<ParamKey> := set k | k in ParamNames

  /** A sequence without repetitions has as many distinct elements as entries. */
  lemma {:induction false} DistinctCardinality<T>(xs: seq<T>)
    requires forall i, j :: 0 <= i < j < |xs| ==> xs[i] != xs[j]
    ensures |set x | x in xs| == |xs|
  {
    if xs != [] {
      var rest := xs[1..];
      DistinctCardinality(rest);
      assert (set x | x in xs) == (set x | x in rest) + {xs[0]};
      assert xs[0] !in rest;
    }
  }

  /** The parameters dictionary `eval_individual` fills key by key, one entry per parameter name. */
  function EvalParams(c: Config): map<ParamKey, Value>
  {
    map k | k in AllKeys :: FieldByKey(c, k)
  }

  /** The dictionary has exactly 20 keys, every parameter name is one of them, and each holds its field. */
  lemma EvalParamsKeys(c: Config, k: ParamKey)
    ensures EvalParams(c).Keys == AllKeys && |AllKeys| == NumParams
    ensures k in EvalParams(c) && EvalParams(c)[k] == FieldByKey(c, k)
  {
    SchemaWellFormed();
    DistinctCardinality(ParamNames);
    assert ParamNames[GeneIndex(k)] == k;
  }

  /** One entry of the dictionary literal `best_params` that `main` builds from the best individual. */
  function BestEntry(best: seq<real>, k: ParamKey): Value
    requires |best| >= NumParams
  {
    match k
    case LongTermFastLen => IntV(RoundHalfEven(best[0]))
    case LongTermSlowLen => IntV(RoundHalfEven(best[1]))
    case ShortTermFastLen => IntV(RoundHalfEven(best[2]))
    case ShortTermSlowLen => IntV(RoundHalfEven(best[3]))
    case FixedStopLossPct => RealV(best[4])
    case FixedTakeProfitPct => RealV(best[5])
    case FixedTrailingPct => RealV(best[6])
    case UseAdxFilter => BoolV(best[7] >= 0.5)
    case AdxPeriod => IntV(RoundHalfEven(best[8]))
    case AdxThreshold => RealV(best[9])
    case UseVolumeFilter => BoolV(best[10] >= 0.5)
    case VolumeMALen => IntV(RoundHalfEven(best[11]))
    case UseRSIFilter => BoolV(best[12] >= 0.5)
    case RsiPeriod => IntV(RoundHalfEven(best[13]))
    case RsiLongThreshold => RealV(best[14])
    case RsiShortThreshold => RealV(best[15])
    case UseAtrFilter => BoolV(best[16] >= 0.5)
    case AtrFilterThreshold => RealV(best[17])
    case EnableHigherTFFilter => BoolV(best[18] >= 0.5)
    case EnableSessionFilter => BoolV(best[19] >= 0.5)
  }

  /** The second decode: the dictionary `best_params` in `main`. */
  function BestParams(best: seq<real>): map<ParamKey, Value>
    requires |best| >= NumParams
  {
    map k | k in AllKeys :: BestEntry(best, k)
  }

  /** `best_params` in `main` is the same decode as the one in `eval_individual`, with the same 20 keys. */
  lemma BestParamsIsDecode(best: seq<real>)
    requires |best| >= NumParams
    ensures BestParams(best) == EvalParams(Decode(best))
    ensures BestParams(best).Keys == AllKeys
  {
    var c := Decode(best);
    forall k | k in AllKeys
      ensures BestEntry(best, k) == FieldByKey(c, k)
    {
    }
  }

  /** What the backtest returns (initial and final portfolio value) or that it raised. */
  datatype BacktestOutcome = Returned(initialValue: real, finalValue: real) | Raised

  /** The fitness given to an individual whose backtest raised. */
  const PenaltyFitness: real := -1000000.0

  /**
   * `eval_individual`: decode, run the backtest on the parameters dictionary,
   * and answer a 1-tuple holding its final value, or the penalty if it raised.
   */
  function EvalIndividual(genes: seq<real>, runBacktest: map<ParamKey, Value> -> BacktestOutcome): (fitness: seq<real>)
    requires |genes| >= NumParams
    ensures |fitness| == 1
    ensures runBacktest(EvalParams(Decode(genes))).Raised? ==> fitness[0] == PenaltyFitness
    ensures runBacktest(EvalParams(Decode(genes))).Returned? ==>
      fitness[0] == runBacktest(EvalParams(Decode(genes))).finalValue
  {
    match runBacktest(EvalParams(Decode(genes)))
    case Returned(_, finalValue) => [finalValue]
    case Raised => [PenaltyFitness]
  }

  /** The name `run_backtest` is never imported into the module, so calling it raises a NameError. */
  function UnimportedRunBacktest(params: map<ParamKey, Value>): BacktestOutcome
  {
    Raised
  }

  /** As written, every individual receives the penalty, whatever its genes. */
  lemma EvalAsWrittenAlwaysPenalised(genes: seq<real>, other: seq<real>)
    requires |genes| >= NumParams && |other| >= NumParams
    ensures EvalIndividual(genes, UnimportedRunBacktest) == [PenaltyFitness]
    ensures EvalIndividual(genes, UnimportedRunBacktest) == EvalIndividual(other, UnimportedRunBacktest)
  {
  }

  /** With a backtest that returns, fitness is the final value and the penalty only appears if the backtest itself reports it. */
  lemma EvalWithWorkingBacktest(genes: seq<real>, runBacktest: map<ParamKey, Value> -> BacktestOutcome)
    requires |genes| >= NumParams
    requires forall params :: runBacktest(params).Returned?
    ensures EvalIndividual(genes, runBacktest)[0] == runBacktest(EvalParams(Decode(genes))).finalValue
  {
  }

  /**
   * The strategy parameters the backtest constructs from a decoded dictionary:
   * the 20 searched parameters override the defaults, the rest keep theirs.
   */
  function ToStrategyParams(c: Config): (p: Strategy.Params)
    ensures p.exitMethod == Strategy.DefaultParams.exitMethod
    ensures p.useAtrStopLoss == Strategy.DefaultParams.useAtrStopLoss
    ensures p.fixedStopLossPct == c.fixedStopLossPct && p.fixedTakeProfitPct == c.fixedTakeProfitPct
  {
    Strategy.DefaultParams.(
      longTermFastLen := c.longTermFastLen,
      longTermSlowLen := c.longTermSlowLen,
      shortTermFastLen := c.shortTermFastLen,
      shortTermSlowLen := c.shortTermSlowLen,
      fixedStopLossPct := c.fixedStopLossPct,
      fixedTakeProfitPct := c.fixedTakeProfitPct,
      fixedTrailingPct := c.fixedTrailingPct,
      useAdxFilter := c.useAdxFilter,
      adxPeriod := c.adxPeriod,
      adxThreshold := c.adxThreshold,
      useVolumeFilter := c.useVolumeFilter,
      volumeMALen := c.volumeMALen,
      useRSIFilter := c.useRSIFilter,
      rsiPeriod := c.rsiPeriod,
      rsiLongThreshold := c.rsiLongThreshold,
      rsiShortThreshold := c.rsiShortThreshold,
      useAtrFilter := c.useAtrFilter,
      atrFilterThreshold := c.atrFilterThreshold,
      enableHigherTFFilter := c.enableHigherTFFilter,
      enableSessionFilter := c.enableSessionFilter)
  }

  /**
   * The units mismatch: the bounds treat the exit percentages as fractions
   * (0.005 to 0.12) while the strategy divides them by 100, so for every
   * in-bounds genotype (such as the initial population) the long stop lies
   * within 0.11% of the entry and the target within 0.12%.
   */
  lemma SearchedExitsAreTight(genes: seq<real>, entry: real, atr: real)
    requires InBounds(genes) && entry > 0.0
    ensures var p := ToStrategyParams(Decode(genes));
      entry * (1.0 - 0.0011) <= Strategy.LongStop(entry, atr, p) < entry &&
      entry < Strategy.LongTarget(entry, p) <= entry * (1.0 + 0.0012)
  {
    var c := Decode(genes);
    var p := ToStrategyParams(c);
    assert 0.005 <= p.fixedStopLossPct <= 0.11;
    assert 0.015 <= p.fixedTakeProfitPct <= 0.12;
  }
}
