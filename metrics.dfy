/** The metrics a grapher can plot for one logged set, and the formulas that
    derive each of them from the set's weight and repetition count. */
module Metrics {

  datatype Option<T> = None | Some(value: T)

  /** The three supported metrics. The source keys them by the strings
      "1rm", "weight" and "volume"; a value of this type is one of those keys,
      so the dispatch in CalcMetric has no fall-through case. */
  datatype Metric = OneRM | Weight | Volume {

    /** The command-line key of the metric. */
    function Key(): string {
      match this
      case OneRM => "1rm"
      case Weight => "weight"
      case Volume => "volume"
    }

    /** The readable name used as the axis label of a graph. */
    function Label(): string {
      match this
      case OneRM => "1RM"
      case Weight => "Weight"
      case Volume => "Set Volume"
    }
  }

  /** The keys of the metric table. */
  const MetricKeys: set<string> := {"1rm", "weight", "volume"}

  /** Looks a command-line key up in the metric table. */
  function ParseMetric(key: string): (r: Option<Metric>)
    ensures r.Some? <==> key in MetricKeys
    ensures r.Some? ==> r.value.Key() == key
  {
    if key == "1rm" then Some(OneRM)
    else if key == "weight" then Some(Weight)
    else if key == "volume" then Some(Volume)
    else None
  }

  /** Every metric's key is in the table and parses back to that metric. */
  lemma KeyRoundTrip(m: Metric)
    ensures m.Key() in MetricKeys
    ensures ParseMetric(m.Key()) == Some(m)
  {
  }

  /** Distinct metrics have distinct keys and distinct labels. */
  lemma KeysAndLabelsDistinct(m: Metric, n: Metric)
    requires m != n
    ensures m.Key() != n.Key() && m.Label() != n.Label()
  {
  }

  /** A metric is computable for a repetition count unless the Brzycki
      denominator 37 - reps is zero. */
  predicate Defined(m: Metric, reps: int) {
    m != OneRM || reps != 37
  }

  /** The metric value of one set. For OneRM this is the Brzycki estimate
      weight * (36 / (37 - reps)), whose denominator vanishes at 37 reps. */
  function CalcMetric(m: Metric, weight: real, reps: int): (r: real)
    requires Defined(m, reps)
    ensures m == OneRM ==> r * (37 - reps) as real == 36.0 * weight
    ensures m == Weight ==> r == weight
    ensures m == Volume ==> r == weight * reps as real
  {
    match m
    case OneRM => weight * (36.0 / (37 - reps) as real)
    case Weight => weight
    case Volume => weight * reps as real
  }

  /** The Brzycki formula solved for the weight: the weight that can be
      lifted reps times by someone whose one-repetition maximum is oneRM. */
  function LiftableWeight(oneRM: real, reps: int): real {
    oneRM * (37 - reps) as real / 36.0
  }

  /** The estimate and LiftableWeight are inverse to each other at every
      repetition count where the estimate is defined. */
  lemma BrzyckiRoundTrip(weight: real, oneRM: real, reps: int)
    requires reps != 37
    ensures LiftableWeight(CalcMetric(OneRM, weight, reps), reps) == weight
    ensures CalcMetric(OneRM, LiftableWeight(oneRM, reps), reps) == oneRM
  {
  }

  /** A single repetition is its own maximum: with reps = 1 all three metrics
      agree with the weight lifted. */
  lemma SingleRepetition(weight: real)
    ensures CalcMetric(OneRM, weight, 1) == weight
    ensures CalcMetric(Volume, weight, 1) == weight
    ensures CalcMetric(Weight, weight, 1) == weight
  {
  }

  /** The Weight metric does not depend on the repetition count. */
  lemma WeightIgnoresReps(weight: real, reps: int, reps': int)
    ensures CalcMetric(Weight, weight, reps) == CalcMetric(Weight, weight, reps')
  {
  }

  /** For a non-negative weight and 1 to 36 repetitions, the estimated maximum
      is at least the weight lifted and grows with the repetition count. */
  lemma OneRMMonotone(weight: real, reps: int, reps': int)
    requires 0.0 <= weight
    requires 1 <= reps <= reps' < 37
    ensures weight <= CalcMetric(OneRM, weight, reps)
    ensures CalcMetric(OneRM, weight, reps) <= CalcMetric(OneRM, weight, reps')
  {
    var d, d' := (37 - reps) as real, (37 - reps') as real;
    DivAntitone(36.0, d, 36.0);
    DivAntitone(36.0, d', d);
    ScaleLe(weight, 1.0, 36.0 / d);
    BrzyckiScale(weight, reps, reps');
  }

  /** The estimate is the weight scaled by the Brzycki factor 36 / (37 - reps),
      so it follows the factor's order. */
  lemma BrzyckiScale(weight: real, reps: int, reps': int)
    requires 0.0 <= weight && reps != 37 && reps' != 37
    requires 36.0 / (37 - reps) as real <= 36.0 / (37 - reps') as real
    ensures CalcMetric(OneRM, weight, reps) <= CalcMetric(OneRM, weight, reps')
  {
  }

  /** Multiplying by a non-negative factor keeps an inequality. */
  lemma ScaleLe(a: real, b: real, c: real)
    requires 0.0 <= a && b <= c
    ensures a * b <= a * c
  {
  }

  /** For c >= 0, c / x shrinks as the positive divisor x grows. */
  lemma DivAntitone(c: real, x: real, y: real)
    requires 0.0 <= c && 0.0 < x <= y
    ensures c / y <= c / x
  {
  }
}
