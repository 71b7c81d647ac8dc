# GainsGrapher in Dafny

GainsGrapher reads a Strong-app CSV export of logged sets. For one chosen
exercise it plots a metric of every set over time, with a linear trend line;
it can also list the exercises that the export contains. This project models
the logic of `gains-graph.py` and proves properties of it:

- **Metrics** (`metrics.dfy`). The metric table has the keys `1rm`, `weight`
  and `volume` and the labels `1RM`, `Weight` and `Set Volume`. The datatype
  `Metric` holds exactly these three keys, so the dispatch of
  `calc_metric` has no fall-through case. `CalcMetric` computes:
  - the Brzycki estimate `weight * (36 / (37 - reps))` for `1rm`;
  - the weight itself for `weight`;
  - `weight * reps` for `volume`.

  Weights are `real`. The estimate is undefined at 37 repetitions.
- **Grapher** (`grapher.dfy`). The class `GainsGrapher` holds the parsed
  rows, the exercise and the metric. The constructor takes a metric key and
  requires it to be in the table, as the key assertion does. `Graph` is the
  loop that builds the x (date) and y (metric) lists for the chosen exercise,
  followed by the "no data" check. `ListExercises` is the loop that collects
  the set of exercise names, followed by the empty/non-empty branch.

`Graph` reports two errors:
- `ZeroDivision`: a row of the exercise has 37 repetitions under `1rm`. In
  Python the division raises at that row, before the "no data" check, and
  the `except ValueError` of the command line does not catch it.
- `NoData`: no row names the exercise. Python raises `ValueError` here.

The `Series` that `Graph` returns is what the source hands to the trend fit
and the plot.

The code does not validate its input, and the model follows the code:
- Rows are not validated. Weights may be negative and repetition counts may
  be below 1 or above 37.
- The 37-repetition case is not a domain error of its own. It is the
  division fault described above.

## Model

| member | source | states |
|---|---|---|
| `Metrics.ParseMetric` | gains-graph.py:14-18 | a key is accepted exactly when it is one of `1rm`, `weight`, `volume`, and the metric it yields has that key |
| `Metrics.KeyRoundTrip` | gains-graph.py:14-18 | every metric's key is in the table and looks up to that same metric |
| `Metrics.KeysAndLabelsDistinct` | gains-graph.py:14-18 | different metrics have different keys and different readable labels |
| `Metrics.CalcMetric` | gains-graph.py:34-41 | for `1rm` the result r satisfies the Brzycki relation r·(37−reps) = 36·weight and is only asked for reps ≠ 37; for `weight` it is the weight; for `volume` it is weight·reps |
| `Metrics.BrzyckiRoundTrip` | gains-graph.py:35-37 | the 1RM estimate and the Brzycki formula solved for the weight are inverse to each other for every reps ≠ 37 |
| `Metrics.OneRMMonotone` | gains-graph.py:35-37 | for a non-negative weight and 1 to 36 reps, the estimate is at least the weight and does not decrease as reps grow |
| `Metrics.SingleRepetition` | gains-graph.py:34-41 | at one repetition all three metrics equal the weight lifted |
| `Metrics.WeightIgnoresReps` | gains-graph.py:38-39 | the `weight` metric gives the same value whatever the repetition count |
| `Grapher.Matching` | gains-graph.py:46-47 | the reference definition of the rows the graph loop keeps; its contract states only that it keeps at most as many rows as the export has, and its meaning is pinned down by `MatchingMembers` and `MatchingInFileOrder` |
| `Grapher.MatchingConcat` | gains-graph.py:46-49 | filtering the rows of a concatenated export is filtering each part, in order |
| `Grapher.MatchingStep` | gains-graph.py:46-49 | processing one more row extends the filtered rows by that row exactly when its name matches |
| `Grapher.MatchingMembers` | gains-graph.py:46-47 | a row is kept exactly when it is in the export and its name equals the requested exercise (exact, case-sensitive) |
| `Grapher.MatchingInFileOrder` | gains-graph.py:46-49 | the k-th kept row is the row at the k-th matching index; the indices strictly increase; an index is among them exactly when its row's name matches |
| `Grapher.MatchingIdempotent` | gains-graph.py:46-47 | filtering the filtered rows again for the same exercise changes nothing |
| `Grapher.ListedIffFound` | gains-graph.py:63-65 | an exercise appears in the listing exactly when filtering for it keeps at least one row |
| `Grapher.NamesEmptyIff` | gains-graph.py:63-69 | the set of exercise names is empty exactly when the export has no rows |
| `Grapher.GainsGrapher.constructor` | gains-graph.py:22-26 | a grapher is built only for a key in the metric table, and keeps the rows, the exercise and the metric with that key |
| `Grapher.GainsGrapher.Graph` | gains-graph.py:43-51 | fails with the division fault exactly when a matching row has 37 reps under `1rm`; fails with "no data" exactly when no row matches; otherwise x and y both have one entry per matching row, in file order, with x[k] that row's date and y[k] its metric value |
| `Grapher.GainsGrapher.ListExercises` | gains-graph.py:62-69 | lists exactly the set of exercise names over all rows, which is non-empty; reports "no exercises" exactly when the export has no rows |

## Left out

- Opening and reading the CSV file, and the error for a file that cannot be
  opened (gains-graph.py:28-32). The model receives the rows already parsed.
  The `filename` field is only used in that I/O and in messages, so it is
  not modelled.
- Parsing the `Date` column with `strptime` and converting `Weight` and
  `Reps` with `float` and `int` (gains-graph.py:48-49). These are library
  parsing; rows carry an already-parsed `DateTime`, a `real` and an `int`.
  The `ValueError` raised for a malformed field is not modelled.
- The epoch conversion and the least-squares trend line from `numpy.polyfit`
  (gains-graph.py:52-53). This is floating-point numerics inside a library.
- All plotting with `matplotlib` (gains-graph.py:55-60), and the printed
  text of the listing (gains-graph.py:67, 69). The listing's text, including
  the order in which `', '.join` walks the set, is not modelled.
- The command line (gains-graph.py:72-88): `argparse`, the choice of list or
  graph mode, and printing the caught `ValueError`.
- Metrics.CalcMetric: computes over exact reals, so it does not model IEEE
  float rounding.
- Grapher.GainsGrapher.constructor: `exercise` is a string. In list mode
  Python passes `None`, and `graph` is never called then.
- Grapher.GainsGrapher.Graph: the error messages are not modelled. Each
  error is a constructor of `GraphError`, and `NoData` carries the exercise
  name.
