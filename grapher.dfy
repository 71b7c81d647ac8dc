/** The grapher object: a parsed export, the exercise to graph and the metric
    to plot; the series its graph is drawn from, and the listing of the
    exercises an export contains. */
module Grapher {
  import opened Metrics

  /** A timestamp of the Date column, already parsed from the pattern
      YYYY-MM-DD HH:MM:SS. */
  datatype DateTime = DateTime(year: int, month: int, day: int, hour: int, minute: int, second: int)

  /** One row of the export: the "Exercise Name", "Date", "Weight" and "Reps"
      columns, already converted to their types. */
  datatype Row = Row(name: string, date: DateTime, weight: real, reps: int)

  /** The points a graph is drawn from: the dates on the x axis and the metric
      values on the y axis, index by index. */
  datatype Series = Series(dates: seq<DateTime>, values: seq<real>)

  /** Why a graph cannot be drawn: no row names the exercise, or the 1RM
      formula divided by zero. */
  datatype GraphError = NoData(exercise: string) | ZeroDivision

  datatype Result<T, E> = Ok(value: T) | Err(error: E)

  /** The outcome of listing an export: the exercise names it holds, or the
      report that it holds none. */
  datatype Listing = Exercises(names: set<string>) | NoExercises

  /** The rows whose exercise name is exactly `exercise`, in file order. */
  function Matching(rows: seq<Row>, exercise: string): (r: seq<Row>)
    ensures |r| <= |rows|
  {
    if rows == [] then []
    else
      var last := rows[|rows| - 1];
      Matching(rows[..|rows| - 1], exercise) + (if last.name == exercise then [last] else [])
  }

  /** The row indices Matching keeps, in increasing order. */
  ghost function Positions(rows: seq<Row>, exercise: string): seq<nat> {
    if rows == [] then []
    else
      Positions(rows[..|rows| - 1], exercise) + (if rows[|rows| - 1].name == exercise then [|rows| - 1] else [])
  }

  /** Every row can be given to the metric: none makes the 1RM formula divide
      by zero. */
  predicate Computable(m: Metric, rows: seq<Row>) {
    forall r :: r in rows ==> Defined(m, r.reps)
  }

  /** The distinct exercise names of an export. */
  function Names(rows: seq<Row>): set<string> {
    set r | r in rows :: r.name
  }

  /** Filtering a concatenation filters each part, and keeps their order. */
  lemma {:induction false} MatchingConcat(a: seq<Row>, b: seq<Row>, exercise: string)
    ensures Matching(a + b, exercise) == Matching(a, exercise) + Matching(b, exercise)
  {
    if b != [] {
      var b' := b[..|b| - 1];
      assert (a + b)[..|a + b| - 1] == a + b';
      assert (a + b)[|a + b| - 1] == b[|b| - 1];
      MatchingConcat(a, b', exercise);
    } else {
      assert a + b == a;
    }
  }

  /** Extending the processed prefix by one row extends the filtered prefix by
      that row when it matches. */
  lemma MatchingStep(rows: seq<Row>, i: nat, exercise: string)
    requires i < |rows|
    ensures Matching(rows[..i + 1], exercise) ==
      Matching(rows[..i], exercise) + (if rows[i].name == exercise then [rows[i]] else [])
  {
    assert rows[..i + 1][..i] == rows[..i];
  }

  /** The filter keeps a row exactly when it is in the export and its name
      equals the requested exercise (an exact, case-sensitive comparison). */
  lemma {:induction false} MatchingMembers(rows: seq<Row>, exercise: string)
    ensures forall r :: r in Matching(rows, exercise) <==> r in rows && r.name == exercise
  {
    if rows != [] {
      var init := rows[..|rows| - 1];
      MatchingMembers(init, exercise);
      assert rows == init + [rows[|rows| - 1]];
    }
  }

  /** The filter keeps the matching rows and only those, in their file order:
      its k-th row is the row at the k-th matching index, the indices
      increase, and every index whose row matches is among them. */
  lemma {:induction false} MatchingInFileOrder(rows: seq<Row>, exercise: string)
    ensures var m, p := Matching(rows, exercise), Positions(rows, exercise);
      |p| == |m| &&
      (forall k :: 0 <= k < |p| ==> p[k] < |rows| && m[k] == rows[p[k]]) &&
      (forall k, l :: 0 <= k < l < |p| ==> p[k] < p[l]) &&
      (forall j :: 0 <= j < |rows| ==> (j in p <==> rows[j].name == exercise))
  {
    if rows != [] {
      var init := rows[..|rows| - 1];
      MatchingInFileOrder(init, exercise);
    }
  }

  /** Filtering twice for the same exercise filters once. */
  lemma {:induction false} MatchingIdempotent(rows: seq<Row>, exercise: string)
    ensures Matching(Matching(rows, exercise), exercise) == Matching(rows, exercise)
  {
    if rows != [] {
      var init := rows[..|rows| - 1];
      var last := rows[|rows| - 1];
      MatchingIdempotent(init, exercise);
      var tail := if last.name == exercise then [last] else [];
      MatchingConcat(Matching(init, exercise), tail, exercise);
      assert Matching(tail, exercise) == tail by {
        if tail != [] {
          assert tail[..0] == [];
        }
      }
    }
  }

  /** An exercise has data to graph exactly when the listing names it. */
  lemma {:induction false} ListedIffFound(rows: seq<Row>, exercise: string)
    ensures exercise in Names(rows) <==> Matching(rows, exercise) != []
  {
    if rows != [] {
      var init := rows[..|rows| - 1];
      var last := rows[|rows| - 1];
      ListedIffFound(init, exercise);
      assert rows == init + [last];
      assert Names(rows) == Names(init) + {last.name};
    }
  }

  /** An export has no exercise names exactly when it has no rows. */
  lemma NamesEmptyIff(rows: seq<Row>)
    ensures Names(rows) == {} <==> rows == []
  {
    if rows != [] {
      assert rows[0].name in Names(rows);
    }
  }

  class GainsGrapher {
    /** The parsed rows of the export, in file order. */
    const data: seq<Row>
    /** The exercise to graph. */
    const exercise: string
    /** The metric to plot. */
    const metric: Metric

    /** A grapher is built only for a key of the metric table. */
    constructor (data: seq<Row>, exercise: string, metricKey: string)
      requires metricKey in MetricKeys
      ensures this.data == data && this.exercise == exercise
      ensures this.metric.Key() == metricKey
    {
      this.data := data;
      this.exercise := exercise;
      this.metric := ParseMetric(metricKey).value;
    }

    /** Walks the export in order and collects, for every row of the chosen
        exercise, its date and its metric value; fails when the metric divides
        by zero on such a row, or when no row names the exercise. */
    method Graph() returns (res: Result<Series, GraphError>)
      ensures res == Err(ZeroDivision) <==> !Computable(metric, Matching(data, exercise))
      ensures res == Err(NoData(exercise)) <==> Matching(data, exercise) == []
      ensures res.Ok? <==> Matching(data, exercise) != [] && Computable(metric, Matching(data, exercise))
      ensures res.Ok? ==>
        var m := Matching(data, exercise);
        |res.value.dates| == |m| && |res.value.values| == |m| &&
        forall k :: 0 <= k < |m| ==>
          res.value.dates[k] == m[k].date &&
          res.value.values[k] == CalcMetric(metric, m[k].weight, m[k].reps)
    {
      var dates: seq<DateTime> := [];
      var values: seq<real> := [];
      ghost var done: seq<Row> := [];
      var i := 0;
      while i < |data|
        invariant 0 <= i <= |data|
        invariant done == Matching(data[..i], exercise)
        invariant Computable(metric, done)
        invariant |dates| == |done| && |values| == |done|
        invariant forall k :: 0 <= k < |done| ==>
          dates[k] == done[k].date && values[k] == CalcMetric(metric, done[k].weight, done[k].reps)
      {
        var row := data[i];
        MatchingStep(data, i, exercise);
        if row.name == exercise {
          if metric == OneRM && row.reps == 37 {
            MatchingMembers(data, exercise);
            return Err(ZeroDivision);
          }
          dates := dates + [row.date];
          values := values + [CalcMetric(metric, row.weight, row.reps)];
          done := done + [row];
        }
        i := i + 1;
      }
      assert data[..i] == data;
      if |dates| == 0 || |values| == 0 {
        return Err(NoData(exercise));
      }
      return Ok(Series(dates, values));
    }

    /** Collects the set of exercise names over all rows and reports it, or
        reports that the export has none. */
    method ListExercises() returns (res: Listing)
      ensures res.Exercises? <==> data != []
      ensures res.Exercises? ==> res.names == Names(data) && res.names != {}
      ensures res.NoExercises? ==> Names(data) == {}
    {
      var exercises: set<string> := {};
      for i := 0 to |data|
        invariant exercises == Names(data[..i])
      {
        assert data[..i + 1] == data[..i] + [data[i]];
        exercises := exercises + {data[i].name};
      }
      assert data[..|data|] == data;
      NamesEmptyIff(data);
      if |exercises| > 0 {
        return Exercises(exercises);
      }
      return NoExercises;
    }
  }
}
