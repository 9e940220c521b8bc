/** The series `data_to_df` builds from a Prometheus query response: one
    named series of (timestamp, value) points per result entry. The pandas
    frame that holds them is not modelled; the result is the list of series
    in the order the frame's columns take. */
module PromSeries {
  import opened Values

  datatype Point = Point(timestamp: Value, value: Value)

  datatype Series = Series(name: Value, points: seq<Point>)

  /** `column_name_field` is truthy: given and not the empty string. */
  predicate Labelled(field: Option<string>)
  {
    field.Some? && field.value != ""
  }

  /** The name of the series for result entry `c`. Without a label field it
      is `'result'`. Otherwise it is `c['metric'][field]`; a missing label
      raises KeyError for a vector result and falls back to `'result'` for a
      matrix result. A missing `metric` raises KeyError in both cases, since
      the handler itself reads `c['metric']` again. */
  function ColumnName(c: Value, field: Option<string>, vector: bool): (r: Result<Value>)
  {
    if !Labelled(field) then Ok(Str("result"))
    else
      var metric :- Index(c, "metric");
      match Index(metric, field.value)
      case Ok(name) => Ok(name)
      case Err(e) => if e.KeyError? && !vector then Ok(Str("result")) else Err(e)
  }

  /** How many tuples `zip(*rows)` yields: none without rows, else as many
      as the shortest row has items; TypeError when a row is not a list. */
  function ZipWidth(rows: seq<Value>): Result<nat>
  {
    if rows == [] then Ok(0)
    else if !rows[0].List? then Err(TypeError("zip argument must support iteration"))
    else
      match ZipWidth(rows[1..])
      case Err(e) => Err(e)
      case Ok(w) => Ok(if |rows| == 1 || |rows[0].items| < w then |rows[0].items| else w)
  }

  /** The k-th point pairs the first two items of the k-th row (the
      placeholder for a shorter row is never reached, see `Serialize`). */
  function PointsOf(rows: seq<Value>): (ps: seq<Point>)
    ensures |ps| == |rows|
  {
    if rows == [] then []
    else
      var p := if rows[0].List? && |rows[0].items| >= 2 then Point(rows[0].items[0], rows[0].items[1])
               else Point(Null, Null);
      [p] + PointsOf(rows[1..])
  }

  /** `serialize_data(data, name)`: `(i, d) = zip(*data)` needs exactly two
      tuples out of `zip`; `i` holds the timestamps, `d` the values. */
  function Serialize(data: Value, name: Value): (r: Result<Series>)
    ensures r.Ok? ==> data.List? && r.value.name == name && |r.value.points| == |data.items|
  {
    match data
    case List(rows) =>
      (match ZipWidth(rows)
       case Err(e) => Err(e)
       case Ok(w) => if w != 2 then Err(ValueError("wrong number of values to unpack"))
                     else Ok(Series(name, PointsOf(rows))))
    case _ => Err(TypeError("zip argument must support iteration"))
  }

  /** `zip` succeeds exactly when every row is a list, and then it yields as
      many tuples as the shortest row has items. */
  lemma {:induction false} ZipWidthIsShortest(rows: seq<Value>)
    ensures ZipWidth(rows).Ok? <==> forall k :: 0 <= k < |rows| ==> rows[k].List?
    ensures ZipWidth(rows).Ok? ==>
      (forall k :: 0 <= k < |rows| ==> |rows[k].items| >= ZipWidth(rows).value) &&
      (rows != [] ==> exists k :: 0 <= k < |rows| && |rows[k].items| == ZipWidth(rows).value)
  {
    if rows != [] {
      var tail := rows[1..];
      ZipWidthIsShortest(tail);
      assert forall k :: 1 <= k < |rows| ==> rows[k] == tail[k - 1];
      if ZipWidth(rows).Ok? {
        var w := ZipWidth(rows).value;
        if |rows| > 1 && |rows[0].items| >= ZipWidth(tail).value {
          var j :| 0 <= j < |tail| && |tail[j].items| == ZipWidth(tail).value;
          assert |rows[j + 1].items| == w;
        }
      } else if rows[0].List? {
        var j :| 0 <= j < |tail| && !tail[j].List?;
        assert !rows[j + 1].List?;
      }
    }
  }

  lemma {:induction false} PointsOfAt(rows: seq<Value>, k: nat)
    requires k < |rows| && rows[k].List? && |rows[k].items| >= 2
    ensures PointsOf(rows)[k] == Point(rows[k].items[0], rows[k].items[1])
  {
    if k > 0 {
      PointsOfAt(rows[1..], k - 1);
    }
  }

  /** The series of one result entry: its name first, then its sample
      (`[c['value']]` for a vector) or samples (`c['values']` for a matrix). */
  function SeriesFor(c: Value, field: Option<string>, vector: bool): (r: Result<Series>)
  {
    var name :- ColumnName(c, field, vector);
    if vector then
      var sample :- Index(c, "value");
      Serialize(List([sample]), name)
    else
      var samples :- Index(c, "values");
      Serialize(samples, name)
  }

  /** The series of the first `n` result entries; the first failure ends it. */
  function SeriesFrom(results: seq<Value>, field: Option<string>, vector: bool, n: nat): Result<seq<Series>>
    requires n <= |results|
  {
    if n == 0 then Ok([])
    else
      match SeriesFrom(results, field, vector, n - 1)
      case Err(e) => Err(e)
      case Ok(ss) =>
        match SeriesFor(results[n - 1], field, vector)
        case Err(e) => Err(e)
        case Ok(s) => Ok(ss + [s])
  }

  /** `for c in data['data']['result']`: a list gives its items; iterating a
      non-empty string or dict gives strings, which the loop body cannot
      index with a string key. */
  function ResultItems(v: Value): (r: Result<seq<Value>>)
    ensures v.List? ==> r == Ok(v.items)
  {
    match v
    case List(xs) => Ok(xs)
    case Str(s) => if s == "" then Ok([]) else Err(TypeError("string indices must be integers"))
    case Dict(es) => if es == [] then Ok([]) else Err(TypeError("string indices must be integers"))
    case _ => Err(TypeError("object is not iterable"))
  }

  /** `data_to_df(data, column_name_field=field)` as a list of series. */
  function SeriesOf(data: Value, field: Option<string>): Result<seq<Series>>
  {
    var status :- Index(data, "status");
    if status != Str("success") then Ok([])
    else
      var d :- Index(data, "data");
      var resultType :- Index(d, "resultType");
      if resultType != Str("vector") && resultType != Str("matrix") then Ok([])
      else
        var result :- Index(d, "result");
        var items :- ResultItems(result);
        SeriesFrom(items, field, resultType == Str("vector"), |items|)
  }

  lemma {:induction false} SeriesFromErrSticks(results: seq<Value>, field: Option<string>, vector: bool, n: nat, m: nat)
    requires n <= m <= |results| && SeriesFrom(results, field, vector, n).Err?
    ensures SeriesFrom(results, field, vector, m) == SeriesFrom(results, field, vector, n)
    decreases m
  {
    if m > n {
      SeriesFromErrSticks(results, field, vector, n, m - 1);
    }
  }

  /** `data_to_df`: the lookups into the response, then the loop over the
      result entries. */
  method DataToSeries(data: Value, field: Option<string>) returns (r: Result<seq<Series>>)
    ensures r == SeriesOf(data, field)
  {
    var status := Index(data, "status");
    if status.Err? {
      return Err(status.error);
    }
    if status.value != Str("success") {
      return Ok([]);
    }
    var d := Index(data, "data");
    if d.Err? {
      return Err(d.error);
    }
    var resultType := Index(d.value, "resultType");
    if resultType.Err? {
      return Err(resultType.error);
    }
    var rt := resultType.value;
    if rt != Str("vector") && rt != Str("matrix") {
      return Ok([]);
    }
    var result := Index(d.value, "result");
    if result.Err? {
      return Err(result.error);
    }
    var items := ResultItems(result.value);
    if items.Err? {
      return Err(items.error);
    }
    r := CollectSeries(items.value, field, rt == Str("vector"));
  }

  lemma SeriesFromStep(results: seq<Value>, field: Option<string>, vector: bool, i: nat, columns: seq<Series>, s: Series)
    requires i < |results|
    requires SeriesFrom(results, field, vector, i) == Ok(columns)
    requires SeriesFor(results[i], field, vector) == Ok(s)
    ensures SeriesFrom(results, field, vector, i + 1) == Ok(columns + [s])
  {
  }

  /** An entry that fails ends the loop with its error. */
  lemma SeriesFromStops(results: seq<Value>, field: Option<string>, vector: bool, i: nat, columns: seq<Series>)
    requires i < |results|
    requires SeriesFrom(results, field, vector, i) == Ok(columns)
    requires SeriesFor(results[i], field, vector).Err?
    ensures SeriesFrom(results, field, vector, |results|) == Err(SeriesFor(results[i], field, vector).error)
  {
    SeriesFromErrSticks(results, field, vector, i + 1, |results|);
  }

  /** `for c in ...: columns_data.append(serialize_data(...))` */
  method CollectSeries(results: seq<Value>, field: Option<string>, vector: bool) returns (r: Result<seq<Series>>)
    ensures r == SeriesFrom(results, field, vector, |results|)
  {
    var columns: seq<Series> := [];
    for i := 0 to |results|
      invariant SeriesFrom(results, field, vector, i) == Ok(columns)
    {
      var s := EntrySeries(results[i], field, vector);
      if s.Err? {
        SeriesFromStops(results, field, vector, i, columns);
        return Err(s.error);
      }
      SeriesFromStep(results, field, vector, i, columns, s.value);
      columns := columns + [s.value];
    }
    r := Ok(columns);
  }

  /** The body of the loops over `data['data']['result']`: pick the column
      name (with the `try`/`except KeyError` of each branch), then serialize
      `c['value']` as one row or `c['values']` as rows. */
  method EntrySeries(c: Value, field: Option<string>, vector: bool) returns (r: Result<Series>)
    ensures r == SeriesFor(c, field, vector)
  {
    var name := Str("result");
    if Labelled(field) {
      var metric := Index(c, "metric");
      if metric.Err? {
        return Err(metric.error);
      }
      var found := Index(metric.value, field.value);
      if found.Ok? {
        name := found.value;
      } else if vector || !found.error.KeyError? {
        return Err(found.error);
      }
    }
    var rows: Value;
    if vector {
      var sample := Index(c, "value");
      if sample.Err? {
        return Err(sample.error);
      }
      rows := List([sample.value]);
    } else {
      var samples := Index(c, "values");
      if samples.Err? {
        return Err(samples.error);
      }
      rows := samples.value;
    }
    r := Serialize(rows, name);
  }

  // ---------------------------------------------------------------------
  // Properties

  /** On success there is one series per result entry, in order. */
  lemma {:induction false} SeriesFromShape(results: seq<Value>, field: Option<string>, vector: bool, n: nat)
    requires n <= |results|
    requires SeriesFrom(results, field, vector, n).Ok?
    ensures |SeriesFrom(results, field, vector, n).value| == n
    ensures forall k :: 0 <= k < n ==>
      SeriesFor(results[k], field, vector) == Ok(SeriesFrom(results, field, vector, n).value[k])
  {
    if n > 0 {
      SeriesFromShape(results, field, vector, n - 1);
    }
  }

  /** The series list fails exactly when some entry fails. */
  lemma {:induction false} SeriesFromFailsIff(results: seq<Value>, field: Option<string>, vector: bool, n: nat)
    requires n <= |results|
    ensures SeriesFrom(results, field, vector, n).Err? <==>
      exists k :: 0 <= k < n && SeriesFor(results[k], field, vector).Err?
  {
    if n > 0 {
      SeriesFromFailsIff(results, field, vector, n - 1);
      if SeriesFrom(results, field, vector, n - 1).Err? {
        var k :| 0 <= k < n - 1 && SeriesFor(results[k], field, vector).Err?;
        assert 0 <= k < n && SeriesFor(results[k], field, vector).Err?;
      } else if SeriesFor(results[n - 1], field, vector).Err? {
        assert 0 <= n - 1 < n && SeriesFor(results[n - 1], field, vector).Err?;
      } else {
        assert SeriesFrom(results, field, vector, n).Ok?;
        forall k | 0 <= k < n ensures SeriesFor(results[k], field, vector).Ok? {
          if k < n - 1 {
            assert !SeriesFor(results[k], field, vector).Err?;
          }
        }
      }
    }
  }

  /** A status other than `success` gives no series, whatever else the
      response holds. */
  lemma NonSuccessNoSeries(data: Value, field: Option<string>)
    requires data.Dict? && Get(data.entries, "status").Some?
    requires Get(data.entries, "status").value != Str("success")
    ensures SeriesOf(data, field) == Ok([])
  {
  }

  /** The result entries of a successful vector or matrix response. */
  predicate ResultsAre(data: Value, resultType: string, results: seq<Value>)
  {
    Index(data, "status") == Ok(Str("success")) &&
    Index(data, "data").Ok? &&
    Index(Index(data, "data").value, "resultType") == Ok(Str(resultType)) &&
    Index(Index(data, "data").value, "result") == Ok(List(results))
  }

  /** One series per result entry, each built from its own entry. */
  lemma SeriesPerResult(data: Value, field: Option<string>, resultType: string, results: seq<Value>)
    requires resultType == "vector" || resultType == "matrix"
    requires ResultsAre(data, resultType, results)
    requires SeriesOf(data, field).Ok?
    ensures |SeriesOf(data, field).value| == |results|
    ensures forall k :: 0 <= k < |results| ==>
      SeriesFor(results[k], field, resultType == "vector") == Ok(SeriesOf(data, field).value[k])
  {
    assert SeriesOf(data, field) == SeriesFrom(results, field, resultType == "vector", |results|);
    SeriesFromShape(results, field, resultType == "vector", |results|);
  }

  /** A vector entry's series has exactly one point, its `value` pair. */
  lemma VectorSeriesHasOnePoint(c: Value, field: Option<string>)
    requires SeriesFor(c, field, true).Ok?
    ensures |SeriesFor(c, field, true).value.points| == 1
    ensures Index(c, "value").Ok? && Index(c, "value").value.List?
    ensures var v := Index(c, "value").value.items;
      |v| == 2 && SeriesFor(c, field, true).value.points[0] == Point(v[0], v[1])
  {
    var rows := [Index(c, "value").value];
    ZipWidthIsShortest(rows);
    PointsOfAt(rows, 0);
  }

  /** A matrix entry's series has one point per row of `values`, pairing the
      row's first two items; every row has at least two items and some row
      exactly two. */
  lemma MatrixSeriesPoints(c: Value, field: Option<string>)
    requires SeriesFor(c, field, false).Ok?
    ensures Index(c, "values").Ok? && Index(c, "values").value.List?
    ensures var rows := Index(c, "values").value.items;
      var ps := SeriesFor(c, field, false).value.points;
      |ps| == |rows| && rows != [] &&
      (exists k :: 0 <= k < |rows| && rows[k].List? && |rows[k].items| == 2) &&
      forall k :: 0 <= k < |rows| ==>
        rows[k].List? && |rows[k].items| >= 2 && ps[k] == Point(rows[k].items[0], rows[k].items[1])
  {
    var rows := Index(c, "values").value.items;
    ZipWidthIsShortest(rows);
    forall k | 0 <= k < |rows|
      ensures rows[k].List? && |rows[k].items| >= 2
      ensures SeriesFor(c, field, false).value.points[k] == Point(rows[k].items[0], rows[k].items[1])
    {
      PointsOfAt(rows, k);
    }
  }

  /** Without a label field every series is named `'result'`. */
  lemma UnlabelledName(c: Value, field: Option<string>, vector: bool)
    requires !Labelled(field)
    requires SeriesFor(c, field, vector).Ok?
    ensures SeriesFor(c, field, vector).value.name == Str("result")
  {
  }

  /** With a label field that the entry's metric has, the series is named by
      that label's value, for vectors and matrices alike. */
  lemma LabelledName(c: Value, field: Option<string>, vector: bool)
    requires Labelled(field)
    requires Index(c, "metric").Ok? && Index(Index(c, "metric").value, field.value).Ok?
    requires SeriesFor(c, field, vector).Ok?
    ensures SeriesFor(c, field, vector).value.name == Index(Index(c, "metric").value, field.value).value
  {
  }

  /** A vector entry whose metric lacks the label makes the entry fail with
      KeyError, and with it the whole series list. */
  lemma VectorMissingLabelFails(results: seq<Value>, field: Option<string>, k: nat)
    requires k < |results| && Labelled(field)
    requires Index(results[k], "metric").Ok?
    requires Index(Index(results[k], "metric").value, field.value) == Err(KeyError(field.value))
    ensures SeriesFor(results[k], field, true) == Err(KeyError(field.value))
    ensures SeriesFrom(results, field, true, |results|).Err?
  {
    SeriesFromFailsIff(results, field, true, |results|);
  }

  /** A matrix entry whose metric lacks the label is named `'result'`. */
  lemma MatrixMissingLabelIsResult(c: Value, field: Option<string>)
    requires Labelled(field)
    requires Index(c, "metric").Ok?
    requires Index(Index(c, "metric").value, field.value) == Err(KeyError(field.value))
    requires SeriesFor(c, field, false).Ok?
    ensures SeriesFor(c, field, false).value.name == Str("result")
  {
  }

  /** An entry without `metric` fails whenever a label field is given. */
  lemma MissingMetricFails(c: Value, field: Option<string>, vector: bool)
    requires Labelled(field) && c.Dict? && Get(c.entries, "metric").None?
    ensures SeriesFor(c, field, vector) == Err(KeyError("metric"))
  {
  }

  // ---------------------------------------------------------------------
  // Well-formed responses succeed

  /** The label lookup of an entry cannot fail: without a label field there
      is none, and with one the entry's metric holds the label. */
  predicate HasLabel(c: Value, field: Option<string>)
  {
    Labelled(field) ==> Index(c, "metric").Ok? && Index(Index(c, "metric").value, field.value).Ok?
  }

  /** The name the series of a labelled entry gets. */
  function LabelOf(c: Value, field: Option<string>): Value
    requires HasLabel(c, field)
  {
    if Labelled(field) then Index(Index(c, "metric").value, field.value).value else Str("result")
  }

  /** A vector result entry as Prometheus sends it: a dict whose metric holds
      the label, and whose `value` is a (timestamp, value) pair. */
  predicate WellFormedVectorEntry(c: Value, field: Option<string>)
  {
    HasLabel(c, field) &&
    Index(c, "value").Ok? && Index(c, "value").value.List? && |Index(c, "value").value.items| == 2
  }

  /** A matrix result entry as Prometheus sends it: a dict whose metric is a
      dict (a missing label falls back to `'result'`), and whose `values` is a
      non-empty list of (timestamp, value) pairs. */
  predicate WellFormedMatrixEntry(c: Value, field: Option<string>)
  {
    (Labelled(field) ==> Index(c, "metric").Ok? && Index(c, "metric").value.Dict?) &&
    Index(c, "values").Ok? && Index(c, "values").value.List? &&
    var rows := Index(c, "values").value.items;
    rows != [] && forall k :: 0 <= k < |rows| ==> rows[k].List? && |rows[k].items| == 2
  }

  /** A well-formed vector entry gives one series of one point, named by its
      label. */
  lemma VectorEntrySucceeds(c: Value, field: Option<string>)
    requires WellFormedVectorEntry(c, field)
    ensures var v := Index(c, "value").value.items;
      SeriesFor(c, field, true) == Ok(Series(LabelOf(c, field), [Point(v[0], v[1])]))
  {
    var v := Index(c, "value").value.items;
    var rows := [Index(c, "value").value];
    assert ZipWidth(rows[1..]) == Ok(0) by { assert rows[1..] == []; }
    assert ZipWidth(rows) == Ok(2);
    PointsOfAt(rows, 0);
    assert PointsOf(rows) == [Point(v[0], v[1])];
    assert ColumnName(c, field, true) == Ok(LabelOf(c, field));
  }

  /** A well-formed matrix entry gives one series with one point per pair of
      `values`, named by its label or `'result'`. */
  lemma MatrixEntrySucceeds(c: Value, field: Option<string>)
    requires WellFormedMatrixEntry(c, field)
    ensures SeriesFor(c, field, false).Ok?
    ensures var rows := Index(c, "values").value.items;
      var ps := SeriesFor(c, field, false).value.points;
      |ps| == |rows| && forall k :: 0 <= k < |rows| ==> ps[k] == Point(rows[k].items[0], rows[k].items[1])
  {
    var rows := Index(c, "values").value.items;
    ZipWidthIsShortest(rows);
    assert |rows[0].items| == 2;
    var w := ZipWidth(rows).value;
    var j :| 0 <= j < |rows| && |rows[j].items| == w;
    assert w == 2;
    forall k | 0 <= k < |rows| ensures PointsOf(rows)[k] == Point(rows[k].items[0], rows[k].items[1]) {
      PointsOfAt(rows, k);
    }
  }

  /** A successful vector response whose entries are all well formed gives
      one series per entry, in order, each holding that entry's one point
      under its label: one row and one column per entry. */
  lemma VectorResponseSucceeds(data: Value, field: Option<string>, results: seq<Value>)
    requires ResultsAre(data, "vector", results)
    requires forall k :: 0 <= k < |results| ==> WellFormedVectorEntry(results[k], field)
    ensures SeriesOf(data, field).Ok? && |SeriesOf(data, field).value| == |results|
    ensures forall k :: 0 <= k < |results| ==>
      WellFormedVectorEntry(results[k], field) &&
      var v := Index(results[k], "value").value.items;
      SeriesOf(data, field).value[k] == Series(LabelOf(results[k], field), [Point(v[0], v[1])])
  {
    forall k | 0 <= k < |results| ensures SeriesFor(results[k], field, true).Ok? {
      VectorEntrySucceeds(results[k], field);
    }
    SeriesFromFailsIff(results, field, true, |results|);
    SeriesPerResult(data, field, "vector", results);
    forall k | 0 <= k < |results|
      ensures WellFormedVectorEntry(results[k], field)
      ensures var v := Index(results[k], "value").value.items;
        SeriesOf(data, field).value[k] == Series(LabelOf(results[k], field), [Point(v[0], v[1])])
    {
      VectorEntrySucceeds(results[k], field);
    }
  }

  /** A successful matrix response whose entries are all well formed gives
      one series per entry, in order, each with one point per pair. */
  lemma MatrixResponseSucceeds(data: Value, field: Option<string>, results: seq<Value>)
    requires ResultsAre(data, "matrix", results)
    requires forall k :: 0 <= k < |results| ==> WellFormedMatrixEntry(results[k], field)
    ensures SeriesOf(data, field).Ok? && |SeriesOf(data, field).value| == |results|
    ensures forall k :: 0 <= k < |results| ==>
      WellFormedMatrixEntry(results[k], field) &&
      |SeriesOf(data, field).value[k].points| == |Index(results[k], "values").value.items|
  {
    forall k | 0 <= k < |results| ensures SeriesFor(results[k], field, false).Ok? {
      MatrixEntrySucceeds(results[k], field);
    }
    SeriesFromFailsIff(results, field, false, |results|);
    SeriesPerResult(data, field, "matrix", results);
    forall k | 0 <= k < |results|
      ensures WellFormedMatrixEntry(results[k], field)
      ensures |SeriesOf(data, field).value[k].points| == |Index(results[k], "values").value.items|
    {
      MatrixEntrySucceeds(results[k], field);
    }
  }
}
