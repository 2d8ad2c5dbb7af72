/** The `TimeSeries` recorder of series.py: named scalar series, per-name
    prediction counters, a print throttle and the structure of the report.

    Every reading of the wall clock inside one call is the single `now`
    argument of that call, and the human-readable timestamp that the report
    embeds is the `stamp` argument. */
module Series {
  import opened Helpers
  import opened Stats
  import opened Names

  datatype Option<T> = None | Some(value: T)

  /** The exceptions the report can raise: `max()` of an empty list, and a
      division by zero (no elapsed time, or a prediction series with no rows). */
  datatype Error = EmptyMax | ZeroDivision

  datatype Result<T> = Ok(value: T) | Err(error: Error)

  /** The `{'correct': .., 'total': ..}` record of one prediction series. */
  datatype Tally = Tally(correct: nat, total: nat)

  /** One line of the report, with its contents kept abstract (no number
      formatting, no padding). */
  datatype Line =
    | Blank                                   // the leading ''
    | TitleLine(title: string)
    | Collected(elapsed: real, stamp: string) // "Collected .. sec ending .."
    | MaxRate(longest: nat, elapsed: real)    // "Max Rate ../sec" = longest / elapsed
    | ColumnHeader                            // "Name  Avg.  Last 10"
    | SeriesRow(name: string, mean: real, recent: real)
    | PredictionsHeader                       // "Predictions:"
    | PredictionRow(name: string, accuracy: real, correct: nat, total: nat)
    | Trailer                                 // the final '\n'

  /** What one `print_every` call does. */
  datatype Emit = Silent | Printed(report: seq<Line>) | Raised(error: Error)

  /** `if self.title:` — a missing or empty title prints nothing. */
  predicate Truthy(title: Option<string>)
  {
    title.Some? && title.value != ""
  }

  /** Every stored series has at least one value. This holds because every
      input of the `Number`/`Other` domain converts without raising, so
      the empty series that `collect` creates is always appended to. */
  ghost predicate SeriesOk(series: map<string, seq<real>>)
  {
    forall k :: k in series ==> |series[k]| > 0
  }

  /** `order` lists the prediction names in insertion order, each once:
      distinct keys, as many as there are series (so, by `OrderKeys`, every
      key). */
  ghost predicate OrderOk(order: seq<string>, predictions: map<string, Tally>)
  {
    && (forall i, j :: 0 <= i < j < |order| ==> order[i] != order[j])
    && (forall i :: 0 <= i < |order| ==> order[i] in predictions)
    && |order| == |predictions|
  }

  /** A new key appended to `order` keeps it in step with the counters. */
  lemma OrderGrows(order: seq<string>, predictions: map<string, Tally>, name: string, t: Tally)
    requires OrderOk(order, predictions) && name !in predictions
    ensures OrderOk(order + [name], predictions[name := t])
  {
    assert |predictions[name := t]| == |predictions| + 1;
  }

  /** Updating the counters of an existing key leaves `order` in step. */
  lemma OrderKeeps(order: seq<string>, predictions: map<string, Tally>, name: string, t: Tally)
    requires OrderOk(order, predictions) && name in predictions
    ensures OrderOk(order, predictions[name := t])
  {
    assert predictions[name := t].Keys == predictions.Keys;
  }

  /** `order` holds exactly the keys of the counters. */
  lemma {:induction false} OrderKeys(order: seq<string>, predictions: map<string, Tally>)
    requires OrderOk(order, predictions)
    ensures forall k :: k in predictions <==> k in order
    decreases |order|
  {
    if order != [] {
      var n := |order| - 1;
      var last := order[n];
      var rest := predictions - {last};
      assert |rest| == |predictions| - 1;
      assert forall i :: 0 <= i < n ==> order[..n][i] == order[i];
      OrderKeys(order[..n], rest);
      assert order == order[..n] + [last];
    } else {
      assert predictions.Keys == {};
    }
  }

  ghost predicate TalliesOk(predictions: map<string, Tally>)
  {
    forall k :: k in predictions ==> predictions[k].correct <= predictions[k].total
  }

  /** The series map after appending `x` to `name` (created empty if absent). */
  function Appended(series: map<string, seq<real>>, name: string, x: real): (r: map<string, seq<real>>)
    ensures r.Keys == series.Keys + {name}
    ensures name in series ==> r[name] == series[name] + [x]
    ensures name !in series ==> r[name] == [x]
    ensures forall k :: k in series && k != name ==> r[k] == series[k]
  {
    series[name := (if name in series then series[name] else []) + [x]]
  }

  /** `Appended` is the in-place update of the source: create the series
      empty when missing, then append to it. */
  lemma AppendedInPlace(series: map<string, seq<real>>, name: string, x: real)
    ensures var p := if name in series then series else series[name := []];
            p[name := p[name] + [x]] == Appended(series, name, x)
  {
    var p := if name in series then series else series[name := []];
    var q := p[name := p[name] + [x]];
    var r := Appended(series, name, x);
    assert q.Keys == r.Keys;
    forall k | k in q ensures q[k] == r[k] {
    }
  }

  /** The counters after one batch of `rows` rows of which `hits` matched. */
  function Tallied(predictions: map<string, Tally>, name: string, hits: nat, rows: nat): (r: map<string, Tally>)
    ensures r.Keys == predictions.Keys + {name}
    ensures name in predictions ==>
              r[name] == Tally(predictions[name].correct + hits, predictions[name].total + rows)
    ensures name !in predictions ==> r[name] == Tally(hits, rows)
    ensures forall k :: k in predictions && k != name ==> r[k] == predictions[k]
    ensures TalliesOk(predictions) && hits <= rows ==> TalliesOk(r)
  {
    var t := if name in predictions then predictions[name] else Tally(0, 0);
    predictions[name := Tally(t.correct + hits, t.total + rows)]
  }

  /** `Tallied` is the in-place update of the source: create the entry at
      zero when missing, then add to both counters. */
  lemma TalliedInPlace(predictions: map<string, Tally>, name: string, hits: nat, rows: nat)
    ensures var p := if name in predictions then predictions else predictions[name := Tally(0, 0)];
            p[name := Tally(p[name].correct + hits, p[name].total + rows)] == Tallied(predictions, name, hits, rows)
  {
    var p := if name in predictions then predictions else predictions[name := Tally(0, 0)];
    var q := p[name := Tally(p[name].correct + hits, p[name].total + rows)];
    var r := Tallied(predictions, name, hits, rows);
    assert q.Keys == r.Keys;
    forall k | k in q ensures q[k] == r[k] {
    }
  }

  /** The `print_every` test: strictly more than `nSec` since the last print. */
  predicate Due(now: real, lastPrintedAt: real, nSec: real)
  {
    now - lastPrintedAt > nSec
  }

  /** The length of the longest name: `max(len(c) for c in names)`. */
  function Longest(names: seq<string>): (m: nat)
    requires names != []
    ensures forall i :: 0 <= i < |names| ==> |names[i]| <= m
    ensures exists i :: 0 <= i < |names| && |names[i]| == m
  {
    if |names| == 1 then |names[0]|
    else
      var n := |names| - 1;
      var m := Longest(names[..n]);
      assert forall i :: 0 <= i < n ==> names[..n][i] == names[i];
      if |names[n]| > m then |names[n]| else m
  }

  /** One series row: the shortened name, the mean and the mean of the
      last ten values. */
  function SeriesLine(name: string, values: seq<real>): (r: Line)
    requires |values| > 0
  {
    SeriesRow(Shorten(name), Mean(values), Mean(Recent(values)))
  }

  /** One prediction row: the shortened name, `100 * correct / total` and
      the raw counters. */
  function PredictionLine(name: string, t: Tally): (r: Line)
    requires t.total > 0
  {
    PredictionRow(Shorten(name), 100.0 * t.correct as real / t.total as real, t.correct, t.total)
  }

  /** The series rows, one per name of `names`, in that order. */
  function SeriesRows(names: seq<string>, series: map<string, seq<real>>): (r: seq<Line>)
    requires SeriesOk(series) && forall i :: 0 <= i < |names| ==> names[i] in series
    ensures |r| == |names|
  {
    if names == [] then []
    else
      var n := |names| - 1;
      SeriesRows(names[..n], series) + [SeriesLine(names[n], series[names[n]])]
  }

  /** The prediction rows in the order of `order`; the first series with no
      rows stops the report with a division by zero. */
  function PredictionRows(order: seq<string>, predictions: map<string, Tally>): (r: Result<seq<Line>>)
    requires forall i :: 0 <= i < |order| ==> order[i] in predictions
    ensures r.Err? ==> r.error == ZeroDivision
    ensures r.Ok? ==> |r.value| == |order|
  {
    if order == [] then Ok([])
    else
      var n := |order| - 1;
      match PredictionRows(order[..n], predictions)
      case Err(e) => Err(e)
      case Ok(rows) =>
        var t := predictions[order[n]];
        if t.total == 0 then Err(ZeroDivision) else Ok(rows + [PredictionLine(order[n], t)])
  }

  /** The leading empty line and the title when it is truthy. */
  function Heading(title: Option<string>): (r: seq<Line>)
  {
    if Truthy(title) then [Blank] + [TitleLine(title.value)] else [Blank]
  }

  /** The lines before the series rows. */
  function Front(title: Option<string>, elapsed: real, stamp: string, longest: nat): (r: seq<Line>)
  {
    Heading(title) + [Collected(elapsed, stamp)] + [MaxRate(longest, elapsed), ColumnHeader]
  }

  /** `body` followed by the prediction section and the trailing line. */
  function WithPredictions(body: seq<Line>, order: seq<string>, rows: seq<Line>): (r: seq<Line>)
  {
    (if order == [] then body else body + [PredictionsHeader]) + rows + [Trailer]
  }

  /** The series section, the prediction section and the trailing line
      after `front`, or the division by zero of a prediction series with no
      rows. */
  function Sections(front: seq<Line>, names: seq<string>, series: map<string, seq<real>>,
                    order: seq<string>, predictions: map<string, Tally>): (r: Result<seq<Line>>)
    requires SeriesOk(series) && forall i :: 0 <= i < |names| ==> names[i] in series
    requires forall i :: 0 <= i < |order| ==> order[i] in predictions
  {
    match PredictionRows(order, predictions)
    case Err(e) => Err(e)
    case Ok(rows) => Ok(WithPredictions(front + SeriesRows(names, series), order, rows))
  }

  /** The line list `format_all` builds, or the exception it raises. */
  ghost function Report(title: Option<string>, series: map<string, seq<real>>, order: seq<string>,
                        predictions: map<string, Tally>, elapsed: real, stamp: string): (r: Result<seq<Line>>)
    requires SeriesOk(series) && OrderOk(order, predictions)
  {
    if series == map[] then Err(EmptyMax)
    else if elapsed == 0.0 then Err(ZeroDivision)
    else
      var names := SortedKeys(series.Keys);
      Sections(Front(title, elapsed, stamp, Longest(names)), names, series, order, predictions)
  }

  class TimeSeries {
    const title: Option<string>
    var series: map<string, seq<real>>
    var predictions: map<string, Tally>
    /** The keys of `predictions` in insertion order (a Python dict's order). */
    var order: seq<string>
    var startTime: real
    var lastPrintedAt: real

    ghost predicate Valid()
      reads this
    {
      SeriesOk(series) && OrderOk(order, predictions) && TalliesOk(predictions)
    }

    constructor (title: Option<string>, now: real)
      ensures Valid()
      ensures this.title == title
      ensures series == map[] && predictions == map[] && order == []
      ensures startTime == now && lastPrintedAt == now
    {
      this.title := title;
      series := map[];
      predictions := map[];
      order := [];
      startTime := now;
      lastPrintedAt := now;
    }

    /** `collect(name, value)`. */
    method Collect(name: string, value: Input, now: real)
      requires Valid()
      modifies this
      ensures Valid()
      ensures series == Appended(old(series), name, ConvertToScalar(value))
      ensures startTime == if old(series) == map[] then now else old(startTime)
      ensures predictions == old(predictions) && order == old(order)
      ensures lastPrintedAt == old(lastPrintedAt)
    {
      if series == map[] {
        startTime := now;
      }
      if name !in series {
        series := series[name := []];
      }
      AppendedInPlace(old(series), name, ConvertToScalar(value));
      series := series[name := series[name] + [ConvertToScalar(value)]];
    }

    /** `collect_prediction(name, logits, ground_truth)`, for two score
        matrices with the same number of rows and at least one column. */
    method CollectPrediction(name: string, logits: seq<seq<real>>, truth: seq<seq<real>>)
      requires Valid()
      requires |logits| == |truth| && Rows(logits) && Rows(truth)
      modifies this
      ensures Valid()
      ensures predictions == Tallied(old(predictions), name, MatchCount(logits, truth), |truth|)
      ensures order == if name in old(predictions) then old(order) else old(order) + [name]
      ensures series == old(series) && startTime == old(startTime)
      ensures lastPrintedAt == old(lastPrintedAt)
    {
      if name !in predictions {
        OrderGrows(order, predictions, name, Tally(0, 0));
        predictions := predictions[name := Tally(0, 0)];
        order := order + [name];
      }
      var correct := MatchCount(logits, truth);
      var t := predictions[name];
      OrderKeeps(order, predictions, name, Tally(t.correct + correct, t.total + |truth|));
      TalliedInPlace(old(predictions), name, correct, |truth|);
      predictions := predictions[name := Tally(t.correct + correct, t.total + |truth|)];
    }

    /** The numerator of `get_rate`: the longest series NAME, since iterating
        the dict yields its keys; `max([])` raises on an empty recorder. */
    method RateNumerator() returns (r: Result<nat>)
      ensures series == map[] ==> r == Err(EmptyMax)
      ensures series != map[] ==> r.Ok?
      ensures r.Ok? ==> (forall k {:trigger k in series} :: k in series ==> |k| <= r.value)
                        && exists k {:trigger k in series} :: k in series && |k| == r.value
    {
      var rest := series.Keys;
      var best: nat := 0;
      var seen := false;
      while rest != {}
        invariant rest <= series.Keys
        invariant seen <==> rest != series.Keys
        invariant forall k {:trigger k in series} :: k in series && k !in rest ==> |k| <= best
        invariant seen ==> exists k {:trigger k in series} :: k in series && k !in rest && |k| == best
        decreases rest
      {
        var k :| k in rest;
        if !seen || |k| > best {
          best := |k|;
        }
        seen := true;
        rest := rest - {k};
      }
      if !seen {
        return Err(EmptyMax);
      }
      return Ok(best);
    }

    /** `format_all()`: the report lines, or the exception it raises. The
        write of the text to `.last_summary.log` is not modelled. */
    method FormatAll(now: real, stamp: string) returns (r: Result<seq<Line>>)
      requires Valid()
      ensures r == Report(title, series, order, predictions, now - startTime, stamp)
    {
      var longest := RateNumerator();
      r := Format(title, series, order, predictions, now - startTime, stamp, longest);
    }

    /** `print_every(n_sec=4)`: print the report when strictly more than
        `nSec` seconds have passed since the last print. When the report
        raises, the exception escapes before the stamp is updated. */
    method PrintEvery(now: real, stamp: string, nSec: real := 4.0) returns (out: Emit)
      requires Valid()
      modifies this`lastPrintedAt
      ensures Valid()
      ensures !Due(now, old(lastPrintedAt), nSec) ==> out == Silent && lastPrintedAt == old(lastPrintedAt)
      ensures Due(now, old(lastPrintedAt), nSec) ==>
                var report := old(Report(title, series, order, predictions, now - startTime, stamp));
                && (report.Ok? ==> out == Printed(report.value) && lastPrintedAt == now)
                && (report.Err? ==> out == Raised(report.error) && lastPrintedAt == old(lastPrintedAt))
    {
      if now - lastPrintedAt > nSec {
        var text := FormatAll(now, stamp);
        if text.Ok? {
          out := Printed(text.value);
          lastPrintedAt := now;
        } else {
          out := Raised(text.error);
        }
      } else {
        out := Silent;
      }
    }
  }

  /** The body of `format_all` once `get_rate` has produced its numerator
      (or raised): checks the elapsed time, then builds the front lines and
      the sections. */
  method Format(title: Option<string>, series: map<string, seq<real>>, order: seq<string>,
                predictions: map<string, Tally>, elapsed: real, stamp: string, longest: Result<nat>)
    returns (r: Result<seq<Line>>)
    requires SeriesOk(series) && OrderOk(order, predictions)
    requires series == map[] ==> longest == Err(EmptyMax)
    requires series != map[] ==> longest.Ok?
    requires longest.Ok? ==> (forall k {:trigger k in series} :: k in series ==> |k| <= longest.value)
                              && exists k {:trigger k in series} :: k in series && |k| == longest.value
    ensures r == Report(title, series, order, predictions, elapsed, stamp)
  {
    if longest.Err? {
      return Err(longest.error);
    }
    if elapsed == 0.0 {
      return Err(ZeroDivision);
    }
    var lines := [Blank];
    if Truthy(title) {
      lines := lines + [TitleLine(title.value)];
    }
    lines := lines + [Collected(elapsed, stamp)];
    lines := lines + [MaxRate(longest.value, elapsed), ColumnHeader];
    var names := SortNames(series.Keys);
    SortedKeysIn(series);
    r := AddSections(lines, names, series, order, predictions);
    ReportSections(title, series, order, predictions, elapsed, stamp, longest.value, lines, names);
  }

  /** A report that gets past the rate line is its sections after the front
      lines, with the rate numerator given by its defining property rather
      than by `Longest`. */
  lemma ReportSections(title: Option<string>, series: map<string, seq<real>>, order: seq<string>,
                       predictions: map<string, Tally>, elapsed: real, stamp: string, longest: nat, front: seq<Line>, names: seq<string>)
    requires SeriesOk(series) && OrderOk(order, predictions)
    requires elapsed != 0.0
    requires forall k {:trigger k in series} :: k in series ==> |k| <= longest
    requires exists k {:trigger k in series} :: k in series && |k| == longest
    requires front == Front(title, elapsed, stamp, longest)
    requires names == SortedKeys(series.Keys)
    ensures forall i :: 0 <= i < |names| ==> names[i] in series
    ensures Report(title, series, order, predictions, elapsed, stamp)
            == Sections(front, names, series, order, predictions)
  {
    LongestOfKeys(series.Keys, longest);
  }

  /** Every sorted name is a key. */
  lemma SortedKeysIn(series: map<string, seq<real>>)
    ensures forall i :: 0 <= i < |SortedKeys(series.Keys)| ==> SortedKeys(series.Keys)[i] in series
  {
  }

  /** Any value that bounds every name length and is reached by one name is
      the `Longest` of the sorted names. */
  lemma LongestOfKeys(keys: set<string>, longest: nat)
    requires forall k {:trigger k in keys} :: k in keys ==> |k| <= longest
    requires exists k {:trigger k in keys} :: k in keys && |k| == longest
    ensures Longest(SortedKeys(keys)) == longest
  {
    var k :| k in keys && |k| == longest;
    var names := SortedKeys(keys);
    var m := Longest(names);
    var j :| 0 <= j < |names| && |names[j]| == m;
    assert k in names && names[j] in keys;
  }

  /** The second half of `format_all`: the series rows in the order of
      `names`, the `Predictions:` header when there is a prediction series,
      the prediction rows in insertion order and the trailing line. */
  method AddSections(lines: seq<Line>, names: seq<string>, series: map<string, seq<real>>,
                     order: seq<string>, predictions: map<string, Tally>)
    returns (r: Result<seq<Line>>)
    requires SeriesOk(series) && forall i :: 0 <= i < |names| ==> names[i] in series
    requires OrderOk(order, predictions)
    ensures r == Sections(lines, names, series, order, predictions)
  {
    var out := AddSeriesRows(lines, names, series);
    OrderEmpty(order, predictions);
    if predictions != map[] {
      out := out + [PredictionsHeader];
    }
    var rows := PredictionRowsOf(order, predictions);
    if rows.Err? {
      return Err(rows.error);
    }
    return Ok(out + rows.value + [Trailer]);
  }

  /** `if self.predictions:` tests the same thing as a non-empty `order`. */
  lemma OrderEmpty(order: seq<string>, predictions: map<string, Tally>)
    requires OrderOk(order, predictions)
    ensures predictions == map[] <==> order == []
  {
    if predictions != map[] {
      var k :| k in predictions;
    }
  }

  /** The `for name in sorted(self.series)` loop of `format_all`: appends one
      row per name, in the order given. */
  method AddSeriesRows(lines: seq<Line>, names: seq<string>, series: map<string, seq<real>>)
    returns (out: seq<Line>)
    requires SeriesOk(series) && forall i :: 0 <= i < |names| ==> names[i] in series
    ensures out == lines + SeriesRows(names, series)
  {
    out := lines;
    for i := 0 to |names|
      invariant out == lines + SeriesRows(names[..i], series)
    {
      assert names[..i + 1][..i] == names[..i];
      out := out + [SeriesLine(names[i], series[names[i]])];
    }
    assert names[..|names|] == names;
  }

  /** The `for name, pred in self.predictions.items()` loop of `format_all`:
      the rows in insertion order, or the division by zero of the first
      series whose total is 0. */
  method PredictionRowsOf(order: seq<string>, predictions: map<string, Tally>)
    returns (r: Result<seq<Line>>)
    requires forall i :: 0 <= i < |order| ==> order[i] in predictions
    ensures r == PredictionRows(order, predictions)
  {
    var rows := [];
    for i := 0 to |order|
      invariant PredictionRows(order[..i], predictions) == Ok(rows)
    {
      assert order[..i + 1][..i] == order[..i];
      var t := predictions[order[i]];
      if t.total == 0 {
        PrefixFailure(order, predictions, i + 1);
        return Err(ZeroDivision);
      }
      rows := rows + [PredictionLine(order[i], t)];
    }
    assert order[..|order|] == order;
    return Ok(rows);
  }

  /** The prediction rows fail exactly when some listed series has a zero
      total, and never otherwise. */
  lemma {:induction false} PredictionRowsFailure(order: seq<string>, predictions: map<string, Tally>)
    requires forall i :: 0 <= i < |order| ==> order[i] in predictions
    ensures PredictionRows(order, predictions).Err? <==>
              exists i :: 0 <= i < |order| && predictions[order[i]].total == 0
  {
    if order != [] {
      var n := |order| - 1;
      PredictionRowsFailure(order[..n], predictions);
      assert forall i :: 0 <= i < n ==> order[..n][i] == order[i];
    }
  }

  /** A failing prefix makes the whole list fail. */
  lemma PrefixFailure(order: seq<string>, predictions: map<string, Tally>, n: nat)
    requires forall i :: 0 <= i < |order| ==> order[i] in predictions
    requires n <= |order|
    requires PredictionRows(order[..n], predictions).Err?
    ensures PredictionRows(order, predictions).Err?
  {
    PredictionRowsFailure(order[..n], predictions);
    PredictionRowsFailure(order, predictions);
    var i :| 0 <= i < n && predictions[order[..n][i]].total == 0;
    assert order[..n][i] == order[i];
  }

  /** Row `j` of the series section is the row of the `j`-th name. */
  lemma {:induction false} SeriesRowsAt(names: seq<string>, series: map<string, seq<real>>, j: nat)
    requires SeriesOk(series) && forall i :: 0 <= i < |names| ==> names[i] in series
    requires j < |names|
    ensures SeriesRows(names, series)[j] == SeriesLine(names[j], series[names[j]])
  {
    var n := |names| - 1;
    if j < n {
      SeriesRowsAt(names[..n], series, j);
    }
  }

  /** Row `j` of a successful prediction section is the row of the `j`-th
      series in insertion order, whose total is therefore positive. */
  lemma {:induction false} PredictionRowsAt(order: seq<string>, predictions: map<string, Tally>, j: nat)
    requires forall i :: 0 <= i < |order| ==> order[i] in predictions
    requires PredictionRows(order, predictions).Ok? && j < |order|
    ensures predictions[order[j]].total > 0
    ensures PredictionRows(order, predictions).value[j] == PredictionLine(order[j], predictions[order[j]])
  {
    var n := |order| - 1;
    if j < n {
      PredictionRowsAt(order[..n], predictions, j);
    }
  }

  /** The report fails exactly when the recorder holds no series (the
      `max([])` of `get_rate`), when no time has elapsed, or when some
      prediction series has a zero total; the empty recorder is the only
      cause of `EmptyMax`. */
  lemma ReportFailure(title: Option<string>, series: map<string, seq<real>>, order: seq<string>,
                      predictions: map<string, Tally>, elapsed: real, stamp: string)
    requires SeriesOk(series) && OrderOk(order, predictions)
    ensures Report(title, series, order, predictions, elapsed, stamp).Err? <==>
              || series == map[]
              || elapsed == 0.0
              || exists i :: 0 <= i < |order| && predictions[order[i]].total == 0
    ensures Report(title, series, order, predictions, elapsed, stamp) == Err(EmptyMax) <==> series == map[]
  {
    PredictionRowsFailure(order, predictions);
  }

  /** A successful report is its front lines, the series rows of the sorted
      names and the prediction section. */
  lemma ReportOk(title: Option<string>, series: map<string, seq<real>>, order: seq<string>,
                 predictions: map<string, Tally>, elapsed: real, stamp: string)
    requires SeriesOk(series) && OrderOk(order, predictions)
    requires Report(title, series, order, predictions, elapsed, stamp).Ok?
    ensures series != map[] && PredictionRows(order, predictions).Ok?
    ensures var names := SortedKeys(series.Keys);
            Report(title, series, order, predictions, elapsed, stamp).value
            == WithPredictions(Front(title, elapsed, stamp, Longest(names)) + SeriesRows(names, series),
                               order, PredictionRows(order, predictions).value)
  {
  }

  /** Where each line of the front sits. */
  lemma FrontShape(title: Option<string>, elapsed: real, stamp: string, longest: nat)
    ensures var f := Front(title, elapsed, stamp, longest);
            var h := if Truthy(title) then 2 else 1;
            && |f| == h + 3
            && f[0] == Blank
            && (Truthy(title) ==> f[1] == TitleLine(title.value))
            && f[h] == Collected(elapsed, stamp)
            && f[h + 1] == MaxRate(longest, elapsed)
            && f[h + 2] == ColumnHeader
  {
  }

  /** Where `body`, the header, the rows and the trailing line sit. */
  lemma WithPredictionsShape(body: seq<Line>, order: seq<string>, rows: seq<Line>)
    ensures var w := WithPredictions(body, order, rows);
            var q := if order == [] then |body| else |body| + 1;
            && |w| == q + |rows| + 1
            && (forall i :: 0 <= i < |body| ==> w[i] == body[i])
            && (order != [] ==> w[|body|] == PredictionsHeader)
            && (forall j :: 0 <= j < |rows| ==> w[q + j] == rows[j])
            && w[|w| - 1] == Trailer
  {
  }

  /** The report opens with an empty line, then the title when it is truthy,
      then the elapsed-time line, the rate line (whose numerator is the
      length of the longest series name) and the column header. */
  lemma ReportHeading(title: Option<string>, series: map<string, seq<real>>, order: seq<string>,
                      predictions: map<string, Tally>, elapsed: real, stamp: string,
                      lines: seq<Line>)
    requires SeriesOk(series) && OrderOk(order, predictions)
    requires Report(title, series, order, predictions, elapsed, stamp) == Ok(lines)
    ensures var h := if Truthy(title) then 2 else 1;
            && |lines| > h + 2
            && lines[0] == Blank
            && (Truthy(title) ==> lines[1] == TitleLine(title.value))
            && lines[h] == Collected(elapsed, stamp)
            && lines[h + 1].MaxRate? && lines[h + 1].elapsed == elapsed
            && (forall k {:trigger k in series} :: k in series ==> |k| <= lines[h + 1].longest)
            && (exists k {:trigger k in series} :: k in series && |k| == lines[h + 1].longest)
            && lines[h + 2] == ColumnHeader
  {
    ReportOk(title, series, order, predictions, elapsed, stamp);
    var names := SortedKeys(series.Keys);
    var m := Longest(names);
    var front := Front(title, elapsed, stamp, m);
    var body := front + SeriesRows(names, series);
    FrontShape(title, elapsed, stamp, m);
    WithPredictionsShape(body, order, PredictionRows(order, predictions).value);
    assert L: lines == WithPredictions(body, order, PredictionRows(order, predictions).value);
    assert forall i :: 0 <= i < |front| ==> lines[i] == front[i];
    var j :| 0 <= j < |names| && |names[j]| == m;
    assert names[j] in series;
    forall k {:trigger k in series} | k in series ensures |k| <= m {
      assert k in names;
      var i :| 0 <= i < |names| && names[i] == k;
    }
  }

  /** In any report layout, the series rows sit right after the front
      lines, one per name, in the order of `names`. */
  lemma SeriesLayout(front: seq<Line>, names: seq<string>, series: map<string, seq<real>>,
                     order: seq<string>, rows: seq<Line>, o: nat, lines: seq<Line>)
    requires SeriesOk(series) && forall i :: 0 <= i < |names| ==> names[i] in series
    requires |front| == o
    requires lines == WithPredictions(front + SeriesRows(names, series), order, rows)
    ensures |lines| > o + |names|
    ensures forall j :: 0 <= j < |names| ==> lines[o + j] == SeriesLine(names[j], series[names[j]])
  {
    var body := front + SeriesRows(names, series);
    WithPredictionsShape(body, order, rows);
    forall j | 0 <= j < |names|
      ensures lines[o + j] == SeriesLine(names[j], series[names[j]])
    {
      SeriesRowsAt(names, series, j);
      assert lines[o + j] == body[o + j];
    }
  }

  /** Neither the front lines nor the series rows are the `Predictions:`
      header. */
  lemma NoHeaderInBody(title: Option<string>, elapsed: real, stamp: string, longest: nat,
                       names: seq<string>, series: map<string, seq<real>>)
    requires SeriesOk(series) && forall i :: 0 <= i < |names| ==> names[i] in series
    ensures PredictionsHeader !in Front(title, elapsed, stamp, longest) + SeriesRows(names, series)
  {
    var front := Front(title, elapsed, stamp, longest);
    var body := front + SeriesRows(names, series);
    FrontShape(title, elapsed, stamp, longest);
    forall i | 0 <= i < |body| ensures body[i] != PredictionsHeader {
      if i >= |front| {
        SeriesRowsAt(names, series, i - |front|);
      }
    }
  }

  /** In any report layout, the prediction section follows `body`: the
      header when there is a series, one row per series of `order`, then the
      trailing line. */
  lemma PredictionLayout(body: seq<Line>, order: seq<string>, predictions: map<string, Tally>,
                         rows: seq<Line>, p: nat, q: nat, lines: seq<Line>)
    requires forall i :: 0 <= i < |order| ==> order[i] in predictions
    requires PredictionRows(order, predictions) == Ok(rows)
    requires |body| == p
    requires q == if order == [] then p else p + 1
    requires lines == WithPredictions(body, order, rows)
    ensures order != [] ==> lines[p] == PredictionsHeader
    ensures order == [] ==> lines == body + [Trailer]
    ensures |lines| == q + |order| + 1
    ensures lines[|lines| - 1] == Trailer
    ensures forall j :: 0 <= j < |order| ==>
              predictions[order[j]].total > 0 && lines[q + j] == PredictionLine(order[j], predictions[order[j]])
  {
    WithPredictionsShape(body, order, rows);
    forall j | 0 <= j < |order|
      ensures predictions[order[j]].total > 0 && lines[q + j] == PredictionLine(order[j], predictions[order[j]])
    {
      PredictionRowsAt(order, predictions, j);
      assert lines[q + j] == rows[j];
    }
  }

  /** The series rows follow the column header, one per series, in strictly
      ascending name order; each carries the shortened name, the mean of all
      values and the mean of the last `min(10, n)` values. */
  lemma ReportSeriesSection(title: Option<string>, series: map<string, seq<real>>, order: seq<string>,
                            predictions: map<string, Tally>, elapsed: real, stamp: string,
                            lines: seq<Line>, names: seq<string>, o: nat)
    requires SeriesOk(series) && OrderOk(order, predictions)
    requires Report(title, series, order, predictions, elapsed, stamp) == Ok(lines)
    requires names == SortedKeys(series.Keys)
    requires o == |Heading(title)| + 3
    ensures |names| == |series|
    ensures forall k :: k in series <==> k in names
    ensures forall a, b :: 0 <= a < b < |names| ==> Less(names[a], names[b])
    ensures |lines| > o + |names|
    ensures forall j :: 0 <= j < |names| ==> lines[o + j] == SeriesLine(names[j], series[names[j]])
  {
    ReportOk(title, series, order, predictions, elapsed, stamp);
    var rows := PredictionRows(order, predictions).value;
    assert lines == WithPredictions(Front(title, elapsed, stamp, Longest(names)) + SeriesRows(names, series), order, rows);
    SeriesSection(title, elapsed, stamp, Longest(names), names, series, order, rows, o, lines);
  }

  /** `SeriesLayout` with the front written out: the series rows start
      right after the column header. */
  lemma SeriesSection(title: Option<string>, elapsed: real, stamp: string, longest: nat, names: seq<string>,
                      series: map<string, seq<real>>, order: seq<string>, rows: seq<Line>, o: nat, lines: seq<Line>)
    requires SeriesOk(series) && forall i :: 0 <= i < |names| ==> names[i] in series
    requires o == |Heading(title)| + 3
    requires lines == WithPredictions(Front(title, elapsed, stamp, longest) + SeriesRows(names, series), order, rows)
    ensures |lines| > o + |names|
    ensures forall j :: 0 <= j < |names| ==> lines[o + j] == SeriesLine(names[j], series[names[j]])
  {
    FrontShape(title, elapsed, stamp, longest);
    SeriesLayout(Front(title, elapsed, stamp, longest), names, series, order, rows, o, lines);
  }

  /** After the series rows (which start at `p`): the `Predictions:`
      header when there is a prediction series, then one row per series in
      insertion order, each with a positive total, then the trailing line. */
  lemma ReportPredictionSection(title: Option<string>, series: map<string, seq<real>>, order: seq<string>,
                                predictions: map<string, Tally>, elapsed: real, stamp: string,
                                lines: seq<Line>, p: nat, q: nat)
    requires SeriesOk(series) && OrderOk(order, predictions)
    requires Report(title, series, order, predictions, elapsed, stamp) == Ok(lines)
    requires p == |Heading(title)| + 3 + |series|
    requires q == if order == [] then p else p + 1
    ensures order != [] ==> lines[p] == PredictionsHeader
    ensures |lines| == q + |order| + 1
    ensures lines[|lines| - 1] == Trailer
    ensures forall j :: 0 <= j < |order| ==>
              predictions[order[j]].total > 0 && lines[q + j] == PredictionLine(order[j], predictions[order[j]])
  {
    ReportOk(title, series, order, predictions, elapsed, stamp);
    var names := SortedKeys(series.Keys);
    assert |names| == |series|;
    var rows := PredictionRows(order, predictions).value;
    assert lines == WithPredictions(Front(title, elapsed, stamp, Longest(names)) + SeriesRows(names, series), order, rows);
    PredictionSection(title, elapsed, stamp, Longest(names), names, series, order, predictions, rows, p, q, lines);
  }

  /** `PredictionLayout` with the front written out: the prediction section
      starts right after the last series row. */
  lemma PredictionSection(title: Option<string>, elapsed: real, stamp: string, longest: nat, names: seq<string>,
                          series: map<string, seq<real>>, order: seq<string>, predictions: map<string, Tally>,
                          rows: seq<Line>, p: nat, q: nat, lines: seq<Line>)
    requires SeriesOk(series) && forall i :: 0 <= i < |names| ==> names[i] in series
    requires forall i :: 0 <= i < |order| ==> order[i] in predictions
    requires PredictionRows(order, predictions) == Ok(rows)
    requires p == |Heading(title)| + 3 + |names|
    requires q == if order == [] then p else p + 1
    requires lines == WithPredictions(Front(title, elapsed, stamp, longest) + SeriesRows(names, series), order, rows)
    ensures order != [] ==> lines[p] == PredictionsHeader
    ensures |lines| == q + |order| + 1
    ensures lines[|lines| - 1] == Trailer
    ensures forall j :: 0 <= j < |order| ==>
              predictions[order[j]].total > 0 && lines[q + j] == PredictionLine(order[j], predictions[order[j]])
  {
    FrontShape(title, elapsed, stamp, longest);
    PredictionLayout(Front(title, elapsed, stamp, longest) + SeriesRows(names, series), order, predictions,
                     rows, p, q, lines);
  }

  /** The `Predictions:` header appears in the report exactly when some
      prediction series was collected. */
  lemma ReportPredictionsHeader(title: Option<string>, series: map<string, seq<real>>, order: seq<string>,
                                predictions: map<string, Tally>, elapsed: real, stamp: string,
                                lines: seq<Line>)
    requires SeriesOk(series) && OrderOk(order, predictions)
    requires Report(title, series, order, predictions, elapsed, stamp) == Ok(lines)
    ensures PredictionsHeader in lines <==> predictions != map[]
  {
    ReportOk(title, series, order, predictions, elapsed, stamp);
    OrderEmpty(order, predictions);
    var names := SortedKeys(series.Keys);
    var body := Front(title, elapsed, stamp, Longest(names)) + SeriesRows(names, series);
    PredictionLayout(body, order, predictions, PredictionRows(order, predictions).value,
                     |body|, if order == [] then |body| else |body| + 1, lines);
    if order == [] {
      NoHeaderInBody(title, elapsed, stamp, Longest(names), names, series);
      assert lines == body + [Trailer];
    } else {
      assert lines[|body|] == PredictionsHeader;
    }
  }

  /** Accuracy `100 * correct / total` lies in [0, 100] for counters that
      keep `correct <= total`, and is 100 exactly when every row matched. */
  lemma AccuracyBounds(name: string, t: Tally)
    requires 0 < t.total && t.correct <= t.total
    ensures 0.0 <= PredictionLine(name, t).accuracy <= 100.0
    ensures PredictionLine(name, t).accuracy == 100.0 <==> t.correct == t.total
  {
    var c, n := t.correct as real, t.total as real;
    assert 100.0 * c / n * n == 100.0 * c;
  }

  /** The series map after `collect(name, x)` for each `x` of `xs` in turn. */
  function CollectAll(series: map<string, seq<real>>, name: string, xs: seq<Input>): (r: map<string, seq<real>>)
    decreases |xs|
  {
    if xs == [] then series
    else
      var n := |xs| - 1;
      Appended(CollectAll(series, name, xs[..n]), name, ConvertToScalar(xs[n]))
  }

  /** The converted values, in collection order. */
  function Converted(xs: seq<Input>): (r: seq<real>)
    ensures |r| == |xs|
    ensures forall i :: 0 <= i < |r| ==> r[i] == ConvertToScalar(xs[i])
  {
    if xs == [] then [] else Converted(xs[..|xs| - 1]) + [ConvertToScalar(xs[|xs| - 1])]
  }

  /** A run of collects under one name appends the converted values, in
      order, to that series (created if absent), and touches no other. */
  lemma {:induction false} CollectAllSeries(series: map<string, seq<real>>, name: string, xs: seq<Input>)
    requires xs != []
    ensures var r := CollectAll(series, name, xs);
            && r.Keys == series.Keys + {name}
            && (forall k :: k in series && k != name ==> r[k] == series[k])
            && r[name] == (if name in series then series[name] else []) + Converted(xs)
    decreases |xs|
  {
    var n := |xs| - 1;
    var x := ConvertToScalar(xs[n]);
    var prev := if name in series then series[name] else [];
    if n > 0 {
      CollectAllSeries(series, name, xs[..n]);
      assert (prev + Converted(xs[..n])) + [x] == prev + (Converted(xs[..n]) + [x]);
    } else {
      assert xs[..n] == [];
      assert Converted(xs) == [x];
    }
  }

  /** `collect("loss", 0.5)` then `collect("loss", 1.5)` stores [0.5, 1.5],
      whose mean is 1.0; an unconvertible value is stored as 0. */
  lemma CollectScenario()
    ensures CollectAll(map[], "loss", [Number(0.5), Number(1.5)]) == map["loss" := [0.5, 1.5]]
    ensures Mean([0.5, 1.5]) == 1.0
    ensures CollectAll(map[], "loss", [Other]) == map["loss" := [0.0]]
  {
    var xs := [Number(0.5), Number(1.5)];
    CollectAllSeries(map[], "loss", xs);
    assert Converted(xs) == [0.5, 1.5];
    CollectAllSeries(map[], "loss", [Other]);
    assert Converted([Other]) == [0.0];
  }

  /** Two rows predicted `[0.1, 0.9]`, `[0.8, 0.2]` against truth `[0, 1]`,
      `[1, 0]` both match: 2 of 2, an accuracy of 100. */
  lemma PredictionScenario()
    ensures Rows([[0.1, 0.9], [0.8, 0.2]]) && Rows([[0.0, 1.0], [1.0, 0.0]])
    ensures MatchCount([[0.1, 0.9], [0.8, 0.2]], [[0.0, 1.0], [1.0, 0.0]]) == 2
    ensures Tallied(map[], "acc", 2, 2) == map["acc" := Tally(2, 2)]
    ensures PredictionLine("acc", Tally(2, 2)).accuracy == 100.0
  {
  }

  /** Two `print_every` calls at most `nSec` seconds apart print at most
      once: after a print at `t1`, the call at `t2` stays silent and the
      stamp stays at `t1`; a print at `t2` means the first call did not
      print. */
  method PrintTwice(ts: TimeSeries, t1: real, s1: string, t2: real, s2: string, nSec: real)
    returns (first: Emit, second: Emit)
    requires ts.Valid()
    requires t2 - t1 <= nSec
    modifies ts
    ensures ts.Valid()
    ensures first.Printed? ==> second == Silent && ts.lastPrintedAt == t1
    ensures second.Printed? ==> !first.Printed? && ts.lastPrintedAt == t2
  {
    first := ts.PrintEvery(t1, s1, nSec);
    second := ts.PrintEvery(t2, s2, nSec);
  }
}
