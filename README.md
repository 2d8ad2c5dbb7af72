# TimeSeries recorder — Dafny model

`src/series.py` defines a small logging aid for training loops:

- `TimeSeries` stores named series of scalars and per-name prediction counters (`correct`/`total`).
- It renders a text report. The report has:
  - a leading empty line and an optional title;
  - the elapsed time, with a timestamp;
  - a "Max Rate" line;
  - one row per series, in sorted name order, with the mean and the mean of the last ten values;
  - a `Predictions:` section, in insertion order, with accuracy percentages;
  - a trailing line.
- `print_every` prints that report at most once every `n_sec` seconds.
- The free functions `convert_to_scalar` (a permissive float conversion) and `shorten` (middle ellipsis for long names) serve the class.

The model has four modules:

- `Helpers` (`helpers.dfy`): `convert_to_scalar` and `shorten`, with their constants 27, 20, 9 and `"..."`.
- `Stats` (`stats.dfy`): the numeric steps borrowed from numpy and torch:
  - the mean, and the window of the last ten values;
  - the row-wise argmax, with a first-maximum tie-break;
  - the number of rows on which two score matrices agree.
- `Names` (`names.dfy`):
  - Python's ordering of `str`, by code point with a proper prefix first;
  - `sorted()` of the key set, as an insertion sort proved equal to the unique ascending sequence of the keys.
- `Series` (`timeseries.dfy`):
  - the class `TimeSeries`, whose methods update its fields in place;
  - the ghost function `Report`, which states the line list that `format_all` builds or the exception it raises;
  - the lemmas that pin down where each line of a successful report sits.

Dict insertion order of `predictions` is kept in the field `order`. The predicate `OrderOk` keeps it in step with the map's keys.

How the environment becomes parameters and data:

- Clock:
  - in the model, each call takes one clock value: the constructor, `Collect`, `FormatAll` and `PrintEvery` take a `now` parameter;
  - `whattimeisit()` becomes the `stamp` parameter.
- Report lines: they are the datatype `Line`. `Collected` holds the elapsed time; `MaxRate` holds the numerator and the elapsed time whose quotient the source formats; `SeriesRow` holds the two means; `PredictionRow` holds the accuracy and the two counters.
- Exceptions: the `Error` datatype holds the exceptions `format_all` can raise:
  - `EmptyMax` is `max([])` on an empty recorder;
  - `ZeroDivision` is no elapsed time, or a prediction series with `total == 0`.
- `print_every`: when the report raises inside it, the exception escapes before `last_printed_at` is updated. `PrintEvery` returns `Raised` and keeps the old value.

Two details of the code that the model keeps:

- `get_rate`'s numerator is the length of the longest series **name**, not of the longest series, because iterating a dict yields its keys. `RateNumerator`, `Longest` and the `MaxRate` line follow it.
- The report starts with an empty line before the title, and its last element is `'\n'`. That element is modelled as the line `Trailer`.

## Model

| member | source | states |
|---|---|---|
| Helpers.ConvertToScalar | src/series.py:78-87 | A convertible value gives its numeric value; anything else gives 0; no input of this `Number`/`Other` domain raises |
| Helpers.Shorten | src/series.py:89-92 | Defined as: a name longer than 27 characters becomes its first 20 characters, `"..."` and its last 9; any other name is returned as is; `maxlen` is not read |
| Helpers.ShortenShape | src/series.py:89-92 | A name of at most 27 characters is returned unchanged; a longer one becomes exactly its first 20 characters, `"..."` and its last 9 (32 characters) |
| Helpers.ShortenLength | src/series.py:89-92 | No shortened result is 28 to 31 characters long |
| Helpers.ShortenIdempotent | src/series.py:89-92 | Shortening an already shortened name changes nothing |
| Helpers.ShortenIgnoresMaxlen | src/series.py:89 | The `maxlen` argument never affects the result |
| Stats.Mean | src/series.py:49-52 | Defined as the sum of the values divided by their number (`np.array(values).mean()` over the reals) |
| Stats.Recent | src/series.py:52 | Defined as the whole series when it has at most 10 values, otherwise its last 10 |
| Stats.RecentSuffix | src/series.py:52 | `values[-10:]` holds `min(10, n)` values, the last ones in order, and the whole series when it has at most 10 |
| Stats.MeanBetween | src/series.py:51-52 | The mean of a non-empty series lies within any bounds of its values |
| Stats.MeanConstant | src/series.py:51-52 | A constant series has that constant as its mean and as its last-10 mean |
| Stats.ArgMax | src/series.py:28-29 | The index returned holds the largest score, and every earlier index holds a strictly smaller one |
| Stats.ArgMaxUnique | src/series.py:28-29 | Those two conditions determine the argmax uniquely |
| Stats.MatchCount | src/series.py:28-30 | The number of matching rows is at most the number of rows |
| Stats.MatchCountAll | src/series.py:28-30 | Every row is counted exactly when every row's argmaxes agree |
| Stats.MatchCountNone | src/series.py:28-30 | The count is 0 exactly when no row's argmaxes agree |
| Stats.MatchCountAppend | src/series.py:28-32 | Counting a batch split in two gives the sum of the two counts, so accumulating per batch equals counting all rows at once |
| Names.Less | src/series.py:48 | Defined as Python's `<` on `str`: the first differing character decides by code point, and a proper prefix sorts first |
| Names.LessIrreflexive | src/series.py:48 | No name sorts before itself |
| Names.LessAsymmetric | src/series.py:48 | Two names never sort before each other |
| Names.LessTransitive | src/series.py:48 | The string order is transitive |
| Names.LessTotal | src/series.py:48 | Any two distinct names are ordered one way or the other |
| Names.Insert | src/series.py:48 | Inserting a new name into a strictly ascending list keeps it strictly ascending, adds one element and adds exactly that name |
| Names.SortedKeys | src/series.py:48 | `sorted(keys)` is strictly ascending, has one entry per key and holds exactly the keys |
| Names.SortedUnique | src/series.py:48 | Two strictly ascending lists with the same elements are equal, so `sorted()` has one possible result |
| Names.SortNames | src/series.py:48 | The insertion sort over the key set returns `sorted(keys)` |
| Series.TimeSeries.constructor | src/series.py:11-16 | A new recorder has no series and no counters, its title as given, and both clocks set to the creation time |
| Series.TimeSeries.Collect | src/series.py:18-23 | The converted value is appended to the named series (created if absent); the start time resets only when the recorder held no series; nothing else changes |
| Series.Appended | src/series.py:21-23 | Appending adds the name to the keys, extends that series by exactly the value and leaves every other series unchanged |
| Series.AppendedInPlace | src/series.py:21-23 | Creating the series empty when absent and then appending gives `Appended` |
| Series.CollectAllSeries | src/series.py:18-23 | A run of collects under one name appends the converted values, in order, to that series and to no other |
| Series.Converted | src/series.py:23 | The stored values are the conversions of the inputs, one for one |
| Series.CollectAll | src/series.py:18-23 | Defined as the series map after one `collect(name, x)` per element of `xs`, in order |
| Series.CollectScenario | src/series.py:18-23 | Collecting 0.5 then 1.5 stores [0.5, 1.5], whose mean is 1.0; an unconvertible value is stored as 0 |
| Series.TimeSeries.CollectPrediction | src/series.py:25-32 | The named counters grow by the match count and the row count (created at zero if absent); a new name is appended to the insertion order; series and clocks are unchanged |
| Series.Tallied | src/series.py:26-32 | The named entry gains exactly `hits` correct and `rows` total, every other entry is unchanged, and `correct <= total` is preserved |
| Series.TalliedInPlace | src/series.py:26-32 | Creating the entry at zero when absent and then adding to both counters gives `Tallied` |
| Series.OrderGrows | src/series.py:26-27 | Adding a new name at the end of the insertion order keeps it in step with the counters |
| Series.OrderKeeps | src/series.py:31-32 | Updating an existing entry keeps the insertion order in step |
| Series.OrderKeys | src/series.py:55 | The insertion order lists exactly the keys of the counters |
| Series.OrderEmpty | src/series.py:53 | `if self.predictions:` holds exactly when the insertion order is non-empty |
| Series.PredictionScenario | src/series.py:25-32 | Two rows whose argmaxes agree count 2 of 2, which gives 100 % accuracy |
| Series.TimeSeries.PrintEvery | src/series.py:34-37 | Within the window the call is silent and keeps the stamp; once due it prints the report and moves the stamp to now, or raises the report's error and keeps the stamp |
| Series.Due | src/series.py:35 | Defined as: strictly more than `n_sec` seconds have passed since the last print |
| Series.PrintTwice | src/series.py:34-37 | Of two `print_every` calls at most `n_sec` apart, at most one prints: after a print at `t1` the second call is silent and the stamp stays `t1`, and a print by the second call means the first did not print |
| Series.Report | src/series.py:39-67 | Defined as: `EmptyMax` with no series, `ZeroDivision` with no elapsed time, otherwise the front lines, the series rows of the sorted names and the prediction section, or `ZeroDivision` for a prediction series with zero total |
| Series.TimeSeries.FormatAll | src/series.py:39-64 | The result is `Report` of the current state with elapsed time `now - start_time` |
| Series.TimeSeries.RateNumerator | src/series.py:66-67 | `max(len(c) for c in series)`: `EmptyMax` on an empty recorder; otherwise a name length that no name exceeds and that some name reaches |
| Series.Longest | src/series.py:67 | The value is at least every name's length and equal to one of them |
| Series.LongestOfKeys | src/series.py:67 | Any value with that property over the keys is `Longest` of the sorted names |
| Series.Format | src/series.py:40-60 | The body of `format_all` (the empty line, the title when truthy, the elapsed-time, rate and header lines, then the sections), given the rate numerator or its exception, equals `Report` |
| Series.ReportSections | src/series.py:40-60 | Past the rate line, the report is the front lines followed by the sections |
| Series.AddSections | src/series.py:48-60 | The loops after the header give the series rows, the header when there are predictions, the prediction rows and the trailing line, or the division by zero |
| Series.SeriesLine | src/series.py:49-52 | Defined as the row of one series: the shortened name, the mean of all values and the mean of the last ten |
| Series.PredictionLine | src/series.py:56-59 | Defined as the row of one prediction series: the shortened name, `100 * correct / total` and the two counters |
| Series.AddSeriesRows | src/series.py:48-52 | The series loop appends exactly one row per name, in the given order |
| Series.SeriesRows | src/series.py:48-52 | There is one series row per name |
| Series.SeriesRowsAt | src/series.py:48-52 | Row `j` is the row of the `j`-th name |
| Series.PredictionRowsOf | src/series.py:55-59 | The prediction loop gives the rows in insertion order, or the division by zero of the first series with no rows |
| Series.PredictionRows | src/series.py:55-59 | The only possible failure is `ZeroDivision`; on success there is one row per series |
| Series.PredictionRowsAt | src/series.py:55-59 | On success, row `j` is the row of the `j`-th series in insertion order, and that series' total is positive |
| Series.PredictionRowsFailure | src/series.py:55-56 | The prediction rows fail exactly when some series has a zero total |
| Series.ReportFailure | src/series.py:39-67 | The report raises exactly when there is no series, no elapsed time or a prediction series with zero total; `EmptyMax` happens exactly when there is no series |
| Series.ReportHeading | src/series.py:40-47 | A successful report opens with the empty line, the title exactly when it is truthy, the elapsed-time line, a rate line whose numerator bounds all name lengths and is reached by one, and the column header |
| Series.ReportSeriesSection | src/series.py:48-52 | Right after the header come the series rows: one per key, in strictly ascending name order, each the shortened name with the mean and the last-10 mean of that series |
| Series.ReportPredictionSection | src/series.py:53-60 | After the series rows (one per series) come the `Predictions:` header when there are predictions, one row per series in insertion order (each with a positive total), and then the trailing line as the last line |
| Series.ReportPredictionsHeader | src/series.py:53-54 | The `Predictions:` header appears in the report exactly when some prediction series exists |
| Series.AccuracyBounds | src/series.py:56 | With `correct <= total`, the accuracy lies in [0, 100], and it is 100 exactly when every row matched |

## Left out

- Text: number formatting (`{:.3f}`, `{:.2f}`, `{:.4f}`), column padding, the `'\n'.join` of the lines and the text that `__str__` returns are not modelled. A report is its list of abstract `Line` values.
- The write of the report text to `.last_summary.log` inside `format_all` is not modelled: it is file I/O.
- `print`: `print_every` returns what it would print (`Emit`) instead of printing it.
- `write_to_file`: not modelled. It is file and stderr I/O, and its `self.series[0]` lookup raises `KeyError` for any series map keyed by names.
- The clock: `time.time()` and `whattimeisit()` are parameters. Several clock readings within one call are collapsed into one.
- Floating point: values, means, rates and accuracies are reals. NaN, infinities and rounding are not modelled.
- Helpers.ConvertToScalar: the inputs it can see are abstracted to `Number(value)` (anything `float()` accepts, after unwrapping `FloatTensor`/`Variable` by their first element) and `Other`. It returns `0.0` where the source returns the integer `0`.
- Series.TimeSeries.Collect: the series is created empty and `start_time` is reset before `convert_to_scalar` runs. An empty tensor whose unwrap raises therefore leaves an empty series behind. A later `format_all` does not raise on it: it reports a `nan` mean, and `get_rate` counts its name. `SeriesOk`, and so `Valid()`, holds only because every input of the `Number`/`Other` domain converts without raising; that leftover state is not modelled.
- Helpers.ConvertToScalar: the unwraps `x.cpu()[0]` and `x.data.cpu()[0]` run before the `try`, so on an empty tensor their `IndexError` escapes to the caller; that exception path is not modelled.
- Series.TimeSeries.CollectPrediction: requires two score matrices with the same number of rows and at least one column per row. Torch raises or broadcasts on other shapes, and that is not modelled. Ties in `max(1)` are broken toward the first index. The count is a natural number, where the source stores the float `convert_to_scalar` returns.
- Series.TimeSeries.CollectPrediction: the `0/0` entry is created before `logits.max(1)` runs, so a call that raises on its shapes leaves that entry behind. Until a batch with at least one row is collected under that name, every later report that gets past `get_rate` raises `ZeroDivision`. The raising call is not modelled, since the requires excludes those shapes; the `0/0` state itself is reachable through a zero-row batch, and its `ZeroDivision` is modelled.
- Series.TimeSeries.CollectPrediction: the builtin `sum` over the comparison tensor may have a narrow element type (uint8 in older torch) and wrap at 256; the model counts with unbounded naturals.
- Concurrency: none exists in the source, so none is modelled.
