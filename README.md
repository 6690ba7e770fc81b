# SecuML: classifier monitoring and the Cesa-Bianchi strategy wrapper, in Dafny

This project models two small pieces of SecuML's experiment layer.

- `ClassifierMonitoring` collects the results of a detection experiment, one
  cross-validation fold at a time (`secuml/exp/diadem/monitoring/classifier.py`).
  It keeps a fixed array of `num_folds` model slots, a running total of
  execution time, and a coefficient aggregator. The aggregator is created
  when the first fold reports coefficients. When the results are exported,
  each slot is written to a file: `model.out` when there is one fold, and
  `model_<i>.out` for each fold otherwise.
- The experiment-side `CesaBianchi` active-learning strategy
  (`secuml/exp/active_learning/strategies/cesa_bianchi.py`) does four things.
  It registers its query generator under the key `cesa_bianchi`. It builds
  the address of the annotation page. It puts a `binary_model` column in
  front of the core strategy's execution-time header, its row of times and
  its display series.

Files:

- `wrappers.dfy`: `Option`, which stands for Python's `None` or a value.
- `decimal.dfy`: how `%d` and `%i` render an integer, a parser that reads
  the rendering back, and the proof that the round trip loses nothing.
- `classifier_monitoring.dfy`: the class `ClassifierMonitoring`, which
  records its mutations.
  - Its `pipelines` is a fixed `array`. It has a `real` time total and an
    optional `Coefficients` field.
  - A ghost `history` logs every `set_classifier` call that was carried out.
  - `Valid()` ties each field to a function of that history. Each slot holds
    the last pipeline written to it. The total is the sum of the recorded
    times. The aggregator exists exactly when some call had coefficients. It
    was created with the configuration of the first such call (and the
    monitor's fold count), and it holds every fold that was added, in order.
  - The lemmas prove what these history functions mean: last write wins,
    totals add up, the aggregator starts empty and is created once.
  - File names for the export come from a pure plan, `ExportPlan`.
- `cesa_bianchi.dfy`: the column-prepending functions and the annotation
  address with its parser. The class `CesaBianchi` holds the `queries` table
  that `_set_queries` updates.

Inputs that the modelled code gets from collaborators are parameters here.
These are the classifier's `pipeline`, `conf` and `get_coefs()`; the core
strategy's header, row and display lists; the server's host and port; the
experiment id; the iteration number and its `b` and `batch` settings; and
the model-update time.

## Model

| member | source | states |
|---|---|---|
| `Monitoring.ClassifierMonitoring.constructor` | secuml/exp/diadem/monitoring/classifier.py:25-30 | `num_folds` slots (1 by default), all empty; total 0; no aggregator; empty history; invariant established |
| `Monitoring.ClassifierMonitoring.SetClassifier` | secuml/exp/diadem/monitoring/classifier.py:32-35 | the fold index defaults to 0; an index outside `-num_folds..num_folds-1` raises `IndexError` and changes nothing; otherwise only the indexed slot changes (negative indices count from the end, as in Python), the total grows by exactly `exec_time`, the aggregator becomes `AddFold` of the old one, and the invariant tying all state to the call history is kept |
| `Monitoring.ClassifierMonitoring.SetCoefficients` | secuml/exp/diadem/monitoring/classifier.py:37-43 | the aggregator field becomes `AddFold` of its old value; nothing else changes |
| `Monitoring.AddFold` | secuml/exp/diadem/monitoring/classifier.py:37-43 | `None` coefficients leave the aggregator untouched; present ones add exactly one `(fold_id, coefs)` entry; an existing aggregator keeps its configuration, fold count and finalized flag (it is never recreated); a new one takes the classifier's `conf` and the monitor's `num_folds` |
| `Monitoring.ClassifierMonitoring.FinalComputations` | secuml/exp/diadem/monitoring/classifier.py:45-47 | finalizes the aggregator if there is one, and does nothing otherwise; slots, total and history unchanged |
| `Monitoring.ClassifierMonitoring.Display` | secuml/exp/diadem/monitoring/classifier.py:49-52 | produces the export plan's dumps, and hands over the aggregator exactly when it exists |
| `Monitoring.ClassifierMonitoring.ExportPipelines` | secuml/exp/diadem/monitoring/classifier.py:54-60 | one dump per entry of `ExportPlan(num_folds)`, in order, each dumping the slot the plan names under the plan's file name |
| `Monitoring.ExportPlan` | secuml/exp/diadem/monitoring/classifier.py:54-60 | exactly `num_folds` files, file `k` written from slot `k`; `model.out` when `num_folds == 1`, otherwise `model_<k>.out` |
| `Monitoring.ExportPlanDistinct` | secuml/exp/diadem/monitoring/classifier.py:58-60 | no two exported files share a name |
| `Monitoring.ModelFileName` | secuml/exp/diadem/monitoring/classifier.py:60 | `'model_%i.out' % i` is `model_`, then digits that read back as `i`, then `.out` |
| `Monitoring.ModelFileNameInjective` | secuml/exp/diadem/monitoring/classifier.py:59-60 | `model_<i>.out` and `model_<j>.out` are equal only when `i == j` |
| `Monitoring.Slot` | secuml/exp/diadem/monitoring/classifier.py:33 | a Python list index in range denotes a slot below `num_folds`, equal to the index or to the index plus `num_folds` |
| `Monitoring.LastWriteConcat` | secuml/exp/diadem/monitoring/classifier.py:33 | after two runs of calls, a slot holds what the second run last wrote to it, or what the first run left there if the second run did not write it |
| `Monitoring.LastWriteWins` | secuml/exp/diadem/monitoring/classifier.py:33 | recording a fold again overwrites it: the latest write to a slot survives every later write to other slots |
| `Monitoring.LastWriteNoneIff` | secuml/exp/diadem/monitoring/classifier.py:28-33 | a slot is still empty exactly when no call has written it |
| `Monitoring.TotalTimeConcat` | secuml/exp/diadem/monitoring/classifier.py:34 | the recorded total over two runs of calls is the sum of the two runs' totals |
| `Monitoring.CoefficientLogAppend` | secuml/exp/diadem/monitoring/classifier.py:38-43 | a call adds exactly one `(fold_id, coefs)` fold entry when it has coefficients, and none otherwise |
| `Monitoring.CoefficientLogEmptyIff` | secuml/exp/diadem/monitoring/classifier.py:38-43 | the aggregator has received folds exactly when it has been created |
| `Monitoring.FirstConfAppend` | secuml/exp/diadem/monitoring/classifier.py:39-42 | an aggregator that exists keeps its creation configuration; a missing one is created by a call with coefficients and only by such a call |
| `Monitoring.FirstConfNoneIff` | secuml/exp/diadem/monitoring/classifier.py:38-42 | the aggregator is absent exactly when every call so far had `get_coefs()` return `None` |
| `Monitoring.FirstConfStable` | secuml/exp/diadem/monitoring/classifier.py:40-42 | once created, the aggregator is never recreated, whatever calls follow |
| `Decimal.NatToString` | secuml/exp/diadem/monitoring/classifier.py:60 | `%i` of a non-negative number is a non-empty string of digits without a leading zero |
| `Decimal.NatRoundTrip` | secuml/exp/diadem/monitoring/classifier.py:60 | reading the decimal rendering back gives the number |
| `Decimal.NatToStringInjective` | secuml/exp/diadem/monitoring/classifier.py:60 | distinct numbers have distinct renderings |
| `Decimal.IntToString` | secuml/exp/active_learning/strategies/cesa_bianchi.py:33 | `%d` of an integer is non-empty, has no `:` or `/`, and is all digits exactly when the integer is non-negative |
| `Decimal.IntRoundTrip` | secuml/exp/active_learning/strategies/cesa_bianchi.py:33-35 | parsing `%d` of any integer, negative ones included, gives the integer back |
| `CesaBianchiStrategy.WithCesaBianchiQueries` | secuml/exp/active_learning/strategies/cesa_bianchi.py:25-29 | the table gains the key `cesa_bianchi`, mapped to a generator built from the iteration and its `conf.b` and `conf.batch`; every other key keeps its entry and no other key appears |
| `CesaBianchiStrategy.CesaBianchi.SetQueries` | secuml/exp/active_learning/strategies/cesa_bianchi.py:25-29 | the `queries` field becomes `WithCesaBianchiQueries` of its old value and the strategy's iteration |
| `CesaBianchiStrategy.ParseAfterHostRoundTrip` | secuml/exp/active_learning/strategies/cesa_bianchi.py:33-35 | the `port/ilabAnnotations/exp/iter/` part after `host:` reads back as the port, experiment id and iteration number |
| `CesaBianchiStrategy.AnnotationUrl` | secuml/exp/active_learning/strategies/cesa_bianchi.py:31-35 | the address starts with `http://` and the host verbatim, and the `:` after the host is the last `:` of the address, whatever the host holds |
| `CesaBianchiStrategy.AfterHost` | secuml/exp/active_learning/strategies/cesa_bianchi.py:33-35 | the `%d/ilabAnnotations/%d/%d/` part holds no `:` |
| `CesaBianchiStrategy.AnnotationUrlRoundTrip` | secuml/exp/active_learning/strategies/cesa_bianchi.py:31-35 | for every host (IPv6 literals included), port, experiment id and iteration number, the address reads back as those four values |
| `CesaBianchiStrategy.AnnotationUrlInjective` | secuml/exp/active_learning/strategies/cesa_bianchi.py:31-35 | two equal addresses come from the same host, port, experiment id and iteration number |
| `CesaBianchiStrategy.CesaBianchi.GetUrl` | secuml/exp/active_learning/strategies/cesa_bianchi.py:31-35 | the address built from the strategy's own iteration (its experiment id and iteration number) reads back as the given host and port and those two numbers |
| `CesaBianchiStrategy.ExecTimesHeader` | secuml/exp/active_learning/strategies/cesa_bianchi.py:37-40 | `binary_model` first, then the base header unchanged; one longer than the base |
| `CesaBianchiStrategy.ExecTimes` | secuml/exp/active_learning/strategies/cesa_bianchi.py:42-45 | the model-update time first, then the base row unchanged; one longer than the base |
| `CesaBianchiStrategy.ExecTimesDisplay` | secuml/exp/active_learning/strategies/cesa_bianchi.py:47-51 | a `Binary model` series with no data first, then the base series unchanged; one longer than the base |
| `CesaBianchiStrategy.ColumnValueOfExecTimes` | secuml/exp/active_learning/strategies/cesa_bianchi.py:37-45 | looked up by name in the extended header and row, `binary_model` gives the model-update time and every other column gives what the base header and row give |
| `CesaBianchiStrategy.ColumnsInStep` | secuml/exp/active_learning/strategies/cesa_bianchi.py:37-51 | when the base header, row and display have equal lengths, so do the extended ones |

`Monitoring.SingleFoldScenario` is a small client of the class. It records
one fold with 4.2 seconds and no coefficients, then finalizes and exports.
It proves that the total is 4.2, that no aggregator exists, and that the
export is the single dump of slot 0 to `model.out`.

Two behaviours of the code are kept as written, though a reader might expect otherwise:

- A fold index is any Python list index. `-num_folds <= fold_id < 0` is
  accepted and writes slot `fold_id + num_folds`, and the raw `fold_id` is
  what goes to `add_fold`. Only indices outside that range raise the error.
- Nothing stops an export before `final_computations`, or a second
  `final_computations`. The model leaves both allowed.

## Left out

- The `exp` argument of the constructor and of `Coefficients`: it is only
  passed through.
- What `Coefficients` computes (means and variances across folds, in
  `interp/coeff`) and how its `display` renders: this code is not part of
  this model. The aggregator is modelled as a log of `add_fold` calls, its
  configuration and fold count, and a finalized flag.
- The `joblib.dump` writes and `path.join`: I/O. The model returns the dumps
  that would be made, as slot, pipeline and file name relative to the output
  directory.
- Floating-point execution times: times are exact `real`s, so the total is
  exactly the sum.
- Thread safety of concurrent fold recording: the code does not address it.
- The core strategy (`CoreCesaBianchi`), its header, row and display, and
  `CesaBianchiQueries`: this code is not part of this model. The three lists
  are inputs, and the generator is the value of its three constructor
  arguments.
- The Cesa-Bianchi acceptance probability, budget bookkeeping and batch
  selection: they live in modules the shown files import but do not contain.
- `PlotDataset`: only its data (none) and its title are kept.
- Non-integer arguments: the model's parameters are typed. `%d` truncates a
  `float` toward zero (`'%d' % 8080.9` is `'8080'`) and raises `TypeError`
  only for non-numbers; the model takes `int` port, experiment id and
  iteration number, so it does not cover float arguments. A non-integer fold
  index, which makes the list assignment raise `TypeError`, is not modelled
  either.
- A negative `num_folds`: the model's fold count is a `nat`. In Python,
  `range` of a negative count gives no slots, as `num_folds == 0` does here,
  but the negative count would still be handed to `Coefficients`.
