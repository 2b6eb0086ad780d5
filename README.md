# Early stopping and output exporters of deeprankcore, in Dafny

This project models two training-support utilities of deeprankcore and proves what they promise.

- `EarlyStopping` (module `EarlyStopping`, earlystopping.dfy). The trainer calls this object once per epoch with the validation loss and, optionally, the training loss. It keeps a best score (the negated loss), a patience counter and a latched stop flag. It stops training in two cases:
  - the loss has not improved by at least `delta` for `patience` calls;
  - the validation loss exceeds the training loss by more than `maxgap`.

  The class `EarlyStopping.EarlyStopping` updates its fields in place. Its `Step` method is proved equal to the pure transition `Next`. Lemmas about `Run`, the fold of `Next` over a sequence of epochs, prove five run-level properties: the invariant, latching, monotone best score, the bound on the counter, and stopping after `patience` non-improving calls.
- The output exporters (module `Exporters`, exporters.dfy). These objects receive the network's outputs once per pass and epoch. The model covers:
  - the shape-compatibility rules;
  - the confusion tally, the MCC guard and the accuracy of the binary-classification TensorBoard exporter (a loop proved against the spec function `ConfusionOf`);
  - the scatter-plot exporter: its colour rule, its file names and its per-epoch plot table (a class whose `Process` is proved equal to `ScatterStep`);
  - the HDF5 exporter: its row table and the key its table is stored under (a class whose `Process` is proved equal to `Hdf5Step`);
  - the collection's fan-out, which stops at the first exporter that raises.

  Python exceptions become `Result`/`Outcome` values, for example `ZeroDivisionError`, `IndexError` and `AttributeError`. An exporter whose `__enter__` has not run has no table attribute, so its table field is an `Option`.
- Python builtins used by these (module `PyText`, pytext.dfy): `str.lower`, `str.strip`, the decimal rendering of an `int`, POSIX `os.path.join` and Python's `%`.

Losses, outputs and targets are `real`s.

## Model

| member | source | states |
|---|---|---|
| EarlyStopping.Next | deeprankcore/utils/earlystopping.py:48-83 | The first call only records the score. A non-improving call (score below best + delta) adds exactly 1 to the counter and keeps the best score. An improving call stores the score and resets the counter to 0. With delta >= 0 the best score never decreases. The stop flag is set if and only if it was already set, patience is exhausted, or the gap exceeds maxgap. The call raises if and only if the gap check is active and no training loss was given. The stopper invariant is preserved. |
| EarlyStopping.RunKeepsInv | deeprankcore/utils/earlystopping.py:48-83 | Every run of calls that starts in the invariant ends in it: the counter is never negative, and once it reaches the patience, training is stopped. |
| EarlyStopping.RunLatchesStop | deeprankcore/utils/earlystopping.py:43-83 | Once `early_stop` is set it stays set for any later sequence of calls. |
| EarlyStopping.RunBestScoreMonotone | deeprankcore/utils/earlystopping.py:68-73 | With delta >= 0, the best score after any run is at least the one before it. |
| EarlyStopping.RunCounterBound | deeprankcore/utils/earlystopping.py:56-73 | Each call raises the counter by at most one. |
| EarlyStopping.RunWithoutImprovement | deeprankcore/utils/earlystopping.py:56-67 | If no call beats the best score by delta: no call raises, the counter grows by exactly the number of calls, the best score is unchanged, and training is stopped once the count reaches the patience. |
| EarlyStopping.ValLossMinIrrelevant | deeprankcore/utils/earlystopping.py:58-71 | `val_loss_min` and `verbose` never influence the counter, the best score, the stop flag or whether the call raises. |
| EarlyStopping.EarlyStopping.constructor | deeprankcore/utils/earlystopping.py:6-46 | The defaults are patience 10, no delta, no maxgap and verbose. A delta of None becomes 0. A fresh stopper is not stopped, has counter 0, no best score and no recorded minimum, and satisfies the invariant. |
| EarlyStopping.EarlyStopping.Step | deeprankcore/utils/earlystopping.py:48-83 | The in-place update of the fields, and the raised error, are exactly `Next` of the old state. The invariant is kept. |
| Exporters.IsCompatibleWith | deeprankcore/utils/exporters.py:43-224 | Each exporter's `is_compatible_with` answer; the HDF5 exporter inherits the base one. Its rules are stated in `CompatibilityRules`. |
| Exporters.CompatibilityRules | deeprankcore/utils/exporters.py:43-224 | The base and HDF5 exporters accept every shape. The binary-classification exporter accepts a shape if and only if there are 2 outputs and 1 target. The scatter exporter accepts a shape if and only if there is 1 output and 1 target. No shape suits both specialised exporters. |
| Exporters.ArgMax | deeprankcore/utils/exporters.py:111 | `argmax` returns an index of the vector. |
| Exporters.ArgMaxIsFirstMax | deeprankcore/utils/exporters.py:111 | The chosen element is a maximum, and every element before it is strictly smaller: it is the first maximum. |
| Exporters.TallyEntry | deeprankcore/utils/exporters.py:111-124 | No count decreases. tp grows if and only if the prediction is positive (argmax > 0) and the target is positive. tn, fp and fn grow under the matching other three combinations. |
| Exporters.ConfusionOf | deeprankcore/utils/exporters.py:105-124 | The tally of the first n entries, folding `TallyEntry` over them in order. `TallyEntries` is proved to compute it, and `ConfusionTotal` proves every entry counted once. |
| Exporters.ConfusionTotal | deeprankcore/utils/exporters.py:105-124 | After n entries, tp + tn + fp + fn == n: each entry is counted exactly once. |
| Exporters.SecondOutputs | deeprankcore/utils/exporters.py:105-109 | There is one probability per entry, namely the entry's second output. |
| Exporters.MccDenominatorPositive | deeprankcore/utils/exporters.py:126-132 | When `tn*tp - fp*fn` is non-zero, `(tn+fn)(fp+tp)(tn+fp)(fn+tp)` is positive, so the guard at line 132 always passes. |
| Exporters.MccOf | deeprankcore/utils/exporters.py:126-134 | MCC is written as 0 if and only if its numerator is 0. Otherwise it is written as the ratio of `tn*tp - fp*fn` over the square root of `(tn+fn)(fp+tp)(tn+fp)(fn+tp)`, which is positive. It is never skipped. |
| Exporters.Accuracy | deeprankcore/utils/exporters.py:136 | For at least one entry, the accuracy lies in [0,1], and times the total it gives tp + tn. |
| Exporters.BinaryClassificationReport | deeprankcore/utils/exporters.py:105-142 | An output with fewer than two values raises IndexError. A pass with no entries raises ZeroDivisionError. Otherwise the report holds the second outputs as probabilities and the tally `ConfusionOf` of all entries, which sums to the number of entries. Its MCC is `MccOf` of that tally and is always written. Its accuracy is `Accuracy` of that tally, a fraction. The ROC is computed exactly when the targets take two distinct values. |
| Exporters.TallyEntries | deeprankcore/utils/exporters.py:105-124 | The loop raises IndexError exactly when some output has fewer than two values. Otherwise it returns the probabilities and the tally `ConfusionOf` of all entries. |
| Exporters.MetricsOf | deeprankcore/utils/exporters.py:126-137 | The MCC written is `MccOf` of the tally. The accuracy is `Accuracy` of the tally, or ZeroDivisionError when the tally is empty. |
| Exporters.ProcessBinaryClassification | deeprankcore/utils/exporters.py:98-142 | The exporter's `process` returns exactly `BinaryClassificationReport`. |
| Exporters.Normalize | deeprankcore/utils/exporters.py:179 | The pass name lower-cased and then stripped, in that order. Its properties come from `Lower` and `Strip`. |
| Exporters.ColorOf | deeprankcore/utils/exporters.py:181-190 | The colour chain as written, on a normalised name: blue if and only if train/training; red if and only if eval/valid/validation; never green. |
| Exporters.ColorOfIntended | deeprankcore/utils/exporters.py:181-190 | The chain with a membership test at line 187: green if and only if test/testing; blue and red as before. |
| Exporters.GetColor | deeprankcore/utils/exporters.py:176-190 | `_get_color` as written, after lower-casing and stripping: blue if and only if the name is train/training, red if and only if eval/valid/validation, and never green. |
| Exporters.GetColorIntended | deeprankcore/utils/exporters.py:176-190 | `_get_color` as intended: test and testing passes are green. |
| Exporters.GetColorDiffersOnlyOnTest | deeprankcore/utils/exporters.py:187 | The code as written and the intended rule disagree if and only if the normalised name is test/testing. |
| Exporters.TestPassIsNotGreen | deeprankcore/utils/exporters.py:187 | A pass named "test" is never green as written, but is green under the intended rule. |
| Exporters.GetFilename | deeprankcore/utils/exporters.py:172-174 | The plot path starts with the exporter's directory and ends in ".png". |
| Exporters.GetFilenameInjective | deeprankcore/utils/exporters.py:172-174 | Different epochs get different plot files. |
| Exporters.RecordSeries | deeprankcore/utils/exporters.py:213-216 | Only the `(epoch, pass_name)` slot is set, to the pass's series. The epoch gains the slot. Every other slot of every epoch is unchanged. |
| Exporters.RecordSeriesOverwrites | deeprankcore/utils/exporters.py:216 | Recording a slot twice is the same as recording only the later series. |
| Exporters.ScatterStep | deeprankcore/utils/exporters.py:207-219 | The scatter exporter's `process` on values. An interval of 0 raises ZeroDivisionError. An epoch off the interval changes nothing. A missing table on a plotting epoch raises AttributeError. Otherwise it records the series and draws the epoch. The method is proved equal to it; `ScatterStepGating` and `ScatterStepIdempotent` state its properties. |
| Exporters.ScatterStepGating | deeprankcore/utils/exporters.py:211-219 | When `epoch % epoch_interval != 0`, nothing is recorded or drawn. Otherwise the series lands in its slot and the epoch's plot is drawn to `get_filename(epoch)`. |
| Exporters.ScatterStepIdempotent | deeprankcore/utils/exporters.py:207-219 | Processing the same batch again leaves the table and the result as after the first time. |
| Exporters.ScatterPlotExporter.constructor | deeprankcore/utils/exporters.py:157-163 | The directory and interval are stored; the interval defaults to 1. There is no plot table before `__enter__`. |
| Exporters.ScatterPlotExporter.Enter | deeprankcore/utils/exporters.py:165-167 | The plot table becomes empty. |
| Exporters.ScatterPlotExporter.Exit | deeprankcore/utils/exporters.py:169-170 | The table is cleared. Without a table the call raises AttributeError. |
| Exporters.ScatterPlotExporter.Process | deeprankcore/utils/exporters.py:207-219 | The in-place table update and the drawn plot are exactly `ScatterStep`. An interval of 0 raises ZeroDivisionError. A table missing on a plotting epoch raises AttributeError. |
| Exporters.BatchRows | deeprankcore/utils/exporters.py:275-281 | One row per entry. Each row has the entry's name, output and target, and repeats the pass name, epoch and loss. |
| Exporters.Hdf5Step | deeprankcore/utils/exporters.py:275-283 | The HDF5 exporter's `process` on values. The phase becomes the pass name first; then either AttributeError without a table, or the pass's rows appended. `Hdf5StepAppends` states its properties. |
| Exporters.Hdf5StepAppends | deeprankcore/utils/exporters.py:275-283 | The phase becomes the pass name. The table grows by exactly one row per entry, the earlier rows stay in front, and each new row carries the pass name and epoch. |
| Exporters.ExitKey | deeprankcore/utils/exporters.py:255-261 | A 'validation' phase is stored under 'training', so no table is ever stored under 'validation'. Every other phase is its own key. |
| Exporters.HDF5OutputExporter.constructor | deeprankcore/utils/exporters.py:241-244 | The phase is None. There is no table before `__enter__`. |
| Exporters.HDF5OutputExporter.Enter | deeprankcore/utils/exporters.py:246-251 | The table becomes empty; the phase is unchanged. |
| Exporters.HDF5OutputExporter.Process | deeprankcore/utils/exporters.py:266-283 | The new phase and table, and the outcome, are exactly `Hdf5Step`. The phase is set even when the missing table raises AttributeError. |
| Exporters.HDF5OutputExporter.Exit | deeprankcore/utils/exporters.py:253-264 | The phase is mapped by `ExitKey`. The whole table is written to `output_exporter.hdf5` in the directory under that key, and the table is reset to empty. Without a table the call raises AttributeError. |
| Exporters.Step | deeprankcore/utils/exporters.py:70 | One exporter's `process`, dispatched on its kind: the base exporter does nothing, the binary-classification exporter raises what `BinaryClassificationReport` raises, and the scatter and HDF5 exporters step as `ScatterStep` and `Hdf5Step`. |
| Exporters.FirstFailure | deeprankcore/utils/exporters.py:69-70 | Every exporter before the returned position processes the batch without raising. The exporter at that position, if any, raises. |
| Exporters.ProcessOne | deeprankcore/utils/exporters.py:70 | The dispatched `process` steps its exporter exactly as `Step` says and leaves every other exporter unchanged. |
| Exporters.OutputExporterCollection.constructor | deeprankcore/utils/exporters.py:54-55 | Keeps the given exporters in order. |
| Exporters.OutputExporterCollection.Process | deeprankcore/utils/exporters.py:67-70 | Every exporter up to and including the first one that raises has processed the batch. Those after it are untouched. The call raises that exporter's error, or passes when none raises. |
| PyText.Lower | deeprankcore/utils/exporters.py:179 | `lower()` keeps the length, turns each upper-case letter A-Z into its lower-case letter, and leaves every other character alone. |
| PyText.Strip | deeprankcore/utils/exporters.py:179 | `strip()` keeps an infix of its input, and everything before and after that infix is white space. The result neither starts nor ends with white space. An empty result means the input was all white space. |
| PyText.JoinPath | deeprankcore/utils/exporters.py:174 | `os.path.join` ends with the name. For a relative name it starts with the directory, and puts one `/` between them when the directory is non-empty and does not already end with one. |
| PyText.JoinPathCancel | deeprankcore/utils/exporters.py:174 | Joining one directory with two relative names gives the same path only when the names are equal. |
| PyText.IntToDecimal | deeprankcore/utils/exporters.py:174 | The f-string text of an epoch number is non-empty and starts with `-` exactly for negative numbers. `DecimalRoundTrip` shows the digits read back as the number. |
| PyText.DecimalRoundTrip | deeprankcore/utils/exporters.py:174 | Reading the decimal text of a natural number back gives the number. |
| PyText.IntToDecimalInjective | deeprankcore/utils/exporters.py:174 | Different integers render to different decimal texts. |
| PyText.PyMod | deeprankcore/utils/exporters.py:211 | Python's `%`: `a` is a multiple of `b` plus the result, and the result takes the sign of the divisor and is smaller in size. So it is Python's floored remainder. It is 0 exactly when the Euclidean remainder is. |

## Left out

- `trace_func` and the messages it prints are not modelled. `val_loss_min`'s initial `np.Inf` is `None`. A message-only branch (earlystopping.py:58-64) has no effect on state.
- `EarlyStopping.Next`: Python truthiness of `maxgap` is modelled as "given and non-zero". Losses are exact reals, so NaN losses are not modelled.
- `Exporters.BinaryClassificationReport`: the cross-entropy call at exporters.py:102 is assumed to succeed. It runs first on the same data and raises its own errors before the loop:
  - ragged outputs such as `[[0.2, 0.8], [0.5]]` raise ValueError there, where the model reports IndexError;
  - a scalar output (a length-1 vector in the model) raises TypeError at line 108, where the model reports IndexError.
- `Exporters.BinaryClassificationReport`: writes made before an exception are not reported. On an empty pass the cross-entropy loss (line 103) and "MCC 0.0" (line 128) are written before the ZeroDivisionError at line 136.
- `Exporters.BinaryClassificationReport`: targets are exact reals. A NaN target matches none of the four branches at lines 114-124 and is counted nowhere, so `ConfusionTotal` does not describe that case.
- The cross-entropy loss, `SummaryWriter` and `roc_auc_score` are foreign calls and are not modelled. The binary-classification report records only whether the ROC is computed (two distinct target values), not its value.
- `Exporters.MccOf`: the square root and the division are not modelled. MCC is kept as its numerator and squared denominator, which carry the guards.
- `Exporters.Accuracy`: this is an exact real division, not floating point.
- `Exporters.ArgMax`: `torch.argmax` on ties is taken to return the first maximum. NaN outputs are not modelled.
- The `_plot` drawing (pyplot) is not modelled; the model hands over the `Plot` it would draw. pandas `DataFrame`, `concat` and `to_hdf` are modelled as a sequence of rows and a `Written` record. pandas' behaviour for a `None` key is not modelled.
- `os.makedirs`, and the base constructor's default directory `./output`, are not modelled. No file system is modelled.
- The context-manager plumbing of the collection (`__enter__`, `__exit__`, `__iter__`) and of the TensorBoard exporter is not modelled.
- `Exporters.OutputExporterCollection.Process`: the exporters must be distinct objects. The same exporter placed twice in a collection (aliasing) is not modelled.
- `random.choice` in `_get_color` is not modelled as a random draw. It is the parameter `pick < 3`, which indexes yellow/cyan/magenta.
- `PyText.Lower`: `str.lower` is modelled on ASCII letters only; Unicode case mapping is not modelled.
- A scalar output value is modelled as a vector of length 1. Outputs whose lengths differ from the entry names are excluded by `WellFormed`, as `process` demands of its callers (exporters.py:40).

## Findings

| source | as written | input that shows it | evidently intended | confidence | as-written member | corrected member |
|---|---|---|---|---|---|---|
| deeprankcore/utils/exporters.py:187 | `pass_name == ("test", "testing")` compares a string with a tuple, which is always False, so no pass is ever green | pass name "test" | `pass_name in ("test", "testing")`, so test passes are green | high; not executed | Exporters.GetColor, Exporters.TestPassIsNotGreen | Exporters.GetColorIntended |
