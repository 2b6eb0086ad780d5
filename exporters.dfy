/** Output exporters (deeprankcore/utils/exporters.py): objects handed the
    outputs of a neural network once per pass and epoch.

    Modelled here: which data shapes each exporter accepts; the confusion
    tally, MCC guard and accuracy of the binary-classification exporter;
    the scatter-plot exporter's colour choice, file name and per-epoch plot
    table; the HDF5 exporter's row table and the key it is stored under; and
    the collection that fans one call out to all its exporters. The drawing,
    TensorBoard, pandas and file-system calls themselves are not modelled:
    what they would be given is. */
module Exporters {
  import opened Wrappers
  import opened PyText

  /** The Python exceptions the exporters can raise. */
  datatype ExportError = ZeroDivisionError | IndexError | AttributeError

  /** The arguments of `process`. Each entry's output is a vector (a scalar
      output is a vector of length 1); each entry's target is a number. */
  datatype Batch = Batch(passName: string, epoch: int, entryNames: seq<string>,
                         outputs: seq<seq<real>>, targets: seq<real>, loss: real)

  /** Names, outputs and targets have one element per entry, as every
      `process` demands of its callers. */
  predicate WellFormed(a: Batch) {
    |a.outputs| == |a.entryNames| && |a.targets| == |a.entryNames|
  }

  /** An exporter in a collection. The base exporter and the TensorBoard
      exporter keep no state that this model follows. */
  datatype Exporter =
    | Base
    | BinaryClassification
    | ScatterPlot(scatter: ScatterPlotExporter)
    | Hdf5(hdf5: HDF5OutputExporter)

  // ---------------------------------------------------------------------
  // Shape compatibility

  /** `is_compatible_with`: the HDF5 exporter inherits the base answer. */
  function IsCompatibleWith(e: Exporter, outputShape: int, targetShape: Option<int>): bool {
    match e
    case BinaryClassification => outputShape == 2 && targetShape == Some(1)
    case ScatterPlot(_) => outputShape == 1 && targetShape == Some(1)
    case _ => true
  }

  /** The generic exporters accept every shape; the binary-classification
      exporter wants two outputs and one target per entry; the scatter
      exporter one of each; so no shape suits both specialised exporters,
      and without a target shape only the generic ones apply. */
  lemma CompatibilityRules(e: Exporter, outputShape: int, targetShape: Option<int>)
    ensures (e.Base? || e.Hdf5?) ==> IsCompatibleWith(e, outputShape, targetShape)
    ensures e.BinaryClassification? ==>
      (IsCompatibleWith(e, outputShape, targetShape) <==> outputShape == 2 && targetShape == Some(1))
    ensures e.ScatterPlot? ==>
      (IsCompatibleWith(e, outputShape, targetShape) <==> outputShape == 1 && targetShape == Some(1))
    ensures e.ScatterPlot? ==>
      !(IsCompatibleWith(e, outputShape, targetShape) && IsCompatibleWith(BinaryClassification, outputShape, targetShape))
    ensures IsCompatibleWith(e, outputShape, None) <==> (e.Base? || e.Hdf5?)
  {
  }

  // ---------------------------------------------------------------------
  // Binary classification: confusion tally, MCC, accuracy

  datatype Tally = Tally(tp: nat, tn: nat, fp: nat, fn: nat)

  function Total(t: Tally): nat {
    t.tp + t.tn + t.fp + t.fn
  }

  /** `argmax` of a vector: the index of its first largest element
      (ArgMaxIsFirstMax). */
  function ArgMax(v: seq<real>): (k: nat)
    requires |v| > 0
    ensures k < |v|
    decreases |v|
  {
    if |v| == 1 then 0
    else
      var k := ArgMax(v[..|v| - 1]);
      if v[|v| - 1] > v[k] then |v| - 1 else k
  }

  /** No element exceeds the one `ArgMax` picks, and every element before
      it is strictly smaller. */
  lemma {:induction false} ArgMaxIsFirstMax(v: seq<real>)
    requires |v| > 0
    ensures forall j :: 0 <= j < |v| ==> v[j] <= v[ArgMax(v)]
    ensures forall j :: 0 <= j < ArgMax(v) ==> v[j] < v[ArgMax(v)]
    decreases |v|
  {
    if |v| > 1 {
      var u := v[..|v| - 1];
      ArgMaxIsFirstMax(u);
      assert forall j :: 0 <= j < |u| ==> u[j] == v[j];
    }
  }

  /** An entry is predicted positive when its largest output is not the first. */
  predicate PredictedPositive(output: seq<real>)
    requires |output| > 0
  {
    ArgMax(output) > 0
  }

  predicate TargetPositive(target: real) {
    target > 0.0
  }

  /** One entry of the tally, by the chain of four comparisons: no count
      goes down, and which count goes up is decided by the prediction and
      the target. */
  function TallyEntry(t: Tally, output: seq<real>, target: real): (r: Tally)
    requires |output| > 0
    ensures r.tp >= t.tp && r.tn >= t.tn && r.fp >= t.fp && r.fn >= t.fn
    ensures r.tp > t.tp <==> PredictedPositive(output) && TargetPositive(target)
    ensures r.tn > t.tn <==> !PredictedPositive(output) && !TargetPositive(target)
    ensures r.fp > t.fp <==> PredictedPositive(output) && !TargetPositive(target)
    ensures r.fn > t.fn <==> !PredictedPositive(output) && TargetPositive(target)
  {
    var prediction := ArgMax(output);
    if prediction > 0 && target > 0.0 then t.(tp := t.tp + 1)
    else if prediction <= 0 && target <= 0.0 then t.(tn := t.tn + 1)
    else if prediction > 0 && target <= 0.0 then t.(fp := t.fp + 1)
    else if prediction <= 0 && target > 0.0 then t.(fn := t.fn + 1)
    else t
  }

  /** Each entry adds exactly one to the tally. */
  lemma TallyEntryAddsOne(t: Tally, output: seq<real>, target: real)
    requires |output| > 0
    ensures Total(TallyEntry(t, output, target)) == Total(t) + 1
  {
  }

  /** The tally of the first `n` entries of a pass (ConfusionTotal). */
  function ConfusionOf(outputs: seq<seq<real>>, targets: seq<real>, n: nat): Tally
    requires n <= |outputs| && |targets| == |outputs|
    requires forall i :: 0 <= i < n ==> |outputs[i]| > 0
  {
    if n == 0 then Tally(0, 0, 0, 0)
    else TallyEntry(ConfusionOf(outputs, targets, n - 1), outputs[n - 1], targets[n - 1])
  }

  /** Every entry is counted exactly once: the tally of `n` entries adds up
      to `n`. */
  lemma {:induction false} ConfusionTotal(outputs: seq<seq<real>>, targets: seq<real>, n: nat)
    requires n <= |outputs| && |targets| == |outputs|
    requires forall i :: 0 <= i < n ==> |outputs[i]| > 0
    ensures Total(ConfusionOf(outputs, targets, n)) == n
  {
    if n > 0 {
      var before := ConfusionOf(outputs, targets, n - 1);
      ConfusionTotal(outputs, targets, n - 1);
      TallyEntryAddsOne(before, outputs[n - 1], targets[n - 1]);
    }
  }

  /** The probabilities handed to the ROC computation: each entry's second output. */
  function SecondOutputs(outputs: seq<seq<real>>): (p: seq<real>)
    requires AllPairs(outputs)
    ensures |p| == |outputs|
    ensures forall i :: 0 <= i < |outputs| ==> p[i] == outputs[i][1]
  {
    seq(|outputs|, i requires 0 <= i < |outputs| && |outputs[i]| >= 2 => outputs[i][1])
  }

  function MccNumerator(t: Tally): int {
    t.tn * t.tp - t.fp * t.fn
  }

  /** The square of the MCC denominator (the square root is not modelled). */
  function MccDenominatorSquared(t: Tally): int {
    (t.tn + t.fn) * (t.fp + t.tp) * (t.tn + t.fp) * (t.fn + t.tp)
  }

  /** Whenever the MCC numerator is non-zero, every factor of the
      denominator is positive: the guard against a zero denominator can
      never fail. */
  lemma MccDenominatorPositive(t: Tally)
    requires MccNumerator(t) != 0
    ensures MccDenominatorSquared(t) > 0
  {
    var a, b, c, d := t.tn + t.fn, t.fp + t.tp, t.tn + t.fp, t.fn + t.tp;
    FactorsPositive(t);
    ProductPositive(a, b);
    ProductPositive(a * b, c);
    ProductPositive(a * b * c, d);
  }

  /** A zero factor of the denominator forces a zero numerator. */
  lemma FactorsPositive(t: Tally)
    ensures MccNumerator(t) != 0 ==>
      t.tn + t.fn > 0 && t.fp + t.tp > 0 && t.tn + t.fp > 0 && t.fn + t.tp > 0
  {
    if t.tn + t.fn == 0 || t.tn + t.fp == 0 {
      assert t.tn == 0;
      assert MccNumerator(t) == 0 - t.fp * t.fn;
      assert t.fp * t.fn == 0;
    }
    if t.fp + t.tp == 0 || t.fn + t.tp == 0 {
      assert t.tp == 0;
      assert MccNumerator(t) == t.tn * 0 - t.fp * t.fn;
      assert t.fp * t.fn == 0;
    }
  }

  lemma ProductPositive(x: int, y: int)
    requires x > 0 && y > 0
    ensures x * y > 0
  {
  }

  /** What is written as MCC: zero, the ratio (given by its numerator and
      squared denominator), or nothing when the denominator is zero. */
  datatype Mcc = MccZero | MccRatio(numerator: int, denominatorSquared: int) | MccNotWritten

  /** MCC is zero exactly when its numerator is, and is always written. */
  function MccOf(t: Tally): (m: Mcc)
    ensures m == MccZero <==> MccNumerator(t) == 0
    ensures m != MccNotWritten
    ensures m.MccRatio? ==> m.numerator == MccNumerator(t) && m.denominatorSquared > 0
    ensures m.MccRatio? ==> m.denominatorSquared == MccDenominatorSquared(t)
  {
    var numerator := MccNumerator(t);
    if numerator == 0 then MccZero
    else
      MccDenominatorPositive(t);
      var d := MccDenominatorSquared(t);
      if d != 0 then MccRatio(numerator, d) else MccNotWritten
  }

  /** The fraction of entries classified correctly. */
  predicate IsFraction(x: real) {
    0.0 <= x <= 1.0
  }

  /** A part of a positive whole, divided by the whole, is a fraction. */
  lemma PartOfWhole(part: real, whole: real)
    requires 0.0 <= part <= whole && whole > 0.0
    ensures IsFraction(part / whole)
    ensures (part / whole) * whole == part
  {
    var q := part / whole;
    assert q * whole == part;
    assert (1.0 - q) * whole == whole - part;
  }

  function Accuracy(t: Tally): (acc: real)
    requires Total(t) > 0
    ensures IsFraction(acc)
    ensures acc * Total(t) as real == (t.tp + t.tn) as real
  {
    PartOfWhole((t.tp + t.tn) as real, Total(t) as real);
    (t.tp + t.tn) as real / Total(t) as real
  }

  /** What the binary-classification exporter writes for one pass. */
  datatype Report = Report(probabilities: seq<real>, tally: Tally, mcc: Mcc, accuracy: real, rocAuc: bool)

  /** Every entry has at least the two outputs the exporter reads. */
  predicate AllPairs(outputs: seq<seq<real>>) {
    forall i :: 0 <= i < |outputs| ==> |outputs[i]| >= 2
  }

  /** The target values, as the set the ROC guard counts. */
  function TargetValues(a: Batch): set<real> {
    set x | x in a.targets
  }

  /** The binary-classification `process`: an output with fewer than two
      values raises IndexError, an empty pass raises ZeroDivisionError at
      the accuracy; otherwise every entry is tallied once, its second output
      becomes its probability, MCC is always written, the accuracy is a
      fraction. */
  function BinaryClassificationReport(a: Batch): (r: Result<Report, ExportError>)
    requires WellFormed(a)
    ensures !AllPairs(a.outputs) ==> r == Failure(IndexError)
    ensures AllPairs(a.outputs) && a.entryNames == [] ==> r == Failure(ZeroDivisionError)
    ensures AllPairs(a.outputs) && a.entryNames != [] ==> r.Success?
    ensures r.Success? ==> AllPairs(a.outputs) && r.value.probabilities == SecondOutputs(a.outputs)
    ensures r.Success? ==> Total(r.value.tally) == |a.entryNames|
    ensures r.Success? ==> r.value.mcc != MccNotWritten && IsFraction(r.value.accuracy)
    ensures r.Success? ==> r.value.tally == ConfusionOf(a.outputs, a.targets, |a.outputs|)
    ensures r.Success? ==> r.value.mcc == MccOf(r.value.tally)
    ensures r.Success? ==> r.value.accuracy == Accuracy(r.value.tally)
    ensures r.Success? ==> r.value.rocAuc == (|TargetValues(a)| == 2)
  {
    if !AllPairs(a.outputs) then Failure(IndexError)
    else
      var t := ConfusionOf(a.outputs, a.targets, |a.outputs|);
      ConfusionTotal(a.outputs, a.targets, |a.outputs|);
      if Total(t) == 0 then Failure(ZeroDivisionError)
      else Success(Report(SecondOutputs(a.outputs), t, MccOf(t), Accuracy(t), |TargetValues(a)| == 2))
  }

  /** The loop of `TensorboardBinaryClassificationExporter.process`: one
      pass over the entries collecting each second output and tallying each
      entry; an output with fewer than two values raises IndexError. */
  method TallyEntries(a: Batch) returns (r: Result<(seq<real>, Tally), ExportError>)
    requires WellFormed(a)
    ensures !AllPairs(a.outputs) ==> r == Failure(IndexError)
    ensures AllPairs(a.outputs) ==> r == Success((SecondOutputs(a.outputs), ConfusionOf(a.outputs, a.targets, |a.outputs|)))
  {
    var probabilities: seq<real> := [];
    var fp: nat, fn: nat, tp: nat, tn: nat := 0, 0, 0, 0;
    var i := 0;
    while i < |a.entryNames|
      invariant 0 <= i <= |a.entryNames|
      invariant forall j :: 0 <= j < i ==> |a.outputs[j]| >= 2
      invariant |probabilities| == i
      invariant forall j :: 0 <= j < i ==> probabilities[j] == a.outputs[j][1]
      invariant Tally(tp, tn, fp, fn) == ConfusionOf(a.outputs, a.targets, i)
    {
      if |a.outputs[i]| < 2 {
        assert !AllPairs(a.outputs);
        return Failure(IndexError);
      }
      ghost var before := Tally(tp, tn, fp, fn);
      var probability := a.outputs[i][1];
      probabilities := probabilities + [probability];

      var predictionValue := ArgMax(a.outputs[i]);
      var targetValue := a.targets[i];

      if predictionValue > 0 && targetValue > 0.0 {
        tp := tp + 1;
      } else if predictionValue <= 0 && targetValue <= 0.0 {
        tn := tn + 1;
      } else if predictionValue > 0 && targetValue <= 0.0 {
        fp := fp + 1;
      } else if predictionValue <= 0 && targetValue > 0.0 {
        fn := fn + 1;
      }
      assert Tally(tp, tn, fp, fn) == TallyEntry(before, a.outputs[i], a.targets[i]);
      i := i + 1;
    }
    assert probabilities == SecondOutputs(a.outputs);
    r := Success((probabilities, Tally(tp, tn, fp, fn)));
  }

  /** The guards after the loop: MCC is written as zero or as a ratio
      (never skipped), and the accuracy divides by the number of entries,
      raising ZeroDivisionError when there are none. */
  method MetricsOf(tp: nat, tn: nat, fp: nat, fn: nat) returns (mcc: Mcc, accuracy: Result<real, ExportError>)
    ensures mcc == MccOf(Tally(tp, tn, fp, fn))
    ensures tp + tn + fp + fn == 0 ==> accuracy == Failure(ZeroDivisionError)
    ensures tp + tn + fp + fn > 0 ==> accuracy == Success(Accuracy(Tally(tp, tn, fp, fn)))
  {
    var mccNumerator := tn * tp - fp * fn;
    if mccNumerator == 0 {
      mcc := MccZero;
    } else {
      var mccDenominator := (tn + fn) * (fp + tp) * (tn + fp) * (fn + tp);
      if mccDenominator != 0 {
        mcc := MccRatio(mccNumerator, mccDenominator);
      } else {
        mcc := MccNotWritten;
      }
    }
    if tp + tn + fp + fn == 0 {
      return mcc, Failure(ZeroDivisionError);
    }
    accuracy := Success((tp + tn) as real / (tp + tn + fp + fn) as real);
  }

  /** `TensorboardBinaryClassificationExporter.process`: the tally, the
      guards, and the ROC guard (two distinct target values). */
  method ProcessBinaryClassification(a: Batch) returns (r: Result<Report, ExportError>)
    requires WellFormed(a)
    ensures r == BinaryClassificationReport(a)
  {
    var tallied := TallyEntries(a);
    if tallied.Failure? {
      return Failure(tallied.error);
    }
    var (probabilities, t) := tallied.value;
    var mcc, accuracy := MetricsOf(t.tp, t.tn, t.fp, t.fn);
    if accuracy.Failure? {
      return Failure(accuracy.error);
    }
    var rocAuc := |TargetValues(a)| == 2;
    r := Success(Report(probabilities, t, mcc, accuracy.value, rocAuc));
  }

  // ---------------------------------------------------------------------
  // Scatter plots: colour, file name, plot table

  datatype Color = Blue | Red | Green | Yellow | Cyan | Magenta

  /** A Python value on either side of `==`: a string never equals a tuple. */
  datatype PyValue = Str(s: string) | Tuple(items: seq<string>)

  /** The pass name as `_get_color` compares it: lower-cased, then stripped. */
  function Normalize(passName: string): string {
    Strip(Lower(passName))
  }

  /** The colour chain of `_get_color` as written, on a name already
      normalised. `pick` is the index `random.choice` draws from the three
      fallback colours. Line 187 compares the name with a tuple, which is
      never equal, so green is never chosen. */
  function ColorOf(name: string, pick: nat): (c: Color)
    requires pick < 3
    ensures c == Blue <==> name in ["train", "training"]
    ensures c == Red <==> name in ["eval", "valid", "validation"]
    ensures c != Green
  {
    if name in ["train", "training"] then Blue
    else if name in ["eval", "valid", "validation"] then Red
    else if Str(name) == Tuple(["test", "testing"]) then Green
    else [Yellow, Cyan, Magenta][pick]
  }

  /** The colour chain with the membership test line 187 evidently intends. */
  function ColorOfIntended(name: string, pick: nat): (c: Color)
    requires pick < 3
    ensures c == Blue <==> name in ["train", "training"]
    ensures c == Red <==> name in ["eval", "valid", "validation"]
    ensures c == Green <==> name in ["test", "testing"]
  {
    if name in ["train", "training"] then Blue
    else if name in ["eval", "valid", "validation"] then Red
    else if name in ["test", "testing"] then Green
    else [Yellow, Cyan, Magenta][pick]
  }

  /** `_get_color` as written: training passes are blue, validation
      passes red, and nothing is ever green. */
  function GetColor(passName: string, pick: nat): (c: Color)
    requires pick < 3
    ensures c == Blue <==> Normalize(passName) in ["train", "training"]
    ensures c == Red <==> Normalize(passName) in ["eval", "valid", "validation"]
    ensures c != Green
  {
    ColorOf(Normalize(passName), pick)
  }

  /** `_get_color` as intended: test passes are green as well. */
  function GetColorIntended(passName: string, pick: nat): (c: Color)
    requires pick < 3
    ensures c == Blue <==> Normalize(passName) in ["train", "training"]
    ensures c == Red <==> Normalize(passName) in ["eval", "valid", "validation"]
    ensures c == Green <==> Normalize(passName) in ["test", "testing"]
  {
    ColorOfIntended(Normalize(passName), pick)
  }

  /** The two differ only on test passes. */
  lemma GetColorDiffersOnlyOnTest(passName: string, pick: nat)
    requires pick < 3
    ensures GetColor(passName, pick) != GetColorIntended(passName, pick)
        <==> Normalize(passName) in ["test", "testing"]
  {
  }

  /** A pass named "test" is left as it is by the normalisation. */
  lemma NormalizeTestName()
    ensures Normalize("test") == "test"
  {
    assert Lower("test") == "test" by {
      assert forall k :: 0 <= k < 4 ==> Lower("test")[k] == "test"[k];
    }
    StripTrimmed("test");
  }

  /** A pass named "test" is plotted green by the intended rule, but the
      code as written picks a fallback colour. */
  lemma TestPassIsNotGreen(pick: nat)
    requires pick < 3
    ensures GetColor("test", pick) != Green
    ensures GetColorIntended("test", pick) == Green
  {
    NormalizeTestName();
  }

  /** `get_filename`: the plot of an epoch is `scatter-<epoch>.png` inside the
      exporter's directory. */
  function GetFilename(directory: string, epoch: int): (path: string)
    ensures |path| >= |directory| && path[..|directory|] == directory
    ensures |path| >= 4 && path[|path| - 4..] == ".png"
  {
    JoinPath(directory, "scatter-" + IntToDecimal(epoch) + ".png")
  }

  /** Different epochs are plotted to different files. */
  lemma GetFilenameInjective(directory: string, e1: int, e2: int)
    requires GetFilename(directory, e1) == GetFilename(directory, e2)
    ensures e1 == e2
  {
    var n1 := "scatter-" + IntToDecimal(e1) + ".png";
    var n2 := "scatter-" + IntToDecimal(e2) + ".png";
    JoinPathCancel(directory, n1, n2);
    assert IntToDecimal(e1) == n1[8..|n1| - 4];
    assert IntToDecimal(e2) == n2[8..|n2| - 4];
    IntToDecimalInjective(e1, e2);
  }

  /** One pass's points: the targets on the x axis, the outputs on the y axis. */
  datatype Series = Series(targets: seq<real>, outputs: seq<seq<real>>)

  /** `_plot_data`: for each epoch, the series of each pass. */
  type PlotTable = map<int, map<string, Series>>

  /** A plot as handed to `_plot`: the epoch, all its series, the file. */
  datatype Plot = Plot(epoch: int, series: map<string, Series>, path: string)

  /** Stores the series of one pass in one epoch: that slot is set, every
      other slot of every epoch is left as it was. */
  function RecordSeries(table: PlotTable, epoch: int, passName: string, s: Series): (t: PlotTable)
    ensures t.Keys == table.Keys + {epoch}
    ensures t[epoch].Keys == (if epoch in table then table[epoch].Keys else {}) + {passName}
    ensures t[epoch][passName] == s
    ensures forall e :: e in table && e != epoch ==> t[e] == table[e]
    ensures forall p :: epoch in table && p in table[epoch] && p != passName ==> t[epoch][p] == table[epoch][p]
  {
    var row := if epoch in table then table[epoch] else map[];
    table[epoch := row[passName := s]]
  }

  /** A later series for the same slot replaces the earlier one. */
  lemma RecordSeriesOverwrites(table: PlotTable, epoch: int, passName: string, s1: Series, s2: Series)
    ensures RecordSeries(RecordSeries(table, epoch, passName, s1), epoch, passName, s2)
         == RecordSeries(table, epoch, passName, s2)
  {
    var t1 := RecordSeries(table, epoch, passName, s1);
    var t2 := RecordSeries(t1, epoch, passName, s2);
    var t3 := RecordSeries(table, epoch, passName, s2);
    assert t2[epoch] == t3[epoch];
  }

  /** The scatter exporter's `process`: the new table and the plot drawn, if any. */
  function ScatterStep(directory: string, interval: int, table: Option<PlotTable>, a: Batch)
    : (Option<PlotTable>, Result<Option<Plot>, ExportError>)
  {
    if interval == 0 then (table, Failure(ZeroDivisionError))
    else if PyMod(a.epoch, interval) != 0 then (table, Success(None))
    else if table.None? then (table, Failure(AttributeError))
    else
      var t := RecordSeries(table.value, a.epoch, a.passName, Series(a.targets, a.outputs));
      (Some(t), Success(Some(Plot(a.epoch, t[a.epoch], GetFilename(directory, a.epoch)))))
  }

  /** Off the interval nothing is recorded or drawn; on it, the pass's
      series lands in its slot and the whole epoch is drawn to its file. */
  lemma ScatterStepGating(directory: string, interval: int, table: PlotTable, a: Batch)
    requires interval != 0
    ensures var (t, r) := ScatterStep(directory, interval, Some(table), a);
      if a.epoch % interval != 0 then t == Some(table) && r == Success(None)
      else
        && t == Some(RecordSeries(table, a.epoch, a.passName, Series(a.targets, a.outputs)))
        && r.Success? && r.value.Some?
        && r.value.value.series[a.passName] == Series(a.targets, a.outputs)
        && r.value.value.path == GetFilename(directory, a.epoch)
  {
  }

  /** Processing the same batch twice leaves the table as processing it once. */
  lemma ScatterStepIdempotent(directory: string, interval: int, table: Option<PlotTable>, a: Batch)
    ensures var (t1, r1) := ScatterStep(directory, interval, table, a);
            ScatterStep(directory, interval, t1, a) == (t1, r1)
  {
    var (t1, r1) := ScatterStep(directory, interval, table, a);
    if interval != 0 && PyMod(a.epoch, interval) == 0 && table.Some? {
      RecordSeriesOverwrites(table.value, a.epoch, a.passName, Series(a.targets, a.outputs), Series(a.targets, a.outputs));
    }
  }

  class ScatterPlotExporter {
    const directory: string
    const epochInterval: int
    /** None until `__enter__` has created the table. */
    var plotData: Option<PlotTable>

    constructor (directory: string, epochInterval: int := 1)
      ensures this.directory == directory && this.epochInterval == epochInterval
      ensures plotData.None?
    {
      this.directory := directory;
      this.epochInterval := epochInterval;
      plotData := None;
    }

    method Enter()
      modifies this
      ensures plotData == Some(map[])
    {
      plotData := Some(map[]);
    }

    /** `__exit__` empties the table; without one it raises AttributeError. */
    method Exit() returns (r: Outcome<ExportError>)
      modifies this
      ensures old(plotData).None? ==> plotData.None? && r == Fail(AttributeError)
      ensures old(plotData).Some? ==> plotData == Some(map[]) && r == Pass
    {
      if plotData.None? {
        return Fail(AttributeError);
      }
      plotData := Some(map[]);
      r := Pass;
    }

    method Process(a: Batch) returns (r: Result<Option<Plot>, ExportError>)
      modifies this
      ensures (plotData, r) == ScatterStep(directory, epochInterval, old(plotData), a)
    {
      if epochInterval == 0 {
        return Failure(ZeroDivisionError);
      }
      if PyMod(a.epoch, epochInterval) == 0 {
        if plotData.None? {
          return Failure(AttributeError);
        }
        var table := plotData.value;
        ghost var recorded := RecordSeries(table, a.epoch, a.passName, Series(a.targets, a.outputs));
        if a.epoch !in table {
          table := table[a.epoch := map[]];
        }
        table := table[a.epoch := table[a.epoch][a.passName := Series(a.targets, a.outputs)]];
        assert table[a.epoch] == recorded[a.epoch];
        assert table == recorded;
        plotData := Some(table);
        var path := GetFilename(directory, a.epoch);
        r := Success(Some(Plot(a.epoch, table[a.epoch], path)));
      } else {
        r := Success(None);
      }
    }
  }

  // ---------------------------------------------------------------------
  // HDF5 output table

  /** One row of the output table. */
  datatype Row = Row(phase: string, epoch: int, entry: string, output: seq<real>, target: real, loss: real)

  /** The rows of one pass: one per entry, each repeating the pass name,
      the epoch and the loss. */
  function BatchRows(a: Batch): (rows: seq<Row>)
    requires WellFormed(a)
    ensures |rows| == |a.entryNames|
    ensures forall i :: 0 <= i < |rows| ==>
      rows[i].phase == a.passName && rows[i].epoch == a.epoch && rows[i].loss == a.loss
    ensures forall i :: 0 <= i < |rows| ==>
      rows[i].entry == a.entryNames[i] && rows[i].output == a.outputs[i] && rows[i].target == a.targets[i]
  {
    seq(|a.outputs|, i requires 0 <= i < |a.outputs| && WellFormed(a) =>
      Row(a.passName, a.epoch, a.entryNames[i], a.outputs[i], a.targets[i], a.loss))
  }

  /** The HDF5 exporter's `process`: the phase becomes the pass name, then
      the pass's rows are appended (AttributeError before `__enter__`). */
  function Hdf5Step(phase: Option<string>, table: Option<seq<Row>>, a: Batch)
    : (Option<string>, Option<seq<Row>>, Outcome<ExportError>)
    requires WellFormed(a)
  {
    if table.None? then (Some(a.passName), table, Fail(AttributeError))
    else (Some(a.passName), Some(table.value + BatchRows(a)), Pass)
  }

  /** Appending a pass grows the table by exactly one row per entry and
      keeps the earlier rows in front. */
  lemma Hdf5StepAppends(phase: Option<string>, rows: seq<Row>, a: Batch)
    requires WellFormed(a)
    ensures var (p, t, o) := Hdf5Step(phase, Some(rows), a);
      && p == Some(a.passName) && o == Pass && t.Some?
      && |t.value| == |rows| + |a.entryNames|
      && t.value[..|rows|] == rows
      && forall i :: |rows| <= i < |t.value| ==> t.value[i].phase == a.passName && t.value[i].epoch == a.epoch
  {
  }

  /** The key a table is stored under: a validation phase is filed under
      "training"; any other phase (or none) is kept. */
  function ExitKey(phase: Option<string>): (key: Option<string>)
    ensures key != Some("validation")
    ensures phase == Some("validation") ==> key == Some("training")
    ensures phase != Some("validation") ==> key == phase
  {
    if phase == Some("validation") then Some("training") else phase
  }

  /** What `__exit__` hands to `to_hdf`: file, key and rows. */
  datatype Written = Written(path: string, key: Option<string>, rows: seq<Row>)

  class HDF5OutputExporter {
    const directory: string
    var phase: Option<string>
    /** None until `__enter__` has created the table. */
    var table: Option<seq<Row>>

    constructor (directory: string)
      ensures this.directory == directory && phase.None? && table.None?
    {
      this.directory := directory;
      phase := None;
      table := None;
    }

    method Enter()
      modifies this
      ensures table == Some([]) && phase == old(phase)
    {
      table := Some([]);
    }

    method Process(a: Batch) returns (r: Outcome<ExportError>)
      requires WellFormed(a)
      modifies this
      ensures (phase, table, r) == Hdf5Step(old(phase), old(table), a)
    {
      phase := Some(a.passName);
      if table.None? {
        return Fail(AttributeError);
      }
      table := Some(table.value + BatchRows(a));
      r := Pass;
    }

    /** `__exit__`: maps the phase to its key, writes the table under it and
      empties the table. */
    method Exit() returns (r: Result<Written, ExportError>)
      modifies this
      ensures phase == ExitKey(old(phase))
      ensures old(table).None? ==> table.None? && r == Failure(AttributeError)
      ensures old(table).Some? ==>
        && table == Some([])
        && r == Success(Written(JoinPath(directory, "output_exporter.hdf5"), phase, old(table).value))
    {
      if phase == Some("validation") {
        phase := Some("training");
      }
      if table.None? {
        return Failure(AttributeError);
      }
      r := Success(Written(JoinPath(directory, "output_exporter.hdf5"), phase, table.value));
      table := Some([]);
    }
  }

  // ---------------------------------------------------------------------
  // Collection fan-out

  /** The state of one exporter that `process` may change. */
  datatype Snapshot =
    | Stateless
    | ScatterState(plotData: Option<PlotTable>)
    | Hdf5State(phase: Option<string>, table: Option<seq<Row>>)

  function Footprint(e: Exporter): set<object> {
    match e
    case ScatterPlot(sp) => {sp}
    case Hdf5(h) => {h}
    case _ => {}
  }

  predicate Fits(e: Exporter, s: Snapshot) {
    match e
    case ScatterPlot(_) => s.ScatterState?
    case Hdf5(_) => s.Hdf5State?
    case _ => s.Stateless?
  }

  function Snap(e: Exporter): (s: Snapshot)
    reads Footprint(e)
    ensures Fits(e, s)
  {
    match e
    case ScatterPlot(sp) => ScatterState(sp.plotData)
    case Hdf5(h) => Hdf5State(h.phase, h.table)
    case _ => Stateless
  }

  /** One exporter's `process`: its new state and whether it raised. */
  function Step(e: Exporter, s: Snapshot, a: Batch): (Snapshot, Outcome<ExportError>)
    requires WellFormed(a) && Fits(e, s)
  {
    match e
    case Base => (s, Pass)
    case BinaryClassification =>
      var report := BinaryClassificationReport(a);
      (s, if report.Failure? then Fail(report.error) else Pass)
    case ScatterPlot(sp) =>
      var (t, res) := ScatterStep(sp.directory, sp.epochInterval, s.plotData, a);
      (ScatterState(t), if res.Failure? then Fail(res.error) else Pass)
    case Hdf5(h) =>
      var (p, t, o) := Hdf5Step(s.phase, s.table, a);
      (Hdf5State(p, t), o)
  }

  /** The exporters are distinct objects. */
  predicate Distinct(es: seq<Exporter>) {
    forall i, j :: 0 <= i < j < |es| ==> Footprint(es[i]) !! Footprint(es[j])
  }

  ghost function Footprints(es: seq<Exporter>): set<object> {
    set i, o | 0 <= i < |es| && o in Footprint(es[i]) :: o
  }

  ghost function Snaps(es: seq<Exporter>): (ss: seq<Snapshot>)
    reads Footprints(es)
    ensures |ss| == |es|
    ensures forall i :: 0 <= i < |es| ==> ss[i] == Snap(es[i])
  {
    seq(|es|, i reads Footprints(es) requires 0 <= i < |es| => Snap(es[i]))
  }

  /** The position of the first exporter that raises, or the number of
      exporters when none does. */
  function FirstFailure(es: seq<Exporter>, ss: seq<Snapshot>, a: Batch): (k: nat)
    requires WellFormed(a) && |ss| == |es|
    requires forall i :: 0 <= i < |es| ==> Fits(es[i], ss[i])
    ensures k <= |es|
    ensures forall i :: 0 <= i < k ==> Step(es[i], ss[i], a).1.Pass?
    ensures k < |es| ==> Step(es[k], ss[k], a).1.Fail?
    decreases |es|
  {
    if es == [] then 0
    else if Step(es[0], ss[0], a).1.Fail? then 0
    else 1 + FirstFailure(es[1..], ss[1..], a)
  }

  /** The `process` of the `i`-th exporter, dispatched on its kind: it
      steps that exporter and leaves every other one as it was. */
  method ProcessOne(es: seq<Exporter>, i: nat, a: Batch) returns (o: Outcome<ExportError>)
    requires Distinct(es) && i < |es| && WellFormed(a)
    modifies Footprint(es[i])
    ensures (Snap(es[i]), o) == Step(es[i], old(Snap(es[i])), a)
    ensures forall j :: 0 <= j < |es| && j != i ==> Snap(es[j]) == old(Snap(es[j]))
  {
    match es[i] {
      case Base =>
        o := Pass;
      case BinaryClassification =>
        var report := ProcessBinaryClassification(a);
        o := if report.Failure? then Fail(report.error) else Pass;
      case ScatterPlot(sp) =>
        var res := sp.Process(a);
        o := if res.Failure? then Fail(res.error) else Pass;
      case Hdf5(h) =>
        o := h.Process(a);
    }
    assert forall j :: 0 <= j < |es| && j != i ==> Footprint(es[i]) !! Footprint(es[j]);
  }

  class OutputExporterCollection {
    const exporters: seq<Exporter>

    ghost predicate Valid() {
      Distinct(exporters)
    }

    ghost function Repr(): set<object> {
      Footprints(exporters)
    }

    constructor (exporters: seq<Exporter>)
      requires Distinct(exporters)
      ensures Valid() && this.exporters == exporters
    {
      this.exporters := exporters;
    }

    /** `process`: each exporter in turn, until one raises. The exporters
        before it have processed the batch, it has done what it did before
        raising, the ones after it are untouched. */
    method Process(a: Batch) returns (r: Outcome<ExportError>)
      requires Valid() && WellFormed(a)
      modifies Repr()
      ensures var ss := old(Snaps(exporters));
        var k := FirstFailure(exporters, ss, a);
        && (forall i :: 0 <= i <= k && i < |exporters| ==> Snap(exporters[i]) == Step(exporters[i], ss[i], a).0)
        && (forall i :: k < i < |exporters| ==> Snap(exporters[i]) == ss[i])
        && r == if k < |exporters| then Step(exporters[k], ss[k], a).1 else Pass
    {
      ghost var ss := Snaps(exporters);
      assert forall j :: 0 <= j < |exporters| ==> Fits(exporters[j], ss[j]);
      ghost var k := FirstFailure(exporters, ss, a);
      var i := 0;
      while i < |exporters|
        invariant i <= k
        invariant forall j :: 0 <= j < i ==> Snap(exporters[j]) == Step(exporters[j], ss[j], a).0
        invariant forall j :: i <= j < |exporters| ==> Snap(exporters[j]) == ss[j]
      {
        var o := ProcessOne(exporters, i, a);
        if o.Fail? {
          assert i == k;
          r := o;
          return;
        }
        assert i < k;
        i := i + 1;
      }
      r := Pass;
    }
  }
}
