/**
 * The orchestration of src/forecast.py: visit the capacity-factor
 * columns, skip the ones without a model, train and predict the others
 * for every quantile, and write each quantile's table twice, before and
 * after clipping. The probabilistic model itself is a parameter.
 */
module Forecasting {
  import opened Results
  import opened EnergyTypes
  import opened ForecastData

  // ---------------------------------------------------------------------
  // Clipping of the predicted capacity factors
  // ---------------------------------------------------------------------

  const ClipUpper: real := 1.02

  /** `clip(lower=0, upper=1.02)` of one value. */
  function Clip(v: real): (c: real)
    ensures 0.0 <= c <= ClipUpper
    ensures 0.0 <= v <= ClipUpper ==> c == v
    ensures v < 0.0 ==> c == 0.0
    ensures v > ClipUpper ==> c == ClipUpper
  {
    if v < 0.0 then 0.0 else if v > ClipUpper then ClipUpper else v
  }

  lemma ClipIdempotent(v: real)
    ensures Clip(Clip(v)) == Clip(v)
  {
  }

  lemma ClipMonotone(v: real, w: real)
    requires v <= w
    ensures Clip(v) <= Clip(w)
  {
  }

  /**
   * A result table: the non-numeric snapshot column, then one numeric
   * column per processed capacity-factor column.
   */
  datatype Table = Table(snapshot: seq<string>, names: seq<string>, columns: seq<seq<real>>)

  function ClipSeries(s: seq<real>): seq<real>
  {
    seq(|s|, i requires 0 <= i < |s| => Clip(s[i]))
  }

  /** Every numeric column clipped, column by column. */
  function ClipColumns(columns: seq<seq<real>>): (clipped: seq<seq<real>>)
    ensures |clipped| == |columns|
    ensures forall j :: 0 <= j < |columns| ==> clipped[j] == ClipSeries(columns[j])
  {
    if |columns| == 0 then []
    else ClipColumns(columns[..|columns| - 1]) + [ClipSeries(columns[|columns| - 1])]
  }

  /** The numeric columns (`select_dtypes(np.number)`) clipped; the snapshot column and the names are kept. */
  function ClipTable(t: Table): (c: Table)
    ensures c.snapshot == t.snapshot && c.names == t.names && |c.columns| == |t.columns|
    ensures ValuesWithin(c, 0.0, ClipUpper)
  {
    Table(t.snapshot, t.names, ClipColumns(t.columns))
  }

  /** Every numeric value of the table lies in [lo, hi]. */
  predicate ValuesWithin(t: Table, lo: real, hi: real)
  {
    forall j, i :: 0 <= j < |t.columns| && 0 <= i < |t.columns[j]| ==> lo <= t.columns[j][i] <= hi
  }

  /**
   * After clipping, the shape, the snapshot column and the names are
   * unchanged, every numeric value lies in [0, 1.02] and values that were
   * already in range keep their value.
   */
  lemma ClipTableProperties(t: Table)
    ensures ClipTable(t).snapshot == t.snapshot && ClipTable(t).names == t.names
    ensures |ClipTable(t).columns| == |t.columns|
    ensures forall j :: 0 <= j < |t.columns| ==> |ClipTable(t).columns[j]| == |t.columns[j]|
    ensures ValuesWithin(ClipTable(t), 0.0, ClipUpper)
    ensures forall j, i :: 0 <= j < |t.columns| && 0 <= i < |t.columns[j]| && 0.0 <= t.columns[j][i] <= ClipUpper ==>
      ClipTable(t).columns[j][i] == t.columns[j][i]
  {
  }

  /** Clipping twice is clipping once, and a table already in range is left as it is. */
  lemma ClipTableIdempotent(t: Table)
    ensures ClipTable(ClipTable(t)) == ClipTable(t)
    ensures ValuesWithin(t, 0.0, ClipUpper) ==> ClipTable(t) == t
  {
    var c := ClipTable(t);
    forall j | 0 <= j < |t.columns| ensures ClipSeries(c.columns[j]) == c.columns[j] {
      assert forall i :: 0 <= i < |c.columns[j]| ==> Clip(c.columns[j][i]) == c.columns[j][i];
    }
    if ValuesWithin(t, 0.0, ClipUpper) {
      forall j | 0 <= j < |t.columns| ensures ClipSeries(t.columns[j]) == t.columns[j] {
      }
    }
  }

  /** A result frame that `_clip_and_save` clips in place. */
  class Frame {
    var snapshot: seq<string>
    var names: seq<string>
    var columns: seq<seq<real>>

    function Contents(): Table
      reads this
    {
      Table(snapshot, names, columns)
    }

    constructor (t: Table)
      ensures Contents() == t
    {
      snapshot, names, columns := t.snapshot, t.names, t.columns;
    }

    /** `result[cols_num] = result[cols_num].clip(lower=0, upper=1.02)`. */
    method ClipNumeric()
      modifies this
      ensures Contents() == ClipTable(old(Contents()))
    {
      columns := ClipTable(Contents()).columns;
    }
  }

  // ---------------------------------------------------------------------
  // Output file names
  // ---------------------------------------------------------------------

  /** `int(x)`: truncation toward zero. */
  function Trunc(x: real): (n: int)
    ensures x >= 0.0 ==> n as real <= x < n as real + 1.0
    ensures x < 0.0 ==> n as real - 1.0 < x <= n as real
  {
    if x >= 0.0 then x.Floor else -((-x).Floor)
  }

  /** `int(q * 100)`: the quantile as a whole percent. */
  function Percent(q: real): int
  {
    Trunc(q * 100.0)
  }

  function Digit(d: nat): (c: char)
    requires d < 10
    ensures '0' <= c <= '9'
  {
    "0123456789"[d]
  }

  /** The decimal digits of `n`, without leading zeros. */
  function NatToString(n: nat): (s: string)
    ensures |s| > 0 && (n >= 10 ==> |s| >= 2)
    ensures forall i :: 0 <= i < |s| ==> '0' <= s[i] <= '9'
  {
    if n < 10 then [Digit(n)] else NatToString(n / 10) + [Digit(n % 10)]
  }

  /** `str(i)` of an integer. */
  function IntToString(i: int): (s: string)
    ensures |s| > 0 && '0' <= s[|s| - 1] <= '9'
  {
    if i < 0 then "-" + NatToString(-i) else NatToString(i)
  }

  lemma DigitInjective(a: nat, b: nat)
    requires a < 10 && b < 10 && Digit(a) == Digit(b)
    ensures a == b
  {
  }

  lemma {:induction false} NatToStringInjective(a: nat, b: nat)
    requires NatToString(a) == NatToString(b)
    ensures a == b
  {
    var s := NatToString(a);
    if a < 10 && b < 10 {
      DigitInjective(a, b);
    } else if a >= 10 && b >= 10 {
      assert NatToString(a / 10) == s[..|s| - 1] == NatToString(b / 10);
      NatToStringInjective(a / 10, b / 10);
      DigitInjective(a % 10, b % 10);
    }
  }

  /** `str(i)` starts with '-' exactly for negative `i`. */
  lemma IntToStringSign(i: int)
    ensures IntToString(i)[0] == '-' <==> i < 0
  {
    if i >= 0 {
      assert IntToString(i)[0] == NatToString(i)[0];
    }
  }

  lemma IntToStringInjective(a: int, b: int)
    requires IntToString(a) == IntToString(b)
    ensures a == b
  {
    IntToStringSign(a);
    IntToStringSign(b);
    if a < 0 {
      assert NatToString(-a) == IntToString(a)[1..];
      assert NatToString(-b) == IntToString(b)[1..];
      NatToStringInjective(-a, -b);
    } else {
      NatToStringInjective(a, b);
    }
  }

  const FilePrefix := "capfacts_pred_q"

  /** The file of the unclipped predictions of quantile `q`. */
  function UnclippedFileName(q: real): (name: string)
    ensures |name| > |FilePrefix| + 4
    ensures name[..|FilePrefix|] == FilePrefix && name[|name| - 4..] == ".csv"
    ensures name[|FilePrefix|..|name| - 4] == IntToString(Percent(q))
  {
    FilePrefix + IntToString(Percent(q)) + ".csv"
  }

  /** The file of the clipped predictions of quantile `q`. */
  function ClippedFileName(q: real): (name: string)
    ensures |name| > |FilePrefix| + 12
    ensures name[..|FilePrefix|] == FilePrefix && name[|name| - 12..] == "_clipped.csv"
    ensures name[|FilePrefix|..|name| - 12] == IntToString(Percent(q))
  {
    FilePrefix + IntToString(Percent(q)) + "_clipped.csv"
  }

  /**
   * Two quantiles share a file exactly when they have the same whole
   * percent, and an unclipped file never has the name of a clipped one.
   */
  lemma FileNames(q1: real, q2: real)
    ensures UnclippedFileName(q1) == UnclippedFileName(q2) <==> Percent(q1) == Percent(q2)
    ensures ClippedFileName(q1) == ClippedFileName(q2) <==> Percent(q1) == Percent(q2)
    ensures UnclippedFileName(q1) != ClippedFileName(q2)
  {
    var s1, s2 := IntToString(Percent(q1)), IntToString(Percent(q2));
    if UnclippedFileName(q1) == UnclippedFileName(q2) {
      assert s1 == UnclippedFileName(q1)[|FilePrefix|..|UnclippedFileName(q1)| - 4];
      assert s2 == UnclippedFileName(q2)[|FilePrefix|..|UnclippedFileName(q2)| - 4];
      IntToStringInjective(Percent(q1), Percent(q2));
    }
    if ClippedFileName(q1) == ClippedFileName(q2) {
      assert s1 == ClippedFileName(q1)[|FilePrefix|..|ClippedFileName(q1)| - 12];
      assert s2 == ClippedFileName(q2)[|FilePrefix|..|ClippedFileName(q2)| - 12];
      IntToStringInjective(Percent(q1), Percent(q2));
    }
    var u, c := UnclippedFileName(q1), ClippedFileName(q2);
    assert u[|u| - 5] == s1[|s1| - 1];
    assert c[|c| - 5] == 'd';
  }

  /** The decimal forms used by the examples below. */
  lemma ExamplePercents()
    ensures IntToString(50) == "50" && IntToString(5) == "5"
  {
    assert NatToString(50) == NatToString(5) + [Digit(0)];
  }

  /** The literal file names of the examples below, spelled out by parts. */
  lemma ExampleFileNames()
    ensures FilePrefix + "50" + ".csv" == "capfacts_pred_q50.csv"
    ensures FilePrefix + "5" + "_clipped.csv" == "capfacts_pred_q5_clipped.csv"
  {
  }

  /** Examples: the median writes "capfacts_pred_q50.csv"; 0.401 and 0.405 write the same file. */
  lemma FileNameExamples()
    ensures UnclippedFileName(0.5) == "capfacts_pred_q50.csv"
    ensures ClippedFileName(0.05) == "capfacts_pred_q5_clipped.csv"
    ensures UnclippedFileName(0.401) == UnclippedFileName(0.405)
  {
    assert Percent(0.5) == 50;
    assert Percent(0.05) == 5;
    assert Percent(0.401) == 40 == Percent(0.405);
    ExamplePercents();
    ExampleFileNames();
  }

  // ---------------------------------------------------------------------
  // _calculate_scores: which scores are reported
  // ---------------------------------------------------------------------

  /**
   * The keys of the `scores` dict, in insertion order; `qText` is `str(q)`.
   */
  function ScoreKeys(q: real, qText: string, hasDist: bool, clipped: bool): (keys: seq<string>)
    ensures 1 <= |keys| <= 3
    ensures clipped ==> forall i :: 0 <= i < |keys| ==> |keys[i]| > 8 && keys[i][|keys[i]| - 8..] == " clipped"
  {
    var suffix := if clipped then " clipped" else "";
    (if q == 0.5 then ["RMSE" + suffix, "MAE" + suffix] else ["PL " + qText + suffix])
      + (if !clipped && hasDist then ["NLL"] else [])
  }

  /**
   * The median gets RMSE and MAE, every other quantile its pinball loss,
   * and NLL is reported only for unclipped predictions with a distribution.
   */
  lemma ScoreKeyMembership(q: real, qText: string, hasDist: bool, clipped: bool)
    ensures var keys := ScoreKeys(q, qText, hasDist, clipped);
      && ("RMSE" in keys <==> q == 0.5 && !clipped)
      && ("MAE" in keys <==> q == 0.5 && !clipped)
      && ("RMSE clipped" in keys <==> q == 0.5 && clipped)
      && ("NLL" in keys <==> hasDist && !clipped)
      && |keys| == (if q == 0.5 then 2 else 1) + (if hasDist && !clipped then 1 else 0)
  {
    var keys := ScoreKeys(q, qText, hasDist, clipped);
    var pl := "PL " + qText + (if clipped then " clipped" else "");
    assert pl[0] == 'P';
    assert "RMSE" != pl && "MAE" != pl && "NLL" != pl && "RMSE clipped" != pl;
    assert "RMSE" != "RMSE clipped" && "MAE" != "MAE clipped" && "RMSE" != "MAE clipped";
    assert "RMSE clipped" != "MAE" && "RMSE clipped" != "NLL" && "NLL" != "MAE clipped";
    assert "RMSE" + " clipped" == "RMSE clipped" && "MAE" + " clipped" == "MAE clipped";
    assert "RMSE" + "" == "RMSE" && "MAE" + "" == "MAE";
    if q == 0.5 {
      if clipped {
        assert keys == ["RMSE clipped", "MAE clipped"];
      } else {
        assert keys == ["RMSE", "MAE"] + (if hasDist then ["NLL"] else []);
      }
    } else {
      assert keys == [pl] + (if !clipped && hasDist then ["NLL"] else []);
    }
  }

  /** The pinball key of a quantile other than the median names its quantile. */
  lemma PinballKeyNamesQuantile(q: real, qText: string, hasDist: bool)
    requires q != 0.5
    ensures ScoreKeys(q, qText, hasDist, false)[0] == "PL " + qText
    ensures ScoreKeys(q, qText, hasDist, true) == ["PL " + qText + " clipped"]
  {
  }

  /**
   * The clipped keys are the unclipped keys without NLL, each with the
   * suffix " clipped"; within one call the keys are distinct.
   */
  lemma ScoreKeysClippedVariant(q: real, qText: string, hasDist: bool)
    ensures var plain := ScoreKeys(q, qText, false, false);
            var clipped := ScoreKeys(q, qText, hasDist, true);
      && |clipped| == |plain|
      && forall i :: 0 <= i < |plain| ==> clipped[i] == plain[i] + " clipped"
    ensures forall c: bool, i, j ::
      0 <= i < j < |ScoreKeys(q, qText, hasDist, c)| ==> ScoreKeys(q, qText, hasDist, c)[i] != ScoreKeys(q, qText, hasDist, c)[j]
  {
    var pl := "PL " + qText;
    assert pl[0] == 'P' && (pl + " clipped")[0] == 'P';
    assert "NLL" != pl && "NLL" != pl + " clipped";
    assert "RMSE" != "MAE" && "RMSE clipped" != "MAE clipped" && "RMSE" != "NLL" && "MAE" != "NLL";
  }



  // ---------------------------------------------------------------------
  // The column pass of forecast_regression / forecast_regression_grid_search
  // ---------------------------------------------------------------------

  /**
   * The fitted model's predictive distribution, opaque: the value of
   * `Y_dists.ppf(q)` at row `i` for the model trained on column `col`.
   */
  type Ppf = (string, real, nat) -> real

  /** A column is skipped iff it parses with type NOT_DEFINED or ROR; an unparsable name is not skipped. */
  predicate Skipped(parsed: Option<ParsedColumn>): (skip: bool)
    ensures skip ==> parsed.Some?
    ensures parsed.Some? && parsed.value.energyType in {Onwind, Solar, OffwindAc, OffwindDc} ==> !skip
  {
    parsed.Some? && (parsed.value.energyType == NotDefined || parsed.value.energyType == Ror)
  }

  /** Two prediction tables keyed by the same quantiles. */
  predicate SameKeys(a: map<real, seq<Series>>, b: map<real, seq<Series>>)
  {
    a.Keys == b.Keys
  }

  /** A processed column and the number of rows its model predicts. */
  datatype Trained = Trained(name: string, rows: nat)

  /**
   * Training one column: its training data, the stacked feature matrix,
   * and the sample-count check of `train_test_split`.
   */
  function TrainColumn(data: ForecastInputs, featureSet: FeatureSet, col: string): (r: Result<nat, DataError>)
    requires data.era5.WellFormed()
    ensures TrainingDataOf(data, featureSet, col).Err? ==> r == Err(TrainingDataOf(data, featureSet, col).error)
    ensures r.Ok? ==> TrainingDataOf(data, featureSet, col).Ok? && r.value == |TrainingDataOf(data, featureSet, col).value.y|
  {
    match TrainingDataOf(data, featureSet, col)
    case Err(e) => Err(e)
    case Ok(td) =>
      match ShapeMultiFeatureData(td.x)
      case Err(e) => Err(e)
      case Ok(xPred) => if |xPred| != |td.y| then Err(InconsistentSamples) else Ok(|xPred|)
  }

  /** The columns visited in order: skipped ones are passed over, the first failing one aborts. */
  function ColumnPass(data: ForecastInputs, featureSet: FeatureSet, cols: seq<string>): (r: Result<seq<Trained>, DataError>)
    requires data.era5.WellFormed()
    ensures r.Ok? ==> |r.value| <= |cols|
  {
    if |cols| == 0 then Ok([])
    else
      var col := cols[|cols| - 1];
      match ColumnPass(data, featureSet, cols[..|cols| - 1])
      case Err(e) => Err(e)
      case Ok(done) =>
        if Skipped(ParseCapfacCol(col)) then Ok(done)
        else
          match TrainColumn(data, featureSet, col)
          case Err(e) => Err(e)
          case Ok(n) => Ok(done + [Trained(col, n)])
  }

  /** The column names that are not skipped, in order. */
  function Unskipped(cols: seq<string>): (names: seq<string>)
    ensures |names| <= |cols|
  {
    if |cols| == 0 then []
    else
      Unskipped(cols[..|cols| - 1])
        + (if Skipped(ParseCapfacCol(cols[|cols| - 1])) then [] else [cols[|cols| - 1]])
  }

  function TrainedNames(trained: seq<Trained>): seq<string>
  {
    seq(|trained|, j requires 0 <= j < |trained| => trained[j].name)
  }

  /** Column `col` does not stop the pass: it is skipped, or its model trains. */
  predicate Passes(data: ForecastInputs, featureSet: FeatureSet, col: string)
    requires data.era5.WellFormed()
  {
    Skipped(ParseCapfacCol(col)) || TrainColumn(data, featureSet, col).Ok?
  }

  /** Visiting column `c` after a successful pass over the columns before it. */
  lemma ColumnPassAt(data: ForecastInputs, featureSet: FeatureSet, cols: seq<string>, c: nat)
    requires data.era5.WellFormed() && c < |cols| && ColumnPass(data, featureSet, cols[..c]).Ok?
    ensures var done := ColumnPass(data, featureSet, cols[..c]).value;
      ColumnPass(data, featureSet, cols[..c + 1])
        == if Skipped(ParseCapfacCol(cols[c])) then Ok(done)
           else match TrainColumn(data, featureSet, cols[c])
                case Err(e) => Err(e)
                case Ok(n) => Ok(done + [Trained(cols[c], n)])
  {
    var prefix := cols[..c + 1];
    assert prefix[..c] == cols[..c];
    assert prefix[c] == cols[c];
  }

  /** One more column: the pass succeeds iff it succeeded so far and the new column passes. */
  lemma ColumnPassStep(data: ForecastInputs, featureSet: FeatureSet, cols: seq<string>)
    requires data.era5.WellFormed() && |cols| > 0
    ensures ColumnPass(data, featureSet, cols).Ok? <==>
      ColumnPass(data, featureSet, cols[..|cols| - 1]).Ok? && Passes(data, featureSet, cols[|cols| - 1])
  {
  }

  /** The pass succeeds iff every column is skipped or trains. */
  lemma {:induction false} ColumnPassSucceeds(data: ForecastInputs, featureSet: FeatureSet, cols: seq<string>)
    requires data.era5.WellFormed()
    ensures ColumnPass(data, featureSet, cols).Ok? <==> forall i :: 0 <= i < |cols| ==> Passes(data, featureSet, cols[i])
  {
    if |cols| > 0 {
      var init := cols[..|cols| - 1];
      ColumnPassSucceeds(data, featureSet, init);
      ColumnPassStep(data, featureSet, cols);
      if ColumnPass(data, featureSet, cols).Ok? {
        forall i | 0 <= i < |cols| ensures Passes(data, featureSet, cols[i]) {
          if i < |init| {
            assert init[i] == cols[i];
          }
        }
      }
      if forall i :: 0 <= i < |cols| ==> Passes(data, featureSet, cols[i]) {
        forall i | 0 <= i < |init| ensures Passes(data, featureSet, init[i]) {
          assert init[i] == cols[i];
        }
      }
    }
  }

  /** When the pass succeeds, the processed columns are exactly the unskipped ones, in visit order. */
  lemma {:induction false} ColumnPassProcessesUnskipped(data: ForecastInputs, featureSet: FeatureSet, cols: seq<string>)
    requires data.era5.WellFormed()
    ensures ColumnPass(data, featureSet, cols).Ok? ==> TrainedNames(ColumnPass(data, featureSet, cols).value) == Unskipped(cols)
  {
    if |cols| > 0 {
      var init := cols[..|cols| - 1];
      ColumnPassProcessesUnskipped(data, featureSet, init);
      var last := cols[|cols| - 1];
      var pass := ColumnPass(data, featureSet, cols);
      if pass.Ok? {
        var done := ColumnPass(data, featureSet, init).value;
        if !Skipped(ParseCapfacCol(last)) {
          assert TrainedNames(done + [Trained(last, TrainColumn(data, featureSet, last).value)])
              == TrainedNames(done) + [last];
        }
      }
    }
  }

  /** Every unskipped name is one of the columns. */
  lemma {:induction false} UnskippedIn(cols: seq<string>)
    ensures forall k :: 0 <= k < |Unskipped(cols)| ==> Unskipped(cols)[k] in cols
  {
    if |cols| > 0 {
      var init := cols[..|cols| - 1];
      UnskippedIn(init);
      forall k | 0 <= k < |Unskipped(cols)| ensures Unskipped(cols)[k] in cols {
        if k < |Unskipped(init)| {
          assert Unskipped(cols)[k] == Unskipped(init)[k];
          var i :| 0 <= i < |init| && init[i] == Unskipped(init)[k];
          assert cols[i] == init[i];
        }
      }
    }
  }

  /** A successful pass trains exactly one entry per unskipped column, each named after a visited column. */
  lemma ColumnPassNames(data: ForecastInputs, featureSet: FeatureSet, cols: seq<string>)
    requires data.era5.WellFormed()
    ensures var r := ColumnPass(data, featureSet, cols);
      r.Ok? ==> |r.value| == |Unskipped(cols)| && forall j :: 0 <= j < |r.value| ==> r.value[j].name in cols
  {
    var r := ColumnPass(data, featureSet, cols);
    if r.Ok? {
      ColumnPassProcessesUnskipped(data, featureSet, cols);
      UnskippedIn(cols);
      assert |TrainedNames(r.value)| == |r.value|;
      forall j | 0 <= j < |r.value| ensures r.value[j].name in cols {
        assert TrainedNames(r.value)[j] == r.value[j].name;
      }
    }
  }

  /** A failing pass reports the error of the first unskipped column that fails to train. */
  lemma {:induction false} ColumnPassFirstError(data: ForecastInputs, featureSet: FeatureSet, cols: seq<string>)
    requires data.era5.WellFormed()
    requires ColumnPass(data, featureSet, cols).Err?
    ensures exists i :: (
      && 0 <= i < |cols|
      && !Skipped(ParseCapfacCol(cols[i]))
      && TrainColumn(data, featureSet, cols[i]) == Err(ColumnPass(data, featureSet, cols).error)
      && forall j :: 0 <= j < i ==> Passes(data, featureSet, cols[j]))
  {
    var init := cols[..|cols| - 1];
    assert forall i :: 0 <= i < |init| ==> init[i] == cols[i];
    if ColumnPass(data, featureSet, init).Err? {
      ColumnPassFirstError(data, featureSet, init);
      var i :| 0 <= i < |init|
        && !Skipped(ParseCapfacCol(init[i]))
        && TrainColumn(data, featureSet, init[i]) == Err(ColumnPass(data, featureSet, init).error)
        && forall j :: 0 <= j < i ==> Passes(data, featureSet, init[j]);
      assert cols[i] == init[i];
    } else {
      ColumnPassSucceeds(data, featureSet, init);
      assert forall j :: 0 <= j < |init| ==> Passes(data, featureSet, cols[j]);
    }
  }

  /**
   * A trained column predicts one value per snapshot row, which is also
   * one per timestep of the regional dataset.
   */
  lemma TrainColumnRows(data: ForecastInputs, featureSet: FeatureSet, col: string)
    requires data.era5.WellFormed() && data.capfacts.WellFormed()
    requires col in data.capfacts.columns[1..]
    requires TrainColumn(data, featureSet, col).Ok?
    ensures TrainColumn(data, featureSet, col).value == |data.capfacts.snapshot| == data.era5.nTime
  {
    var td := TrainingDataOf(data, featureSet, col).value;
    var i :| 0 <= i < |data.capfacts.columns[1..]| && data.capfacts.columns[1..][i] == col;
    assert data.capfacts.columns[i + 1] == col;
    DedupEmpty(featureSet[ParseCapfacCol(col).value.energyType]);
    assert |td.x.values[0]| == data.era5.nTime;
  }

  /** A malformed name is not skipped: it reaches the training step, which fails. */
  lemma MalformedColumnNotSkipped(data: ForecastInputs, featureSet: FeatureSet, col: string)
    requires data.era5.WellFormed()
    requires ParseCapfacCol(col).None?
    ensures !Skipped(ParseCapfacCol(col))
    ensures TrainColumn(data, featureSet, col) == Err(MalformedColumn)
  {
    TrainingDataErrors(data, featureSet, col);
  }

  /** The ONWIND member's own value "onwind-dc" decodes to NOT_DEFINED, so every column with that suffix is skipped. */
  lemma OnwindValueColumnSkipped(regionName: string, index: string)
    requires ' ' !in regionName && ' ' !in index
    ensures Skipped(ParseCapfacCol(FormatColumn(regionName, index, "onwind-dc")))
  {
    assert ' ' !in "onwind-dc";
    ParseFormatted(regionName, index, "onwind-dc");
    DecodeIsExact();
  }

  /** Run-of-river columns are skipped. */
  lemma RorColumnSkipped(regionName: string, index: string)
    requires ' ' !in regionName && ' ' !in index
    ensures Skipped(ParseCapfacCol(FormatColumn(regionName, index, "ror")))
  {
    ParseFormatted(regionName, index, "ror");
  }

  /** Wind, solar and offshore columns are processed. */
  lemma ModelledColumnNotSkipped(regionName: string, index: string, suffix: string)
    requires ' ' !in regionName && ' ' !in index && ' ' !in suffix
    requires suffix in ["onwind", "solar", "offwind-ac", "offwind-dc"]
    ensures !Skipped(ParseCapfacCol(FormatColumn(regionName, index, suffix)))
  {
    ParseFormatted(regionName, index, suffix);
  }

  /** Once a prefix of the columns fails, the pass fails with that error. */
  lemma {:induction false} ColumnPassPrefixError(data: ForecastInputs, featureSet: FeatureSet, cols: seq<string>, n: nat)
    requires data.era5.WellFormed()
    requires n <= |cols| && ColumnPass(data, featureSet, cols[..n]).Err?
    ensures ColumnPass(data, featureSet, cols) == ColumnPass(data, featureSet, cols[..n])
  {
    if n < |cols| {
      var init := cols[..|cols| - 1];
      assert init[..n] == cols[..n];
      ColumnPassPrefixError(data, featureSet, init, n);
    } else {
      assert cols[..n] == cols;
    }
  }

  // ---------------------------------------------------------------------
  // Per-quantile tables and the files written
  // ---------------------------------------------------------------------

  /** A named prediction series, `new_columns[q][col_name]`. */
  datatype Series = Series(name: string, values: seq<real>)

  /** `Y_dists.ppf(q)` for a column with `n` rows. */
  function Predict(ppf: Ppf, col: string, q: real, n: nat): seq<real>
  {
    seq(n, i requires 0 <= i < n => ppf(col, q, i))
  }

  /** The prediction series of quantile `q`, one per processed column, in visit order. */
  function Predictions(trained: seq<Trained>, ppf: Ppf, q: real): seq<Series>
  {
    seq(|trained|, j requires 0 <= j < |trained| => Series(trained[j].name, Predict(ppf, trained[j].name, q, trained[j].rows)))
  }

  /** `pd.concat([results[q], new_columns[q]], axis=1)`: the snapshot column followed by the series. */
  function QuantileTable(snapshot: seq<string>, series: seq<Series>): Table
  {
    Table(snapshot, seq(|series|, j requires 0 <= j < |series| => series[j].name),
                    seq(|series|, j requires 0 <= j < |series| => series[j].values))
  }

  /** The table of quantile `q`. */
  function TableOf(snapshot: seq<string>, trained: seq<Trained>, ppf: Ppf, q: real): Table
  {
    QuantileTable(snapshot, Predictions(trained, ppf, q))
  }

  /** A file written by `to_csv`. */
  datatype SavedFile = SavedFile(name: string, table: Table)

  /** The two files of one quantile: the table as predicted, then clipped. */
  function QuantileFiles(q: real, t: Table): seq<SavedFile>
  {
    [SavedFile(UnclippedFileName(q), t), SavedFile(ClippedFileName(q), ClipTable(t))]
  }

  /** The files of all quantiles, in quantile order. */
  function SavedFiles(quantiles: seq<real>, snapshot: seq<string>, trained: seq<Trained>, ppf: Ppf): seq<SavedFile>
  {
    if |quantiles| == 0 then []
    else
      var q := quantiles[|quantiles| - 1];
      SavedFiles(quantiles[..|quantiles| - 1], snapshot, trained, ppf)
        + QuantileFiles(q, TableOf(snapshot, trained, ppf, q))
  }

  /** Concatenation is associative; stated over an abstract element type so that no element is compared. */
  lemma AppendAssoc<T>(a: seq<T>, b: seq<T>, c: seq<T>)
    ensures (a + b) + c == a + (b + c)
  {
  }

  /** Indexing into a concatenation; stated over an abstract element type so that no element is compared. */
  lemma AppendIndex<T>(a: seq<T>, b: seq<T>, i: nat)
    requires i < |a| + |b|
    ensures (a + b)[i] == if i < |a| then a[i] else b[i - |a|]
  {
  }

  /** One more quantile appends its two files. */
  lemma SavedFilesSnoc(quantiles: seq<real>, k: nat, snapshot: seq<string>, trained: seq<Trained>, ppf: Ppf)
    requires k < |quantiles|
    ensures SavedFiles(quantiles[..k + 1], snapshot, trained, ppf)
         == SavedFiles(quantiles[..k], snapshot, trained, ppf)
            + QuantileFiles(quantiles[k], TableOf(snapshot, trained, ppf, quantiles[k]))
  {
    assert quantiles[..k + 1][..k] == quantiles[..k];
  }

  /** Two files per quantile. */
  lemma {:induction false} SavedFilesLength(quantiles: seq<real>, snapshot: seq<string>, trained: seq<Trained>, ppf: Ppf)
    ensures |SavedFiles(quantiles, snapshot, trained, ppf)| == 2 * |quantiles|
  {
    if |quantiles| > 0 {
      SavedFilesLength(quantiles[..|quantiles| - 1], snapshot, trained, ppf);
    }
  }

  /**
   * Quantile k writes files 2k and 2k+1: its unclipped table, then the
   * same table clipped.
   */
  lemma {:induction false} SavedFilesLayout(quantiles: seq<real>, snapshot: seq<string>, trained: seq<Trained>, ppf: Ppf, k: nat)
    requires k < |quantiles|
    ensures 2 * k + 1 < |SavedFiles(quantiles, snapshot, trained, ppf)|
    ensures SavedFiles(quantiles, snapshot, trained, ppf)[2 * k]
         == SavedFile(UnclippedFileName(quantiles[k]), TableOf(snapshot, trained, ppf, quantiles[k]))
    ensures SavedFiles(quantiles, snapshot, trained, ppf)[2 * k + 1]
         == SavedFile(ClippedFileName(quantiles[k]), ClipTable(TableOf(snapshot, trained, ppf, quantiles[k])))
  {
    var init := quantiles[..|quantiles| - 1];
    var last := quantiles[|quantiles| - 1];
    var before := SavedFiles(init, snapshot, trained, ppf);
    var files := SavedFiles(quantiles, snapshot, trained, ppf);
    SavedFilesLength(init, snapshot, trained, ppf);
    SavedFilesLength(quantiles, snapshot, trained, ppf);
    var lastFiles := QuantileFiles(last, TableOf(snapshot, trained, ppf, last));
    assert files == before + lastFiles;
    if k < |init| {
      SavedFilesLayout(init, snapshot, trained, ppf, k);
      assert init[k] == quantiles[k];
      AppendIndex(before, lastFiles, 2 * k);
      AppendIndex(before, lastFiles, 2 * k + 1);
    } else {
      assert last == quantiles[k];
      assert 2 * k == |before|;
      AppendIndex(before, lastFiles, 2 * k);
      AppendIndex(before, lastFiles, 2 * k + 1);
    }
  }

  /**
   * Each quantile's table holds the snapshot column and one column per
   * processed column, named after it and holding its prediction, in visit
   * order; when every model predicts one value per snapshot row, all
   * columns line up with the snapshot rows.
   */
  lemma QuantileTableShape(snapshot: seq<string>, trained: seq<Trained>, ppf: Ppf, q: real)
    ensures var t := TableOf(snapshot, trained, ppf, q);
      && t.snapshot == snapshot
      && t.names == TrainedNames(trained)
      && |t.columns| == |trained|
      && (forall j :: 0 <= j < |trained| ==> t.columns[j] == Predict(ppf, trained[j].name, q, trained[j].rows))
      && ((forall j :: 0 <= j < |trained| ==> trained[j].rows == |snapshot|) ==>
            forall j :: 0 <= j < |t.columns| ==> |t.columns[j]| == |snapshot|)
  {
  }

  // ---------------------------------------------------------------------
  // The Forecast class
  // ---------------------------------------------------------------------

  class Forecast {
    const data: ForecastInputs
    const quantiles: seq<real>
    /** The files written so far, in order. */
    var saved: seq<SavedFile>

    /** `Forecast(_quantiles)`: the given quantiles, or the configured defaults when none are given. */
    constructor (data: ForecastInputs, givenQuantiles: Option<seq<real>>, defaultQuantiles: seq<real>)
      ensures this.data == data
      ensures givenQuantiles.None? ==> quantiles == defaultQuantiles
      ensures givenQuantiles.Some? ==> quantiles == givenQuantiles.value
      ensures saved == []
    {
      this.data := data;
      if givenQuantiles.None? {
        quantiles := defaultQuantiles;
      } else {
        quantiles := givenQuantiles.value;
      }
      saved := [];
    }

    /** `_clip_and_save`: write the table, clip its numeric columns in place, write it again. */
    method ClipAndSave(result: Frame, q: real)
      modifies this, result
      ensures saved == old(saved) + QuantileFiles(q, old(result.Contents()))
      ensures result.Contents() == ClipTable(old(result.Contents()))
    {
      saved := saved + [SavedFile(UnclippedFileName(q), result.Contents())];
      result.ClipNumeric();
      saved := saved + [SavedFile(ClippedFileName(q), result.Contents())];
    }

    /** Every quantile's entry holds exactly the predictions of the trained columns, in order. */
    predicate Recorded(columns: map<real, seq<Series>>, trained: seq<Trained>, ppf: Ppf)
    {
      forall i :: 0 <= i < |quantiles| ==>
        quantiles[i] in columns && columns[quantiles[i]] == Predictions(trained, ppf, quantiles[i])
    }

    /** `new_columns[q][col_name] = pd.Series(Y_pred)` for every quantile. */
    method AddPredictions(newColumns: map<real, seq<Series>>, trained: seq<Trained>, t: Trained, ppf: Ppf)
      returns (updated: map<real, seq<Series>>)
      requires Distinct(quantiles)
      requires forall i :: 0 <= i < |quantiles| ==>
        quantiles[i] in newColumns && newColumns[quantiles[i]] == Predictions(trained, ppf, quantiles[i])
      ensures forall i :: 0 <= i < |quantiles| ==>
        quantiles[i] in updated && updated[quantiles[i]] == Predictions(trained + [t], ppf, quantiles[i])
      ensures updated.Keys == newColumns.Keys
    {
      updated := newColumns;
      var k := 0;
      while k < |quantiles|
        invariant 0 <= k <= |quantiles|
        invariant updated.Keys == newColumns.Keys
        invariant forall i :: 0 <= i < |quantiles| ==> quantiles[i] in updated
        invariant forall i :: 0 <= i < k ==> updated[quantiles[i]] == Predictions(trained + [t], ppf, quantiles[i])
        invariant forall i :: k <= i < |quantiles| ==> updated[quantiles[i]] == Predictions(trained, ppf, quantiles[i])
      {
        var q := quantiles[k];
        assert Predictions(trained + [t], ppf, q)
            == Predictions(trained, ppf, q) + [Series(t.name, Predict(ppf, t.name, q, t.rows))];
        updated := updated[q := updated[q] + [Series(t.name, Predict(ppf, t.name, q, t.rows))]];
        k := k + 1;
      }
    }

    /**
     * The body shared by both regression entry points: visit every
     * capacity-factor column after the snapshot column, predict every
     * quantile for the unskipped ones, then clip and save one table per
     * quantile. The first failing column aborts before any file is written.
     */
    method ForecastColumns(featureSet: FeatureSet, ppf: Ppf) returns (outcome: Result<seq<Trained>, DataError>)
      requires data.era5.WellFormed() && data.capfacts.WellFormed()
      requires Distinct(quantiles)
      modifies this
      ensures outcome == ColumnPass(data, featureSet, data.capfacts.columns[1..])
      ensures outcome.Err? ==> saved == old(saved)
      ensures outcome.Ok? ==> saved == old(saved) + SavedFiles(quantiles, data.capfacts.snapshot, outcome.value, ppf)
    {
      var newColumns := EmptyColumns();
      var trainedColumns := TrainColumns(featureSet, ppf, newColumns);
      if trainedColumns.Err? {
        return Err(trainedColumns.error);
      }
      var (trained, predicted) := trainedColumns.value;
      SaveAll(predicted, trained, ppf);
      outcome := Ok(trained);
    }

    /** `new_columns[q] = {}` for every quantile. */
    method EmptyColumns() returns (newColumns: map<real, seq<Series>>)
      ensures newColumns.Keys == set q | q in quantiles
      ensures forall i :: 0 <= i < |quantiles| ==> quantiles[i] in newColumns && newColumns[quantiles[i]] == []
    {
      newColumns := map[];
      var k := 0;
      while k < |quantiles|
        invariant 0 <= k <= |quantiles|
        invariant newColumns.Keys == set q | q in quantiles[..k]
        invariant forall i :: 0 <= i < k ==> quantiles[i] in newColumns && newColumns[quantiles[i]] == []
      {
        assert quantiles[..k + 1] == quantiles[..k] + [quantiles[k]];
        newColumns := newColumns[quantiles[k] := []];
        k := k + 1;
      }
      assert quantiles[..k] == quantiles;
    }

    /**
     * The column loop of the regression: visit every capacity-factor column
     * after the snapshot column, skip the NOT_DEFINED and ROR ones, train
     * the others and add their predictions under every quantile. The first
     * column that fails to train aborts the loop.
     */
    method TrainColumns(featureSet: FeatureSet, ppf: Ppf, newColumns: map<real, seq<Series>>)
      returns (outcome: Result<(seq<Trained>, map<real, seq<Series>>), DataError>)
      requires data.era5.WellFormed() && |data.capfacts.columns| > 0
      requires Distinct(quantiles)
      requires forall i :: 0 <= i < |quantiles| ==> quantiles[i] in newColumns && newColumns[quantiles[i]] == []
      ensures outcome.Err? ==> ColumnPass(data, featureSet, data.capfacts.columns[1..]) == Err(outcome.error)
      ensures outcome.Ok? ==> ColumnPass(data, featureSet, data.capfacts.columns[1..]) == Ok(outcome.value.0)
      ensures outcome.Ok? ==> Recorded(outcome.value.1, outcome.value.0, ppf)
      ensures outcome.Ok? ==> SameKeys(outcome.value.1, newColumns)
    {
      var capfactsCols := data.capfacts.columns[1..];
      var trained: seq<Trained> := [];
      var predicted := newColumns;
      var c := 0;
      while c < |capfactsCols|
        invariant 0 <= c <= |capfactsCols|
        invariant ColumnPass(data, featureSet, capfactsCols[..c]) == Ok(trained)
        invariant Recorded(predicted, trained, ppf)
        invariant SameKeys(predicted, newColumns)
      {
        var step := VisitColumn(featureSet, ppf, capfactsCols, c, trained, predicted);
        if step.Err? {
          ColumnPassPrefixError(data, featureSet, capfactsCols, c + 1);
          return Err(step.error);
        }
        trained, predicted := step.value.0, step.value.1;
        c := c + 1;
      }
      assert capfactsCols[..c] == capfactsCols;
      outcome := Ok((trained, predicted));
    }

    /**
     * One iteration of the column loop: a skipped column changes nothing;
     * any other column is trained, and its predictions are added under
     * every quantile.
     */
    method VisitColumn(featureSet: FeatureSet, ppf: Ppf, cols: seq<string>, c: nat,
                       trained: seq<Trained>, predicted: map<real, seq<Series>>)
      returns (outcome: Result<(seq<Trained>, map<real, seq<Series>>), DataError>)
      requires data.era5.WellFormed() && c < |cols|
      requires Distinct(quantiles)
      requires ColumnPass(data, featureSet, cols[..c]) == Ok(trained)
      requires Recorded(predicted, trained, ppf)
      ensures outcome.Err? ==> ColumnPass(data, featureSet, cols[..c + 1]) == Err(outcome.error)
      ensures outcome.Ok? ==> ColumnPass(data, featureSet, cols[..c + 1]) == Ok(outcome.value.0)
      ensures outcome.Err? <==> !Skipped(ParseCapfacCol(cols[c])) && TrainColumn(data, featureSet, cols[c]).Err?
      ensures outcome.Err? ==> outcome.error == TrainColumn(data, featureSet, cols[c]).error
      ensures outcome.Ok? && Skipped(ParseCapfacCol(cols[c])) ==> outcome.value.0 == trained
      ensures outcome.Ok? && !Skipped(ParseCapfacCol(cols[c])) ==>
        outcome.value.0 == trained + [Trained(cols[c], TrainColumn(data, featureSet, cols[c]).value)]
      ensures outcome.Ok? ==> Recorded(outcome.value.1, outcome.value.0, ppf)
      ensures outcome.Ok? ==> SameKeys(outcome.value.1, predicted)
    {
      var colName := cols[c];
      ColumnPassAt(data, featureSet, cols, c);
      var parsed := ParseCapfacCol(colName);
      if parsed.Some? && (parsed.value.energyType == NotDefined || parsed.value.energyType == Ror) {
        return Ok((trained, predicted));
      }
      var rows := TrainOne(featureSet, colName);
      if rows.Err? {
        return Err(rows.error);
      }
      var t := Trained(colName, rows.value);
      var updated := AddPredictions(predicted, trained, t, ppf);
      outcome := Ok((trained + [t], updated));
    }

    /**
     * The training of one column: `get_training_data`,
     * `shape_multi_feature_data` and the sample-count check of
     * `train_test_split`; the fitted model itself is not modelled.
     */
    method TrainOne(featureSet: FeatureSet, colName: string) returns (rows: Result<nat, DataError>)
      requires data.era5.WellFormed()
      ensures rows == TrainColumn(data, featureSet, colName)
    {
      var td := GetTrainingData(data, featureSet, colName);
      if td.Err? {
        return Err(td.error);
      }
      var xPred := ShapeMultiFeatureData(td.value.x);
      if xPred.Err? {
        return Err(xPred.error);
      }
      if |xPred.value| != |td.value.y| {
        return Err(InconsistentSamples);
      }
      rows := Ok(|xPred.value|);
    }

    /** One iteration of the closing loop: build the table of quantile `q`, then clip and save it. */
    method SaveQuantile(q: real, series: seq<Series>, trained: seq<Trained>, ppf: Ppf)
      requires series == Predictions(trained, ppf, q)
      modifies this
      ensures saved == old(saved) + QuantileFiles(q, TableOf(data.capfacts.snapshot, trained, ppf, q))
    {
      var result := new Frame(QuantileTable(data.capfacts.snapshot, series));
      ClipAndSave(result, q);
    }

    /** The closing loop: concatenate each quantile's table and clip and save it. */
    method SaveAll(newColumns: map<real, seq<Series>>, trained: seq<Trained>, ppf: Ppf)
      requires forall i :: 0 <= i < |quantiles| ==>
        quantiles[i] in newColumns && newColumns[quantiles[i]] == Predictions(trained, ppf, quantiles[i])
      modifies this
      ensures saved == old(saved) + SavedFiles(quantiles, data.capfacts.snapshot, trained, ppf)
    {
      var k := 0;
      while k < |quantiles|
        invariant 0 <= k <= |quantiles|
        invariant saved == old(saved) + SavedFiles(quantiles[..k], data.capfacts.snapshot, trained, ppf)
      {
        ghost var done := SavedFiles(quantiles[..k], data.capfacts.snapshot, trained, ppf);
        ghost var next := QuantileFiles(quantiles[k], TableOf(data.capfacts.snapshot, trained, ppf, quantiles[k]));
        SavedFilesSnoc(quantiles, k, data.capfacts.snapshot, trained, ppf);
        SaveQuantile(quantiles[k], newColumns[quantiles[k]], trained, ppf);
        AppendAssoc(old(saved), done, next);
        k := k + 1;
      }
      assert quantiles[..k] == quantiles;
    }

    /** `forecast_regression`: one NGBoost model per column, with early stopping on a held-out split. */
    method ForecastRegression(featureSet: FeatureSet, ppf: Ppf) returns (outcome: Result<seq<Trained>, DataError>)
      requires data.era5.WellFormed() && data.capfacts.WellFormed()
      requires Distinct(quantiles)
      modifies this
      ensures outcome == ColumnPass(data, featureSet, data.capfacts.columns[1..])
      ensures outcome.Err? ==> saved == old(saved)
      ensures outcome.Ok? ==> saved == old(saved) + SavedFiles(quantiles, data.capfacts.snapshot, outcome.value, ppf)
    {
      outcome := ForecastColumns(featureSet, ppf);
    }

    /** `forecast_regression_grid_search`: one model per column, its hyperparameters chosen by cross-validation. */
    method ForecastRegressionGridSearch(featureSet: FeatureSet, ppf: Ppf) returns (outcome: Result<seq<Trained>, DataError>)
      requires data.era5.WellFormed() && data.capfacts.WellFormed()
      requires Distinct(quantiles)
      modifies this
      ensures outcome == ColumnPass(data, featureSet, data.capfacts.columns[1..])
      ensures outcome.Err? ==> saved == old(saved)
      ensures outcome.Ok? ==> saved == old(saved) + SavedFiles(quantiles, data.capfacts.snapshot, outcome.value, ppf)
    {
      outcome := ForecastColumns(featureSet, ppf);
    }
  }
}
