/** The column bookkeeping of `train()`: splitting off the target, partitioning
    the feature columns by dtype, building the preprocessor over them, and the
    key shape of the metrics report. Fitting, prediction and metric values are
    library numerics and enter only as opaque numbers. */
module Train {
  import opened Wrappers
  import opened Json
  import opened Frames
  import opened Preprocess
  import MockData
  import Schemas

  /** `select_dtypes(include=['object', 'category'])` */
  const CategoricalDtypes: set<DType> := {DType.Object, Category}

  /** `select_dtypes(include=['int64', 'float64'])` */
  const NumericalDtypes: set<DType> := {Int64, Float64}

  /** `df.select_dtypes(include=...).columns.tolist()`: the labels of the columns
      whose dtype is included, in column order. */
  function SelectDtypes(cs: seq<Column>, dtypes: set<DType>): (r: seq<Label>)
    ensures |r| <= |cs|
  {
    if cs == [] then []
    else (if cs[0].dtype in dtypes then [cs[0].name] else []) + SelectDtypes(cs[1..], dtypes)
  }

  function CategoricalCols(x: Frame): seq<Label> {
    SelectDtypes(x.columns, CategoricalDtypes)
  }

  function NumericalCols(x: Frame): seq<Label> {
    SelectDtypes(x.columns, NumericalDtypes)
  }

  /** A label is selected iff some column carrying it has an included dtype;
      the selection keeps column order. */
  lemma {:induction false} SelectDtypesSpec(cs: seq<Column>, dtypes: set<DType>)
    ensures forall l :: l in SelectDtypes(cs, dtypes) <==>
      exists j :: 0 <= j < |cs| && cs[j].name == l && cs[j].dtype in dtypes
    ensures IsSubsequence(SelectDtypes(cs, dtypes), Names(cs))
  {
    if cs != [] {
      SelectDtypesSpec(cs[1..], dtypes);
      var rest := SelectDtypes(cs[1..], dtypes);
      assert Names(cs)[1..] == Names(cs[1..]);
      if cs[0].dtype in dtypes {
        assert SelectDtypes(cs, dtypes) == [cs[0].name] + rest;
        assert ([cs[0].name] + rest)[1..] == rest;
        assert Names(cs)[0] == cs[0].name;
      } else {
        assert SelectDtypes(cs, dtypes) == rest;
      }
      forall l | l in SelectDtypes(cs, dtypes)
        ensures exists j :: 0 <= j < |cs| && cs[j].name == l && cs[j].dtype in dtypes
      {
        if l !in rest {
          assert cs[0].name == l && cs[0].dtype in dtypes;
        } else {
          var j :| 0 <= j < |cs[1..]| && cs[1..][j].name == l && cs[1..][j].dtype in dtypes;
          assert cs[j + 1] == cs[1..][j];
        }
      }
      forall l | exists j :: 0 <= j < |cs| && cs[j].name == l && cs[j].dtype in dtypes
        ensures l in SelectDtypes(cs, dtypes)
      {
        var j :| 0 <= j < |cs| && cs[j].name == l && cs[j].dtype in dtypes;
        if j > 0 {
          assert cs[1..][j - 1] == cs[j];
        }
      }
    }
  }

  /** When every column's dtype is included, every label is selected in order. */
  lemma {:induction false} SelectAll(cs: seq<Column>, dtypes: set<DType>)
    requires forall j :: 0 <= j < |cs| ==> cs[j].dtype in dtypes
    ensures SelectDtypes(cs, dtypes) == Names(cs)
  {
    if cs != [] {
      SelectAll(cs[1..], dtypes);
      assert Names(cs) == [cs[0].name] + Names(cs[1..]);
    }
  }

  /** When no column's dtype is included, nothing is selected. */
  lemma {:induction false} SelectNone(cs: seq<Column>, dtypes: set<DType>)
    requires forall j :: 0 <= j < |cs| ==> cs[j].dtype !in dtypes
    ensures SelectDtypes(cs, dtypes) == []
  {
    if cs != [] {
      SelectNone(cs[1..], dtypes);
    }
  }

  /** Over distinctly labelled columns the two lists are disjoint, a column of
      any other dtype (`int32`, `bool`, ...) is in neither, and every column of
      a listed dtype is in its list. */
  lemma PartitionSpec(x: Frame)
    requires forall a, b :: 0 <= a < b < |x.columns| ==> x.columns[a].name != x.columns[b].name
    ensures forall l :: !(l in CategoricalCols(x) && l in NumericalCols(x))
    ensures forall j :: 0 <= j < |x.columns| ==>
      && (x.columns[j].name in CategoricalCols(x) <==> x.columns[j].dtype in CategoricalDtypes)
      && (x.columns[j].name in NumericalCols(x) <==> x.columns[j].dtype in NumericalDtypes)
    ensures forall l :: l in CategoricalCols(x) || l in NumericalCols(x) ==> l in Names(x.columns)
  {
    SelectDtypesSpec(x.columns, CategoricalDtypes);
    SelectDtypesSpec(x.columns, NumericalDtypes);
  }

  /** The target is in neither list, because the partition runs on X. */
  lemma TargetInNeither(df: Frame)
    requires SplitFeaturesTarget(df).Success?
    ensures var x := SplitFeaturesTarget(df).value.0;
      Str("target") !in CategoricalCols(x) && Str("target") !in NumericalCols(x)
  {
    var x := SplitFeaturesTarget(df).value.0;
    SplitSpec(df, "target");
    SelectDtypesSpec(x.columns, CategoricalDtypes);
    SelectDtypesSpec(x.columns, NumericalDtypes);
  }

  /** `train()` up to the preprocessor: split, partition X's columns by dtype,
      and lay out the transformer over the two lists. */
  function TrainingLayout(df: Frame): (r: Result<ColumnTransformer, Error>)
    ensures r.Success? <==> HasColumn(df, Str("target"))
    ensures r.Failure? ==> r.error == KeyError(Str("target"))
    ensures r.Success? ==> TransformerNames(r.value) == ["num", "cat"] && r.value.remainder == Drop
  {
    match SplitFeaturesTarget(df)
    case Failure(e) => Failure(e)
    case Success((x, _)) => Success(GetPreprocessor(CategoricalCols(x), NumericalCols(x)))
  }

  lemma {:induction false} DropLabelsAppend(xs: seq<Label>, ys: seq<Label>, name: Label)
    ensures DropLabels(xs + ys, name) == DropLabels(xs, name) + DropLabels(ys, name)
  {
    if xs == [] {
      assert xs + ys == ys;
    } else {
      var zs := xs + ys;
      assert zs[0] == xs[0] && zs[1..] == xs[1..] + ys;
      DropLabelsAppend(xs[1..], ys, name);
      var head := if xs[0] == name then [] else [xs[0]];
      var a, b := DropLabels(xs[1..], name), DropLabels(ys, name);
      assert DropLabels(zs, name) == head + (a + b);
      assert DropLabels(xs, name) == head + a;
      assert head + (a + b) == (head + a) + b;
    }
  }

  lemma {:induction false} DropLabelsAbsent(xs: seq<Label>, name: Label)
    requires name !in xs
    ensures DropLabels(xs, name) == xs
  {
    if xs != [] {
      DropLabelsAbsent(xs[1..], name);
      assert xs == [xs[0]] + xs[1..];
    }
  }

  /** The synthetic table's feature labels, in the generator's order. */
  function SyntheticFeatureLabels(): (r: seq<Label>)
    ensures |r| == 23
  {
    seq(23, k requires 0 <= k < 23 => Str(MockData.SyntheticColumnNames[k]))
  }

  /** Every generated column is `int64` or `float64`. */
  lemma SyntheticDtypes(uniform: MockData.Uniform, normal: MockData.Gaussian, n: nat)
    ensures forall c :: c in MockData.SyntheticFrame(uniform, normal, n).columns ==> c.dtype in NumericalDtypes
  {
  }

  /** A frame whose last column is the only `target` one splits into the
      columns before it. */
  lemma SplitTargetLast(df: Frame, features: seq<Label>)
    requires Names(df.columns) == features + [Str("target")] && Str("target") !in features
    ensures SplitFeaturesTarget(df).Success?
    ensures Names(SplitFeaturesTarget(df).value.0.columns) == features
    ensures forall c :: c in SplitFeaturesTarget(df).value.0.columns ==> c in df.columns
  {
    SplitSpec(df, "target");
    WithoutNamedKeepsOthers(df.columns, Str("target"));
    assert Names(df.columns)[|features|] == Str("target");
    DropLabelsAppend(features, [Str("target")], Str("target"));
    DropLabelsAbsent(features, Str("target"));
  }

  /** The synthetic table's labels: the 23 features, then `target`. */
  lemma SyntheticLabels(uniform: MockData.Uniform, normal: MockData.Gaussian, n: nat)
    ensures Names(MockData.SyntheticFrame(uniform, normal, n).columns) == SyntheticFeatureLabels() + [Str("target")]
    ensures Str("target") !in SyntheticFeatureLabels()
  {
    MockData.SyntheticColumnOrder(uniform, normal, n);
    MockData.SyntheticNamesDistinct();
    var features := SyntheticFeatureLabels();
    assert MockData.SyntheticColumnNames[23] == "target";
    forall k | 0 <= k < 23 ensures features[k] != Str("target") {
      assert MockData.SyntheticColumnNames[k] != MockData.SyntheticColumnNames[23];
    }
  }

  /** Splitting the synthetic table leaves its 23 feature columns, in order. */
  lemma SyntheticFeatures(uniform: MockData.Uniform, normal: MockData.Gaussian, n: nat)
    ensures var df := MockData.SyntheticFrame(uniform, normal, n);
      && SplitFeaturesTarget(df).Success?
      && Names(SplitFeaturesTarget(df).value.0.columns) == SyntheticFeatureLabels()
      && forall c :: c in SplitFeaturesTarget(df).value.0.columns ==> c in df.columns
  {
    SyntheticLabels(uniform, normal, n);
    SplitTargetLast(MockData.SyntheticFrame(uniform, normal, n), SyntheticFeatureLabels());
  }

  /** On the synthetic table there is no categorical column, and every feature
      column is numerical, in the generator's order. */
  lemma SyntheticTraining(uniform: MockData.Uniform, normal: MockData.Gaussian, n: nat)
    ensures var df := MockData.SyntheticFrame(uniform, normal, n);
      && SplitFeaturesTarget(df).Success?
      && CategoricalCols(SplitFeaturesTarget(df).value.0) == []
      && NumericalCols(SplitFeaturesTarget(df).value.0) == SyntheticFeatureLabels()
      && TrainingLayout(df) == Success(GetPreprocessor([], SyntheticFeatureLabels()))
  {
    var df := MockData.SyntheticFrame(uniform, normal, n);
    SyntheticFeatures(uniform, normal, n);
    SyntheticDtypes(uniform, normal, n);
    var x := SplitFeaturesTarget(df).value.0;
    assert forall j :: 0 <= j < |x.columns| ==> x.columns[j] in df.columns;
    SelectAll(x.columns, NumericalDtypes);
    SelectNone(x.columns, CategoricalDtypes);
  }

  // ---------------------------------------------------------------------------
  // The metrics report

  datatype BaselineMetrics = BaselineMetrics(accuracy: real, rocAuc: real)

  datatype ChampionMetrics = ChampionMetrics(accuracy: real, rocAuc: real, precision: real, recall: real, f1: real)

  datatype Metrics = Metrics(baseline: BaselineMetrics, champion: ChampionMetrics, confusion: seq<seq<int>>)

  function Row(xs: seq<int>): (r: seq<Json>)
    ensures |r| == |xs|
  {
    seq(|xs|, j requires 0 <= j < |xs| => Number(xs[j] as real))
  }

  function Matrix(rows: seq<seq<int>>): (r: seq<Json>)
    ensures |r| == |rows|
  {
    seq(|rows|, j requires 0 <= j < |rows| => Array(Row(rows[j])))
  }

  /** The metrics dictionary written to the report file. */
  function Report(m: Metrics): Json {
    Json.Object(map[
      "baseline" := Json.Object(map["accuracy" := Number(m.baseline.accuracy), "roc_auc" := Number(m.baseline.rocAuc)]),
      "champion" := Json.Object(map[
        "accuracy" := Number(m.champion.accuracy), "roc_auc" := Number(m.champion.rocAuc),
        "precision" := Number(m.champion.precision), "recall" := Number(m.champion.recall),
        "f1" := Number(m.champion.f1)]),
      "confusion_matrix" := Array(Matrix(m.confusion))])
  }

  /** The report has exactly the three top-level keys, `baseline` exactly
      `accuracy` and `roc_auc`, `champion` exactly `accuracy`, `roc_auc`,
      `precision`, `recall` and `f1`, and the confusion matrix is a list of
      lists. */
  lemma ReportKeys(m: Metrics)
    ensures Report(m).Object?
    ensures Report(m).fields.Keys == {"baseline", "champion", "confusion_matrix"}
    ensures Report(m).fields["baseline"].Object?
    ensures Report(m).fields["baseline"].fields.Keys == {"accuracy", "roc_auc"}
    ensures Report(m).fields["champion"].Object?
    ensures Report(m).fields["champion"].fields.Keys == {"accuracy", "roc_auc", "precision", "recall", "f1"}
    ensures Report(m).fields["confusion_matrix"].Array?
    ensures forall v :: v in Report(m).fields["confusion_matrix"].items ==> v.Array?
  {
  }

  function ReadRow(items: seq<Json>): Option<seq<int>> {
    if items == [] then Some([])
    else match (Schemas.IntValue(items[0]), ReadRow(items[1..]))
      case (Some(x), Some(xs)) => Some([x] + xs)
      case _ => None
  }

  function ReadMatrix(rows: seq<Json>): Option<seq<seq<int>>> {
    if rows == [] then Some([])
    else match (rows[0], ReadMatrix(rows[1..]))
      case (Array(items), Some(rest)) =>
        (match ReadRow(items) case Some(row) => Some([row] + rest) case None => None)
      case _ => None
  }

  /** The number stored under `key`, if any. */
  function NumberAt(fields: map<string, Json>, key: string): Option<real> {
    if key in fields then Schemas.FloatValue(fields[key]) else None
  }

  /** Reading a report back into metrics; None when a key is missing or has the
      wrong kind of value. */
  function ReadReport(j: Json): Option<Metrics> {
    if !j.Object? || "baseline" !in j.fields || "champion" !in j.fields || "confusion_matrix" !in j.fields then None
    else
      var b, c, cm := j.fields["baseline"], j.fields["champion"], j.fields["confusion_matrix"];
      if !b.Object? || !c.Object? || !cm.Array? then None
      else match (NumberAt(b.fields, "accuracy"), NumberAt(b.fields, "roc_auc"),
                  NumberAt(c.fields, "accuracy"), NumberAt(c.fields, "roc_auc"), NumberAt(c.fields, "precision"),
                  NumberAt(c.fields, "recall"), NumberAt(c.fields, "f1"), ReadMatrix(cm.items))
        case (Some(a1), Some(r1), Some(a2), Some(r2), Some(p), Some(rc), Some(f), Some(matrix)) =>
          Some(Metrics(BaselineMetrics(a1, r1), ChampionMetrics(a2, r2, p, rc, f), matrix))
        case _ => None
  }

  lemma {:induction false} ReadRowInverse(xs: seq<int>)
    ensures ReadRow(Row(xs)) == Some(xs)
  {
    if xs != [] {
      ReadRowInverse(xs[1..]);
      assert Row(xs)[1..] == Row(xs[1..]);
      assert xs == [xs[0]] + xs[1..];
    }
  }

  lemma {:induction false} ReadMatrixInverse(rows: seq<seq<int>>)
    ensures ReadMatrix(Matrix(rows)) == Some(rows)
  {
    if rows != [] {
      ReadMatrixInverse(rows[1..]);
      ReadRowInverse(rows[0]);
      assert Matrix(rows)[1..] == Matrix(rows[1..]);
      assert rows == [rows[0]] + rows[1..];
    }
  }

  /** The report loses nothing: reading it back gives the metrics it was written
      from. */
  lemma ReportRoundTrip(m: Metrics)
    ensures ReadReport(Report(m)) == Some(m)
  {
    ReadMatrixInverse(m.confusion);
  }
}
