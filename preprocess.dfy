/** Feature/target split and the layout of the preprocessing transformer. The
    estimators themselves (imputation, scaling, one-hot encoding) are numeric
    library code; only their configuration and the routing of columns to them
    is modelled. */
module Preprocess {
  import opened Wrappers
  import opened Frames

  /** The configuration of one preprocessing step. */
  datatype Step =
    | SimpleImputer(strategy: string)
    | StandardScaler
    | OneHotEncoder(handleUnknown: string, sparseOutput: bool)

  /** `Pipeline(steps=[(name, step), ...])` */
  datatype Pipeline = Pipeline(steps: seq<(string, Step)>)

  /** `ColumnTransformer(transformers=[(name, pipeline, columns), ...])`; the
      remainder is left at its default, which drops every column no transformer
      lists. */
  datatype Remainder = Drop | Passthrough
  datatype ColumnTransformer = ColumnTransformer(
    transformers: seq<(string, Pipeline, seq<Label>)>,
    remainder: Remainder)

  const NumericalPipeline: Pipeline :=
    Pipeline([("imputer", SimpleImputer("median")), ("scaler", StandardScaler)])

  const CategoricalPipeline: Pipeline :=
    Pipeline([("imputer", SimpleImputer("most_frequent")), ("onehot", OneHotEncoder("ignore", false))])

  function StepNames(p: Pipeline): (r: seq<string>)
    ensures |r| == |p.steps|
  {
    seq(|p.steps|, j requires 0 <= j < |p.steps| => p.steps[j].0)
  }

  function TransformerNames(ct: ColumnTransformer): (r: seq<string>)
    ensures |r| == |ct.transformers|
  {
    seq(|ct.transformers|, j requires 0 <= j < |ct.transformers| => ct.transformers[j].0)
  }

  /** Every column listed by some transformer, in transformer order. */
  function Routed(ts: seq<(string, Pipeline, seq<Label>)>): seq<Label> {
    if ts == [] then [] else ts[0].2 + Routed(ts[1..])
  }

  /** The name of the first transformer that lists `col`, or None when the
      remainder takes it. */
  function RouteOf(ts: seq<(string, Pipeline, seq<Label>)>, col: Label): Option<string> {
    if ts == [] then None
    else if col in ts[0].2 then Some(ts[0].0)
    else RouteOf(ts[1..], col)
  }

  /** `get_preprocessor(categorical_features, numerical_features)` */
  function GetPreprocessor(categorical: seq<Label>, numerical: seq<Label>): (r: ColumnTransformer)
    ensures r.transformers == [("num", NumericalPipeline, numerical), ("cat", CategoricalPipeline, categorical)]
    ensures TransformerNames(r) == ["num", "cat"]
    ensures Routed(r.transformers) == numerical + categorical
    ensures r.remainder == Drop
  {
    var r := ColumnTransformer([("num", NumericalPipeline, numerical), ("cat", CategoricalPipeline, categorical)], Drop);
    assert Routed(r.transformers[2..]) == [];
    assert Routed(r.transformers[1..]) == categorical;
    r
  }

  /** The numeric branch imputes the median and then scales; the categorical
      branch imputes the most frequent value and then one-hot encodes, ignoring
      unknown categories and producing a dense matrix. */
  lemma PipelineLayout()
    ensures StepNames(NumericalPipeline) == ["imputer", "scaler"]
    ensures NumericalPipeline.steps[0].1 == SimpleImputer("median") && NumericalPipeline.steps[1].1.StandardScaler?
    ensures StepNames(CategoricalPipeline) == ["imputer", "onehot"]
    ensures CategoricalPipeline.steps[0].1 == SimpleImputer("most_frequent")
    ensures CategoricalPipeline.steps[1].1 == OneHotEncoder("ignore", false)
  {
  }

  /** With disjoint column lists, a numerical column goes to `num`, a
      categorical one to `cat`, and any other column is dropped. */
  lemma PreprocessorRouting(categorical: seq<Label>, numerical: seq<Label>, col: Label)
    requires forall l :: l in categorical ==> l !in numerical
    ensures col in numerical ==> RouteOf(GetPreprocessor(categorical, numerical).transformers, col) == Some("num")
    ensures col in categorical ==> RouteOf(GetPreprocessor(categorical, numerical).transformers, col) == Some("cat")
    ensures col !in numerical && col !in categorical ==>
      RouteOf(GetPreprocessor(categorical, numerical).transformers, col) == None
  {
    var ts := GetPreprocessor(categorical, numerical).transformers;
    assert ts[0].2 == numerical && ts[1].2 == categorical;
    assert ts[1..][1..] == [];
    assert RouteOf(ts[1..][1..], col) == None;
  }

  // ---------------------------------------------------------------------------
  // Feature/target split

  /** `split_features_target(df, target_col='target')`: X is `df` without the
      target column (a KeyError when there is none), y is `df[target_col]`. */
  function SplitFeaturesTarget(df: Frame, targetCol: string := "target"): (r: Result<(Frame, Frame), Error>)
    ensures r.Success? <==> HasColumn(df, Str(targetCol))
    ensures r.Failure? ==> r.error == KeyError(Str(targetCol))
    ensures r.Success? ==> r.value.0.rows == df.rows && r.value.1.rows == df.rows
  {
    match DropColumn(df, Str(targetCol))
    case Failure(e) => Failure(e)
    case Success(x) => Success((x, Frame(df.rows, OnlyNamed(df.columns, Str(targetCol)))))
  }

  /** Removing and selecting one label partitions the columns. */
  lemma {:induction false} PartitionByName(cs: seq<Column>, name: Label)
    ensures multiset(WithoutNamed(cs, name)) + multiset(OnlyNamed(cs, name)) == multiset(cs)
  {
    if cs != [] {
      PartitionByName(cs[1..], name);
      assert multiset(cs) == multiset([cs[0]]) + multiset(cs[1..]) by { assert cs == [cs[0]] + cs[1..]; }
      if cs[0].name == name {
        assert WithoutNamed(cs, name) == WithoutNamed(cs[1..], name);
        assert OnlyNamed(cs, name) == [cs[0]] + OnlyNamed(cs[1..], name);
      } else {
        assert WithoutNamed(cs, name) == [cs[0]] + WithoutNamed(cs[1..], name);
        assert OnlyNamed(cs, name) == OnlyNamed(cs[1..], name);
      }
    }
  }

  /** The split fails exactly when the target is missing, with a KeyError for
      it. Otherwise X holds every other column in order and none of the target,
      y holds the target column(s), both keep the row count, and together they
      hold exactly the columns of `df`. */
  lemma SplitSpec(df: Frame, targetCol: string)
    ensures SplitFeaturesTarget(df, targetCol).Success? <==> HasColumn(df, Str(targetCol))
    ensures SplitFeaturesTarget(df, targetCol).Failure? ==>
      SplitFeaturesTarget(df, targetCol).error == KeyError(Str(targetCol))
    ensures SplitFeaturesTarget(df, targetCol).Success? ==>
      var (x, y) := SplitFeaturesTarget(df, targetCol).value;
      && x.rows == df.rows && y.rows == df.rows
      && Names(x.columns) == DropLabels(Names(df.columns), Str(targetCol))
      && Str(targetCol) !in Names(x.columns)
      && IsSubsequence(x.columns, df.columns)
      && y.columns != []
      && (forall c :: c in y.columns ==> c.name == Str(targetCol))
      && multiset(x.columns) + multiset(y.columns) == multiset(df.columns)
      && (WellFormed(df) ==> WellFormed(x) && WellFormed(y))
  {
    DropColumnSpec(df, Str(targetCol));
    if HasColumn(df, Str(targetCol)) {
      WithoutNamedNames(df.columns, Str(targetCol));
      OnlyNamedSelects(df.columns, Str(targetCol));
      CountNamedPositive(df.columns, Str(targetCol));
      PartitionByName(df.columns, Str(targetCol));
    }
  }

  /** The target defaults to `target`. */
  lemma SplitDefaultTarget(df: Frame)
    ensures SplitFeaturesTarget(df).Success? <==> HasColumn(df, Str("target"))
    ensures SplitFeaturesTarget(df).Success? ==> Str("target") !in Names(SplitFeaturesTarget(df).value.0.columns)
  {
    SplitSpec(df, "target");
  }
}
