/** `get_feature_names`: the output column names of a fitted column
    transformer, gathered entry by entry. The estimators are described only by
    the capabilities the function probes for; their naming is an opaque
    function that may fail. */
module ShapUtils {
  import opened Wrappers
  import opened Frames
  import Preprocess

  /** What `get_feature_names` can see of a fitted estimator: whether it has
      `get_feature_names_out` (and what that returns for a feature list), and
      whether it is a pipeline (and its named steps). */
  datatype Estimator = Estimator(
    namesOut: Option<seq<Label> -> Result<seq<Label>, Error>>,
    steps: Option<seq<(string, Estimator)>>)

  /** One entry `(name, transformer, features)` of `transformers_`. */
  datatype Entry = Entry(name: string, transformer: Estimator, features: seq<Label>)

  /** The names one entry adds to the output, or the exception it raises. */
  function Contribution(e: Entry): (r: Result<seq<Label>, Error>)
    ensures e.name == "remainder" ==> r == Success([])
    ensures e.name != "remainder" && e.transformer.namesOut.None? && e.transformer.steps.None? ==> r == Success(e.features)
  {
    if e.name == "remainder" then Success([])
    else if e.transformer.namesOut.Some? then e.transformer.namesOut.value(e.features)
    else if e.transformer.steps.Some? then
      var steps := e.transformer.steps.value;
      if |steps| == 0 then Failure(IndexError("list index out of range"))
      else
        var last := steps[|steps| - 1].1;
        if last.namesOut.Some? then last.namesOut.value(e.features) else Success(e.features)
    else Success(e.features)
  }

  /** `output_features.extend(...)` after the names gathered so far, unless an
      earlier entry already raised. */
  function Extend(acc: Result<seq<Label>, Error>, c: Result<seq<Label>, Error>): Result<seq<Label>, Error> {
    if acc.Failure? then acc
    else if c.Failure? then Failure(c.error)
    else Success(acc.value + c.value)
  }

  /** The names of the entries in order, or the exception of the first entry
      that raises. */
  function FeatureNames(es: seq<Entry>): Result<seq<Label>, Error> {
    if es == [] then Success([])
    else Extend(FeatureNames(es[..|es| - 1]), Contribution(es[|es| - 1]))
  }

  /** Once an entry raises, so does every longer list. */
  lemma {:induction false} FailurePersists(es: seq<Entry>, i: nat)
    requires i <= |es| && FeatureNames(es[..i]).Failure?
    ensures FeatureNames(es) == FeatureNames(es[..i])
    decreases |es| - i
  {
    if i < |es| {
      assert es[..i + 1][..i] == es[..i];
      FailurePersists(es, i + 1);
    } else {
      assert es[..i] == es;
    }
  }

  /** `get_feature_names(preprocessor)`: extends the output entry by entry. */
  method GetFeatureNames(transformers: seq<Entry>) returns (r: Result<seq<Label>, Error>)
    ensures r == FeatureNames(transformers)
  {
    var output: seq<Label> := [];
    var i := 0;
    while i < |transformers|
      invariant 0 <= i <= |transformers|
      invariant FeatureNames(transformers[..i]) == Success(output)
    {
      var e := transformers[i];
      assert transformers[..i + 1][..i] == transformers[..i];
      assert transformers[..i + 1][i] == e;
      if e.name == "remainder" {
        assert output + [] == output;
        i := i + 1;
        continue;
      }
      if e.transformer.namesOut.Some? {
        var names := e.transformer.namesOut.value(e.features);
        if names.Failure? {
          FailurePersists(transformers, i + 1);
          return Failure(names.error);
        }
        output := output + names.value;
      } else if e.transformer.steps.Some? {
        var steps := e.transformer.steps.value;
        if |steps| == 0 {
          FailurePersists(transformers, i + 1);
          return Failure(IndexError("list index out of range"));
        }
        var last := steps[|steps| - 1].1;
        if last.namesOut.Some? {
          var names := last.namesOut.value(e.features);
          if names.Failure? {
            FailurePersists(transformers, i + 1);
            return Failure(names.error);
          }
          output := output + names.value;
        } else {
          output := output + e.features;
        }
      } else {
        output := output + e.features;
      }
      i := i + 1;
    }
    assert transformers[..i] == transformers;
    return Success(output);
  }

  // ---------------------------------------------------------------------------
  // Properties

  /** The output for two lists of entries is the output of the first followed
      by that of the second. */
  lemma {:induction false} FeatureNamesAppend(xs: seq<Entry>, ys: seq<Entry>)
    requires FeatureNames(xs).Success? && FeatureNames(ys).Success?
    ensures FeatureNames(xs + ys) == Success(FeatureNames(xs).value + FeatureNames(ys).value)
    decreases |ys|
  {
    if ys == [] {
      assert xs + ys == xs;
      assert FeatureNames(xs).value + [] == FeatureNames(xs).value;
    } else {
      var ys' := ys[..|ys| - 1];
      assert (xs + ys)[..|xs + ys| - 1] == xs + ys';
      assert (xs + ys)[|xs + ys| - 1] == ys[|ys| - 1];
      assert FeatureNames(ys').Success?;
      FeatureNamesAppend(xs, ys');
      var c := Contribution(ys[|ys| - 1]);
      assert FeatureNames(ys) == Success(FeatureNames(ys').value + c.value);
      assert FeatureNames(xs).value + (FeatureNames(ys').value + c.value)
          == (FeatureNames(xs).value + FeatureNames(ys').value) + c.value;
    }
  }

  /** After a list that yields names, a raising list raises the same
      exception: the first entry to raise is the same one. */
  lemma {:induction false} FailureAfterSuccess(xs: seq<Entry>, ys: seq<Entry>)
    requires FeatureNames(xs).Success? && FeatureNames(ys).Failure?
    ensures FeatureNames(xs + ys) == FeatureNames(ys)
    decreases |ys|
  {
    var ys' := ys[..|ys| - 1];
    assert (xs + ys)[..|xs + ys| - 1] == xs + ys';
    assert (xs + ys)[|xs + ys| - 1] == ys[|ys| - 1];
    if FeatureNames(ys').Failure? {
      FailureAfterSuccess(xs, ys');
    } else {
      FeatureNamesAppend(xs, ys');
    }
  }

  /** A single entry outputs its contribution. */
  lemma FeatureNamesSingle(e: Entry)
    ensures FeatureNames([e]) == Contribution(e)
  {
    assert [e][..0] == [];
    if Contribution(e).Success? {
      assert [] + Contribution(e).value == Contribution(e).value;
    }
  }

  /** What one entry outputs, branch by branch: nothing for `remainder`; its
      own names-out applied to its features; for a pipeline, its last step's
      names-out, or the raw features when that step has none (an IndexError
      when there is no step); and otherwise its raw features. */
  lemma EntryOutput(e: Entry)
    ensures e.name == "remainder" ==> FeatureNames([e]) == Success([])
    ensures e.name != "remainder" && e.transformer.namesOut.Some? ==>
      FeatureNames([e]) == e.transformer.namesOut.value(e.features)
    ensures e.name != "remainder" && e.transformer.namesOut.None? && e.transformer.steps.Some? ==>
      var steps := e.transformer.steps.value;
      && (steps == [] ==> FeatureNames([e]) == Failure(IndexError("list index out of range")))
      && (steps != [] && steps[|steps| - 1].1.namesOut.Some? ==>
            FeatureNames([e]) == steps[|steps| - 1].1.namesOut.value(e.features))
      && (steps != [] && steps[|steps| - 1].1.namesOut.None? ==> FeatureNames([e]) == Success(e.features))
    ensures e.name != "remainder" && e.transformer.namesOut.None? && e.transformer.steps.None? ==>
      FeatureNames([e]) == Success(e.features)
  {
    FeatureNamesSingle(e);
  }

  /** An entry named `remainder` adds nothing, wherever it stands. */
  lemma RemainderContributesNothing(xs: seq<Entry>, t: Estimator, features: seq<Label>, ys: seq<Entry>)
    ensures FeatureNames(xs + [Entry("remainder", t, features)] + ys) == FeatureNames(xs + ys)
  {
    var r := Entry("remainder", t, features);
    var xr := xs + [r];
    if FeatureNames(xs).Failure? {
      assert (xr + ys)[..|xs|] == xs;
      assert (xs + ys)[..|xs|] == xs;
      FailurePersists(xr + ys, |xs|);
      FailurePersists(xs + ys, |xs|);
    } else {
      var a := FeatureNames(xs).value;
      FeatureNamesSingle(r);
      assert FeatureNames([r]) == Success([]);
      FeatureNamesAppend(xs, [r]);
      assert a + [] == a;
      assert FeatureNames(xr) == Success(a);
      if FeatureNames(ys).Success? {
        FeatureNamesAppend(xr, ys);
        FeatureNamesAppend(xs, ys);
      } else {
        FailureAfterSuccess(xr, ys);
        FailureAfterSuccess(xs, ys);
      }
    }
  }

  /** An entry exposes no naming: no `get_feature_names_out`, and either no
      steps or a non-empty pipeline whose last step has none either. */
  predicate Unnamed(e: Entry) {
    && e.transformer.namesOut.None?
    && (e.transformer.steps.Some? ==>
          |e.transformer.steps.value| > 0 && e.transformer.steps.value[|e.transformer.steps.value| - 1].1.namesOut.None?)
  }

  /** The raw feature lists of the entries other than `remainder`, concatenated. */
  function RawFeatures(es: seq<Entry>): seq<Label> {
    if es == [] then []
    else RawFeatures(es[..|es| - 1]) + (if es[|es| - 1].name == "remainder" then [] else es[|es| - 1].features)
  }

  function SumLengths(es: seq<Entry>): nat {
    if es == [] then 0
    else SumLengths(es[..|es| - 1]) + (if es[|es| - 1].name == "remainder" then 0 else |es[|es| - 1].features|)
  }

  /** An entry without naming contributes its raw features, or nothing when
      it is `remainder`. */
  lemma UnnamedContribution(e: Entry)
    requires Unnamed(e)
    ensures Contribution(e) == Success(if e.name == "remainder" then [] else e.features)
  {
  }

  /** When no entry exposes naming, the output is the raw feature lists of the
      non-remainder entries, so its length is the sum of their lengths. */
  lemma {:induction false} UnnamedOutput(es: seq<Entry>)
    requires forall k :: 0 <= k < |es| ==> Unnamed(es[k])
    ensures FeatureNames(es) == Success(RawFeatures(es))
    ensures |RawFeatures(es)| == SumLengths(es)
  {
    if es != [] {
      var init, last := es[..|es| - 1], es[|es| - 1];
      assert forall k :: 0 <= k < |init| ==> init[k] == es[k];
      UnnamedOutput(init);
      UnnamedContribution(last);
      assert FeatureNames(es) == Extend(FeatureNames(init), Contribution(last));
      assert RawFeatures(es) == RawFeatures(init) + (if last.name == "remainder" then [] else last.features);
    }
  }

  /** Two entries followed by `remainder` entries output the two contributions
      in order. */
  lemma FeatureNamesPair(first: Entry, second: Entry, rest: seq<Entry>)
    requires forall k :: 0 <= k < |rest| ==> rest[k].name == "remainder"
    requires Contribution(first).Success? && Contribution(second).Success?
    ensures FeatureNames([first, second] + rest) == Success(Contribution(first).value + Contribution(second).value)
  {
    var a, b := Contribution(first).value, Contribution(second).value;
    FeatureNamesSingle(first);
    FeatureNamesSingle(second);
    FeatureNamesAppend([first], [second]);
    var pair := [first] + [second];
    assert pair == [first, second];
    RemaindersContributeNothing(rest);
    FeatureNamesAppend(pair, rest);
    assert a + b + [] == a + b;
  }

  /** The columns of `columns` that no transformer lists, in order. */
  function Remaining(columns: seq<Label>, routed: seq<Label>): (r: seq<Label>)
    ensures forall l :: l in r <==> l in columns && l !in routed
  {
    if columns == [] then []
    else (if columns[0] in routed then [] else [columns[0]]) + Remaining(columns[1..], routed)
  }

  /** What sklearn stores for the remainder: the string `'drop'` (or
      `'passthrough'`), which has no naming and is not a pipeline. */
  const RemainderEstimator: Estimator := Estimator(None, None)

  /** `transformers_` of a column transformer fitted on `columns`: each
      configured transformer with the estimator stored for it (the fitted one,
      or the configuration itself when its column list is empty), then a
      `remainder` entry over the columns no transformer lists, when there are
      any. */
  function FittedEntries(ct: Preprocess.ColumnTransformer, fitted: seq<Estimator>, columns: seq<Label>): (r: seq<Entry>)
    requires |fitted| == |ct.transformers|
    ensures var rest := Remaining(columns, Preprocess.Routed(ct.transformers));
      && |r| == |ct.transformers| + (if rest == [] then 0 else 1)
      && (forall j :: 0 <= j < |ct.transformers| ==> r[j] == Entry(ct.transformers[j].0, fitted[j], ct.transformers[j].2))
      && (rest != [] ==> r[|r| - 1] == Entry("remainder", RemainderEstimator, rest))
  {
    var rest := Remaining(columns, Preprocess.Routed(ct.transformers));
    seq(|ct.transformers|, j requires 0 <= j < |ct.transformers| =>
      Entry(ct.transformers[j].0, fitted[j], ct.transformers[j].2))
    + (if rest == [] then [] else [Entry("remainder", RemainderEstimator, rest)])
  }

  /** Fitting the preprocessor `get_preprocessor` builds, on a table with
      `columns`, stores a `num` entry over the numerical columns, then a `cat`
      entry over the categorical ones, then a `remainder` entry over any
      column in neither list. */
  lemma FittedPreprocessor(categorical: seq<Label>, numerical: seq<Label>, num: Estimator, cat: Estimator, columns: seq<Label>)
    ensures var rest := Remaining(columns, numerical + categorical);
      FittedEntries(Preprocess.GetPreprocessor(categorical, numerical), [num, cat], columns) ==
        [Entry("num", num, numerical), Entry("cat", cat, categorical)]
        + (if rest == [] then [] else [Entry("remainder", RemainderEstimator, rest)])
  {
    var rest := Remaining(columns, numerical + categorical);
    var r := FittedEntries(Preprocess.GetPreprocessor(categorical, numerical), [num, cat], columns);
    assert r[..2] == [Entry("num", num, numerical), Entry("cat", cat, categorical)];
    assert r == r[..2] + r[2..];
  }

  /** For those two entries, possibly followed by `remainder` entries: the
      numerical branch's names come first, then the categorical branch's; when
      the fitted branches expose no naming, the output is exactly the numerical
      then the categorical columns. */
  lemma PreprocessorFeatureNames(categorical: seq<Label>, numerical: seq<Label>,
                                 num: Estimator, cat: Estimator, rest: seq<Entry>)
    requires forall k :: 0 <= k < |rest| ==> rest[k].name == "remainder"
    requires Contribution(Entry("num", num, numerical)).Success?
    requires Contribution(Entry("cat", cat, categorical)).Success?
    ensures FeatureNames([Entry("num", num, numerical), Entry("cat", cat, categorical)] + rest) ==
      Success(Contribution(Entry("num", num, numerical)).value + Contribution(Entry("cat", cat, categorical)).value)
    ensures Unnamed(Entry("num", num, numerical)) && Unnamed(Entry("cat", cat, categorical)) ==>
      FeatureNames([Entry("num", num, numerical), Entry("cat", cat, categorical)] + rest) ==
      Success(numerical + categorical)
  {
    FeatureNamesPair(Entry("num", num, numerical), Entry("cat", cat, categorical), rest);
  }

  /** `get_feature_names` of the fitted preprocessor: the numerical branch's
      names, then the categorical branch's; the columns left to the remainder
      add nothing. */
  lemma FittedPreprocessorNames(categorical: seq<Label>, numerical: seq<Label>, num: Estimator, cat: Estimator, columns: seq<Label>)
    requires Contribution(Entry("num", num, numerical)).Success?
    requires Contribution(Entry("cat", cat, categorical)).Success?
    ensures FeatureNames(FittedEntries(Preprocess.GetPreprocessor(categorical, numerical), [num, cat], columns)) ==
      Success(Contribution(Entry("num", num, numerical)).value + Contribution(Entry("cat", cat, categorical)).value)
  {
    var rest := Remaining(columns, numerical + categorical);
    var tail: seq<Entry> := if rest == [] then [] else [Entry("remainder", RemainderEstimator, rest)];
    FittedPreprocessor(categorical, numerical, num, cat, columns);
    PreprocessorFeatureNames(categorical, numerical, num, cat, tail);
  }

  /** Entries that are all named `remainder` output nothing. */
  lemma {:induction false} RemaindersContributeNothing(es: seq<Entry>)
    requires forall k :: 0 <= k < |es| ==> es[k].name == "remainder"
    ensures FeatureNames(es) == Success([])
  {
    if es != [] {
      var init := es[..|es| - 1];
      assert forall k :: 0 <= k < |init| ==> init[k] == es[k];
      RemaindersContributeNothing(init);
      assert es[|es| - 1].name == "remainder";
      assert Contribution(es[|es| - 1]) == Success([]);
      var none: seq<Label> := [];
      assert none + none == none;
      assert FeatureNames(es) == Extend(Success(none), Success(none));
    }
  }
}
