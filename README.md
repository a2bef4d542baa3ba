# Credit-default risk scoring: the column-schema contract and the service lifecycle

This project models the core of a credit-default risk-scoring service. The
service trains a classifier on the UCI "default of credit card clients" data and
serves predictions over HTTP. The model follows the names of the columns through
every stage, and it models the small state machine of the serving process.

- **Loading** (`load_data`). The loader either returns the synthetic table, when
  forced or when fetching fails, or fetches the UCI dataset. A fetched dataset
  has its labels lower-cased, its label column renamed to `target`, `pay_0`
  renamed to `pay_1`, and `id` dropped.
- **Synthetic data** (`generate_synthetic_data`). The generator reseeds numpy's
  global generator with 42. It then fills 24 columns in a fixed order, with fixed
  ranges.
- **Request schema**. `PredictionRequest` has 23 required, typed fields. The
  model also covers the JSON validation that precedes the handler, and the
  one-row frame built from a request.
- **Preprocessing**. `split_features_target` splits off the target, and
  `get_preprocessor` lays out a two-entry column transformer.
- **Training**. `train()` splits the feature columns into categorical and
  numerical by dtype. It also writes a metrics report, whose key shape is
  modelled.
- **Explainability** (`get_feature_names`). It gathers the output column names
  of a fitted column transformer.
- **Serving**. A `models` registry is filled at startup and cleared at shutdown.
  The health check reads it, and `/predict` gates on it and maps failures to
  HTTP errors.

Everything numeric is an opaque oracle:
- numpy's draws;
- fitting, `predict_proba` and `predict`;
- the transforms and the names-out functions of fitted estimators;
- the metric values.

The modules follow the source files:

| module | file | form |
|---|---|---|
| `Wrappers` | (none) | `Option` and `Result` |
| `Json` | (none) | JSON values |
| `Frames` | (none) | pandas frames, as the core uses them: labelled, typed columns; rename, drop, lower-case, concat |
| `MockData` | `src/training/mock_data.py` | the generator is the class `NumpyRandom`; `GenerateSyntheticData` is a method with a loop, proved against `SyntheticFrame` |
| `DataLoader` | `src/training/data_loader.py` | `LoadData` is a method that rebinds the frame step by step; the remote repository is the class `UciRepository`; the label transforms are functions |
| `Schemas` | `src/api/schemas.py` | datatypes and a validation function |
| `Preprocess` | `src/training/preprocess.py` | functions |
| `Train` | `src/training/train.py` | functions, for the dtype partition and the report |
| `ShapUtils` | `src/explainability/shap_utils.py` | `GetFeatureNames` is a method whose loop extends the output, proved against `FeatureNames` |
| `Api` | `src/api/main.py` | the class `RiskService`, whose `models` map field is updated by `Startup` and `Shutdown` and read by `HealthCheck` and `Predict` |

`load_data` normalises only the spellings listed above:
- it has no mapping from `X1..X23` names to readable ones;
- it has no `Y` to `target` rename;
- it reads no local spreadsheet.

A label outside the listed spellings is therefore only lower-cased
(`DataLoader.CanonicalOthersKept`).

## Model

| member | source | states |
|---|---|---|
| Frames.Lower | src/training/data_loader.py:29 | the lower-cased label has the same length, with each character mapped by ASCII lower-casing |
| Frames.LowerIsLower | src/training/data_loader.py:29 | lower-casing is idempotent |
| Frames.RenameColumn | src/training/data_loader.py:32 | `rename(columns={from: to})` relabels every column called `from` and keeps rows, cells, dtypes and order |
| Frames.RenameNames | src/training/data_loader.py:31-37 | renaming acts on the label list element by element |
| Frames.RenameAbsent | src/training/data_loader.py:31-37 | renaming an absent label changes nothing |
| Frames.RenameKeepsShape | src/training/data_loader.py:31-37 | renaming keeps a well-formed frame well-formed |
| Frames.LowerLabels | src/training/data_loader.py:29 | an AttributeError iff some label is not a string; otherwise every label is lower-cased in place, with cells, dtypes, order and row count kept |
| Frames.LowerLabelsKeepsShape | src/training/data_loader.py:29 | lower-casing the labels keeps the row count and well-formedness |
| Frames.Concat | src/training/data_loader.py:28 | the result has the longer row count and the columns of both frames |
| Frames.ConcatSpec | src/training/data_loader.py:28 | `concat(axis=1)` takes the longer row count, keeps features' labels then targets', stays well-formed, and juxtaposes the columns when the row counts agree |
| Frames.ConcatWellFormed | src/training/data_loader.py:28 | every padded column has the joint row count |
| Frames.ConcatSameRows | src/training/data_loader.py:28 | over equal row counts the columns are exactly features then targets |
| Frames.ConcatNames | src/training/data_loader.py:28 | the labels of the concatenation are features' then targets' |
| Frames.DropColumn | src/training/preprocess.py:34 | a KeyError for the label iff it is absent; otherwise the row count is kept and no column is added |
| Frames.DropColumnSpec | src/training/preprocess.py:34 | `drop(columns=[c])` raises KeyError exactly when `c` is absent; otherwise it removes exactly the columns labelled `c`, keeps the others in order and keeps the row count |
| Frames.WithoutNamedKeepsOthers | src/training/data_loader.py:39-40 | dropping keeps exactly the other columns, as an ordered subsequence, with the count reduced by the dropped ones |
| Frames.OnlyNamedSelects | src/training/preprocess.py:35 | selecting a label keeps exactly the columns carrying it |
| Frames.WithoutNamedNames | src/training/data_loader.py:39-40 | the labels after dropping are the label list with that label removed |
| Frames.WithoutAbsent | src/training/data_loader.py:39-40 | dropping an absent label keeps the columns unchanged, which is why the guarded `drop` of `id` is safe to model unguarded |
| Frames.CountNamedPositive | src/training/preprocess.py:34-35 | a label has at least one column iff it is among the labels |
| MockData.SchemaEntry | src/training/mock_data.py:16-29 | every column's draw has a non-empty range or option list |
| MockData.RandIntDraws | src/training/mock_data.py:17 | `randint(low, high, n)` gives `n` values in `[low, high)`, read from the stream after the calls made since seeding |
| MockData.ChoiceDraws | src/training/mock_data.py:18-20 | `choice(options, n)` gives `n` values among the options |
| MockData.NormalDraws | src/training/mock_data.py:26-27 | `randn(n)` gives `n` values |
| MockData.NumpyRandom.constructor | src/training/mock_data.py:14 | a generator with the given oracles and seed, and no calls yet |
| MockData.NumpyRandom.SetSeed | src/training/mock_data.py:14 | reseeding sets the seed and forgets the calls made before |
| MockData.NumpyRandom.RandInt | src/training/mock_data.py:17 | a `randint` call yields the values that follow the calls made since seeding, and is added to them with its bounds and size |
| MockData.NumpyRandom.Choice | src/training/mock_data.py:18-20 | a `choice` call yields the values that follow the earlier calls, and is added to them with its options and size |
| MockData.NumpyRandom.Randn | src/training/mock_data.py:26-27 | a `randn` call yields the values that follow the earlier calls, and is added to them with its size |
| MockData.GenerateSyntheticData | src/training/mock_data.py:8-35 | the result is `SyntheticFrame` of the oracles and `n_rows` (default 1000), whatever the generator's earlier state, so equal `n_rows` give equal tables; the generator ends at seed 42 after exactly the table's 24 calls (`SyntheticRequests`) |
| MockData.SyntheticFrame | src/training/mock_data.py:8-35 | the table has `n` rows and 24 columns; column k is drawn by the k-th call, after the calls for the columns before it |
| MockData.SyntheticRequests | src/training/mock_data.py:16-29 | the table makes 24 calls, one per column |
| MockData.MonthDraws | src/training/mock_data.py:24-27 | month `i` draws `randint(-2, 9)`, then `randn` scaled by 50000 around 50000, then `randn` scaled by 5000 around 2000 |
| MockData.MonthRequests | src/training/mock_data.py:24-27 | one iteration extends the calls made by a `randint` and two `randn` calls of `n` values |
| MockData.RowCountShiftsLaterColumns | src/training/mock_data.py:14-18 | numpy's generator is one stream: the `sex` column of a 500-row table need not be the first 500 values of a 1000-row table's, because the `limit_bal` call before it consumed a different amount |
| MockData.MonthStep | src/training/mock_data.py:24-27 | one loop iteration appends exactly the month's `pay_i`, `bill_amt{i}`, `pay_amt{i}` columns |
| MockData.LeadingAndLast | src/training/mock_data.py:16-29 | the five dict-literal columns start the table and `target` ends it |
| MockData.MonthColumns | src/training/mock_data.py:24-27 | month `i` occupies positions 2+3i to 4+3i, with an int repayment status and two float amounts |
| MockData.LeadingColumns | src/training/mock_data.py:16-29 | `limit_bal`, `sex`, `education`, `marriage`, `age` and `target` are drawn with their stated bounds and options |
| MockData.DrawnColumnValues | src/training/mock_data.py:16-29 | each column has `n` cells, all within its draw's range or options, and amounts are floats |
| MockData.SyntheticShape | src/training/mock_data.py:8-35 | the table has `n` rows and 24 columns, each with `n` cells |
| MockData.SchemaEntryName | src/training/mock_data.py:16-29 | the k-th column label is the k-th label of the fixed order |
| MockData.SyntheticNamesDistinct | src/training/mock_data.py:16-29 | no label repeats |
| MockData.SyntheticColumnOrder | src/training/mock_data.py:16-29 | the order is `limit_bal, sex, education, marriage, age`, then `pay_i, bill_amt{i}, pay_amt{i}` for i = 1..6, then `target`, with no label repeated |
| MockData.ColumnRange | src/training/mock_data.py:17-29 | a `randint` column lies in `[low, high - 1]` |
| MockData.ChoiceRange | src/training/mock_data.py:18-20 | a `choice` column lies within the bounds of its options |
| MockData.MonthRanges | src/training/mock_data.py:25-27 | each `pay_i` lies in [-2, 8], and the amounts are floats |
| MockData.SyntheticRanges | src/training/mock_data.py:16-29 | `limit_bal` in [10000, 999999], `sex` in {1,2}, `education` in [1,4], `marriage` in [1,3], `age` in [21,78], `pay_i` in [-2,8], `target` in {0,1}, and the amounts are floats |
| DataLoader.UciRepository.constructor | src/training/data_loader.py:23 | a repository with the given response, asked nothing yet |
| DataLoader.UciRepository.FetchCreditDefault | src/training/data_loader.py:23-26 | a fetch returns the repository's response and counts one request |
| DataLoader.LoadData | src/training/data_loader.py:10-47 | when the flag is set: the synthetic table, with no fetch. Otherwise: exactly one fetch, then the normalised dataset, or the synthetic table when the fetch or the normalisation raises. It never raises. Numpy's generator ends at seed 42 after the table's calls whenever the synthetic table is returned (lines 18, 47), and is untouched when the fetched dataset is (line 43) |
| DataLoader.UseSyntheticData | src/training/data_loader.py:16 | the flag: the variable, defaulting to `false`, lower-cased, equals `true` (its cases are stated by `SyntheticFlag`) |
| DataLoader.RenameTarget | src/training/data_loader.py:31-34 | the spaced spelling is renamed when present, otherwise the underscored one (the outcome is stated by `CanonicalTarget`) |
| DataLoader.RenamePay0 | src/training/data_loader.py:36-37 | `pay_0` is renamed to `pay_1` when present (stated by `CanonicalPayAndId`) |
| DataLoader.DropId | src/training/data_loader.py:39-40 | `id` is dropped when present (stated by `CanonicalPayAndId` and `CanonicalCount`) |
| DataLoader.NormalizeFetched | src/training/data_loader.py:28-40 | concat, lower-case, the renames and the drop, in that order; its labels and shape are stated by `NormalizedLabels` and `NormalizedShape` |
| DataLoader.FetchedOrSynthetic | src/training/data_loader.py:21-47 | the fetched, normalised table, or the synthetic one when the fetch or the normalisation raises (the `except` branch) |
| DataLoader.SyntheticFlag | src/training/data_loader.py:16 | the flag defaults to off and is read case-insensitively (`TRUE`, `True` yes; `1` no) |
| DataLoader.RenamedIsCanonical | src/training/data_loader.py:31-40 | for one label, the two renames followed by the `id` drop give `CanonicalName` |
| DataLoader.RenamedLabelsAt | src/training/data_loader.py:31-37 | the renames act label by label |
| DataLoader.StepsAreCanonical | src/training/data_loader.py:31-40 | rename target, rename `pay_0` and drop `id`, applied to the label list, equal `CanonicalNames` |
| DataLoader.NormalizedLabels | src/training/data_loader.py:28-40 | normalisation fails exactly when some label is not a string; otherwise the labels are `CanonicalNames` of the lower-cased labels |
| DataLoader.CanonicalMembership | src/training/data_loader.py:29-40 | a name survives iff some input label maps to it |
| DataLoader.CanonicalCount | src/training/data_loader.py:39-40 | only the `id` labels disappear |
| DataLoader.CanonicalAppend | src/training/data_loader.py:39-40 | normalisation keeps relative order: it distributes over concatenation |
| DataLoader.CanonicalTarget | src/training/data_loader.py:31-34 | `target` is present iff the label column had either spelling or `target` already; the spaced spelling never survives; the underscored one survives only when both spellings occur |
| DataLoader.CanonicalPayAndId | src/training/data_loader.py:36-40 | `pay_1` is present iff `pay_0` or `pay_1` was; no `pay_0` and no `id` survive |
| DataLoader.CanonicalOthersKept | src/training/data_loader.py:29-40 | any other label (`y`, `x1`, ...) is kept as lower-cased, and nothing but `target` and `pay_1` is introduced |
| DataLoader.LoweredAreLower | src/training/data_loader.py:29 | lower-cased labels are lower-case |
| DataLoader.CanonicalLower | src/training/data_loader.py:29-40 | the renames keep labels lower-case |
| DataLoader.NormalizedAreLower | src/training/data_loader.py:29 | after normalisation every label is a string equal to its own lower-case form |
| DataLoader.NormalizedCounts | src/training/data_loader.py:28-40 | rows = the longer input's; columns = features + targets − the `id` columns |
| DataLoader.NormalizedWellFormed | src/training/data_loader.py:28-40 | well-formed inputs give a well-formed table |
| DataLoader.NormalizedShape | src/training/data_loader.py:28-40 | the two facts above together |
| DataLoader.MockedLowered | tests/test_api.py:19-21 | the mocked fetch's labels are already lower-case |
| DataLoader.MockedCanonical | tests/test_api.py:20-29 | `pay_0, limit_bal, default payment next month` normalise to `pay_1, limit_bal, target` |
| DataLoader.MockedFetchShape | tests/test_api.py:16-30 | the mocked fetch gives a 2 × 3 table labelled `pay_1`, `limit_bal`, `target` |
| Schemas.NewResponse | src/api/schemas.py:29-33 | a response built from probability and label alone has `shap_values` and `top_features` None |
| Schemas.ConformsAtEachField | src/api/schemas.py:5-27 | a conforming body has each of the 23 fields, with a value of its type |
| Schemas.RequestFieldsDistinct | src/api/schemas.py:5-27 | exactly 23 fields, all names distinct |
| Schemas.RequestFieldsLower | src/api/schemas.py:5-27 | every field name is lower-case |
| Schemas.RequestPayFields | src/api/schemas.py:10-15 | `pay_1` to `pay_6` are fields; `pay_0` is not |
| Schemas.FieldTypes | src/api/schemas.py:5-27 | positions 1 to 10 (`sex` … `pay_6`) are `int`; `limit_bal` and the twelve amounts are `float` |
| Schemas.SyntheticFeaturesAreNonTarget | src/training/mock_data.py:16-29 | those are the generated labels other than `target` |
| Schemas.RequestFieldsAreFeatures | src/api/schemas.py:5-27 | a name is a request field iff it is a generated label other than `target` |
| Schemas.RequestMatchesSynthetic | src/api/schemas.py:5-27 | the request fields and the synthetic features are equal as sets but not as sequences: grouped here, interleaved there (position 6 is `pay_2` vs `bill_amt1`) |
| Schemas.Validate | src/api/schemas.py:4-27 | validation succeeds iff the body conforms; what it reports is stated by `ValidateSpec` |
| Schemas.InvalidFieldsSpec | src/api/schemas.py:5-27 | a field is reported iff it is missing or ill-typed; the report is empty iff every field is valid |
| Schemas.ValidateSpec | src/api/schemas.py:4-27 | validation succeeds iff the body conforms; otherwise it reports a non-empty list of exactly the faulty fields |
| Schemas.EveryFieldRequired | src/api/schemas.py:5-27 | a body missing any field is rejected and that field is reported |
| Schemas.ValidateIgnoresExtraKeys | src/api/schemas.py:4-27 | keys that are not fields do not affect validation |
| Schemas.InvalidFieldsAgree | src/api/schemas.py:5-27 | bodies that agree on which fields are valid get the same report |
| Schemas.AsBodyAt | src/api/schemas.py:5-27 | a request's body holds each field's value under its name |
| Schemas.IntFieldsIntegral | src/api/schemas.py:6-15 | `int` fields carry integral numbers |
| Schemas.AsBodyConforms | src/api/schemas.py:4-27 | a request's body conforms |
| Schemas.BodyValueKept | src/api/schemas.py:5-27 | reading a conforming field as its type loses nothing |
| Schemas.BuildReadsFields | src/api/schemas.py:5-27 | the built request's k-th value is the body's k-th field |
| Schemas.BuildKeepsValues | src/api/schemas.py:5-27 | the built request holds exactly the body's numbers |
| Schemas.FieldValuesInjective | src/api/schemas.py:4-27 | a request is determined by its 23 values |
| Schemas.ValidateAsBody | src/api/schemas.py:4-27 | round trip: validating a request's body gives back that request |
| Schemas.ValidateKeepsFields | src/api/schemas.py:4-27 | round trip the other way: an accepted body agrees with the body of the request it yields on every field |
| Schemas.RequestFrame | src/api/main.py:66-68 | the request frame has one row and one column per field |
| Schemas.RequestFrameShape | src/api/main.py:66-68 | `DataFrame([request.model_dump()])` has one row and one column per field in declaration order; the column is `int64` iff the field is `int`, and holds the field's value |
| Schemas.RequestFrameMatchesTraining | src/api/main.py:66-68 | the request frame's labels are exactly the synthetic table's labels other than `target`, each once |
| Preprocess.GetPreprocessor | src/training/preprocess.py:8-28 | the transformers are exactly `num` (the median-imputer and scaler pipeline) over the numerical columns, then `cat` (the most-frequent-imputer and one-hot pipeline) over the categorical ones; the remainder is dropped |
| Preprocess.SplitFeaturesTarget | src/training/preprocess.py:30-36 | KeyError for the target iff it is absent; otherwise X and y both keep the row count (the rest is stated by `SplitSpec`) |
| Preprocess.PipelineLayout | src/training/preprocess.py:13-21 | numeric: median imputer then scaler; categorical: most-frequent imputer then dense one-hot ignoring unknown categories |
| Preprocess.PreprocessorRouting | src/training/preprocess.py:23-26 | over disjoint lists, a numerical column goes to `num`, a categorical one to `cat`, any other is dropped |
| Preprocess.PartitionByName | src/training/preprocess.py:34-35 | dropping and selecting one label partition the columns |
| Preprocess.SplitSpec | src/training/preprocess.py:30-36 | the split raises KeyError iff the target is absent (never an empty y). Otherwise X is the other columns in order, y is the target column(s), both keep the row count, and together they are exactly the columns of `df` |
| Preprocess.SplitDefaultTarget | src/training/preprocess.py:30 | the target defaults to `target` |
| Train.SelectDtypes | src/training/train.py:32-33 | the selection has at most one label per column (its meaning is stated by `SelectDtypesSpec`) |
| Train.TrainingLayout | src/training/train.py:26-39 | the preprocessor of `train()`: a KeyError for `target` iff it is absent, otherwise the `num` and `cat` transformers with the remainder dropped |
| Train.CategoricalCols | src/training/train.py:32 | `select_dtypes(include=['object', 'category'])` over the features (its meaning is stated by `SelectDtypesSpec` and `PartitionSpec`) |
| Train.NumericalCols | src/training/train.py:33 | `select_dtypes(include=['int64', 'float64'])` over the features (its meaning is stated by `SelectDtypesSpec` and `PartitionSpec`) |
| Train.SelectDtypesSpec | src/training/train.py:32-33 | a label is selected iff a column carrying it has an included dtype; the selection is an ordered subsequence of the labels |
| Train.SelectAll | src/training/train.py:33 | when every dtype is included, all labels are selected in order |
| Train.SelectNone | src/training/train.py:32 | when no dtype is included, nothing is selected |
| Train.PartitionSpec | src/training/train.py:32-33 | over distinct labels the two lists are disjoint; a column is categorical iff object/category and numerical iff int64/float64, so an `int32` or `bool` column is in neither |
| Train.TargetInNeither | src/training/train.py:26-33 | `target` is in neither list |
| Train.SplitTargetLast | src/training/train.py:26 | a frame whose only `target` column is last splits into the columns before it |
| Train.SyntheticLabels | src/training/mock_data.py:16-29 | the synthetic labels are the 23 features then `target` |
| Train.SyntheticDtypes | src/training/mock_data.py:16-29 | every generated column is int64 or float64 |
| Train.SyntheticFeatures | src/training/train.py:26 | on the synthetic table the split succeeds and X holds the 23 features in order |
| Train.SyntheticTraining | src/training/train.py:26-39 | on the synthetic table nothing is categorical, every feature is numerical, and the preprocessor is `GetPreprocessor([], features)` |
| Train.Report | src/training/train.py:96-100 | the metrics dictionary; its keys are stated by `ReportKeys` and its content by `ReportRoundTrip` |
| Train.ReportKeys | src/training/train.py:53-100 | the report has exactly the keys `baseline{accuracy, roc_auc}`, `champion{accuracy, roc_auc, precision, recall, f1}` and `confusion_matrix` (a list of lists) |
| Train.ReadRowInverse | src/training/train.py:99 | a confusion-matrix row reads back unchanged |
| Train.ReadMatrixInverse | src/training/train.py:99 | the confusion matrix reads back unchanged |
| Train.ReportRoundTrip | src/training/train.py:96-100 | reading the report back gives the metrics it was written from |
| ShapUtils.Contribution | src/explainability/shap_utils.py:43-57 | a `remainder` entry adds nothing, and an entry that neither names nor is a pipeline adds its features (every branch is stated by `EntryOutput`) |
| ShapUtils.FeatureNames | src/explainability/shap_utils.py:39-59 | the contributions concatenated in order, or the first exception (its properties are stated by `FeatureNamesAppend` and `FailurePersists`) |
| ShapUtils.FailurePersists | src/explainability/shap_utils.py:42-57 | once an entry raises, the whole call raises that exception |
| ShapUtils.GetFeatureNames | src/explainability/shap_utils.py:35-59 | the loop's result is `FeatureNames`: the contributions concatenated in order, or the first exception |
| ShapUtils.FeatureNamesAppend | src/explainability/shap_utils.py:42-57 | the output for two entry lists is the first's output followed by the second's |
| ShapUtils.FeatureNamesSingle | src/explainability/shap_utils.py:42-57 | one entry outputs its contribution |
| ShapUtils.EntryOutput | src/explainability/shap_utils.py:43-57 | `remainder` adds nothing; an entry with `get_feature_names_out` adds that applied to its features; a pipeline adds its last step's names-out, or its features when that step has none; anything else adds its features |
| ShapUtils.RemainderContributesNothing | src/explainability/shap_utils.py:43-44 | inserting a `remainder` entry anywhere changes nothing, whether the call yields names or raises |
| ShapUtils.FailureAfterSuccess | src/explainability/shap_utils.py:42-57 | after entries that yield names, a raising list raises the same exception |
| ShapUtils.RemaindersContributeNothing | src/explainability/shap_utils.py:43-44 | only-`remainder` entries output nothing |
| ShapUtils.UnnamedContribution | src/explainability/shap_utils.py:43-57 | an entry without naming adds its raw features (nothing for `remainder`) |
| ShapUtils.UnnamedOutput | src/explainability/shap_utils.py:39-59 | when no entry exposes naming, the output is the raw feature lists of the non-remainder entries, and its length is the sum of their lengths |
| ShapUtils.FeatureNamesPair | src/explainability/shap_utils.py:42-57 | two entries followed by `remainder` entries output the two contributions in order |
| ShapUtils.Remaining | src/training/preprocess.py:23-26 | the columns left to the remainder are exactly those of the input in neither column list |
| ShapUtils.FittedEntries | src/training/preprocess.py:23-26 | `transformers_`: one entry per configured transformer, with its name and columns, then a `remainder` entry over the columns in no list, present exactly when there are such columns |
| ShapUtils.FittedPreprocessor | src/training/preprocess.py:23-26 | the fitted preprocessor's entries are `num` over the numerical columns, then `cat` over the categorical ones, then `remainder` over any other column (an `int32` or `bool` one, say) |
| ShapUtils.FittedPreprocessorNames | src/explainability/shap_utils.py:35-59 | `get_feature_names` of the fitted preprocessor is the numerical branch's names then the categorical branch's, whatever the remainder holds |
| ShapUtils.PreprocessorFeatureNames | src/explainability/shap_utils.py:42-57 | for the preprocessor, the numerical branch's names come first, then the categorical branch's; without naming, exactly the numerical then the categorical columns |
| Api.Explain | src/api/main.py:77-102 | the explanation block raises when the pipeline lacks a `classifier` or `preprocessor` step, or when the transform or the booster lookup raises (its outcome is unobservable, see `ExplanationFailureIgnored`) |
| Api.PredictOutcome | src/api/main.py:57-113 | `predict`: 503 without a pipeline, 500 with the message of a failing model call, else the response (stated by `PredictWithoutModel`, `PredictSpec`, `ResponseFieldsNeverNone`) |
| Api.PostPredictOutcome | src/api/main.py:57-58 | a POST: validation first, then `predict` (stated by `PostPredictSpec`) |
| Api.Health | src/api/main.py:52-55 | status is `healthy` iff `pipeline` is loaded, else `degraded`; the version is always the configured one |
| Api.RiskService.constructor | src/api/main.py:20 | the registry starts empty |
| Api.RiskService.Startup | src/api/main.py:25-32 | a successful load registers `pipeline`; a failed load leaves the registry unchanged (it is swallowed) |
| Api.RiskService.Shutdown | src/api/main.py:35 | the registry is cleared |
| Api.RiskService.HealthCheck | src/api/main.py:52-55 | the response is `Health` of the registry |
| Api.RiskService.Predict | src/api/main.py:57-113 | the outcome is `PredictOutcome` of the registry and the request |
| Api.RiskService.PostPredict | src/api/main.py:57-58 | the outcome is `PostPredictOutcome`: validation first, then the handler |
| Api.PredictWithoutModel | src/api/main.py:59-60 | without a loaded pipeline every request gets 503 "Model not loaded" |
| Api.PredictConsultsOnlyPipeline | src/api/main.py:62 | the outcome depends on the `pipeline` entry alone |
| Api.PredictSpec | src/api/main.py:64-113 | a prediction succeeds iff both model calls do, and carries their results with `{}` and `[]` as explanation. A failing call becomes a 500 carrying its message, and `predict_proba` is tried first |
| Api.ExplanationFailureIgnored | src/api/main.py:77-102 | pipelines that predict alike give the same outcome, whatever their steps, transform or booster do, failures included |
| Api.ResponseFieldsNeverNone | src/api/main.py:96-109 | a successful response has `shap_values == {}` and `top_features == []`, never the None defaults |
| Api.PostPredictSpec | src/api/main.py:57-58 | an invalid body gets 422 naming its faulty fields, even with no model loaded; a valid one is handled as its request |
| Api.PostPredictAsBody | src/api/main.py:57-68 | a client's own request body is handled as that request |
| Api.Lifecycle | src/api/main.py:20-60 | start, check health, predict, shut down, check health. Health is healthy iff the load succeeded; a failed load makes the prediction a 503; after shutdown the service is degraded |

## Left out

- The numerics are oracles: model fitting, `predict_proba`, `predict`, XGBoost, `train_test_split`, the metric values, and the SHAP `TreeExplainer`. The label and the probability are two separate oracle results; nothing relates `is_default` to the probability.
- `get_explainer` and `generate_shap_plots` are foreign calls plus matplotlib file output.
- `fetch_ucirepo` is the response of `UciRepository`.
- `joblib.load` is the `load` argument of `Startup`.
- `joblib.dump`, the metrics file and the `models` directory are file I/O.
- `train()`'s fit, evaluate and write sequence is not modelled as a method. Only its column bookkeeping and the report's shape are modelled.
- FastAPI routing, the request-logging middleware (uuid, clock, logger) and the Mangum handler are HTTP and I/O plumbing.
- Logging is not modelled anywhere.
- src/utils/config.py is not part of this model: the version is an opaque string, and the model path is folded into the `load` outcome.
- debug_data.py is not part of this model: it is a spreadsheet-reading diagnostic.
- MockData.RandIntDraws: numpy's sampling algorithm is not modelled. A draw is `low + u mod (high − low)` of an opaque oracle keyed by the seed and the calls made since seeding, so ranges, counts, determinism under a fixed seed and the dependence of a call on the calls before it are captured, but no particular values.
- MockData.NormalDraws: the normal values are opaque reals. Only their presence, count and float dtype are modelled.
- Frames.Lower: ASCII lower-casing only. Python's `str.lower` is Unicode-aware.
- Frames.Concat: pandas' dtype promotion when padding the shorter frame is not modelled. The dtype is kept and the padding cells are missing values.
- Schemas.Validate: pydantic's lax coercion is not modelled; a field accepts only a JSON number. Numeric strings and booleans are rejected, and an `int` field accepts only integral numbers.
- Preprocess.SplitFeaturesTarget: y is modelled as a one-column frame (every column carrying the label), not as a Series.
- ShapUtils.GetFeatureNames: the preprocessor is assumed fitted. It takes the `transformers_` list itself, so the AttributeError that reading `transformers_` raises on an unfitted `ColumnTransformer` is not modelled.
- Api.Explain: the explanation block computes nothing that reaches the response. Its outcome is modelled only to show that its failure is ignored.
