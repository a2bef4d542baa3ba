/** `load_data`: either the synthetic table (when forced, or when anything in
    the fetch-and-normalise block raises) or the UCI "default of credit card
    clients" dataset with its column labels normalised: lower-cased, the label
    column renamed to `target`, `pay_0` renamed to `pay_1`, `id` dropped. */
module DataLoader {
  import opened Wrappers
  import opened Frames
  import MockData

  const SpacedTarget: string := "default payment next month"
  const UnderscoredTarget: string := "default_payment_next_month"

  /** What `fetch_ucirepo(id=350)` provides: `data.features` and `data.targets`. */
  datatype Dataset = Dataset(features: Frame, targets: Frame)

  /** The remote UCI repository. `response` is what fetching dataset 350
      yields (the dataset, or the exception raised on the way: network
      failure, missing attribute); `fetches` counts the requests made. */
  class UciRepository {
    const response: Result<Dataset, Error>
    var fetches: nat

    constructor (response: Result<Dataset, Error>)
      ensures this.response == response && fetches == 0
    {
      this.response := response;
      fetches := 0;
    }

    /** `fetch_ucirepo(id=350)` followed by reading `data.features` and `data.targets`. */
    method FetchCreditDefault() returns (r: Result<Dataset, Error>)
      modifies this
      ensures r == response && fetches == old(fetches) + 1
    {
      r := response;
      fetches := fetches + 1;
    }
  }

  /** `os.getenv("USE_SYNTHETIC_DATA", "false").lower() == "true"` */
  predicate UseSyntheticData(env: Option<string>) {
    Lower(env.GetOr("false")) == "true"
  }

  // ---------------------------------------------------------------------------
  // The normalisation steps, each as the code writes it

  /** Rename the label column to `target`: the spaced spelling when present,
      otherwise the underscored one. */
  function RenameTarget(f: Frame): Frame {
    if HasColumn(f, Str(SpacedTarget)) then RenameColumn(f, Str(SpacedTarget), Str("target"))
    else if HasColumn(f, Str(UnderscoredTarget)) then RenameColumn(f, Str(UnderscoredTarget), Str("target"))
    else f
  }

  function RenamePay0(f: Frame): Frame {
    if HasColumn(f, Str("pay_0")) then RenameColumn(f, Str("pay_0"), Str("pay_1")) else f
  }

  function DropId(f: Frame): Frame {
    if HasColumn(f, Str("id")) then DropColumn(f, Str("id")).value else f
  }

  /** The body of the `try` block after the fetch: concatenate features and
      targets, lower-case the labels, rename, drop `id`. */
  function NormalizeFetched(d: Dataset): Result<Frame, Error> {
    match LowerLabels(Concat(d.features, d.targets))
    case Failure(e) => Failure(e)
    case Success(f) => Success(DropId(RenamePay0(RenameTarget(f))))
  }

  /** What `load_data` returns when it does not force synthetic data: the
      normalised dataset, or `fallback` when fetching or normalising raised. */
  function FetchedOrSynthetic(response: Result<Dataset, Error>, fallback: Frame): Frame {
    match response
    case Failure(_) => fallback
    case Success(d) =>
      match NormalizeFetched(d)
      case Failure(_) => fallback
      case Success(f) => f
  }

  /** The fetch succeeded and its normalisation raised nothing. */
  predicate FetchUsable(response: Result<Dataset, Error>) {
    response.Success? && NormalizeFetched(response.value).Success?
  }

  /** `load_data()`. The synthetic table is generated with the default row
      count; the repository is asked once unless synthetic data is forced. No
      path raises. Numpy's global generator is reseeded with 42 and left after
      the synthetic table's calls whenever that table is returned, and is
      untouched when the fetched dataset is. */
  method LoadData(env: Option<string>, repo: UciRepository, rng: MockData.NumpyRandom) returns (df: Frame)
    modifies repo, rng
    ensures UseSyntheticData(env) ==>
      repo.fetches == old(repo.fetches) && df == MockData.SyntheticFrame(rng.uniform, rng.normal, MockData.DefaultRows)
    ensures !UseSyntheticData(env) ==>
      repo.fetches == old(repo.fetches) + 1 &&
      df == FetchedOrSynthetic(repo.response, MockData.SyntheticFrame(rng.uniform, rng.normal, MockData.DefaultRows))
    ensures UseSyntheticData(env) || !FetchUsable(repo.response) ==>
      rng.seed == MockData.Seed && rng.history == MockData.SyntheticRequests(MockData.DefaultRows)
    ensures !UseSyntheticData(env) && FetchUsable(repo.response) ==>
      rng.seed == old(rng.seed) && rng.history == old(rng.history)
  {
    if UseSyntheticData(env) {
      df := MockData.GenerateSyntheticData(rng);
      return;
    }
    var fetched := repo.FetchCreditDefault();
    if fetched.Failure? {
      df := MockData.GenerateSyntheticData(rng);
      return;
    }
    df := Concat(fetched.value.features, fetched.value.targets);
    var lowered := LowerLabels(df);
    if lowered.Failure? {
      df := MockData.GenerateSyntheticData(rng);
      return;
    }
    df := lowered.value;
    if HasColumn(df, Str(SpacedTarget)) {
      df := RenameColumn(df, Str(SpacedTarget), Str("target"));
    } else if HasColumn(df, Str(UnderscoredTarget)) {
      df := RenameColumn(df, Str(UnderscoredTarget), Str("target"));
    }
    if HasColumn(df, Str("pay_0")) {
      df := RenameColumn(df, Str("pay_0"), Str("pay_1"));
    }
    if HasColumn(df, Str("id")) {
      df := DropColumn(df, Str("id")).value;
    }
  }

  // ---------------------------------------------------------------------------
  // An independent, label-by-label account of the normalisation

  /** The labels of the fetched frames, features first. */
  function RawLabels(d: Dataset): seq<Label> {
    Names(d.features.columns) + Names(d.targets.columns)
  }

  predicate AllStrings(ls: seq<Label>) {
    forall j :: 0 <= j < |ls| ==> ls[j].Str?
  }

  function LoweredNames(ls: seq<Label>): (r: seq<string>)
    requires AllStrings(ls)
    ensures |r| == |ls|
  {
    seq(|ls|, j requires 0 <= j < |ls| && ls[j].Str? => Lower(ls[j].text))
  }

  function Strs(names: seq<string>): (r: seq<Label>)
    ensures |r| == |names| && forall j :: 0 <= j < |names| ==> r[j] == Str(names[j])
  {
    seq(|names|, j requires 0 <= j < |names| => Str(names[j]))
  }

  /** What becomes of one lower-cased label: its new name, or None when its
      column is dropped. `spacedPresent` says whether the spaced spelling of the
      label column occurs among the lower-cased labels. */
  function CanonicalName(s: string, spacedPresent: bool): Option<string> {
    if s == SpacedTarget then Some("target")
    else if s == UnderscoredTarget && !spacedPresent then Some("target")
    else if s == "pay_0" then Some("pay_1")
    else if s == "id" then None
    else Some(s)
  }

  function CanonicalNames(names: seq<string>, spacedPresent: bool): seq<string> {
    if names == [] then []
    else
      (match CanonicalName(names[0], spacedPresent) case None => [] case Some(t) => [t])
      + CanonicalNames(names[1..], spacedPresent)
  }

  /** The name one label has after the two renames. */
  function Renamed(s: string, spacedPresent: bool): string {
    var from := if spacedPresent then SpacedTarget else UnderscoredTarget;
    if s == from then "target" else if s == "pay_0" then "pay_1" else s
  }

  lemma RenamedIsCanonical(s: string, spacedPresent: bool)
    requires s == SpacedTarget ==> spacedPresent
    ensures CanonicalName(s, spacedPresent).None? <==> Renamed(s, spacedPresent) == "id"
    ensures CanonicalName(s, spacedPresent).Some? ==> CanonicalName(s, spacedPresent).value == Renamed(s, spacedPresent)
  {
  }

  /** The labels after both renames. */
  function RenamedLabels(names: seq<string>, spacedPresent: bool): (r: seq<Label>)
    ensures |r| == |names|
  {
    var from := if spacedPresent then SpacedTarget else UnderscoredTarget;
    RenameLabels(RenameLabels(Strs(names), Str(from), Str("target")), Str("pay_0"), Str("pay_1"))
  }

  /** The renames work label by label. */
  lemma RenamedLabelsAt(names: seq<string>, spacedPresent: bool)
    requires names != []
    ensures RenamedLabels(names, spacedPresent)[0] == Str(Renamed(names[0], spacedPresent))
    ensures RenamedLabels(names, spacedPresent)[1..] == RenamedLabels(names[1..], spacedPresent)
  {
  }

  lemma StrsCons(t: string, tail: seq<string>)
    ensures Strs([t] + tail) == [Str(t)] + Strs(tail)
  {
  }

  /** The three label steps compose to CanonicalName, element by element. */
  lemma {:induction false} StepsAreCanonical(names: seq<string>, spacedPresent: bool)
    requires SpacedTarget in names ==> spacedPresent
    ensures DropLabels(RenamedLabels(names, spacedPresent), Str("id")) == Strs(CanonicalNames(names, spacedPresent))
  {
    if names != [] {
      var renamed := RenamedLabels(names, spacedPresent);
      var head, rest := renamed[0], renamed[1..];
      var tail := CanonicalNames(names[1..], spacedPresent);
      StepsAreCanonical(names[1..], spacedPresent);
      RenamedLabelsAt(names, spacedPresent);
      assert DropLabels(rest, Str("id")) == Strs(tail);
      RenamedIsCanonical(names[0], spacedPresent);
      assert DropLabels(renamed, Str("id")) == (if head == Str("id") then [] else [head]) + DropLabels(rest, Str("id"));
      var c := CanonicalName(names[0], spacedPresent);
      assert CanonicalNames(names, spacedPresent) == (match c case None => [] case Some(t) => [t]) + tail;
      if c.None? {
        assert head == Str("id");
        assert CanonicalNames(names, spacedPresent) == tail;
      } else {
        assert head == Str(c.value) && head != Str("id");
        assert CanonicalNames(names, spacedPresent) == [c.value] + tail;
        StrsCons(c.value, tail);
      }
    }
  }

  /** Normalisation fails exactly when some label is not a string, and
      otherwise yields, label by label, what CanonicalName prescribes. */
  lemma NormalizedLabels(d: Dataset)
    ensures NormalizeFetched(d).Success? <==> AllStrings(RawLabels(d))
    ensures NormalizeFetched(d).Success? ==>
      var lowered := LoweredNames(RawLabels(d));
      Names(NormalizeFetched(d).value.columns) == Strs(CanonicalNames(lowered, SpacedTarget in lowered))
  {
    var joined := Concat(d.features, d.targets);
    ConcatNames(d.features, d.targets);
    assert Names(joined.columns) == RawLabels(d);
    if AllStrings(RawLabels(d)) {
      var lowered := LoweredNames(RawLabels(d));
      var sp := SpacedTarget in lowered;
      var g := LowerLabels(joined).value;
      assert Names(g.columns) == Strs(lowered);
      var from := if sp then SpacedTarget else UnderscoredTarget;
      assert HasColumn(g, Str(SpacedTarget)) == sp;
      var g1 := RenameTarget(g);
      if !sp && !HasColumn(g, Str(UnderscoredTarget)) { RenameAbsent(g, Str(from), Str("target")); }
      assert g1 == RenameColumn(g, Str(from), Str("target"));
      RenameNames(g, Str(from), Str("target"));
      var g2 := RenamePay0(g1);
      if !HasColumn(g1, Str("pay_0")) { RenameAbsent(g1, Str("pay_0"), Str("pay_1")); }
      assert g2 == RenameColumn(g1, Str("pay_0"), Str("pay_1"));
      RenameNames(g1, Str("pay_0"), Str("pay_1"));
      var g3 := DropId(g2);
      if !HasColumn(g2, Str("id")) { WithoutAbsent(g2.columns, Str("id")); }
      assert g3.columns == WithoutNamed(g2.columns, Str("id"));
      WithoutNamedNames(g2.columns, Str("id"));
      StepsAreCanonical(lowered, sp);
    } else {
      var j :| 0 <= j < |RawLabels(d)| && !RawLabels(d)[j].Str?;
      assert !joined.columns[j].name.Str?;
    }
  }

  // ---------------------------------------------------------------------------
  // Consequences for the normalised labels

  lemma {:induction false} CanonicalMembership(names: seq<string>, spacedPresent: bool, t: string)
    ensures t in CanonicalNames(names, spacedPresent) <==>
      exists s :: s in names && CanonicalName(s, spacedPresent) == Some(t)
  {
    if names != [] {
      CanonicalMembership(names[1..], spacedPresent, t);
      assert forall s :: s in names <==> s == names[0] || s in names[1..];
    }
  }

  /** Only the `id` labels disappear. */
  lemma {:induction false} CanonicalCount(names: seq<string>, spacedPresent: bool)
    ensures |CanonicalNames(names, spacedPresent)| == |names| - multiset(names)["id"]
  {
    if names != [] {
      CanonicalCount(names[1..], spacedPresent);
      assert names == [names[0]] + names[1..];
      assert multiset(names) == multiset{names[0]} + multiset(names[1..]);
    }
  }

  /** Relative order is kept: normalising a concatenation normalises each part. */
  lemma {:induction false} CanonicalAppend(a: seq<string>, b: seq<string>, spacedPresent: bool)
    ensures CanonicalNames(a + b, spacedPresent) == CanonicalNames(a, spacedPresent) + CanonicalNames(b, spacedPresent)
  {
    if a != [] {
      CanonicalAppend(a[1..], b, spacedPresent);
      assert (a + b)[1..] == a[1..] + b;
    } else {
      assert a + b == b;
    }
  }

  /** The label column surfaces as `target`, whichever spelling it had. */
  lemma CanonicalTarget(names: seq<string>)
    ensures var out := CanonicalNames(names, SpacedTarget in names);
      && ("target" in out <==> SpacedTarget in names || UnderscoredTarget in names || "target" in names)
      && SpacedTarget !in out
      && (UnderscoredTarget in out <==> SpacedTarget in names && UnderscoredTarget in names)
  {
    var sp := SpacedTarget in names;
    var out := CanonicalNames(names, sp);
    CanonicalMembership(names, sp, "target");
    CanonicalMembership(names, sp, SpacedTarget);
    CanonicalMembership(names, sp, UnderscoredTarget);
    if sp { assert CanonicalName(SpacedTarget, sp) == Some("target"); }
    if UnderscoredTarget in names && !sp { assert CanonicalName(UnderscoredTarget, sp) == Some("target"); }
    if "target" in names { assert CanonicalName("target", sp) == Some("target"); }
    if sp && UnderscoredTarget in names { assert CanonicalName(UnderscoredTarget, sp) == Some(UnderscoredTarget); }
  }

  /** `pay_0` surfaces as `pay_1`, and no `pay_0` or `id` label survives. */
  lemma CanonicalPayAndId(names: seq<string>)
    ensures var out := CanonicalNames(names, SpacedTarget in names);
      && ("pay_1" in out <==> "pay_0" in names || "pay_1" in names)
      && "pay_0" !in out
      && "id" !in out
  {
    var sp := SpacedTarget in names;
    CanonicalMembership(names, sp, "pay_1");
    CanonicalMembership(names, sp, "pay_0");
    CanonicalMembership(names, sp, "id");
    if "pay_0" in names { assert CanonicalName("pay_0", sp) == Some("pay_1"); }
    if "pay_1" in names { assert CanonicalName("pay_1", sp) == Some("pay_1"); }
  }

  /** Any other label (`y`, `x1`, ...) is kept as it is, and nothing but
      `target` and `pay_1` is introduced. */
  lemma CanonicalOthersKept(names: seq<string>)
    ensures var out := CanonicalNames(names, SpacedTarget in names);
      && (forall s :: s in names && s != SpacedTarget && s != UnderscoredTarget && s != "pay_0" && s != "id" ==> s in out)
      && (forall t :: t in out ==> t in names || t == "target" || t == "pay_1")
  {
    var sp := SpacedTarget in names;
    var out := CanonicalNames(names, sp);
    forall s | s in names && s != SpacedTarget && s != UnderscoredTarget && s != "pay_0" && s != "id" ensures s in out {
      CanonicalMembership(names, sp, s);
      assert CanonicalName(s, sp) == Some(s);
    }
    forall t | t in out ensures t in names || t == "target" || t == "pay_1" {
      CanonicalMembership(names, sp, t);
    }
  }

  lemma LoweredAreLower(ls: seq<Label>)
    requires AllStrings(ls)
    ensures forall s :: s in LoweredNames(ls) ==> IsLower(s)
  {
    forall s | s in LoweredNames(ls) ensures IsLower(s) {
      var j :| 0 <= j < |ls| && LoweredNames(ls)[j] == s;
      LowerIsLower(ls[j].text);
    }
  }

  /** Canonical naming of lower-case names yields lower-case names. */
  lemma CanonicalLower(names: seq<string>)
    requires forall s :: s in names ==> IsLower(s)
    ensures forall t :: t in CanonicalNames(names, SpacedTarget in names) ==> IsLower(t)
  {
    CanonicalOthersKept(names);
    assert IsLower("target") && IsLower("pay_1");
  }

  lemma StrsLower(names: seq<string>)
    requires forall s :: s in names ==> IsLower(s)
    ensures forall l :: l in Strs(names) ==> l.Str? && IsLower(l.text)
  {
    forall l | l in Strs(names) ensures l.Str? && IsLower(l.text) {
      var j :| 0 <= j < |names| && Strs(names)[j] == l;
      assert names[j] in names;
    }
  }

  /** After normalisation every label is a lower-case string. */
  lemma NormalizedAreLower(d: Dataset)
    requires NormalizeFetched(d).Success?
    ensures forall l :: l in Names(NormalizeFetched(d).value.columns) ==> l.Str? && IsLower(l.text)
  {
    NormalizedLabels(d);
    var lowered := LoweredNames(RawLabels(d));
    LoweredAreLower(RawLabels(d));
    CanonicalLower(lowered);
    StrsLower(CanonicalNames(lowered, SpacedTarget in lowered));
  }

  /** The row count is the longer input's, and only the `id` columns go. */
  lemma NormalizedCounts(d: Dataset)
    requires AllStrings(RawLabels(d))
    ensures NormalizeFetched(d).Success?
    ensures NormalizeFetched(d).value.rows == (if d.features.rows >= d.targets.rows then d.features.rows else d.targets.rows)
    ensures |NormalizeFetched(d).value.columns| == |RawLabels(d)| - multiset(LoweredNames(RawLabels(d)))["id"]
  {
    NormalizedLabels(d);
    var lowered := LoweredNames(RawLabels(d));
    CanonicalCount(lowered, SpacedTarget in lowered);
  }

  /** Every step keeps each column's cells, so well-formed inputs give a
      well-formed table. */
  lemma NormalizedWellFormed(d: Dataset)
    requires NormalizeFetched(d).Success? && WellFormed(d.features) && WellFormed(d.targets)
    ensures WellFormed(NormalizeFetched(d).value)
  {
    ConcatSpec(d.features, d.targets);
    var g := LowerLabels(Concat(d.features, d.targets)).value;
    LowerLabelsKeepsShape(Concat(d.features, d.targets));
    var g1 := RenameTarget(g);
    RenameKeepsShape(g, Str(SpacedTarget), Str("target"));
    RenameKeepsShape(g, Str(UnderscoredTarget), Str("target"));
    var g2 := RenamePay0(g1);
    RenameKeepsShape(g1, Str("pay_0"), Str("pay_1"));
    if HasColumn(g2, Str("id")) { DropColumnSpec(g2, Str("id")); }
  }

  /** The shape of the normalised table: as many rows as the longer input, and
      one column per input column except the `id` ones. */
  lemma NormalizedShape(d: Dataset)
    requires AllStrings(RawLabels(d))
    ensures NormalizeFetched(d).Success?
    ensures var f := NormalizeFetched(d).value;
      && f.rows == (if d.features.rows >= d.targets.rows then d.features.rows else d.targets.rows)
      && |f.columns| == |RawLabels(d)| - multiset(LoweredNames(RawLabels(d)))["id"]
      && (WellFormed(d.features) && WellFormed(d.targets) ==> WellFormed(f))
  {
    NormalizedCounts(d);
    if WellFormed(d.features) && WellFormed(d.targets) {
      NormalizedWellFormed(d);
    }
  }

  /** The fetch mocked in tests/test_api.py: features `pay_0`, `limit_bal` and
      target `default payment next month`, two rows each. */
  function MockedDataset(): Dataset {
    Dataset(
      Frame(2, [Column(Str("pay_0"), Int64, [IntVal(1), IntVal(2)]),
                Column(Str("limit_bal"), Int64, [IntVal(1000), IntVal(2000)])]),
      Frame(2, [Column(Str(SpacedTarget), Int64, [IntVal(0), IntVal(1)])]))
  }

  lemma MockedLowered()
    ensures AllStrings(RawLabels(MockedDataset()))
    ensures LoweredNames(RawLabels(MockedDataset())) == ["pay_0", "limit_bal", SpacedTarget]
  {
    var d := MockedDataset();
    assert RawLabels(d) == [Str("pay_0"), Str("limit_bal"), Str(SpacedTarget)];
    assert Lower("pay_0") == "pay_0";
    assert Lower("limit_bal") == "limit_bal";
    assert Lower(SpacedTarget) == SpacedTarget;
  }

  lemma MockedCanonical()
    ensures CanonicalNames(["pay_0", "limit_bal", SpacedTarget], true) == ["pay_1", "limit_bal", "target"]
  {
    assert CanonicalName("pay_0", true) == Some("pay_1");
    assert CanonicalName("limit_bal", true) == Some("limit_bal");
    assert CanonicalName(SpacedTarget, true) == Some("target");
    assert CanonicalNames([SpacedTarget], true) == ["target"];
    assert ["limit_bal", SpacedTarget][1..] == [SpacedTarget];
    assert CanonicalNames(["limit_bal", SpacedTarget], true) == ["limit_bal", "target"];
    assert ["pay_0", "limit_bal", SpacedTarget][1..] == ["limit_bal", SpacedTarget];
  }

  /** The mocked fetch gives a 2 x 3 table labelled `pay_1`, `limit_bal`,
      `target`, as the test expects. */
  lemma MockedFetchShape()
    ensures NormalizeFetched(MockedDataset()).Success?
    ensures NormalizeFetched(MockedDataset()).value.rows == 2
    ensures Names(NormalizeFetched(MockedDataset()).value.columns) == [Str("pay_1"), Str("limit_bal"), Str("target")]
  {
    var d := MockedDataset();
    MockedLowered();
    NormalizedLabels(d);
    NormalizedCounts(d);
    var lowered := LoweredNames(RawLabels(d));
    assert SpacedTarget in lowered;
    MockedCanonical();
  }

  /** The flag is read case-insensitively and defaults to off. */
  lemma SyntheticFlag(s: string)
    ensures !UseSyntheticData(None)
    ensures UseSyntheticData(Some(s)) <==> UseSyntheticData(Some(Lower(s)))
    ensures UseSyntheticData(Some("TRUE")) && UseSyntheticData(Some("True")) && !UseSyntheticData(Some("1"))
  {
    assert Lower("false") == "false";
    assert Lower("TRUE") == "true";
    assert Lower("True") == "true";
    assert Lower("1") == "1";
    LowerIsLower(s);
  }
}
