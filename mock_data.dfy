/** Synthetic credit-default data (`generate_synthetic_data`): a fixed column
    layout filled from numpy's global random generator, reseeded with 42 on
    every call. The generator is modelled as an object whose draws come from
    opaque oracles keyed by the seed, the calls made since seeding and the
    element index: numpy's global generator is one stream, so what a call
    yields depends on every call before it, their sizes included. */
module MockData {
  import opened Frames

  /** How the values of one synthetic column are drawn. */
  datatype Draw =
    | RandInt(low: int, high: int)      // np.random.randint(low, high, n): `high` excluded
    | Choice(options: seq<int>)         // np.random.choice(options, n)
    | Normal(scale: real, shift: real)  // np.random.randn(n) * scale + shift

  predicate ValidDraw(d: Draw) {
    match d
    case RandInt(low, high) => low < high
    case Choice(options) => |options| > 0
    case Normal(_, _) => true
  }

  /** One call on numpy's global generator, with the arguments that decide how
      much of the stream it consumes. */
  datatype Request =
    | IntRequest(low: int, high: int, size: nat)
    | ChoiceRequest(options: seq<int>, size: nat)
    | NormalRequest(size: nat)

  /** The generator's raw values: the j-th value of a call made after seeding
      with `seed` and then making the calls in `history`. */
  type Uniform = (int, seq<Request>, nat) -> nat
  type Gaussian = (int, seq<Request>, nat) -> real

  const Seed: int := 42
  const DefaultRows: nat := 1000

  /** The number of synthetic columns: five leading fields, three per month
      for six months, and the target. */
  const SyntheticWidth: nat := 24

  /** The k-th column of the synthetic table, in insertion order, with its
      draw: the dict literal's five entries, then month `i` at positions
      2 + 3i .. 4 + 3i, then `target`. */
  function SchemaEntry(k: nat): (e: (string, Draw))
    requires k < SyntheticWidth
    ensures ValidDraw(e.1)
  {
    if k == 0 then ("limit_bal", RandInt(10000, 1000000))
    else if k == 1 then ("sex", Choice([1, 2]))
    else if k == 2 then ("education", Choice([1, 2, 3, 4]))
    else if k == 3 then ("marriage", Choice([1, 2, 3]))
    else if k == 4 then ("age", RandInt(21, 79))
    else if k == 23 then ("target", RandInt(0, 2))
    else
      var i, m := (k - 2) / 3, (k - 2) % 3;
      if m == 0 then ("pay_" + Digit(i), RandInt(-2, 9))
      else if m == 1 then ("bill_amt" + Digit(i), Normal(50000.0, 50000.0))
      else ("pay_amt" + Digit(i), Normal(5000.0, 2000.0))
  }

  /** `f'{i}'` for a one-digit month number. */
  function Digit(i: nat): string
    requires i <= 9
  {
    [('0' as int + i) as char]
  }

  // ---------------------------------------------------------------------------
  // The generator's draws

  /** `np.random.randint(low, high, size)` after seeding with `seed` and making
      the calls in `history`. */
  function RandIntDraws(uniform: Uniform, seed: int, history: seq<Request>, low: int, high: int, size: nat): (xs: seq<int>)
    requires low < high
    ensures |xs| == size
    ensures forall j :: 0 <= j < size ==> low <= xs[j] < high
  {
    seq(size, j requires 0 <= j < size => low + uniform(seed, history, j) % (high - low))
  }

  /** `np.random.choice(options, size)` after the calls in `history`. */
  function ChoiceDraws(uniform: Uniform, seed: int, history: seq<Request>, options: seq<int>, size: nat): (xs: seq<int>)
    requires |options| > 0
    ensures |xs| == size
    ensures forall j :: 0 <= j < size ==> xs[j] in options
  {
    seq(size, j requires 0 <= j < size => options[uniform(seed, history, j) % |options|])
  }

  /** `np.random.randn(size)` after the calls in `history`. */
  function NormalDraws(normal: Gaussian, seed: int, history: seq<Request>, size: nat): (zs: seq<real>)
    ensures |zs| == size
  {
    seq(size, j requires 0 <= j < size => normal(seed, history, j))
  }

  /** numpy's global generator (`np.random`). Its state is the seed last set
      and the calls made since; the values a call yields are given by the two
      oracles. */
  class NumpyRandom {
    const uniform: Uniform
    const normal: Gaussian
    var seed: int
    var history: seq<Request>

    constructor (uniform: Uniform, normal: Gaussian, seed: int)
      ensures this.uniform == uniform && this.normal == normal
      ensures this.seed == seed && history == []
    {
      this.uniform := uniform;
      this.normal := normal;
      this.seed := seed;
      history := [];
    }

    /** `np.random.seed(s)` */
    method SetSeed(s: int)
      modifies this
      ensures seed == s && history == []
    {
      seed := s;
      history := [];
    }

    method RandInt(low: int, high: int, size: nat) returns (xs: seq<int>)
      requires low < high
      modifies this
      ensures seed == old(seed) && history == old(history) + [IntRequest(low, high, size)]
      ensures xs == RandIntDraws(uniform, seed, old(history), low, high, size)
    {
      xs := RandIntDraws(uniform, seed, history, low, high, size);
      history := history + [IntRequest(low, high, size)];
    }

    method Choice(options: seq<int>, size: nat) returns (xs: seq<int>)
      requires |options| > 0
      modifies this
      ensures seed == old(seed) && history == old(history) + [ChoiceRequest(options, size)]
      ensures xs == ChoiceDraws(uniform, seed, old(history), options, size)
    {
      xs := ChoiceDraws(uniform, seed, history, options, size);
      history := history + [ChoiceRequest(options, size)];
    }

    method Randn(size: nat) returns (zs: seq<real>)
      modifies this
      ensures seed == old(seed) && history == old(history) + [NormalRequest(size)]
      ensures zs == NormalDraws(normal, seed, old(history), size)
    {
      zs := NormalDraws(normal, seed, history, size);
      history := history + [NormalRequest(size)];
    }
  }

  // ---------------------------------------------------------------------------
  // The synthetic table as a function of the oracles

  function DTypeOf(d: Draw): DType {
    if d.Normal? then Float64 else Int64
  }

  function IntCells(xs: seq<int>): (r: seq<Cell>)
    ensures |r| == |xs| && forall j :: 0 <= j < |xs| ==> r[j] == IntVal(xs[j])
  {
    seq(|xs|, j requires 0 <= j < |xs| => IntVal(xs[j]))
  }

  function FloatCells(zs: seq<real>, scale: real, shift: real): (r: seq<Cell>)
    ensures |r| == |zs|
  {
    seq(|zs|, j requires 0 <= j < |zs| => FloatVal(zs[j] * scale + shift))
  }

  /** The call that draws `n` values for a column. */
  function RequestOf(d: Draw, n: nat): Request {
    match d
    case RandInt(low, high) => IntRequest(low, high, n)
    case Choice(options) => ChoiceRequest(options, n)
    case Normal(_, _) => NormalRequest(n)
  }

  /** The calls `generate_synthetic_data(n)` makes after reseeding, one per
      column in order. */
  function SyntheticRequests(n: nat): (r: seq<Request>)
    ensures |r| == SyntheticWidth
  {
    seq(SyntheticWidth, k requires 0 <= k < SyntheticWidth => RequestOf(SchemaEntry(k).1, n))
  }

  /** The cells of the column drawn after seeding with 42 and making the calls
      in `history`. */
  function DrawCells(uniform: Uniform, normal: Gaussian, history: seq<Request>, d: Draw, n: nat): seq<Cell>
    requires ValidDraw(d)
  {
    match d
    case RandInt(low, high) => IntCells(RandIntDraws(uniform, Seed, history, low, high, n))
    case Choice(options) => IntCells(ChoiceDraws(uniform, Seed, history, options, n))
    case Normal(scale, shift) => FloatCells(NormalDraws(normal, Seed, history, n), scale, shift)
  }

  /** The k-th column of the synthetic table: drawn by the k-th call, after
      the calls for the columns before it. */
  function SyntheticColumn(uniform: Uniform, normal: Gaussian, k: nat, n: nat): Column
    requires k < SyntheticWidth
  {
    var (name, d) := SchemaEntry(k);
    Column(Str(name), DTypeOf(d), DrawCells(uniform, normal, SyntheticRequests(n)[..k], d, n))
  }

  /** The table `generate_synthetic_data(n)` returns, given the generator's oracles. */
  function SyntheticFrame(uniform: Uniform, normal: Gaussian, n: nat): (f: Frame)
    ensures f.rows == n && |f.columns| == SyntheticWidth
  {
    Frame(n, seq(SyntheticWidth, k requires 0 <= k < SyntheticWidth => SyntheticColumn(uniform, normal, k, n)))
  }

  /** The three columns month `i` contributes, as the loop draws them, each
      after the calls for every column before it. */
  lemma MonthColumns(uniform: Uniform, normal: Gaussian, n: nat, i: nat)
    requires 1 <= i <= 6
    ensures 5 + 3 * i <= SyntheticWidth
    ensures var r := SyntheticRequests(n);
      && r[2 + 3 * i] == IntRequest(-2, 9, n) && r[3 + 3 * i] == NormalRequest(n) && r[4 + 3 * i] == NormalRequest(n)
      && SyntheticColumn(uniform, normal, 2 + 3 * i, n)
           == Column(Str("pay_" + Digit(i)), Int64, IntCells(RandIntDraws(uniform, Seed, r[..2 + 3 * i], -2, 9, n)))
      && SyntheticColumn(uniform, normal, 3 + 3 * i, n)
           == Column(Str("bill_amt" + Digit(i)), Float64, FloatCells(NormalDraws(normal, Seed, r[..3 + 3 * i], n), 50000.0, 50000.0))
      && SyntheticColumn(uniform, normal, 4 + 3 * i, n)
           == Column(Str("pay_amt" + Digit(i)), Float64, FloatCells(NormalDraws(normal, Seed, r[..4 + 3 * i], n), 5000.0, 2000.0))
  {
    assert (3 * i - 2 + 2) / 3 == i;
  }

  /** The five columns drawn before the month loop, and the target drawn
      after it, with the calls each is drawn after. */
  lemma LeadingColumns(uniform: Uniform, normal: Gaussian, n: nat)
    ensures var r := SyntheticRequests(n);
      && r[..5] == [IntRequest(10000, 1000000, n), ChoiceRequest([1, 2], n), ChoiceRequest([1, 2, 3, 4], n),
                    ChoiceRequest([1, 2, 3], n), IntRequest(21, 79, n)]
      && r[23] == IntRequest(0, 2, n)
    ensures var r := SyntheticRequests(n);
      && SyntheticColumn(uniform, normal, 0, n) == Column(Str("limit_bal"), Int64, IntCells(RandIntDraws(uniform, Seed, r[..0], 10000, 1000000, n)))
      && SyntheticColumn(uniform, normal, 1, n) == Column(Str("sex"), Int64, IntCells(ChoiceDraws(uniform, Seed, r[..1], [1, 2], n)))
      && SyntheticColumn(uniform, normal, 2, n) == Column(Str("education"), Int64, IntCells(ChoiceDraws(uniform, Seed, r[..2], [1, 2, 3, 4], n)))
      && SyntheticColumn(uniform, normal, 3, n) == Column(Str("marriage"), Int64, IntCells(ChoiceDraws(uniform, Seed, r[..3], [1, 2, 3], n)))
      && SyntheticColumn(uniform, normal, 4, n) == Column(Str("age"), Int64, IntCells(RandIntDraws(uniform, Seed, r[..4], 21, 79, n)))
      && SyntheticColumn(uniform, normal, 23, n) == Column(Str("target"), Int64, IntCells(RandIntDraws(uniform, Seed, r[..23], 0, 2, n)))
  {
  }

  /** Month `i`'s three draws: repayment status, bill amount, payment amount. */
  lemma MonthDraws(i: nat)
    requires 1 <= i <= 6
    ensures SchemaEntry(2 + 3 * i).1 == RandInt(-2, 9)
    ensures SchemaEntry(3 + 3 * i).1 == Normal(50000.0, 50000.0)
    ensures SchemaEntry(4 + 3 * i).1 == Normal(5000.0, 2000.0)
  {
    assert (2 + 3 * i - 2) / 3 == i && (2 + 3 * i - 2) % 3 == 0;
    assert (3 + 3 * i - 2) / 3 == i && (3 + 3 * i - 2) % 3 == 1;
    assert (4 + 3 * i - 2) / 3 == i && (4 + 3 * i - 2) % 3 == 2;
  }

  /** Month `i`'s three calls extend the calls made so far by a `randint`
      and two `randn` calls. */
  lemma MonthRequests(n: nat, i: nat)
    requires 1 <= i <= 6
    ensures var r := SyntheticRequests(n);
      && r[..3 + 3 * i] == r[..2 + 3 * i] + [IntRequest(-2, 9, n)]
      && r[..4 + 3 * i] == r[..2 + 3 * i] + [IntRequest(-2, 9, n)] + [NormalRequest(n)]
      && r[..5 + 3 * i] == r[..2 + 3 * i] + [IntRequest(-2, 9, n)] + [NormalRequest(n)] + [NormalRequest(n)]
  {
    var r := SyntheticRequests(n);
    MonthDraws(i);
    assert r[2 + 3 * i] == RequestOf(SchemaEntry(2 + 3 * i).1, n);
    assert r[3 + 3 * i] == RequestOf(SchemaEntry(3 + 3 * i).1, n);
    assert r[4 + 3 * i] == RequestOf(SchemaEntry(4 + 3 * i).1, n);
    assert r[..3 + 3 * i] == r[..2 + 3 * i] + [r[2 + 3 * i]];
    assert r[..4 + 3 * i] == r[..3 + 3 * i] + [r[3 + 3 * i]];
    assert r[..5 + 3 * i] == r[..4 + 3 * i] + [r[4 + 3 * i]];
  }

  /** Appending month `i`'s three columns, drawn by three further calls,
      extends the prefix of the table, and of its calls, by exactly those. */
  lemma MonthStep(uniform: Uniform, normal: Gaussian, n: nat, i: nat, data: seq<Column>)
    requires 1 <= i <= 6
    requires data == SyntheticFrame(uniform, normal, n).columns[..2 + 3 * i]
    ensures var h := SyntheticRequests(n)[..2 + 3 * i];
      && data + [
           Column(Str("pay_" + Digit(i)), Int64, IntCells(RandIntDraws(uniform, Seed, h, -2, 9, n))),
           Column(Str("bill_amt" + Digit(i)), Float64,
             FloatCells(NormalDraws(normal, Seed, h + [IntRequest(-2, 9, n)], n), 50000.0, 50000.0)),
           Column(Str("pay_amt" + Digit(i)), Float64,
             FloatCells(NormalDraws(normal, Seed, h + [IntRequest(-2, 9, n)] + [NormalRequest(n)], n), 5000.0, 2000.0))]
         == SyntheticFrame(uniform, normal, n).columns[..5 + 3 * i]
      && h + [IntRequest(-2, 9, n)] + [NormalRequest(n)] + [NormalRequest(n)] == SyntheticRequests(n)[..5 + 3 * i]
  {
    var cols := SyntheticFrame(uniform, normal, n).columns;
    MonthColumns(uniform, normal, n, i);
    MonthRequests(n, i);
    assert cols[2 + 3 * i] == SyntheticColumn(uniform, normal, 2 + 3 * i, n);
    assert cols[3 + 3 * i] == SyntheticColumn(uniform, normal, 3 + 3 * i, n);
    assert cols[4 + 3 * i] == SyntheticColumn(uniform, normal, 4 + 3 * i, n);
    assert cols[..5 + 3 * i] == cols[..2 + 3 * i] + [cols[2 + 3 * i], cols[3 + 3 * i], cols[4 + 3 * i]];
  }

  /** The five leading columns start the table, and `target`, drawn after the
      other 23 calls, ends it. */
  lemma LeadingAndLast(uniform: Uniform, normal: Gaussian, n: nat)
    ensures var a, b, c, d, e := IntRequest(10000, 1000000, n), ChoiceRequest([1, 2], n),
                                 ChoiceRequest([1, 2, 3, 4], n), ChoiceRequest([1, 2, 3], n), IntRequest(21, 79, n);
      && SyntheticFrame(uniform, normal, n).columns[..5] == [
           Column(Str("limit_bal"), Int64, IntCells(RandIntDraws(uniform, Seed, [], 10000, 1000000, n))),
           Column(Str("sex"), Int64, IntCells(ChoiceDraws(uniform, Seed, [a], [1, 2], n))),
           Column(Str("education"), Int64, IntCells(ChoiceDraws(uniform, Seed, [a, b], [1, 2, 3, 4], n))),
           Column(Str("marriage"), Int64, IntCells(ChoiceDraws(uniform, Seed, [a, b, c], [1, 2, 3], n))),
           Column(Str("age"), Int64, IntCells(RandIntDraws(uniform, Seed, [a, b, c, d], 21, 79, n)))]
      && SyntheticRequests(n)[..5] == [a, b, c, d, e]
    ensures SyntheticFrame(uniform, normal, n).columns ==
      SyntheticFrame(uniform, normal, n).columns[..23] +
        [Column(Str("target"), Int64, IntCells(RandIntDraws(uniform, Seed, SyntheticRequests(n)[..23], 0, 2, n)))]
    ensures SyntheticRequests(n) == SyntheticRequests(n)[..23] + [IntRequest(0, 2, n)]
  {
    var cols := SyntheticFrame(uniform, normal, n).columns;
    var r := SyntheticRequests(n);
    LeadingColumns(uniform, normal, n);
    var a, b, c, d := r[0], r[1], r[2], r[3];
    assert r[..5][..1] == [a] && r[..5][..2] == [a, b] && r[..5][..3] == [a, b, c] && r[..5][..4] == [a, b, c, d];
    assert r[..0] == [] && r[..1] == [a] && r[..2] == [a, b] && r[..3] == [a, b, c] && r[..4] == [a, b, c, d];
    assert cols[0] == SyntheticColumn(uniform, normal, 0, n);
    assert cols[1] == SyntheticColumn(uniform, normal, 1, n);
    assert cols[2] == SyntheticColumn(uniform, normal, 2, n);
    assert cols[3] == SyntheticColumn(uniform, normal, 3, n);
    assert cols[4] == SyntheticColumn(uniform, normal, 4, n);
    assert cols[23] == SyntheticColumn(uniform, normal, 23, n);
    assert cols == cols[..23] + [cols[23]];
    assert r == r[..23] + [r[23]];
  }

  /** `generate_synthetic_data(n_rows)`: reseed, draw the five leading columns,
      then for each month draw its repayment status, bill and payment, then
      draw the target. The result depends on `n_rows` and the oracles only, not
      on the generator's earlier state, and the generator is left after
      exactly the table's calls. */
  method GenerateSyntheticData(rng: NumpyRandom, nRows: nat := DefaultRows) returns (df: Frame)
    modifies rng
    ensures df == SyntheticFrame(rng.uniform, rng.normal, nRows)
    ensures rng.seed == Seed && rng.history == SyntheticRequests(nRows)
  {
    ghost var u, g := rng.uniform, rng.normal;
    ghost var cols := SyntheticFrame(u, g, nRows).columns;
    LeadingAndLast(u, g, nRows);
    rng.SetSeed(Seed);
    ghost var r := SyntheticRequests(nRows);
    var limitBal := rng.RandInt(10000, 1000000, nRows);
    assert rng.history == [r[0]];
    var sex := rng.Choice([1, 2], nRows);
    assert rng.history == [r[0], r[1]];
    var education := rng.Choice([1, 2, 3, 4], nRows);
    assert rng.history == [r[0], r[1], r[2]];
    var marriage := rng.Choice([1, 2, 3], nRows);
    assert rng.history == [r[0], r[1], r[2], r[3]];
    var age := rng.RandInt(21, 79, nRows);
    var data := [
      Column(Str("limit_bal"), Int64, IntCells(limitBal)),
      Column(Str("sex"), Int64, IntCells(sex)),
      Column(Str("education"), Int64, IntCells(education)),
      Column(Str("marriage"), Int64, IntCells(marriage)),
      Column(Str("age"), Int64, IntCells(age))
    ];
    for i := 1 to 7
      invariant rng.uniform == u && rng.normal == g
      invariant rng.seed == Seed && rng.history == SyntheticRequests(nRows)[..2 + 3 * i]
      invariant data == cols[..2 + 3 * i]
    {
      var pay := rng.RandInt(-2, 9, nRows);
      var bill := rng.Randn(nRows);
      var payAmt := rng.Randn(nRows);
      MonthStep(u, g, nRows, i, data);
      data := data + [
        Column(Str("pay_" + Digit(i)), Int64, IntCells(pay)),
        Column(Str("bill_amt" + Digit(i)), Float64, FloatCells(bill, 50000.0, 50000.0)),
        Column(Str("pay_amt" + Digit(i)), Float64, FloatCells(payAmt, 5000.0, 2000.0))
      ];
    }
    var target := rng.RandInt(0, 2, nRows);
    data := data + [Column(Str("target"), Int64, IntCells(target))];
    df := Frame(nRows, data);
  }

  /** numpy's global generator is one stream: from `sex` on, a column's values
      depend on how much the calls before it consumed. So a smaller table need
      not be the first rows of a larger one; here is a generator for which the
      `sex` column of 500 rows differs from the first 500 of 1000. */
  lemma RowCountShiftsLaterColumns()
    ensures var u: Uniform := (s: int, h: seq<Request>, j: nat) => if h == [IntRequest(10000, 1000000, 500)] then 0 else 1;
      var g: Gaussian := (s: int, h: seq<Request>, j: nat) => 0.0;
      && SyntheticFrame(u, g, 1000).columns[0].cells[..500] == SyntheticFrame(u, g, 500).columns[0].cells
      && SyntheticFrame(u, g, 1000).columns[1].cells[..500] != SyntheticFrame(u, g, 500).columns[1].cells
  {
    var u: Uniform := (s: int, h: seq<Request>, j: nat) => if h == [IntRequest(10000, 1000000, 500)] then 0 else 1;
    var g: Gaussian := (s: int, h: seq<Request>, j: nat) => 0.0;
    LeadingAndLast(u, g, 1000);
    LeadingAndLast(u, g, 500);
    var big, small := SyntheticFrame(u, g, 1000).columns, SyntheticFrame(u, g, 500).columns;
    assert big[..5][0] == big[0] && small[..5][0] == small[0];
    assert big[..5][1] == big[1] && small[..5][1] == small[1];
    assert [IntRequest(10000, 1000000, 1000)] != [IntRequest(10000, 1000000, 500)];
    assert big[1].cells[0] == IntVal(2) && small[1].cells[0] == IntVal(1);
    assert big[1].cells[..500][0] != small[1].cells[0];
  }

  // ---------------------------------------------------------------------------
  // Properties of the synthetic table

  /** A column of `int64` values all between `lo` and `hi` inclusive. */
  predicate IntsBetween(c: Column, lo: int, hi: int) {
    c.dtype == Int64 && forall x :: x in c.cells ==> x.IntVal? && lo <= x.i <= hi
  }

  /** A column of `float64` values. */
  predicate AllFloats(c: Column) {
    c.dtype == Float64 && forall x :: x in c.cells ==> x.FloatVal?
  }

  lemma DrawnColumnValues(uniform: Uniform, normal: Gaussian, k: nat, n: nat)
    requires k < SyntheticWidth
    ensures var c := SyntheticColumn(uniform, normal, k, n);
      && |c.cells| == n
      && (SchemaEntry(k).1.RandInt? ==> IntsBetween(c, SchemaEntry(k).1.low, SchemaEntry(k).1.high - 1))
      && (SchemaEntry(k).1.Choice? ==> c.dtype == Int64 && forall x :: x in c.cells ==> x.IntVal? && x.i in SchemaEntry(k).1.options)
      && (SchemaEntry(k).1.Normal? ==> AllFloats(c))
  {
    var c := SyntheticColumn(uniform, normal, k, n);
    forall x | x in c.cells
      ensures SchemaEntry(k).1.RandInt? ==> x.IntVal? && SchemaEntry(k).1.low <= x.i < SchemaEntry(k).1.high
      ensures SchemaEntry(k).1.Choice? ==> x.IntVal? && x.i in SchemaEntry(k).1.options
      ensures SchemaEntry(k).1.Normal? ==> x.FloatVal?
    {
      var j :| 0 <= j < |c.cells| && c.cells[j] == x;
    }
  }

  /** The table has `n` rows, 24 columns, and every column `n` cells. */
  lemma {:induction false} SyntheticShape(uniform: Uniform, normal: Gaussian, n: nat)
    ensures var f := SyntheticFrame(uniform, normal, n);
      f.rows == n && |f.columns| == 24 && WellFormed(f)
  {
    var f := SyntheticFrame(uniform, normal, n);
    forall c | c in f.columns ensures |c.cells| == n {
      var k :| 0 <= k < |f.columns| && f.columns[k] == c;
      DrawnColumnValues(uniform, normal, k, n);
    }
  }

  /** The synthetic table's column labels as they appear in the frame. */
  const SyntheticColumnNames: seq<string> := [
    "limit_bal", "sex", "education", "marriage", "age",
    "pay_1", "bill_amt1", "pay_amt1", "pay_2", "bill_amt2", "pay_amt2",
    "pay_3", "bill_amt3", "pay_amt3", "pay_4", "bill_amt4", "pay_amt4",
    "pay_5", "bill_amt5", "pay_amt5", "pay_6", "bill_amt6", "pay_amt6",
    "target"]

  lemma {:induction false} SchemaEntryName(k: nat)
    requires k < SyntheticWidth
    ensures |SyntheticColumnNames| == SyntheticWidth
    ensures SchemaEntry(k).0 == SyntheticColumnNames[k]
  {
    if 5 <= k < 23 {
      var i := (k - 2) / 3;
      if i == 1 { assert Digit(1) == "1"; }
      else if i == 2 { assert Digit(2) == "2"; }
      else if i == 3 { assert Digit(3) == "3"; }
      else if i == 4 { assert Digit(4) == "4"; }
      else if i == 5 { assert Digit(5) == "5"; }
      else { assert Digit(6) == "6"; }
    }
  }

  /** No synthetic column label repeats. */
  lemma SyntheticNamesDistinct()
    ensures forall a, b :: 0 <= a < b < |SyntheticColumnNames| ==> SyntheticColumnNames[a] != SyntheticColumnNames[b]
  {
  }

  /** The column order: the five leading fields, then for each month its
      repayment status, bill amount and payment amount, then `target`; no
      label repeats. */
  lemma SyntheticColumnOrder(uniform: Uniform, normal: Gaussian, n: nat)
    ensures var names := Names(SyntheticFrame(uniform, normal, n).columns);
      && |names| == |SyntheticColumnNames|
      && (forall k :: 0 <= k < |names| ==> names[k] == Str(SyntheticColumnNames[k]))
      && (forall a, b :: 0 <= a < b < |names| ==> names[a] != names[b])
  {
    var f := SyntheticFrame(uniform, normal, n);
    forall k | 0 <= k < SyntheticWidth ensures f.columns[k].name == Str(SyntheticColumnNames[k]) {
      SchemaEntryName(k);
    }
    SyntheticNamesDistinct();
  }

  /** A column's range, read off its draw: numpy's upper bound is exclusive. */
  lemma ColumnRange(uniform: Uniform, normal: Gaussian, k: nat, n: nat, lo: int, hi: int)
    requires k < SyntheticWidth && SchemaEntry(k).1 == RandInt(lo, hi + 1)
    ensures IntsBetween(SyntheticFrame(uniform, normal, n).columns[k], lo, hi)
  {
    assert SyntheticFrame(uniform, normal, n).columns[k] == SyntheticColumn(uniform, normal, k, n);
    DrawnColumnValues(uniform, normal, k, n);
  }

  /** A column drawn by `choice` takes values among the options only. */
  lemma ChoiceRange(uniform: Uniform, normal: Gaussian, k: nat, n: nat, lo: int, hi: int)
    requires k < SyntheticWidth && SchemaEntry(k).1.Choice?
    requires forall x :: x in SchemaEntry(k).1.options ==> lo <= x <= hi
    ensures IntsBetween(SyntheticFrame(uniform, normal, n).columns[k], lo, hi)
  {
    assert SyntheticFrame(uniform, normal, n).columns[k] == SyntheticColumn(uniform, normal, k, n);
    DrawnColumnValues(uniform, normal, k, n);
  }

  /** Month `i`: repayment status in [-2, 8], bill and payment amounts floats. */
  lemma MonthRanges(uniform: Uniform, normal: Gaussian, n: nat, i: nat)
    requires 1 <= i <= 6
    ensures var f := SyntheticFrame(uniform, normal, n);
      IntsBetween(f.columns[2 + 3 * i], -2, 8) && AllFloats(f.columns[3 + 3 * i]) && AllFloats(f.columns[4 + 3 * i])
  {
    var f := SyntheticFrame(uniform, normal, n);
    assert (3 * i - 2 + 2) / 3 == i;
    ColumnRange(uniform, normal, 2 + 3 * i, n, -2, 8);
    assert f.columns[3 + 3 * i] == SyntheticColumn(uniform, normal, 3 + 3 * i, n);
    assert f.columns[4 + 3 * i] == SyntheticColumn(uniform, normal, 4 + 3 * i, n);
    DrawnColumnValues(uniform, normal, 3 + 3 * i, n);
    DrawnColumnValues(uniform, normal, 4 + 3 * i, n);
  }

  /** The value ranges: numpy's upper bound is exclusive, so `limit_bal` tops
      out at 999999, `age` at 78 and each `pay_i` at 8. */
  lemma SyntheticRanges(uniform: Uniform, normal: Gaussian, n: nat)
    ensures var f := SyntheticFrame(uniform, normal, n);
      && IntsBetween(f.columns[0], 10000, 999999)
      && IntsBetween(f.columns[1], 1, 2)
      && IntsBetween(f.columns[2], 1, 4)
      && IntsBetween(f.columns[3], 1, 3)
      && IntsBetween(f.columns[4], 21, 78)
      && (forall i :: 1 <= i <= 6 ==>
            IntsBetween(f.columns[2 + 3 * i], -2, 8) && AllFloats(f.columns[3 + 3 * i]) && AllFloats(f.columns[4 + 3 * i]))
      && IntsBetween(f.columns[23], 0, 1)
  {
    ColumnRange(uniform, normal, 0, n, 10000, 999999);
    ChoiceRange(uniform, normal, 1, n, 1, 2);
    ChoiceRange(uniform, normal, 2, n, 1, 4);
    ChoiceRange(uniform, normal, 3, n, 1, 3);
    ColumnRange(uniform, normal, 4, n, 21, 78);
    ColumnRange(uniform, normal, 23, n, 0, 1);
    forall i | 1 <= i <= 6
      ensures var f := SyntheticFrame(uniform, normal, n);
        IntsBetween(f.columns[2 + 3 * i], -2, 8) && AllFloats(f.columns[3 + 3 * i]) && AllFloats(f.columns[4 + 3 * i])
    {
      MonthRanges(uniform, normal, n, i);
    }
  }
}
