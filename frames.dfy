/** The part of pandas the core depends on. A frame is an ordered list of
    labelled, typed columns over a default RangeIndex of `rows` entries;
    duplicate labels are allowed, as in pandas. */
module Frames {
  import opened Wrappers

  /** A column label. pandas accepts any hashable; what the core depends on is
      whether the label is a string (and so has `.lower()`). */
  datatype Label = Str(text: string) | NonStr(key: int)

  /** The dtype tag pandas keeps for each column. */
  datatype DType = Int64 | Int32 | Float64 | Float32 | Bool | Object | Category | StringDtype | Datetime

  datatype Cell = IntVal(i: int) | FloatVal(r: real) | TextVal(s: string) | BoolVal(b: bool) | Missing

  datatype Column = Column(name: Label, dtype: DType, cells: seq<Cell>)

  datatype Frame = Frame(rows: nat, columns: seq<Column>)

  /** The Python exceptions the core raises, propagates or catches. */
  datatype Error =
    | KeyError(key: Label)
    | AttributeError(attribute: string)
    | IndexError(what: string)
    | Raised(message: string)

  /** Every column holds exactly one cell per row. */
  predicate WellFormed(f: Frame) {
    forall c :: c in f.columns ==> |c.cells| == f.rows
  }

  /** `df.columns`, in order. */
  function Names(cs: seq<Column>): (r: seq<Label>)
    ensures |r| == |cs|
    ensures forall j :: 0 <= j < |cs| ==> r[j] == cs[j].name
  {
    seq(|cs|, j requires 0 <= j < |cs| => cs[j].name)
  }

  /** `name in df.columns` */
  predicate HasColumn(f: Frame, name: Label) {
    name in Names(f.columns)
  }

  // ---------------------------------------------------------------------------
  // ASCII case mapping (Python's `str.lower` restricted to ASCII)

  function LowerChar(c: char): char {
    if 'A' <= c <= 'Z' then (c as int - 'A' as int + 'a' as int) as char else c
  }

  function Lower(s: string): (r: string)
    ensures |r| == |s|
    ensures forall i :: 0 <= i < |s| ==> r[i] == LowerChar(s[i])
  {
    seq(|s|, i requires 0 <= i < |s| => LowerChar(s[i]))
  }

  /** A string that lower-casing leaves unchanged. */
  predicate IsLower(s: string) {
    Lower(s) == s
  }

  /** Lower-casing is idempotent: a lower-cased string is lower-case. */
  lemma LowerIsLower(s: string)
    ensures IsLower(Lower(s))
  {
    forall i | 0 <= i < |s| ensures LowerChar(LowerChar(s[i])) == LowerChar(s[i]) { }
  }

  // ---------------------------------------------------------------------------
  // Relabelling, selection by label, concatenation

  function Relabel(c: Column, from: Label, to: Label): Column {
    if c.name == from then c.(name := to) else c
  }

  /** `df.rename(columns={from: to})`: every column labelled `from` is
      relabelled `to`; a label that is absent is silently ignored. */
  function RenameColumn(f: Frame, from: Label, to: Label): (r: Frame)
    ensures r.rows == f.rows && |r.columns| == |f.columns|
    ensures forall j :: 0 <= j < |f.columns| ==>
      r.columns[j].cells == f.columns[j].cells && r.columns[j].dtype == f.columns[j].dtype &&
      r.columns[j].name == (if f.columns[j].name == from then to else f.columns[j].name)
  {
    Frame(f.rows, seq(|f.columns|, j requires 0 <= j < |f.columns| => Relabel(f.columns[j], from, to)))
  }

  /** The columns not labelled `name`, in their original order. */
  function WithoutNamed(cs: seq<Column>, name: Label): (r: seq<Column>)
    ensures |r| <= |cs|
  {
    if cs == [] then [] else (if cs[0].name == name then [] else [cs[0]]) + WithoutNamed(cs[1..], name)
  }

  /** The columns labelled `name`, in their original order. */
  function OnlyNamed(cs: seq<Column>, name: Label): seq<Column> {
    if cs == [] then [] else (if cs[0].name == name then [cs[0]] else []) + OnlyNamed(cs[1..], name)
  }

  /** How many columns carry the label `name`. */
  function CountNamed(cs: seq<Column>, name: Label): nat {
    if cs == [] then 0 else (if cs[0].name == name then 1 else 0) + CountNamed(cs[1..], name)
  }

  /** `df.drop(columns=[name])`: a KeyError when the label is absent, otherwise
      every column carrying it is removed. */
  function DropColumn(f: Frame, name: Label): (r: Result<Frame, Error>)
    ensures r.Success? <==> name in Names(f.columns)
    ensures r.Failure? ==> r.error == KeyError(name)
    ensures r.Success? ==> r.value.rows == f.rows && |r.value.columns| <= |f.columns|
  {
    if HasColumn(f, name) then Success(Frame(f.rows, WithoutNamed(f.columns, name)))
    else Failure(KeyError(name))
  }

  /** `xs` is `ys` with some elements left out and the rest in their order. */
  ghost predicate IsSubsequence<T>(xs: seq<T>, ys: seq<T>)
    decreases |ys|
  {
    xs == [] || (ys != [] && ((xs[0] == ys[0] && IsSubsequence(xs[1..], ys[1..])) || IsSubsequence(xs, ys[1..])))
  }

  /** A column extended with missing values up to `rows` cells. */
  function Pad(c: Column, rows: nat): (r: Column)
    ensures r.name == c.name && r.dtype == c.dtype
  {
    if |c.cells| >= rows then c else c.(cells := c.cells + seq(rows - |c.cells|, _ => Missing))
  }

  /** `pd.concat([x, y], axis=1)` over default indexes: the columns of `x`
      followed by those of `y`, aligned on the union of the two indexes, so
      the shorter frame's columns are filled with missing values. */
  function Concat(x: Frame, y: Frame): (r: Frame)
    ensures r.rows >= x.rows && r.rows >= y.rows && (r.rows == x.rows || r.rows == y.rows)
    ensures |r.columns| == |x.columns| + |y.columns|
  {
    var rows := if x.rows >= y.rows then x.rows else y.rows;
    Frame(rows, seq(|x.columns| + |y.columns|, j requires 0 <= j < |x.columns| + |y.columns| =>
      Pad(if j < |x.columns| then x.columns[j] else y.columns[j - |x.columns|], rows)))
  }

  /** `df.columns = [c.lower() for c in df.columns]`: AttributeError as soon as
      a label is not a string, otherwise every label lower-cased in place. */
  function LowerLabels(f: Frame): (r: Result<Frame, Error>)
    ensures r.Success? <==> forall j :: 0 <= j < |f.columns| ==> f.columns[j].name.Str?
    ensures r.Failure? ==> r.error == AttributeError("lower")
    ensures r.Success? ==> r.value.rows == f.rows && |r.value.columns| == |f.columns|
    ensures r.Success? ==> forall j :: 0 <= j < |f.columns| ==>
      r.value.columns[j].name == Str(Lower(f.columns[j].name.text)) &&
      r.value.columns[j].cells == f.columns[j].cells && r.value.columns[j].dtype == f.columns[j].dtype
  {
    if forall j :: 0 <= j < |f.columns| ==> f.columns[j].name.Str? then
      Success(Frame(f.rows, seq(|f.columns|, j requires 0 <= j < |f.columns| && f.columns[j].name.Str? =>
        f.columns[j].(name := Str(Lower(f.columns[j].name.text))))))
    else
      Failure(AttributeError("lower"))
  }

  // ---------------------------------------------------------------------------
  // Properties

  lemma {:induction false} WithoutNamedKeepsOthers(cs: seq<Column>, name: Label)
    ensures forall c :: c in WithoutNamed(cs, name) <==> c in cs && c.name != name
    ensures |WithoutNamed(cs, name)| == |cs| - CountNamed(cs, name)
    ensures IsSubsequence(WithoutNamed(cs, name), cs)
  {
    if cs != [] {
      WithoutNamedKeepsOthers(cs[1..], name);
      var rest := WithoutNamed(cs[1..], name);
      if cs[0].name != name {
        assert WithoutNamed(cs, name) == [cs[0]] + rest;
        assert ([cs[0]] + rest)[1..] == rest;
      } else {
        assert WithoutNamed(cs, name) == rest;
      }
      assert cs == [cs[0]] + cs[1..];
    }
  }

  lemma {:induction false} OnlyNamedSelects(cs: seq<Column>, name: Label)
    ensures forall c :: c in OnlyNamed(cs, name) <==> c in cs && c.name == name
    ensures |OnlyNamed(cs, name)| == CountNamed(cs, name)
  {
    if cs != [] {
      OnlyNamedSelects(cs[1..], name);
      assert cs == [cs[0]] + cs[1..];
    }
  }

  /** A label occurs among the columns exactly when it is counted at least once. */
  lemma {:induction false} CountNamedPositive(cs: seq<Column>, name: Label)
    ensures CountNamed(cs, name) > 0 <==> name in Names(cs)
  {
    if cs != [] {
      CountNamedPositive(cs[1..], name);
      assert Names(cs) == [cs[0].name] + Names(cs[1..]);
    }
  }

  /** Dropping a label that is absent changes nothing. */
  lemma {:induction false} WithoutAbsent(cs: seq<Column>, name: Label)
    requires name !in Names(cs)
    ensures WithoutNamed(cs, name) == cs
  {
    if cs != [] {
      assert cs == [cs[0]] + cs[1..];
      NamesCons(cs[0], cs[1..]);
      assert cs[0].name != name && name !in Names(cs[1..]);
      WithoutAbsent(cs[1..], name);
    }
  }

  /** `drop` keeps the row count, removes exactly the columns so labelled and
      keeps the others in order. */
  lemma DropColumnSpec(f: Frame, name: Label)
    ensures DropColumn(f, name).Success? <==> HasColumn(f, name)
    ensures !HasColumn(f, name) ==> DropColumn(f, name) == Failure(KeyError(name))
    ensures DropColumn(f, name).Success? ==>
      var r := DropColumn(f, name).value;
      && r.rows == f.rows
      && name !in Names(r.columns)
      && |r.columns| == |f.columns| - CountNamed(f.columns, name)
      && IsSubsequence(r.columns, f.columns)
      && (forall c :: c in r.columns <==> c in f.columns && c.name != name)
      && (WellFormed(f) ==> WellFormed(r))
  {
    WithoutNamedKeepsOthers(f.columns, name);
  }

  /** Concatenation pads both sides to the longer row count, keeps the labels
      of `x` then `y`, and over equal row counts is plain column juxtaposition. */
  lemma ConcatSpec(x: Frame, y: Frame)
    requires WellFormed(x) && WellFormed(y)
    ensures WellFormed(Concat(x, y))
    ensures Concat(x, y).rows == (if x.rows >= y.rows then x.rows else y.rows)
    ensures Names(Concat(x, y).columns) == Names(x.columns) + Names(y.columns)
    ensures x.rows == y.rows ==> Concat(x, y).columns == x.columns + y.columns
  {
    ConcatNames(x, y);
    ConcatWellFormed(x, y);
    if x.rows == y.rows {
      ConcatSameRows(x, y);
    }
  }

  lemma ConcatWellFormed(x: Frame, y: Frame)
    requires WellFormed(x) && WellFormed(y)
    ensures WellFormed(Concat(x, y))
  {
    var r := Concat(x, y);
    forall c | c in r.columns ensures |c.cells| == r.rows {
      var j :| 0 <= j < |r.columns| && r.columns[j] == c;
      if j < |x.columns| { assert x.columns[j] in x.columns; } else { assert y.columns[j - |x.columns|] in y.columns; }
    }
  }

  lemma ConcatSameRows(x: Frame, y: Frame)
    requires WellFormed(x) && WellFormed(y) && x.rows == y.rows
    ensures Concat(x, y).columns == x.columns + y.columns
  {
    var r := Concat(x, y);
    forall j | 0 <= j < |r.columns| ensures r.columns[j] == (x.columns + y.columns)[j] {
      if j < |x.columns| { assert x.columns[j] in x.columns; } else { assert y.columns[j - |x.columns|] in y.columns; }
    }
  }

  // ---------------------------------------------------------------------------
  // The same operations seen on label sequences

  function RenameLabels(ls: seq<Label>, from: Label, to: Label): (r: seq<Label>)
    ensures |r| == |ls|
    ensures forall j :: 0 <= j < |ls| ==> r[j] == (if ls[j] == from then to else ls[j])
  {
    seq(|ls|, j requires 0 <= j < |ls| => if ls[j] == from then to else ls[j])
  }

  function DropLabels(ls: seq<Label>, name: Label): seq<Label> {
    if ls == [] then [] else (if ls[0] == name then [] else [ls[0]]) + DropLabels(ls[1..], name)
  }

  lemma RenameNames(f: Frame, from: Label, to: Label)
    ensures Names(RenameColumn(f, from, to).columns) == RenameLabels(Names(f.columns), from, to)
  {
  }

  /** Renaming keeps every column's cells, so a well-formed frame stays so. */
  lemma RenameKeepsShape(f: Frame, from: Label, to: Label)
    requires WellFormed(f)
    ensures WellFormed(RenameColumn(f, from, to))
  {
    var r := RenameColumn(f, from, to);
    forall c | c in r.columns ensures |c.cells| == r.rows {
      var j :| 0 <= j < |r.columns| && r.columns[j] == c;
      assert f.columns[j] in f.columns;
    }
  }

  /** Lower-casing the labels keeps every column's cells. */
  lemma LowerLabelsKeepsShape(f: Frame)
    requires WellFormed(f) && LowerLabels(f).Success?
    ensures WellFormed(LowerLabels(f).value) && LowerLabels(f).value.rows == f.rows
  {
    var r := LowerLabels(f).value;
    forall c | c in r.columns ensures |c.cells| == r.rows {
      var j :| 0 <= j < |r.columns| && r.columns[j] == c;
      assert f.columns[j] in f.columns;
    }
  }

  /** Renaming a label that is absent changes nothing. */
  lemma RenameAbsent(f: Frame, from: Label, to: Label)
    requires !HasColumn(f, from)
    ensures RenameColumn(f, from, to) == f
  {
    var r := RenameColumn(f, from, to);
    forall j | 0 <= j < |f.columns| ensures r.columns[j] == f.columns[j] {
      assert Names(f.columns)[j] == f.columns[j].name;
    }
  }

  /** The labels of a non-empty column list: the first, then the rest's. */
  lemma NamesCons(c: Column, rest: seq<Column>)
    ensures Names([c] + rest) == [c.name] + Names(rest)
  {
    var cs, l, m := [c] + rest, Names([c] + rest), [c.name] + Names(rest);
    forall j | 0 <= j < |l| ensures l[j] == m[j] {
      if j > 0 {
        assert cs[j] == rest[j - 1];
      }
    }
  }

  lemma {:induction false} WithoutNamedNames(cs: seq<Column>, name: Label)
    ensures Names(WithoutNamed(cs, name)) == DropLabels(Names(cs), name)
  {
    if cs != [] {
      WithoutNamedNames(cs[1..], name);
      var tail := WithoutNamed(cs[1..], name);
      assert cs == [cs[0]] + cs[1..];
      NamesCons(cs[0], cs[1..]);
      var ls := Names(cs);
      assert ls == [cs[0].name] + Names(cs[1..]);
      assert ls[0] == cs[0].name && ls[1..] == Names(cs[1..]);
      if cs[0].name == name {
        assert WithoutNamed(cs, name) == tail;
      } else {
        assert WithoutNamed(cs, name) == [cs[0]] + tail;
        NamesCons(cs[0], tail);
      }
    }
  }

  lemma ConcatNames(x: Frame, y: Frame)
    ensures Names(Concat(x, y).columns) == Names(x.columns) + Names(y.columns)
  {
    var r := Concat(x, y);
    forall j | 0 <= j < |r.columns| ensures Names(r.columns)[j] == (Names(x.columns) + Names(y.columns))[j] {
      if j < |x.columns| {
        assert r.columns[j] == Pad(x.columns[j], r.rows);
      } else {
        assert r.columns[j] == Pad(y.columns[j - |x.columns|], r.rows);
      }
    }
  }
}
