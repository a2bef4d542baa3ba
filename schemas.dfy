/** The HTTP payloads: `PredictionRequest` (23 required, typed fields),
    `PredictionResponse` and `HealthCheck`. */
module Schemas {
  import opened Wrappers
  import opened Json
  import opened Frames
  import MockData

  datatype FieldType = IntField | FloatField

  /** `PredictionRequest`'s field names in declaration order. */
  const RequestFieldNames: seq<string> := [
    "limit_bal", "sex", "education", "marriage", "age",
    "pay_1", "pay_2", "pay_3", "pay_4", "pay_5", "pay_6",
    "bill_amt1", "bill_amt2", "bill_amt3", "bill_amt4", "bill_amt5", "bill_amt6",
    "pay_amt1", "pay_amt2", "pay_amt3", "pay_amt4", "pay_amt5", "pay_amt6"]

  /** The fields annotated `int`; every other field is annotated `float`. */
  const IntFieldNames: set<string> := {
    "sex", "education", "marriage", "age", "pay_1", "pay_2", "pay_3", "pay_4", "pay_5", "pay_6"}

  function FieldTypeOf(name: string): FieldType {
    if name in IntFieldNames then IntField else FloatField
  }

  /** A validated request. Every field is required (`Field(...)`). */
  datatype PredictionRequest = PredictionRequest(
    limitBal: real, sex: int, education: int, marriage: int, age: int,
    pay1: int, pay2: int, pay3: int, pay4: int, pay5: int, pay6: int,
    billAmt1: real, billAmt2: real, billAmt3: real, billAmt4: real, billAmt5: real, billAmt6: real,
    payAmt1: real, payAmt2: real, payAmt3: real, payAmt4: real, payAmt5: real, payAmt6: real)

  /** `PredictionResponse`: the explanation fields default to None. */
  datatype PredictionResponse = PredictionResponse(
    defaultProbability: real,
    isDefault: int,
    shapValues: Option<map<string, real>>,
    topFeatures: Option<seq<string>>)

  datatype HealthCheck = HealthCheck(status: string, version: string)

  /** `PredictionResponse(default_probability=p, is_default=d)` with the
      optional fields left at their defaults. */
  function NewResponse(p: real, d: int): (r: PredictionResponse)
    ensures r.defaultProbability == p && r.isDefault == d
    ensures r.shapValues == None && r.topFeatures == None
  {
    PredictionResponse(p, d, None, None)
  }

  // ---------------------------------------------------------------------------
  // Validation of a JSON body

  /** An `int` field takes a JSON number without fractional part. */
  function IntValue(v: Json): Option<int> {
    if v.Number? && v.r.Floor as real == v.r then Some(v.r.Floor) else None
  }

  /** A `float` field takes any JSON number. */
  function FloatValue(v: Json): Option<real> {
    if v.Number? then Some(v.r) else None
  }

  predicate Accepts(t: FieldType, v: Json) {
    match t
    case IntField => IntValue(v).Some?
    case FloatField => FloatValue(v).Some?
  }

  /** The field is present in the body with a value of its declared type. */
  predicate FieldValid(body: map<string, Json>, name: string) {
    name in body && Accepts(FieldTypeOf(name), body[name])
  }

  predicate Conforms(body: map<string, Json>) {
    forall name :: name in RequestFieldNames ==> FieldValid(body, name)
  }

  /** The fields among `names` that are missing or ill-typed, in order. */
  function InvalidFields(body: map<string, Json>, names: seq<string>): seq<string> {
    if names == [] then []
    else (if FieldValid(body, names[0]) then [] else [names[0]]) + InvalidFields(body, names[1..])
  }

  function ReadInt(body: map<string, Json>, name: string): int
    requires name in body && IntValue(body[name]).Some?
  {
    IntValue(body[name]).value
  }

  function ReadFloat(body: map<string, Json>, name: string): real
    requires name in body && FloatValue(body[name]).Some?
  {
    FloatValue(body[name]).value
  }

  lemma ConformsAtEachField(body: map<string, Json>)
    requires Conforms(body)
    ensures FieldValid(body, "limit_bal")
    ensures FieldValid(body, "sex")
    ensures FieldValid(body, "education")
    ensures FieldValid(body, "marriage")
    ensures FieldValid(body, "age")
    ensures FieldValid(body, "pay_1")
    ensures FieldValid(body, "pay_2")
    ensures FieldValid(body, "pay_3")
    ensures FieldValid(body, "pay_4")
    ensures FieldValid(body, "pay_5")
    ensures FieldValid(body, "pay_6")
    ensures FieldValid(body, "bill_amt1")
    ensures FieldValid(body, "bill_amt2")
    ensures FieldValid(body, "bill_amt3")
    ensures FieldValid(body, "bill_amt4")
    ensures FieldValid(body, "bill_amt5")
    ensures FieldValid(body, "bill_amt6")
    ensures FieldValid(body, "pay_amt1")
    ensures FieldValid(body, "pay_amt2")
    ensures FieldValid(body, "pay_amt3")
    ensures FieldValid(body, "pay_amt4")
    ensures FieldValid(body, "pay_amt5")
    ensures FieldValid(body, "pay_amt6")
  {
    forall k | 0 <= k < |RequestFieldNames| ensures FieldValid(body, RequestFieldNames[k]) {
      assert RequestFieldNames[k] in RequestFieldNames;
    }
    assert FieldValid(body, RequestFieldNames[0]);
    assert FieldValid(body, RequestFieldNames[1]);
    assert FieldValid(body, RequestFieldNames[2]);
    assert FieldValid(body, RequestFieldNames[3]);
    assert FieldValid(body, RequestFieldNames[4]);
    assert FieldValid(body, RequestFieldNames[5]);
    assert FieldValid(body, RequestFieldNames[6]);
    assert FieldValid(body, RequestFieldNames[7]);
    assert FieldValid(body, RequestFieldNames[8]);
    assert FieldValid(body, RequestFieldNames[9]);
    assert FieldValid(body, RequestFieldNames[10]);
    assert FieldValid(body, RequestFieldNames[11]);
    assert FieldValid(body, RequestFieldNames[12]);
    assert FieldValid(body, RequestFieldNames[13]);
    assert FieldValid(body, RequestFieldNames[14]);
    assert FieldValid(body, RequestFieldNames[15]);
    assert FieldValid(body, RequestFieldNames[16]);
    assert FieldValid(body, RequestFieldNames[17]);
    assert FieldValid(body, RequestFieldNames[18]);
    assert FieldValid(body, RequestFieldNames[19]);
    assert FieldValid(body, RequestFieldNames[20]);
    assert FieldValid(body, RequestFieldNames[21]);
    assert FieldValid(body, RequestFieldNames[22]);
  }

  function Build(body: map<string, Json>): PredictionRequest
    requires Conforms(body)
  {
    ConformsAtEachField(body);
    PredictionRequest(
      ReadFloat(body, "limit_bal"), ReadInt(body, "sex"), ReadInt(body, "education"),
      ReadInt(body, "marriage"), ReadInt(body, "age"),
      ReadInt(body, "pay_1"), ReadInt(body, "pay_2"), ReadInt(body, "pay_3"),
      ReadInt(body, "pay_4"), ReadInt(body, "pay_5"), ReadInt(body, "pay_6"),
      ReadFloat(body, "bill_amt1"), ReadFloat(body, "bill_amt2"), ReadFloat(body, "bill_amt3"),
      ReadFloat(body, "bill_amt4"), ReadFloat(body, "bill_amt5"), ReadFloat(body, "bill_amt6"),
      ReadFloat(body, "pay_amt1"), ReadFloat(body, "pay_amt2"), ReadFloat(body, "pay_amt3"),
      ReadFloat(body, "pay_amt4"), ReadFloat(body, "pay_amt5"), ReadFloat(body, "pay_amt6"))
  }

  /** Request validation: the request, or the fields at fault in declaration
      order. Keys that are not fields are ignored. */
  function Validate(body: map<string, Json>): (r: Result<PredictionRequest, seq<string>>)
    ensures r.Success? <==> Conforms(body)
  {
    if Conforms(body) then Success(Build(body)) else Failure(InvalidFields(body, RequestFieldNames))
  }

  // ---------------------------------------------------------------------------
  // A request as data: its JSON body and `pd.DataFrame([request.model_dump()])`

  /** The field values as numbers, in declaration order. */
  function FieldValues(req: PredictionRequest): (r: seq<real>)
    ensures |r| == |RequestFieldNames|
  {
    [req.limitBal, req.sex as real, req.education as real, req.marriage as real, req.age as real, req.pay1 as real, req.pay2 as real, req.pay3 as real, req.pay4 as real, req.pay5 as real, req.pay6 as real, req.billAmt1, req.billAmt2, req.billAmt3, req.billAmt4, req.billAmt5, req.billAmt6, req.payAmt1, req.payAmt2, req.payAmt3, req.payAmt4, req.payAmt5, req.payAmt6]
  }

  /** The JSON body a client sends for `req`: each field's number under its name. */
  function AsBody(req: PredictionRequest): map<string, Json> {
    RequestFieldsDistinct();
    map k | 0 <= k < |RequestFieldNames| :: RequestFieldNames[k] := Number(FieldValues(req)[k])
  }

  /** `pd.DataFrame([request.model_dump()])`: one row, one column per field in
      declaration order, `int64` for `int` fields and `float64` for `float` ones. */
  function RequestFrame(req: PredictionRequest): (f: Frame)
    ensures f.rows == 1 && |f.columns| == |RequestFieldNames|
  {
    Frame(1, seq(|RequestFieldNames|, k requires 0 <= k < |RequestFieldNames| =>
      var name := RequestFieldNames[k];
      if FieldTypeOf(name) == IntField
      then Column(Str(name), Int64, [IntVal(FieldValues(req)[k].Floor)])
      else Column(Str(name), Float64, [FloatVal(FieldValues(req)[k])])))
  }

  // ---------------------------------------------------------------------------
  // Properties of the field declarations

  /** 23 distinct field names. */
  lemma RequestFieldsDistinct()
    ensures |RequestFieldNames| == 23
    ensures forall a, b :: 0 <= a < b < |RequestFieldNames| ==> RequestFieldNames[a] != RequestFieldNames[b]
  {
  }

  /** Every field name is lower-case. */
  lemma RequestFieldsLower()
    ensures forall k :: 0 <= k < |RequestFieldNames| ==> IsLower(RequestFieldNames[k])
  {
    forall k | 0 <= k < |RequestFieldNames| ensures IsLower(RequestFieldNames[k]) {
      var s := RequestFieldNames[k];
      forall i | 0 <= i < |s| ensures LowerChar(s[i]) == s[i] { }
    }
  }

  /** `pay_1` to `pay_6` are fields and `pay_0` is not. */
  lemma RequestPayFields()
    ensures forall i :: 1 <= i <= 6 ==> "pay_" + MockData.Digit(i) in RequestFieldNames
    ensures "pay_0" !in RequestFieldNames
  {
    forall i | 1 <= i <= 6 ensures "pay_" + MockData.Digit(i) in RequestFieldNames {
      assert "pay_" + MockData.Digit(i) == RequestFieldNames[4 + i];
    }
  }

  /** Positions 1 to 10 (`sex` to `pay_6`) are `int` fields; `limit_bal` and the
      twelve amounts are `float` fields. */
  lemma FieldTypes()
    ensures forall k :: 0 <= k < |RequestFieldNames| ==>
      (FieldTypeOf(RequestFieldNames[k]) == IntField <==> 1 <= k <= 10)
  {
  }

  /** The request fields are the synthetic feature columns (the generated table
      without `target`) as a set, but not in the same order: the request groups
      the six months by kind, the generator interleaves them. */
  lemma RequestMatchesSynthetic()
    ensures (set n | n in RequestFieldNames) == (set n | n in MockData.SyntheticColumnNames[..23])
    ensures RequestFieldNames != MockData.SyntheticColumnNames[..23]
    ensures RequestFieldNames[6] == "pay_2" && MockData.SyntheticColumnNames[6] == "bill_amt1"
  {
    RequestFieldsAreFeatures();
    SyntheticFeaturesAreNonTarget();
    var syn := MockData.SyntheticColumnNames[..23];
    assert syn[6] == "bill_amt1";
    assert RequestFieldNames[6] != syn[6];
    assert forall n :: n in RequestFieldNames <==> n in syn;
  }

  /** The synthetic features are the synthetic columns other than `target`. */
  lemma SyntheticFeaturesAreNonTarget()
    ensures forall s :: s in MockData.SyntheticColumnNames[..23] <==> s in MockData.SyntheticColumnNames && s != "target"
  {
    var all := MockData.SyntheticColumnNames;
    assert all == all[..23] + [all[23]];
    assert forall k :: 0 <= k < 23 ==> all[k] != "target";
  }

  // ---------------------------------------------------------------------------
  // Properties of validation

  /** A name is reported iff it is among `names` and invalid in `body`; the
      report is empty iff every name is valid. */
  lemma {:induction false} InvalidFieldsSpec(body: map<string, Json>, names: seq<string>)
    ensures forall n :: n in InvalidFields(body, names) <==> n in names && !FieldValid(body, n)
    ensures InvalidFields(body, names) == [] <==> forall n :: n in names ==> FieldValid(body, n)
  {
    if names != [] {
      InvalidFieldsSpec(body, names[1..]);
      assert names == [names[0]] + names[1..];
    }
  }

  /** Validation succeeds exactly on conforming bodies; otherwise it reports a
      non-empty list holding exactly the fields that are missing or ill-typed. */
  lemma ValidateSpec(body: map<string, Json>)
    ensures Validate(body).Success? <==> Conforms(body)
    ensures Validate(body).Failure? ==>
      && Validate(body).error != []
      && forall n :: n in Validate(body).error <==> n in RequestFieldNames && !FieldValid(body, n)
  {
    InvalidFieldsSpec(body, RequestFieldNames);
  }

  /** Every field is required: a body without one of them is rejected, and the
      missing field is reported. */
  lemma EveryFieldRequired(body: map<string, Json>, name: string)
    requires name in RequestFieldNames && name !in body
    ensures Validate(body).Failure? && name in Validate(body).error
  {
    InvalidFieldsSpec(body, RequestFieldNames);
  }

  /** Keys that are not fields do not affect validation. */
  lemma ValidateIgnoresExtraKeys(body: map<string, Json>, key: string, v: Json)
    requires key !in RequestFieldNames
    ensures Validate(body[key := v]) == Validate(body)
  {
    var body' := body[key := v];
    assert forall n :: n in RequestFieldNames ==> (FieldValid(body', n) <==> FieldValid(body, n));
    assert Conforms(body') == Conforms(body);
    if Conforms(body) {
      ConformsAtEachField(body);
    } else {
      InvalidFieldsAgree(body', body, RequestFieldNames);
    }
  }

  lemma {:induction false} InvalidFieldsAgree(b1: map<string, Json>, b2: map<string, Json>, names: seq<string>)
    requires forall n :: n in names ==> (FieldValid(b1, n) <==> FieldValid(b2, n))
    ensures InvalidFields(b1, names) == InvalidFields(b2, names)
  {
    if names != [] {
      InvalidFieldsAgree(b1, b2, names[1..]);
    }
  }

  /** The body holds, under each field's name, that field's number. */
  lemma AsBodyAt(req: PredictionRequest, k: nat)
    requires k < |RequestFieldNames|
    ensures RequestFieldNames[k] in AsBody(req)
    ensures AsBody(req)[RequestFieldNames[k]] == Number(FieldValues(req)[k])
  {
    RequestFieldsDistinct();
  }

  /** The integer fields carry integral numbers. */
  lemma IntFieldsIntegral(req: PredictionRequest, k: nat)
    requires 1 <= k <= 10
    ensures FieldValues(req)[k].Floor as real == FieldValues(req)[k]
  {
  }

  /** The body a client sends conforms to the schema. */
  lemma AsBodyConforms(req: PredictionRequest)
    ensures Conforms(AsBody(req))
  {
    var body := AsBody(req);
    forall name | name in RequestFieldNames ensures FieldValid(body, name) {
      var k :| 0 <= k < |RequestFieldNames| && RequestFieldNames[k] == name;
      AsBodyAt(req, k);
      FieldTypes();
      if 1 <= k <= 10 {
        IntFieldsIntegral(req, k);
      }
    }
  }

  /** The number a conforming body holds for the field at position `k`, read
      as its declared type. */
  function BodyValue(body: map<string, Json>, k: nat): real
    requires Conforms(body) && k < |RequestFieldNames|
  {
    assert RequestFieldNames[k] in RequestFieldNames;
    FieldTypes();
    if 1 <= k <= 10 then ReadInt(body, RequestFieldNames[k]) as real
    else ReadFloat(body, RequestFieldNames[k])
  }

  /** Reading a field as its declared type loses nothing. */
  lemma BodyValueKept(body: map<string, Json>, k: nat)
    requires Conforms(body) && k < |RequestFieldNames|
    ensures RequestFieldNames[k] in body && body[RequestFieldNames[k]] == Number(BodyValue(body, k))
  {
    assert RequestFieldNames[k] in RequestFieldNames;
    FieldTypes();
  }

  /** `Build` puts each field's number at that field's place. */
  lemma BuildReadsFields(body: map<string, Json>)
    requires Conforms(body)
    ensures forall k :: 0 <= k < |RequestFieldNames| ==> FieldValues(Build(body))[k] == BodyValue(body, k)
  {
    ConformsAtEachField(body);
  }

  /** Building reads each field's number from the body unchanged. */
  lemma BuildKeepsValues(body: map<string, Json>)
    requires Conforms(body)
    ensures forall k :: 0 <= k < |RequestFieldNames| ==>
      RequestFieldNames[k] in body && body[RequestFieldNames[k]] == Number(FieldValues(Build(body))[k])
  {
    BuildReadsFields(body);
    forall k | 0 <= k < |RequestFieldNames|
      ensures RequestFieldNames[k] in body && body[RequestFieldNames[k]] == Number(FieldValues(Build(body))[k])
    {
      BodyValueKept(body, k);
    }
  }

  /** A request is determined by its field values. */
  lemma FieldValuesInjective(r1: PredictionRequest, r2: PredictionRequest)
    requires FieldValues(r1) == FieldValues(r2)
    ensures r1 == r2
  {
  }

  /** The body a client sends for a request validates back to that request. */
  lemma ValidateAsBody(req: PredictionRequest)
    ensures Validate(AsBody(req)) == Success(req)
  {
    var body := AsBody(req);
    AsBodyConforms(req);
    BuildKeepsValues(body);
    forall k | 0 <= k < |RequestFieldNames| ensures FieldValues(Build(body))[k] == FieldValues(req)[k] {
      AsBodyAt(req, k);
    }
    FieldValuesInjective(Build(body), req);
  }

  /** Validation keeps every field: an accepted body holds, at each field, the
      number the request carries there, so it agrees with the request's own
      body on every field. */
  lemma ValidateKeepsFields(body: map<string, Json>, req: PredictionRequest)
    requires Validate(body) == Success(req)
    ensures forall k :: 0 <= k < |RequestFieldNames| ==>
      RequestFieldNames[k] in body && body[RequestFieldNames[k]] == AsBody(req)[RequestFieldNames[k]]
  {
    BuildKeepsValues(body);
    forall k | 0 <= k < |RequestFieldNames| ensures AsBody(req)[RequestFieldNames[k]] == Number(FieldValues(req)[k]) {
      AsBodyAt(req, k);
    }
  }

  /** The one-row frame built from a request: a column per field, named after it
      and in declaration order, `int64` exactly for the `int` fields, holding the
      field's value. */
  lemma RequestFrameShape(req: PredictionRequest)
    ensures var f := RequestFrame(req);
      && f.rows == 1 && WellFormed(f) && |f.columns| == |RequestFieldNames|
      && forall k :: 0 <= k < |f.columns| ==>
           && f.columns[k].name == Str(RequestFieldNames[k])
           && (f.columns[k].dtype == Int64 <==> 1 <= k <= 10)
           && (f.columns[k].dtype == Int64 || f.columns[k].dtype == Float64)
           && f.columns[k].cells == [if 1 <= k <= 10 then IntVal(FieldValues(req)[k].Floor) else FloatVal(FieldValues(req)[k])]
  {
    FieldTypes();
  }

  /** The request frame has the columns the model is trained on: the synthetic
      table's columns other than `target`, each exactly once. */
  lemma RequestFrameMatchesTraining(req: PredictionRequest, uniform: MockData.Uniform, normal: MockData.Gaussian, n: nat)
    ensures var names := Names(RequestFrame(req).columns);
      var trained := Names(MockData.SyntheticFrame(uniform, normal, n).columns);
      && (forall l :: l in names <==> l in trained && l != Str("target"))
      && (forall a, b :: 0 <= a < b < |names| ==> names[a] != names[b])
  {
    var names := Names(RequestFrame(req).columns);
    var trained := Names(MockData.SyntheticFrame(uniform, normal, n).columns);
    RequestFrameShape(req);
    RequestFieldsDistinct();
    RequestFieldsAreFeatures();
    MockData.SyntheticColumnOrder(uniform, normal, n);
    LabelsOfStrings(names, RequestFieldNames, trained, MockData.SyntheticColumnNames, "target");
  }

  /** Label-level membership follows from string-level membership. */
  lemma LabelsOfStrings(xs: seq<Label>, a: seq<string>, ys: seq<Label>, b: seq<string>, t: string)
    requires |xs| == |a| && forall k :: 0 <= k < |xs| ==> xs[k] == Str(a[k])
    requires |ys| == |b| && forall k :: 0 <= k < |ys| ==> ys[k] == Str(b[k])
    requires forall s :: s in a <==> s in b && s != t
    ensures forall l :: l in xs <==> l in ys && l != Str(t)
  {
    forall l | l in xs ensures l in ys && l != Str(t) {
      var k :| 0 <= k < |xs| && xs[k] == l;
      assert a[k] in a;
      var j :| 0 <= j < |b| && b[j] == a[k];
      assert ys[j] == l;
    }
    forall l | l in ys && l != Str(t) ensures l in xs {
      var j :| 0 <= j < |ys| && ys[j] == l;
      assert b[j] in b;
      var k :| 0 <= k < |a| && a[k] == b[j];
      assert xs[k] == l;
    }
  }

  /** A name is a request field iff it is a synthetic column other than `target`. */
  lemma RequestFieldsAreFeatures()
    ensures forall s :: s in RequestFieldNames <==> s in MockData.SyntheticColumnNames && s != "target"
  {
    assert forall s :: s in RequestFieldNames ==> s in MockData.SyntheticColumnNames;
    assert forall k :: 0 <= k < 23 ==> MockData.SyntheticColumnNames[k] in RequestFieldNames;
    assert MockData.SyntheticColumnNames[23] == "target";
  }
}
