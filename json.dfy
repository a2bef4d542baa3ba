/** JSON documents: request bodies received by the prediction endpoint and the
    metrics report written by training. Numbers are exact reals; the split
    between integer and floating JSON tokens is not kept. */
module Json {

  datatype Json =
    | Null
    | Bool(b: bool)
    | Number(r: real)
    | Text(s: string)
    | Array(items: seq<Json>)
    | Object(fields: map<string, Json>)
}
