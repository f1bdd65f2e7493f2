/** JSON documents as trees, the meaning of canonical JSON bytes. */
module Json {
  datatype Json =
    | Null
    | Bool(truth: bool)
    | Number(number: real)
    | Str(text: string)
    | Arr(items: seq<Json>)
    | Obj(members: map<string, Json>)

  /** Values that hold no other values. */
  predicate Scalar(j: Json) { !j.Arr? && !j.Obj? }
}
