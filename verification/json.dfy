/**
 * Parsed JSON values: request bodies, page bodies and documents.  The
 * database never has its documents inspected beyond the two fields the
 * scripts read (`Documents` of a page, `partitionKey` of a create body).
 */
module Json {
  import opened Outcomes

  datatype Json =
    | Null
    | Bool(b: bool)
    | Number(literal: string)
    | Str(s: string)
    | Array(items: seq<Json>)
    | Object(fields: map<string, Json>)

  /** `value[key]` on a parsed JSON value, `None` where Python would raise. */
  function Member(value: Json, key: string): (r: Option<Json>)
    ensures r.Some? <==> value.Object? && key in value.fields
    ensures r.Some? ==> r.value == value.fields[key]
  {
    if value.Object? && key in value.fields then Some(value.fields[key]) else None
  }
}
