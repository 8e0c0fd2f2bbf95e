/** JSON values as express.json() hands them to a handler in `req.body`, and as
    records are written into the document. Numbers are integers here. A request
    body may carry other numbers (`{"guests": 2.5}`), which the booking merge
    would store as they are; the merge never looks at values, so limiting them
    to integers changes nothing it does. Hotel ratings are kept in tenths. */
module Json {

  datatype Json =
    | JNull
    | JBool(b: bool)
    | JNum(n: int)
    | JStr(s: string)
    | JArr(items: seq<Json>)
    | JObj(fields: map<string, Json>)

  /** A JSON object; key order is not modelled. */
  type Object = map<string, Json>

  /** The object spread `{...a, ...b}`: every key of either, and on a key both
      have, the value of the later one. */
  function Spread(a: Object, b: Object): (r: Object)
    ensures r.Keys == a.Keys + b.Keys
    ensures forall k :: k in b ==> r[k] == b[k]
    ensures forall k :: k in a && k !in b ==> r[k] == a[k]
  {
    a + b
  }
}
