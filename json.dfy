/** JSON values as the metadata snapshot stores them in `localStorage`.
    `JSON.stringify` followed by `JSON.parse` is taken to be the identity on these trees,
    so a storage slot holds the tree itself. */
module Json {
  import opened Common

  datatype Json =
    | JNull
    | JBool(b: bool)
    | JNum(n: int)
    | JStr(s: string)
    | JArr(items: seq<Json>)
    | JObj(fields: map<string, Json>)

  /** JavaScript truthiness: `null`/`undefined`, `false`, `0` and `""` are falsy. */
  predicate Truthy(j: Json)
  {
    match j
    case JNull => false
    case JBool(b) => b
    case JNum(n) => n != 0
    case JStr(s) => s != ""
    case JArr(_) => true
    case JObj(_) => true
  }

  /** Property read `o.k` on a value that is not `null`: an absent property, or any property
      of a non-object, reads as `undefined`, which behaves like `null` in every use here. */
  function Field(o: Json, k: string): Json
  {
    match o
    case JObj(m) => if k in m then m[k] else JNull
    case _ => JNull
  }
}
