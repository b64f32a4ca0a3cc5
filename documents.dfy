/** Stored documents as the handlers see them (Python dicts), and `serialize` (main.py:31-35). */
module Documents {
  import opened Wrappers
  import opened Http
  import opened Text
  import opened Ids

  /**
   * A field value of a document. Numbers that are Python floats (prices, fees,
   * totals, ratings) are held exactly, in hundredths (`VNum(1299)` is 12.99).
   */
  datatype Value =
    | VNull
    | VBool(b: bool)
    | VInt(i: int)
    | VNum(hundredths: int)
    | VStr(s: string)
    | VId(oid: ObjectId)
    | VList(elems: seq<Value>)
    | VDoc(fields: map<string, Value>)

  /** A document: a dict from field names to values. */
  type Document = map<string, Value>

  predicate IsScalar(v: Value) {
    !v.VList? && !v.VDoc?
  }

  /** Python's `str(v)` for a scalar value. */
  function Str(v: Value): string
    requires IsScalar(v)
  {
    match v
    case VNull => "None"
    case VBool(b) => if b then "True" else "False"
    case VInt(i) => IntStr(i)
    case VNum(h) => FloatStr(h)
    case VStr(s) => s
    case VId(o) => o
  }

  /**
   * `serialize` (main.py:31-35). A missing or empty document is returned as it is;
   * otherwise `_id` is popped (a `KeyError`, hence a 500, when it is absent) and
   * its string form is stored under `id`.
   */
  function Serialize(doc: Option<Document>): (r: Result<Option<Document>, HttpError>)
    requires doc.Some? && "_id" in doc.value ==> IsScalar(doc.value["_id"])
    ensures doc.None? || doc.value == map[] ==> r == Ok(doc)
    ensures doc.Some? && doc.value != map[] && "_id" !in doc.value ==> r == Err(InternalServerError)
    ensures doc.Some? && "_id" in doc.value ==>
      && r.Ok? && r.value.Some?
      && r.value.value.Keys == doc.value.Keys - {"_id"} + {"id"}
      && r.value.value["id"] == VStr(Str(doc.value["_id"]))
      && forall k :: k in doc.value && k != "_id" && k != "id" ==> r.value.value[k] == doc.value[k]
  {
    match doc
    case None => Ok(doc)
    case Some(d) =>
      if d == map[] then Ok(doc)
      else if "_id" !in d then Err(InternalServerError)
      else Ok(Some((d - {"_id"})["id" := VStr(Str(d["_id"]))]))
  }

  /** A document the store returns: it has an `ObjectId` under `_id`. */
  predicate HasObjectId(d: Document) {
    "_id" in d && d["_id"].VId?
  }

  /** `serialize` of a stored document never fails and keeps every other field. */
  lemma SerializeStored(d: Document)
    requires HasObjectId(d)
    ensures Serialize(Some(d)) == Ok(Some((d - {"_id"})["id" := VStr(d["_id"].oid)]))
  {
  }

  /**
   * `[serialize(d) for d in docs]` over stored documents, each of which has an
   * ObjectId `_id`: no element fails, and each result is that document serialized.
   */
  function SerializeAll(docs: seq<Document>): (r: Result<seq<Document>, HttpError>)
    requires forall i :: 0 <= i < |docs| ==> HasObjectId(docs[i])
    ensures r.Ok? && |r.value| == |docs|
    ensures forall i :: 0 <= i < |docs| ==>
      HasObjectId(docs[i]) && Serialize(Some(docs[i])) == Ok(Some(r.value[i]))
  {
    if docs == [] then Ok([])
    else
      var rest := SerializeAll(docs[1..]);
      SerializeStored(docs[0]);
      Ok([(docs[0] - {"_id"})["id" := VStr(docs[0]["_id"].oid)]] + rest.value)
  }
}
