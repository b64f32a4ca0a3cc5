/**
 * The document store behind `db`, `create_document` and `get_documents`:
 * named collections of documents in insertion order, queried by id, by
 * `$in` on ids and by field equality. The store is a class whose state the
 * handlers change; `Db` is the value of that state.
 */
module Database {
  import opened Wrappers
  import opened Http
  import opened Ids
  import opened Documents

  /** The store's state: whether `db` is configured, and each collection's documents in insertion order. */
  datatype Db = Db(configured: bool, collections: map<string, seq<Document>>)

  /** What a handler answers, with the store it leaves behind. */
  datatype Outcome<+T> = Outcome(response: Result<T, HttpError>, db: Db)

  /** `db[name]`: a collection that was never written to is empty. */
  function Coll(db: Db, name: string): seq<Document> {
    if name in db.collections then db.collections[name] else []
  }

  function IdOf(d: Document): Option<ObjectId> {
    if HasObjectId(d) then Some(d["_id"].oid) else None
  }

  predicate ContainsId(docs: seq<Document>, id: ObjectId) {
    exists i :: 0 <= i < |docs| && IdOf(docs[i]) == Some(id)
  }

  /** Every document of a collection has an `ObjectId`, and no two share one. */
  predicate WellFormedDocs(docs: seq<Document>) {
    && (forall i :: 0 <= i < |docs| ==> HasObjectId(docs[i]))
    && (forall i, j :: 0 <= i < j < |docs| ==> IdOf(docs[i]) != IdOf(docs[j]))
  }

  predicate WellFormed(db: Db) {
    forall name :: name in db.collections ==> WellFormedDocs(db.collections[name])
  }

  lemma CollWellFormed(db: Db, name: string)
    requires WellFormed(db)
    ensures WellFormedDocs(Coll(db, name))
  {
  }

  /** `find_one({"_id": id})`: the first document with that id, if any. */
  function FindOne(docs: seq<Document>, id: ObjectId): (r: Option<Document>)
    ensures r.Some? <==> ContainsId(docs, id)
    ensures r.Some? ==> IdOf(r.value) == Some(id) && r.value in docs
  {
    if docs == [] then None
    else if IdOf(docs[0]) == Some(id) then Some(docs[0])
    else
      var r := FindOne(docs[1..], id);
      assert ContainsId(docs, id) ==> ContainsId(docs[1..], id) by {
        if ContainsId(docs, id) {
          var i :| 0 <= i < |docs| && IdOf(docs[i]) == Some(id);
          assert i != 0 && IdOf(docs[1..][i - 1]) == Some(id);
        }
      }
      assert r.Some? ==> ContainsId(docs, id) by {
        if r.Some? {
          var i :| 0 <= i < |docs[1..]| && IdOf(docs[1..][i]) == Some(id);
          assert IdOf(docs[i + 1]) == Some(id);
        }
      }
      r
  }

  /** `find({"_id": {"$in": ids}})`: the documents whose id is one of `ids`, in store order. */
  function FindIn(docs: seq<Document>, ids: set<ObjectId>): (r: seq<Document>)
    ensures forall i :: 0 <= i < |r| ==> HasObjectId(r[i]) && r[i]["_id"].oid in ids && r[i] in docs
    ensures forall i :: 0 <= i < |docs| && HasObjectId(docs[i]) && docs[i]["_id"].oid in ids ==> docs[i] in r
  {
    if docs == [] then []
    else
      var rest := FindIn(docs[1..], ids);
      assert forall i :: 1 <= i < |docs| ==> docs[i] == docs[1..][i - 1];
      if HasObjectId(docs[0]) && docs[0]["_id"].oid in ids then [docs[0]] + rest else rest
  }

  /** No document has an id in the set: `$in` finds nothing. */
  lemma {:induction false} FindInNone(docs: seq<Document>, ids: set<ObjectId>)
    requires forall j :: 0 <= j < |docs| && HasObjectId(docs[j]) ==> docs[j]["_id"].oid !in ids
    ensures FindIn(docs, ids) == []
  {
    if docs != [] {
      assert forall j :: 0 <= j < |docs[1..]| ==> docs[1..][j] == docs[j + 1];
      FindInNone(docs[1..], ids);
    }
  }

  /** `find({key: v})`: the documents whose field `key` equals `v`, in store order. */
  function FindEq(docs: seq<Document>, key: string, v: Value): (r: seq<Document>)
    ensures |r| <= |docs|
    ensures forall d :: d in r <==> d in docs && key in d && d[key] == v
    ensures |docs| == 1 ==> r == if key in docs[0] && docs[0][key] == v then docs else []
  {
    if docs == [] then []
    else
      var rest := FindEq(docs[1..], key, v);
      if key in docs[0] && docs[0][key] == v then [docs[0]] + rest else rest
  }

  /**
   * The filter keeps store order and multiplicity: filtering two runs of
   * documents one after the other is filtering each and concatenating.
   */
  lemma {:induction false} FindEqAppend(a: seq<Document>, b: seq<Document>, key: string, v: Value)
    ensures FindEq(a + b, key, v) == FindEq(a, key, v) + FindEq(b, key, v)
  {
    if a != [] {
      assert (a + b)[0] == a[0] && (a + b)[1..] == a[1..] + b;
      FindEqAppend(a[1..], b, key, v);
    } else {
      assert a + b == b;
    }
  }

  /** No document holds `v` under `key`: the filter finds nothing. */
  lemma {:induction false} FindEqNone(docs: seq<Document>, key: string, v: Value)
    requires forall j :: 0 <= j < |docs| ==> key !in docs[j] || docs[j][key] != v
    ensures FindEq(docs, key, v) == []
  {
    if docs != [] {
      assert forall j :: 0 <= j < |docs[1..]| ==> docs[1..][j] == docs[j + 1];
      FindEqNone(docs[1..], key, v);
    }
  }

  /**
   * `create_document(name, record)`: the driver picks `id`; the document is
   * appended under that `_id` and `str(id)` is returned. No store, or an id the
   * collection already holds (a duplicate-key error), is a 500 and changes nothing.
   */
  function Insert(db: Db, name: string, doc: Document, id: ObjectId): (o: Outcome<string>)
    ensures o.response.Ok? <==> db.configured && !ContainsId(Coll(db, name), id)
    ensures o.response.Err? ==> o.response.error == InternalServerError && o.db == db
    ensures o.response.Ok? ==> o.response.value == id
    ensures o.response.Ok? ==> Coll(o.db, name) == Coll(db, name) + [doc["_id" := VId(id)]]
    ensures o.db.configured == db.configured
    ensures forall other :: other != name ==> Coll(o.db, other) == Coll(db, other)
  {
    if !db.configured || ContainsId(Coll(db, name), id) then Outcome(Err(InternalServerError), db)
    else Outcome(Ok(id), db.(collections := db.collections[name := Coll(db, name) + [doc["_id" := VId(id)]]]))
  }

  /** Inserting keeps every collection well formed. */
  lemma InsertWellFormed(db: Db, name: string, doc: Document, id: ObjectId)
    requires WellFormed(db)
    ensures WellFormed(Insert(db, name, doc, id).db)
  {
    var o := Insert(db, name, doc, id);
    if o.response.Ok? {
      var docs := Coll(o.db, name);
      var n := |docs| - 1;
      assert IdOf(docs[n]) == Some(id);
      forall i, j | 0 <= i < j < |docs| ensures IdOf(docs[i]) != IdOf(docs[j]) {
        if j == n {
          assert docs[i] == Coll(db, name)[i];
        } else {
          assert docs[i] == Coll(db, name)[i] && docs[j] == Coll(db, name)[j];
        }
      }
      forall other | other in o.db.collections ensures WellFormedDocs(o.db.collections[other]) {
        if other != name {
          assert o.db.collections[other] == Coll(db, other);
        }
      }
    }
  }

  /**
   * `get_documents(name, limit)`: the first documents of the collection in
   * insertion order; as with a driver cursor, a limit of 0 means no limit and a
   * negative one counts as its absolute value.
   */
  function Take(docs: seq<Document>, limit: int): (r: seq<Document>)
    ensures limit == 0 ==> r == docs
    ensures limit != 0 ==> |r| == if |docs| < Abs(limit) then |docs| else Abs(limit)
    ensures r <= docs
  {
    var n := Abs(limit);
    if n == 0 || n >= |docs| then docs else docs[..n]
  }

  function Abs(x: int): nat {
    if x < 0 then -x else x
  }

  /** The store itself: the global `db` handle of the service. */
  class Store {
    var configured: bool
    var collections: map<string, seq<Document>>

    function State(): Db
      reads this
    {
      Db(configured, collections)
    }

    /** A store with no documents; `configured` is false when no database URL was set. */
    constructor (configured: bool)
      ensures State() == Db(configured, map[])
      ensures WellFormed(State())
    {
      this.configured := configured;
      this.collections := map[];
    }

    /** `create_document` against this store. */
    method CreateDocument(name: string, doc: Document, id: ObjectId) returns (r: Result<string, HttpError>)
      modifies this
      ensures Outcome(r, State()) == Insert(old(State()), name, doc, id)
    {
      var docs := if name in collections then collections[name] else [];
      if !configured || ContainsId(docs, id) {
        r := Err(InternalServerError);
      } else {
        collections := collections[name := docs + [doc["_id" := VId(id)]]];
        r := Ok(id);
      }
    }
  }
}
