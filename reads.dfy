/**
 * The read handlers of main.py (`list_restaurants`, `get_restaurant`,
 * `get_menu`, `list_orders`) as functions of the store's state. Each one
 * answers the stored documents, serialized, in insertion order.
 */
module Reads {
  import opened Wrappers
  import opened Http
  import opened Ids
  import opened Documents
  import opened Schemas
  import opened Database
  import opened Orders

  /** `out` is `[serialize(d) for d in docs]`: one entry per stored document, in order. */
  predicate SerializesTo(docs: seq<Document>, out: seq<Document>) {
    && |out| == |docs|
    && forall i :: 0 <= i < |docs| ==> HasObjectId(docs[i]) && Serialize(Some(docs[i])) == Ok(Some(out[i]))
  }

  /** `list_restaurants` (main.py:110-112): every restaurant, serialized. No store is a 500. */
  function ListRestaurants(db: Db): (r: Result<seq<Document>, HttpError>)
    requires WellFormedDocs(Coll(db, "restaurant"))
    ensures r.Ok? <==> db.configured
    ensures r.Err? ==> r.error == InternalServerError
    ensures r.Ok? ==> SerializesTo(Coll(db, "restaurant"), r.value)
  {
    if !db.configured then Err(InternalServerError)
    else
      Ok(SerializeAll(Coll(db, "restaurant")).value)
  }

  /**
   * `get_restaurant` (main.py:115-120): a malformed id is a 400, an id no
   * restaurant has a 404; otherwise the restaurant, serialized, whose `id` is
   * the canonical (lower-case) form of the id asked for.
   */
  function GetRestaurant(db: Db, restaurantId: string): (r: Result<Document, HttpError>)
    requires WellFormedDocs(Coll(db, "restaurant"))
    ensures !db.configured ==> r == Err(InternalServerError)
    ensures db.configured && !ValidId(restaurantId) ==> r == Err(InvalidId)
    ensures db.configured && ValidId(restaurantId) && !ContainsId(Coll(db, "restaurant"), Canon(restaurantId)) ==>
              r == Err(RestaurantNotFound)
    ensures r.Ok? <==> db.configured && ValidId(restaurantId) && ContainsId(Coll(db, "restaurant"), Canon(restaurantId))
    ensures r.Ok? ==> "id" in r.value && r.value["id"] == VStr(Canon(restaurantId))
    ensures r.Ok? ==> exists i :: 0 <= i < |Coll(db, "restaurant")| &&
                       IdOf(Coll(db, "restaurant")[i]) == Some(Canon(restaurantId)) &&
                       Serialize(Some(Coll(db, "restaurant")[i])) == Ok(Some(r.value))
  {
    if !db.configured then Err(InternalServerError)
    else match ToObjId(restaurantId)
      case Err(e) => Err(e)
      case Ok(rid) =>
        match FindOne(Coll(db, "restaurant"), rid)
        case None => Err(RestaurantNotFound)
        case Some(d) =>
          SerializeStored(d);
          var i :| 0 <= i < |Coll(db, "restaurant")| && Coll(db, "restaurant")[i] == d;
          Ok(Serialize(Some(d)).value.value)
  }

  /**
   * `get_menu` (main.py:123-126): the menu items whose `restaurant_id` field is
   * the string asked for, serialized. The id is neither parsed nor checked.
   */
  function GetMenu(db: Db, restaurantId: string): (r: Result<seq<Document>, HttpError>)
    requires WellFormedDocs(Coll(db, "menuitem"))
    ensures r.Ok? <==> db.configured
    ensures r.Err? ==> r.error == InternalServerError
    ensures r.Ok? ==> SerializesTo(FindEq(Coll(db, "menuitem"), "restaurant_id", VStr(restaurantId)), r.value)
  {
    if !db.configured then Err(InternalServerError)
    else
      var found := FindEq(Coll(db, "menuitem"), "restaurant_id", VStr(restaurantId));
      assert forall i :: 0 <= i < |found| ==> found[i] in Coll(db, "menuitem");
      Ok(SerializeAll(found).value)
  }

  /** A restaurant id that no menu item names yields an empty menu, not a 404. */
  lemma UnknownRestaurantHasEmptyMenu(db: Db, restaurantId: string)
    requires WellFormedDocs(Coll(db, "menuitem")) && db.configured
    requires forall j :: 0 <= j < |Coll(db, "menuitem")| ==>
               "restaurant_id" !in Coll(db, "menuitem")[j] || Coll(db, "menuitem")[j]["restaurant_id"] != VStr(restaurantId)
    ensures GetMenu(db, restaurantId) == Ok([])
  {
    FindEqNone(Coll(db, "menuitem"), "restaurant_id", VStr(restaurantId));
  }

  /**
   * Menu items store their restaurant's id as the canonical string, and the menu
   * lookup compares strings: the same restaurant id with an upper-case hex digit
   * finds no items.
   */
  lemma UpperCaseRestaurantIdHasEmptyMenu(db: Db, restaurantId: string, k: nat)
    requires WellFormedDocs(Coll(db, "menuitem")) && db.configured
    requires ValidId(restaurantId) && k < |restaurantId| && 'A' <= restaurantId[k] <= 'F'
    requires forall j :: 0 <= j < |Coll(db, "menuitem")| ==>
               "restaurant_id" in Coll(db, "menuitem")[j] && Coll(db, "menuitem")[j]["restaurant_id"].VStr? &&
               IsCanonical(Coll(db, "menuitem")[j]["restaurant_id"].s)
    ensures GetMenu(db, restaurantId) == Ok([])
  {
    assert !IsCanonical(restaurantId) by {
      assert !IsLowerHexDigit(restaurantId[k]);
    }
    UnknownRestaurantHasEmptyMenu(db, restaurantId);
  }

  /**
   * `list_orders` (main.py:174-177): the first `limit` orders (50 by default;
   * 0 means all), serialized, in insertion order.
   */
  function ListOrders(db: Db, limit: int): (r: Result<seq<Document>, HttpError>)
    requires WellFormedDocs(Coll(db, "order"))
    ensures r.Ok? <==> db.configured
    ensures r.Err? ==> r.error == InternalServerError
    ensures r.Ok? ==> SerializesTo(Take(Coll(db, "order"), limit), r.value)
  {
    if !db.configured then Err(InternalServerError)
    else
      var orders := Take(Coll(db, "order"), limit);
      assert forall i :: 0 <= i < |orders| ==> orders[i] == Coll(db, "order")[i];
      Ok(SerializeAll(orders).value)
  }

  /** The default limit: at most 50 orders, the oldest first. */
  lemma ListOrdersDefaultLimit(db: Db)
    requires WellFormedDocs(Coll(db, "order")) && db.configured
    ensures |ListOrders(db, 50).value| == if |Coll(db, "order")| < 50 then |Coll(db, "order")| else 50
    ensures forall i :: 0 <= i < |ListOrders(db, 50).value| ==>
              HasObjectId(Coll(db, "order")[i]) &&
              ListOrders(db, 50).value[i]["id"] == VStr(Coll(db, "order")[i]["_id"].oid)
  {
    var out := ListOrders(db, 50).value;
    var orders := Take(Coll(db, "order"), 50);
    forall i | 0 <= i < |out|
      ensures HasObjectId(Coll(db, "order")[i]) && out[i]["id"] == VStr(Coll(db, "order")[i]["_id"].oid)
    {
      assert orders[i] == Coll(db, "order")[i];
      assert HasObjectId(orders[i]) && Serialize(Some(orders[i])) == Ok(Some(out[i]));
      SerializeStored(orders[i]);
    }
  }

  /**
   * The last of all the orders listed is order `n`, and it is the one the
   * receipt names: the same id, status and total.
   */
  predicate ListsLast(db: Db, n: nat, receipt: Receipt) {
    && WellFormedDocs(Coll(db, "order"))
    && var listed := ListOrders(db, 0);
    && listed.Ok? && |listed.value| == n + 1
    && "id" in listed.value[n] && listed.value[n]["id"] == VStr(receipt.id)
    && "status" in listed.value[n] && listed.value[n]["status"] == VStr(receipt.status)
    && "total" in listed.value[n] && listed.value[n]["total"] == VNum(receipt.total)
  }

  /**
   * After an order is appended, listing all orders ends with it, as the
   * receipt describes it: its id, its status and its total.
   */
  lemma AppendedOrderIsListed(before: seq<Document>, o: Outcome<Receipt>, req: OrderRequest, sub: int, fee: int, newId: ObjectId)
    requires WellFormedDocs(Coll(o.db, "order")) && o.db.configured
    requires AppendedOrder(before, Coll(o.db, "order"), req, sub, fee, newId)
    requires o.response.Ok? && o.response.value == Receipt(newId, "pending", sub + fee)
    ensures ListsLast(o.db, |before|, o.response.value)
  {
    var orders := Coll(o.db, "order");
    var n := |before|;
    var listed := ListOrders(o.db, 0).value;
    assert Take(orders, 0) == orders;
    assert HasObjectId(orders[n]) && Serialize(Some(orders[n])) == Ok(Some(listed[n]));
    SerializeStored(orders[n]);
  }

  /** The order step of checkout (main.py:157-171) appends what its receipt describes. */
  lemma PlacedOrderIsListed(db: Db, req: OrderRequest, sub: int, fee: int, newId: ObjectId, isEmail: string -> bool)
    requires WellFormed(db) && PlaceOrder(db, req, sub, fee, newId, isEmail).response.Ok?
    ensures ListsLast(PlaceOrder(db, req, sub, fee, newId, isEmail).db, |Coll(db, "order")|,
                      PlaceOrder(db, req, sub, fee, newId, isEmail).response.value)
  {
    var doc := OrderDoc(PlacedOrder(req, sub, fee));
    OrderInsertAppends(db, req, sub, fee, newId);
    InsertWellFormed(db, "order", doc, newId);
    CollWellFormed(Insert(db, "order", doc, newId).db, "order");
    AppendedOrderIsListed(Coll(db, "order"), PlaceOrder(db, req, sub, fee, newId, isEmail), req, sub, fee, newId);
  }

  /**
   * A placed order is listed: with no limit, the last order listed after a
   * successful checkout is the new one, as its receipt describes it.
   */
  lemma CheckedOutOrderIsListed(db: Db, req: OrderRequest, newId: ObjectId, isEmail: string -> bool)
    requires WellFormed(db) && Checkout(db, req, newId, isEmail).response.Ok?
    ensures ListsLast(Checkout(db, req, newId, isEmail).db, |Coll(db, "order")|, Checkout(db, req, newId, isEmail).response.value)
  {
    SuccessPassedEveryStep(db, req, newId, isEmail);
    PlacedOrderIsListed(db, req, PriceItems(db, req.items).value, RestaurantFee(db, req.restaurantId).value, newId, isEmail);
  }
}
