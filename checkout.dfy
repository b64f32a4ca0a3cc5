/**
 * Order checkout (`create_order`, main.py:138-171) as a function of the store:
 * what the request answers and what the store holds afterwards. The handler
 * method that runs it step by step against the store is `Handlers.CreateOrder`.
 */
module Orders {
  import opened Wrappers
  import opened Http
  import opened Ids
  import opened Documents
  import opened Schemas
  import opened Database

  /** The `CreateOrder` request body (main.py:130-135), after validation. */
  datatype OrderRequest = OrderRequest(
    restaurantId: string,
    items: seq<OrderItem>,
    customerName: string,
    customerAddress: string,
    customerEmail: Option<string>)

  datatype RawOrderRequest = RawOrderRequest(
    restaurantId: Field<string>,
    items: Field<seq<RawOrderItem>>,
    customerName: Field<string>,
    customerAddress: Field<string>,
    customerEmail: Field<string>)

  /** What a successful checkout answers: `{id, status, total}`. */
  datatype Receipt = Receipt(id: string, status: string, total: int)

  predicate ValidOrderRequest(req: OrderRequest) {
    forall i :: 0 <= i < |req.items| ==> ValidOrderItem(req.items[i])
  }

  /** The fields of a request body that break a constraint of `CreateOrder`, in the order they are checked. */
  function RequestOffending(raw: RawOrderRequest): set<string> {
    ((if raw.restaurantId.Given? then {} else {"restaurant_id"})
     + (if raw.items.Given? then {} else {"items"})
     + (if raw.items.Given? && !ItemsValid(raw.items.v) then {"items"} else {})
     + (if raw.customerName.Given? then {} else {"customer_name"}))
    + (if raw.customerAddress.Given? then {} else {"customer_address"})
  }

  function RequestErrors(raw: RawOrderRequest): (es: seq<FieldError>)
    ensures es == [] <==> && raw.restaurantId.Given? && raw.customerName.Given? && raw.customerAddress.Given?
                          && raw.items.Given? && ItemsValid(raw.items.v)
  {
    var e1 := RequiredErrors("restaurant_id", raw.restaurantId);
    var e2 := RequiredErrors("items", raw.items);
    var e3 := if raw.items.Given? then ItemsErrors("items", raw.items.v) else [];
    var e4 := RequiredErrors("customer_name", raw.customerName);
    var e5 := RequiredErrors("customer_address", raw.customerAddress);
    ((e1 + e2) + (e3 + e4)) + e5
  }

  /** The fields a request body's errors name are exactly its offending fields. */
  lemma RequestErrorFields(raw: RawOrderRequest)
    ensures ErrorFields(RequestErrors(raw)) == RequestOffending(raw)
  {
    var e1 := RequiredErrors("restaurant_id", raw.restaurantId);
    var e2 := RequiredErrors("items", raw.items);
    var e3 := if raw.items.Given? then ItemsErrors("items", raw.items.v) else [];
    var e4 := RequiredErrors("customer_name", raw.customerName);
    var e5 := RequiredErrors("customer_address", raw.customerAddress);
    if raw.items.Given? { ItemsErrorsUnder("items", raw.items.v); }
    UnderField("items", e3);
    ErrorFieldsAppend4(e1, e2, e3, e4);
    ErrorFieldsAppend((e1 + e2) + (e3 + e4), e5);
  }

  /**
   * Validation of the request body (main.py:130-135): four required fields, items
   * checked one by one, and `customer_email` a plain optional string.
   */
  function ValidateOrderRequest(raw: RawOrderRequest): (r: Result<OrderRequest, seq<FieldError>>)
    ensures r.Ok? <==> && raw.restaurantId.Given? && raw.customerName.Given? && raw.customerAddress.Given?
                       && raw.items.Given?
                       && forall i :: 0 <= i < |raw.items.v| ==> ValidateOrderItem(raw.items.v[i]).Ok?
    ensures r.Err? ==> r.error != [] && ErrorFields(r.error) == RequestOffending(raw)
    ensures r.Ok? ==> ValidOrderRequest(r.value) && RawOfOrderItems(r.value.items) == raw.items.v
    ensures r.Ok? ==> raw.restaurantId == Given(r.value.restaurantId)
    ensures r.Ok? ==> raw.customerName == Given(r.value.customerName) && raw.customerAddress == Given(r.value.customerAddress)
    ensures r.Ok? ==> Resolved(raw.customerEmail, r.value.customerEmail, None)
  {
    var es := RequestErrors(raw);
    RequestErrorFields(raw);
    if es != [] then Err(es)
    else
      var items := ItemsValue(raw.items.v);
      assert RawOfOrderItems(items) == raw.items.v by {
        forall i | 0 <= i < |items| ensures RawOfOrderItems(items)[i] == raw.items.v[i] {
          assert Ok(items[i]) == ValidateOrderItem(raw.items.v[i]);
        }
      }
      Ok(OrderRequest(raw.restaurantId.v, items, raw.customerName.v, raw.customerAddress.v,
                      OptionalValue(raw.customerEmail, None)))
  }

  // ---------------------------------------------------------------------------
  // Pricing, main.py:141: parse every item id, fetch the menu items, key them by id

  /** `[to_obj_id(i.menu_item_id) for i in items]`: a malformed id anywhere is a 400. */
  function ParseItemIds(items: seq<OrderItem>): (r: Result<seq<ObjectId>, HttpError>)
    ensures r.Ok? <==> forall i :: 0 <= i < |items| ==> ValidId(items[i].menuItemId)
    ensures r.Ok? ==> |r.value| == |items|
    ensures r.Ok? ==> forall i :: 0 <= i < |items| ==> r.value[i] == Canon(items[i].menuItemId)
    ensures r.Err? ==> r.error == InvalidId
  {
    if items == [] then Ok([])
    else match ToObjId(items[0].menuItemId)
      case Err(e) => Err(e)
      case Ok(o) =>
        match ParseItemIds(items[1..])
        case Err(e) =>
          assert forall i :: 1 <= i < |items| ==> items[i] == items[1..][i - 1];
          Err(e)
        case Ok(os) =>
          assert forall i :: 1 <= i < |items| ==> items[i] == items[1..][i - 1];
          Ok([o] + os)
  }

  function IdSet(ids: seq<ObjectId>): set<ObjectId> {
    set i | 0 <= i < |ids| :: ids[i]
  }

  /** `{str(d["_id"]): d for d in docs}`: the fetched documents keyed by the string of their id. */
  function MenuIndex(docs: seq<Document>): (m: map<string, Document>)
    requires forall i :: 0 <= i < |docs| ==> HasObjectId(docs[i])
    ensures forall k :: k in m ==> m[k] in docs && HasObjectId(m[k]) && m[k]["_id"].oid == k
    ensures forall i :: 0 <= i < |docs| ==> HasObjectId(docs[i]) && docs[i]["_id"].oid in m
  {
    if docs == [] then map[]
    else
      var n := |docs| - 1;
      assert HasObjectId(docs[n]);
      assert forall i :: 0 <= i < n ==> docs[..n][i] == docs[i];
      MenuIndex(docs[..n])[docs[n]["_id"].oid := docs[n]]
  }

  /** The menu items a request fetches, keyed by id. */
  function FetchMenu(db: Db, ids: seq<ObjectId>): (m: map<string, Document>)
    ensures forall k :: k in m ==>
      IsCanonical(k) && k in IdSet(ids) && m[k] in Coll(db, "menuitem") && IdOf(m[k]) == Some(k)
  {
    MenuIndex(FindIn(Coll(db, "menuitem"), IdSet(ids)))
  }

  /** A key of the fetched menu is the printed id of a stored menu item. */
  lemma FetchedKey(db: Db, ids: seq<ObjectId>, key: string)
    requires key in FetchMenu(db, ids)
    ensures Canon(key) == key
    ensures exists j :: 0 <= j < |Coll(db, "menuitem")| && IdOf(Coll(db, "menuitem")[j]) == Some(key)
                        && Coll(db, "menuitem")[j]["_id"].oid == key
  {
    var d := FetchMenu(db, ids)[key];
    var j :| 0 <= j < |Coll(db, "menuitem")| && Coll(db, "menuitem")[j] == d;
  }

  /** A stored menu item whose id is requested is fetched. */
  lemma RequestedIsFetched(db: Db, ids: seq<ObjectId>, j: nat)
    requires j < |Coll(db, "menuitem")| && HasObjectId(Coll(db, "menuitem")[j])
    requires Coll(db, "menuitem")[j]["_id"].oid in IdSet(ids)
    ensures Coll(db, "menuitem")[j]["_id"].oid in FetchMenu(db, ids)
  {
    var docs := FindIn(Coll(db, "menuitem"), IdSet(ids));
    assert Coll(db, "menuitem")[j] in docs;
  }

  /** A string that is not a printed id is never a key of the fetched menu. */
  lemma NonCanonicalNotFetched(db: Db, ids: seq<ObjectId>, s: string)
    requires !IsCanonical(s)
    ensures s !in FetchMenu(db, ids)
  {
  }

  /** In a well-formed collection, the fetched menu maps each requested stored id to the one document holding it. */
  lemma FetchedIsStored(db: Db, ids: seq<ObjectId>, k: nat)
    requires WellFormedDocs(Coll(db, "menuitem")) && k < |Coll(db, "menuitem")|
    requires HasObjectId(Coll(db, "menuitem")[k]) && Coll(db, "menuitem")[k]["_id"].oid in IdSet(ids)
    ensures Coll(db, "menuitem")[k]["_id"].oid in FetchMenu(db, ids)
    ensures FetchMenu(db, ids)[Coll(db, "menuitem")[k]["_id"].oid] == Coll(db, "menuitem")[k]
  {
    var coll := Coll(db, "menuitem");
    var d := coll[k];
    var found := FindIn(coll, IdSet(ids));
    assert d in found;
    var i :| 0 <= i < |found| && found[i] == d;
    assert HasObjectId(found[i]);
    var index := MenuIndex(found);
    var e := index[d["_id"].oid];
    assert e in coll;
    var j :| 0 <= j < |coll| && coll[j] == e;
    assert IdOf(coll[j]) == IdOf(coll[k]);
  }

  // ---------------------------------------------------------------------------
  // Pricing, main.py:145-150: walk the items in order, summing price x quantity

  /** `float(v)` of a stored number, in hundredths; `None`, strings and containers raise. */
  function AsHundredths(v: Value): (r: Option<int>)
    ensures v.VNum? ==> r == Some(v.hundredths)
    ensures v.VInt? ==> r == Some(100 * v.i)
    ensures v.VBool? ==> r == Some(if v.b then 100 else 0)
    ensures r.None? <==> v.VNull? || v.VStr? || v.VId? || v.VList? || v.VDoc?
  {
    match v
    case VInt(i) => Some(100 * i)
    case VNum(h) => Some(h)
    case VBool(b) => Some(if b then 100 else 0)
    case _ => None
  }

  /** `float(d.get(key, 0))`: a missing field counts as 0; a field `float` rejects is a 500. */
  function NumberField(d: Document, key: string): (r: Result<int, HttpError>)
    ensures key !in d ==> r == Ok(0)
    ensures key in d ==> (r.Ok? <==> AsHundredths(d[key]).Some?)
    ensures key in d && r.Ok? ==> r.value == AsHundredths(d[key]).value
    ensures r.Err? ==> r.error == InternalServerError
  {
    if key !in d then Ok(0)
    else match AsHundredths(d[key])
      case None => Err(InternalServerError)
      case Some(x) => Ok(x)
  }

  /** The amount one submitted line adds, or why it fails: looked up by the RAW submitted id. */
  function LineAmount(it: OrderItem, index: map<string, Document>): (r: Result<int, HttpError>)
    ensures it.menuItemId !in index ==> r == Err(MenuItemNotFound)
    ensures it.menuItemId in index ==>
      var price := NumberField(index[it.menuItemId], "price");
      r == if price.Ok? then Ok(price.value * it.quantity) else Err(price.error)
  {
    if it.menuItemId !in index then Err(MenuItemNotFound)
    else match NumberField(index[it.menuItemId], "price")
      case Err(e) => Err(e)
      case Ok(price) => Ok(price * it.quantity)
  }

  /** The loop of main.py:145-150 on a prefix of the items: the first failing line decides. */
  function Subtotal(items: seq<OrderItem>, index: map<string, Document>): (r: Result<int, HttpError>)
    ensures r.Err? ==> r.error == MenuItemNotFound || r.error == InternalServerError
    ensures r.Err? ==> exists k :: 0 <= k < |items| && LineAmount(items[k], index) == Err(r.error)
  {
    if items == [] then Ok(0)
    else
      var n := |items| - 1;
      match Subtotal(items[..n], index)
      case Err(e) =>
        assert forall k :: 0 <= k < n ==> items[..n][k] == items[k];
        Err(e)
      case Ok(s) =>
        match LineAmount(items[n], index)
        case Err(e) => Err(e)
        case Ok(a) => Ok(s + a)
  }

  /** A line resolves when its raw id is a key of the fetched menu and its price is a number. */
  predicate Resolves(it: OrderItem, index: map<string, Document>) {
    LineAmount(it, index).Ok?
  }

  /** The reference sum: the stored price times the quantity, over the lines, front to back. */
  function LineSum(items: seq<OrderItem>, index: map<string, Document>): int
    requires forall i :: 0 <= i < |items| ==> Resolves(items[i], index)
  {
    if items == [] then 0
    else
      assert Resolves(items[0], index);
      assert forall i :: 1 <= i < |items| ==> items[1..][i - 1] == items[i];
      var it := items[0];
      NumberField(index[it.menuItemId], "price").value * it.quantity + LineSum(items[1..], index)
  }

  /** Running two runs of lines one after the other: the first failure wins, otherwise the sums add. */
  lemma {:induction false} SubtotalAppend(a: seq<OrderItem>, b: seq<OrderItem>, index: map<string, Document>)
    ensures Subtotal(a + b, index) ==
      match Subtotal(a, index)
      case Err(e) => Err(e)
      case Ok(x) => match Subtotal(b, index) case Err(e) => Err(e) case Ok(y) => Ok(x + y)
  {
    if b == [] {
      assert a + b == a;
    } else {
      var n := |b| - 1;
      assert (a + b)[..|a + b| - 1] == a + b[..n];
      assert (a + b)[|a + b| - 1] == b[n];
      SubtotalAppend(a, b[..n], index);
    }
  }

  /** When every line resolves, the subtotal is the sum of price x quantity over the lines. */
  lemma {:induction false} SubtotalIsLineSum(items: seq<OrderItem>, index: map<string, Document>)
    requires forall i :: 0 <= i < |items| ==> Resolves(items[i], index)
    ensures Subtotal(items, index) == Ok(LineSum(items, index))
  {
    if items != [] {
      SubtotalIsLineSum(items[1..], index);
      assert items == [items[0]] + items[1..];
      SubtotalAppend([items[0]], items[1..], index);
      assert [items[0]][..0] == [];
    }
  }

  /** The subtotal fails exactly when some line fails, and then with the first failing line's error. */
  lemma {:induction false} FirstFailingLineDecides(items: seq<OrderItem>, index: map<string, Document>, k: nat)
    requires k < |items| && !Resolves(items[k], index)
    requires forall j :: 0 <= j < k ==> Resolves(items[j], index)
    ensures Subtotal(items, index) == Err(LineAmount(items[k], index).error)
  {
    var pre := items[..k];
    assert forall j :: 0 <= j < k ==> pre[j] == items[j];
    SubtotalIsLineSum(pre, index);
    assert items[..k + 1] == pre + [items[k]];
    SubtotalAppend(pre, [items[k]], index);
    assert [items[k]][..0] == [];
    assert items == items[..k + 1] + items[k + 1..];
    SubtotalAppend(items[..k + 1], items[k + 1..], index);
  }

  /** A line whose raw id is not a fetched key fails the checkout when it is the first to fail. */
  lemma FirstMissingItemDecides(items: seq<OrderItem>, index: map<string, Document>, k: nat)
    requires k < |items| && items[k].menuItemId !in index
    requires forall j :: 0 <= j < k ==> Resolves(items[j], index)
    ensures Subtotal(items, index) == Err(MenuItemNotFound)
  {
    FirstFailingLineDecides(items, index, k);
  }

  /** Every line is counted each time it is submitted, duplicates included. */
  lemma DuplicateLinesCountTwice(it: OrderItem, index: map<string, Document>)
    requires Resolves(it, index)
    ensures Subtotal([it, it], index) == Ok(2 * LineAmount(it, index).value)
  {
    SubtotalIsLineSum([it, it], index);
    assert [it, it][1..] == [it];
    assert [it][1..] == [];
    assert LineSum([it, it], index) == LineAmount(it, index).value + LineSum([it], index);
  }

  /** A fetched menu item without a price contributes nothing. */
  lemma MissingPriceCountsZero(it: OrderItem, index: map<string, Document>)
    requires it.menuItemId in index && "price" !in index[it.menuItemId]
    ensures LineAmount(it, index) == Ok(0)
  {
  }

  // ---------------------------------------------------------------------------
  // The whole checkout

  /** Pricing (main.py:141-150) on a configured store: the subtotal of the submitted lines, or the first error. */
  function PriceItems(db: Db, items: seq<OrderItem>): (r: Result<int, HttpError>)
    ensures (exists i :: 0 <= i < |items| && !ValidId(items[i].menuItemId)) ==> r == Err(InvalidId)
    ensures items == [] ==> r == Err(InvalidItems)
    ensures r.Err? ==> r.error in {InvalidId, InvalidItems, MenuItemNotFound, InternalServerError}
  {
    match ParseItemIds(items)
    case Err(e) => Err(e)
    case Ok(ids) =>
      var index := FetchMenu(db, ids);
      if |index| == 0 then Err(InvalidItems) else Subtotal(items, index)
  }

  /** The `Order(...)` body built at main.py:159-169. */
  function OrderBody(req: OrderRequest, subtotal: int, fee: int, total: int): RawOrder {
    RawOrder(Given(req.restaurantId), Absent, Given(req.customerName), Given(req.customerAddress),
             FieldOf(req.customerEmail), Given(RawOfOrderItems(req.items)),
             Given(subtotal), Given(fee), Given(total), Given("pending"))
  }

  /** The restaurant lookup (main.py:152-156): the restaurant's delivery fee, or why it cannot be had. */
  function RestaurantFee(db: Db, restaurantId: string): (r: Result<int, HttpError>)
    ensures !ValidId(restaurantId) ==> r == Err(InvalidId)
    ensures ValidId(restaurantId) && !ContainsId(Coll(db, "restaurant"), Canon(restaurantId)) ==> r == Err(RestaurantNotFound)
    ensures ValidId(restaurantId) && ContainsId(Coll(db, "restaurant"), Canon(restaurantId)) ==>
      var rest := FindOne(Coll(db, "restaurant"), Canon(restaurantId)).value;
      IdOf(rest) == Some(Canon(restaurantId)) && rest in Coll(db, "restaurant") && r == NumberField(rest, "delivery_fee")
  {
    match ToObjId(restaurantId)
    case Err(e) => Err(e)
    case Ok(rid) =>
      match FindOne(Coll(db, "restaurant"), rid)
      case None => Err(RestaurantNotFound)
      case Some(rest) => NumberField(rest, "delivery_fee")
  }

  /** The stored `delivery_fee` of a restaurant reads back as its fee; a null fee makes `float()` raise, a 500. */
  lemma StoredFeeReadsBack(r: Restaurant, id: ObjectId)
    ensures NumberField(RestaurantDoc(r)["_id" := VId(id)], "delivery_fee") ==
      if r.deliveryFee.Some? then Ok(r.deliveryFee.value) else Err(InternalServerError)
  {
  }

  /** The stored `price` of a menu item reads back as its price. */
  lemma StoredPriceReadsBack(m: MenuItem, id: ObjectId)
    ensures NumberField(MenuItemDoc(m)["_id" := VId(id)], "price") == Ok(m.price)
  {
  }

  /** Once the items price, a restaurant stored with a null delivery fee makes checkout a 500 that changes nothing. */
  lemma NullFeeRestaurantIs500(db: Db, req: OrderRequest, newId: ObjectId, isEmail: string -> bool, r: Restaurant)
    requires db.configured && PriceItems(db, req.items).Ok? && ValidId(req.restaurantId)
    requires FindOne(Coll(db, "restaurant"), Canon(req.restaurantId)) == Some(RestaurantDoc(r)["_id" := VId(Canon(req.restaurantId))])
    requires r.deliveryFee.None?
    ensures Checkout(db, req, newId, isEmail) == Outcome(Err(InternalServerError), db)
  {
    StoredFeeReadsBack(r, Canon(req.restaurantId));
  }

  /** The record `Order(...)` holds once the body of main.py:159-169 validates. */
  function PlacedOrder(req: OrderRequest, subtotal: int, fee: int): Order {
    Order(req.restaurantId, None, Some(req.customerName), Some(req.customerAddress), req.customerEmail,
          req.items, subtotal, fee, subtotal + fee, "pending")
  }

  predicate EmailAccepted(req: OrderRequest, isEmail: string -> bool) {
    req.customerEmail.Some? ==> isEmail(req.customerEmail.value)
  }

  /**
   * Re-validating the order body fails exactly when an item is invalid or the
   * email is refused, and otherwise yields the order with the request's fields,
   * no customer id, the amounts given and status "pending".
   */
  lemma OrderBodyValidates(req: OrderRequest, subtotal: int, fee: int, isEmail: string -> bool)
    ensures ValidateOrder(OrderBody(req, subtotal, fee, subtotal + fee), isEmail).Ok? <==>
              ValidOrderRequest(req) && EmailAccepted(req, isEmail)
    ensures ValidateOrder(OrderBody(req, subtotal, fee, subtotal + fee), isEmail).Ok? ==>
              ValidateOrder(OrderBody(req, subtotal, fee, subtotal + fee), isEmail).value == PlacedOrder(req, subtotal, fee)
  {
    if ValidOrderRequest(req) && EmailAccepted(req, isEmail) {
      OrderBodyAccepted(req, subtotal, fee, isEmail);
    }
    if ValidateOrder(OrderBody(req, subtotal, fee, subtotal + fee), isEmail).Ok? {
      AcceptedOrderBody(req, subtotal, fee, isEmail);
    }
  }

  /** A valid request with an accepted email gives an order body that validates. */
  lemma OrderBodyAccepted(req: OrderRequest, subtotal: int, fee: int, isEmail: string -> bool)
    requires ValidOrderRequest(req) && EmailAccepted(req, isEmail)
    ensures ValidateOrder(OrderBody(req, subtotal, fee, subtotal + fee), isEmail).Ok?
  {
    var raw := OrderBody(req, subtotal, fee, subtotal + fee);
    forall i | 0 <= i < |raw.items.v| ensures ValidateOrderItem(raw.items.v[i]).Ok? {
      assert raw.items.v[i] == RawOfOrderItem(req.items[i]);
    }
    assert RawOrderOk(raw, isEmail);
  }

  /** An order body that validates came from a valid request and holds the placed order. */
  lemma AcceptedOrderBody(req: OrderRequest, subtotal: int, fee: int, isEmail: string -> bool)
    requires ValidateOrder(OrderBody(req, subtotal, fee, subtotal + fee), isEmail).Ok?
    ensures ValidOrderRequest(req) && EmailAccepted(req, isEmail)
    ensures ValidateOrder(OrderBody(req, subtotal, fee, subtotal + fee), isEmail).value == PlacedOrder(req, subtotal, fee)
  {
    var r := ValidateOrder(OrderBody(req, subtotal, fee, subtotal + fee), isEmail);
    RawOfOrderItemsInjective(r.value.items, req.items);
    forall i | 0 <= i < |req.items| ensures ValidOrderItem(req.items[i]) {
      assert ValidOrderItem(r.value.items[i]);
    }
  }

  /**
   * The order step (main.py:157-171): build the `Order` (its `EmailStr` check may raise,
   * a 500), insert it, and answer with its id, status and total.
   */
  function PlaceOrder(db: Db, req: OrderRequest, subtotal: int, fee: int, newId: ObjectId, isEmail: string -> bool): (o: Outcome<Receipt>)
    ensures o.response.Ok? <==>
      (ValidOrderRequest(req) && EmailAccepted(req, isEmail)
       && Insert(db, "order", OrderDoc(PlacedOrder(req, subtotal, fee)), newId).response.Ok?)
    ensures o.response.Err? ==> o.response.error == InternalServerError && o.db == db
    ensures o.response.Ok? ==> o.response.value == Receipt(newId, "pending", subtotal + fee)
    ensures o.response.Ok? ==> o.db == Insert(db, "order", OrderDoc(PlacedOrder(req, subtotal, fee)), newId).db
  {
    OrderBodyValidates(req, subtotal, fee, isEmail);
    var order := ValidateOrder(OrderBody(req, subtotal, fee, subtotal + fee), isEmail);
    if order.Err? then Outcome(Err(InternalServerError), db)
    else
      assert order.value == PlacedOrder(req, subtotal, fee);
      var ins := Insert(db, "order", OrderDoc(order.value), newId);
      if ins.response.Err? then Outcome(Err(ins.response.error), ins.db)
      else Outcome(Ok(Receipt(ins.response.value, "pending", subtotal + fee)), ins.db)
  }

  /** An order body the `Order` model refuses is a 500, and nothing is stored. */
  lemma PlaceOrderRefused(db: Db, req: OrderRequest, subtotal: int, fee: int, newId: ObjectId, isEmail: string -> bool)
    requires ValidateOrder(OrderBody(req, subtotal, fee, subtotal + fee), isEmail).Err?
    ensures PlaceOrder(db, req, subtotal, fee, newId, isEmail) == Outcome(Err(InternalServerError), db)
  {
    OrderBodyValidates(req, subtotal, fee, isEmail);
  }

  /** An order body the `Order` model accepts is inserted as it was validated. */
  lemma PlaceOrderInserts(db: Db, req: OrderRequest, subtotal: int, fee: int, newId: ObjectId, isEmail: string -> bool)
    requires ValidateOrder(OrderBody(req, subtotal, fee, subtotal + fee), isEmail).Ok?
    ensures var ins := Insert(db, "order", OrderDoc(ValidateOrder(OrderBody(req, subtotal, fee, subtotal + fee), isEmail).value), newId);
      PlaceOrder(db, req, subtotal, fee, newId, isEmail)
        == if ins.response.Err? then Outcome(Err(InternalServerError), ins.db)
           else Outcome(Ok(Receipt(newId, "pending", subtotal + fee)), ins.db)
  {
    AcceptedOrderBody(req, subtotal, fee, isEmail);
  }

  /**
   * `create_order` (main.py:138-171). `newId` is the id the driver picks for the
   * order and `isEmail` the `EmailStr` check the `Order` model applies.
   * Amounts are in cents, where `round(x, 2)` is the identity.
   */
  function Checkout(db: Db, req: OrderRequest, newId: ObjectId, isEmail: string -> bool): (o: Outcome<Receipt>)
    ensures !db.configured ==> o == Outcome(Err(InternalServerError), db)
    ensures o.response.Err? ==> o.db == db
    ensures o.response.Ok? ==> o.response.value.id == newId && o.response.value.status == "pending"
    ensures o.db.configured == db.configured
  {
    if !db.configured then Outcome(Err(InternalServerError), db)
    else match PriceItems(db, req.items)
      case Err(e) => Outcome(Err(e), db)
      case Ok(subtotal) =>
        match RestaurantFee(db, req.restaurantId)
        case Err(e) => Outcome(Err(e), db)
        case Ok(fee) => PlaceOrder(db, req, subtotal, fee, newId, isEmail)
  }

  // ---------------------------------------------------------------------------
  // What checkout promises

  /** A malformed item id anywhere in the request is a 400 "Invalid id", before anything is fetched. */
  lemma MalformedItemIdIs400(db: Db, req: OrderRequest, newId: ObjectId, isEmail: string -> bool, k: nat)
    requires db.configured && k < |req.items| && !ValidId(req.items[k].menuItemId)
    ensures Checkout(db, req, newId, isEmail) == Outcome(Err(InvalidId), db)
  {
  }

  /** When no submitted id names a stored menu item the request is a 400 "Invalid items". */
  lemma NoItemResolvesIs400(db: Db, req: OrderRequest, newId: ObjectId, isEmail: string -> bool)
    requires db.configured
    requires forall i :: 0 <= i < |req.items| ==> ValidId(req.items[i].menuItemId)
    requires forall i, j :: 0 <= i < |req.items| && 0 <= j < |Coll(db, "menuitem")| ==>
               IdOf(Coll(db, "menuitem")[j]) != Some(Canon(req.items[i].menuItemId))
    ensures Checkout(db, req, newId, isEmail) == Outcome(Err(InvalidItems), db)
  {
    var ids := ParseItemIds(req.items).value;
    var coll := Coll(db, "menuitem");
    forall j | 0 <= j < |coll| && HasObjectId(coll[j]) ensures coll[j]["_id"].oid !in IdSet(ids) {
      forall i | 0 <= i < |ids| ensures ids[i] != coll[j]["_id"].oid {
        assert IdOf(coll[j]) != Some(Canon(req.items[i].menuItemId));
      }
    }
    FindInNone(coll, IdSet(ids));
    assert FetchMenu(db, ids) == map[];
  }

  /** An order with no items is a 400 "Invalid items". */
  lemma EmptyOrderIs400(db: Db, req: OrderRequest, newId: ObjectId, isEmail: string -> bool)
    requires db.configured && req.items == []
    ensures Checkout(db, req, newId, isEmail) == Outcome(Err(InvalidItems), db)
  {
    NoItemResolvesIs400(db, req, newId, isEmail);
  }

  /** Item errors come first: when the items fail, the restaurant id plays no part. */
  lemma ItemErrorsPrecedeRestaurant(db: Db, req: OrderRequest, other: string, newId: ObjectId, isEmail: string -> bool)
    requires db.configured && PriceItems(db, req.items).Err?
    ensures Checkout(db, req, newId, isEmail) == Outcome(Err(PriceItems(db, req.items).error), db)
    ensures Checkout(db, req.(restaurantId := other), newId, isEmail) == Checkout(db, req, newId, isEmail)
  {
  }

  /**
   * When some item resolves but the k-th raw id is not the string of any fetched
   * id, and every line before it resolves, the request is a 400 "Menu item not found",
   * whatever the restaurant.
   */
  lemma FirstMissingItemIs400(db: Db, req: OrderRequest, newId: ObjectId, isEmail: string -> bool, k: nat)
    requires db.configured
    requires forall i :: 0 <= i < |req.items| ==> ValidId(req.items[i].menuItemId)
    requires |FetchMenu(db, ParseItemIds(req.items).value)| > 0
    requires k < |req.items| && req.items[k].menuItemId !in FetchMenu(db, ParseItemIds(req.items).value)
    requires forall j :: 0 <= j < k ==> Resolves(req.items[j], FetchMenu(db, ParseItemIds(req.items).value))
    ensures Checkout(db, req, newId, isEmail) == Outcome(Err(MenuItemNotFound), db)
  {
    FirstMissingItemDecides(req.items, FetchMenu(db, ParseItemIds(req.items).value), k);
  }

  /**
   * The key of the fetched map is the canonical id, the lookup uses the raw string:
   * when line k carries an upper-case id of a stored menu item, that item is
   * fetched, and if every line before it resolves the request is then a 400
   * "Menu item not found".
   */
  lemma NonCanonicalItemIdIsNotFound(db: Db, req: OrderRequest, newId: ObjectId, isEmail: string -> bool, k: nat, p: nat)
    requires db.configured
    requires forall i :: 0 <= i < |req.items| ==> ValidId(req.items[i].menuItemId)
    requires k < |req.items| && p < |req.items[k].menuItemId| && 'A' <= req.items[k].menuItemId[p] <= 'F'
    requires ContainsId(Coll(db, "menuitem"), Canon(req.items[k].menuItemId))
    requires forall j :: 0 <= j < k ==> Resolves(req.items[j], FetchMenu(db, ParseItemIds(req.items).value))
    ensures Checkout(db, req, newId, isEmail) == Outcome(Err(MenuItemNotFound), db)
  {
    var raw := req.items[k].menuItemId;
    UpperCaseIsNotCanonical(raw, p);
    assert !IsCanonical(raw);
    var ids := ParseItemIds(req.items).value;
    var j :| 0 <= j < |Coll(db, "menuitem")| && IdOf(Coll(db, "menuitem")[j]) == Some(Canon(raw));
    assert ids[k] == Canon(raw) && Canon(raw) in IdSet(ids);
    RequestedIsFetched(db, ids, j);
    NonCanonicalNotFetched(db, ids, raw);
    FirstMissingItemIs400(db, req, newId, isEmail, k);
  }

  /** Once the items price, a malformed restaurant id is a 400 and an unknown one a 404. */
  lemma RestaurantLookupErrors(db: Db, req: OrderRequest, newId: ObjectId, isEmail: string -> bool)
    requires db.configured && PriceItems(db, req.items).Ok?
    ensures !ValidId(req.restaurantId) ==> Checkout(db, req, newId, isEmail) == Outcome(Err(InvalidId), db)
    ensures ValidId(req.restaurantId) && !ContainsId(Coll(db, "restaurant"), Canon(req.restaurantId)) ==>
              Checkout(db, req, newId, isEmail) == Outcome(Err(RestaurantNotFound), db)
  {
  }

  /** A successful checkout got past every earlier step: the store was configured, the items priced and the fee was read. */
  lemma SuccessPassedEveryStep(db: Db, req: OrderRequest, newId: ObjectId, isEmail: string -> bool)
    requires Checkout(db, req, newId, isEmail).response.Ok?
    ensures db.configured && PriceItems(db, req.items).Ok? && RestaurantFee(db, req.restaurantId).Ok?
    ensures Checkout(db, req, newId, isEmail) ==
              PlaceOrder(db, req, PriceItems(db, req.items).value, RestaurantFee(db, req.restaurantId).value, newId, isEmail)
  {
  }

  /** A subtotal that succeeds resolved every line, and is then their sum. */
  lemma SubtotalOkResolves(items: seq<OrderItem>, index: map<string, Document>)
    requires Subtotal(items, index).Ok?
    ensures forall i :: 0 <= i < |items| ==> Resolves(items[i], index)
    ensures Subtotal(items, index) == Ok(LineSum(items, index))
  {
    forall i | 0 <= i < |items| ensures Resolves(items[i], index) {
      if !Resolves(items[i], index) {
        FirstFailing(items, index, i);
        var k :| 0 <= k <= i && !Resolves(items[k], index) && forall j :: 0 <= j < k ==> Resolves(items[j], index);
        FirstFailingLineDecides(items, index, k);
      }
    }
    SubtotalIsLineSum(items, index);
  }

  /** Pricing that succeeds resolved every line: the subtotal is the sum of price x quantity over them. */
  lemma PricedLinesResolve(db: Db, items: seq<OrderItem>)
    requires PriceItems(db, items).Ok?
    ensures forall i :: 0 <= i < |items| ==> ValidId(items[i].menuItemId)
    ensures forall i :: 0 <= i < |items| ==> Resolves(items[i], FetchMenu(db, ParseItemIds(items).value))
    ensures PriceItems(db, items) == Ok(LineSum(items, FetchMenu(db, ParseItemIds(items).value)))
  {
    SubtotalOkResolves(items, FetchMenu(db, ParseItemIds(items).value));
  }

  /** A successful checkout priced every line: the subtotal is the sum of price x quantity over them. */
  lemma SuccessPricesEveryLine(db: Db, req: OrderRequest, newId: ObjectId, isEmail: string -> bool)
    requires Checkout(db, req, newId, isEmail).response.Ok?
    ensures forall i :: 0 <= i < |req.items| ==> ValidId(req.items[i].menuItemId)
    ensures forall i :: 0 <= i < |req.items| ==> Resolves(req.items[i], FetchMenu(db, ParseItemIds(req.items).value))
    ensures PriceItems(db, req.items) == Ok(LineSum(req.items, FetchMenu(db, ParseItemIds(req.items).value)))
  {
    SuccessPassedEveryStep(db, req, newId, isEmail);
    PricedLinesResolve(db, req.items);
  }

  /**
   * `after` is `before` with one order appended: under the driver's id, with
   * status "pending", the submitted items, the subtotal, the fee and their sum.
   */
  predicate AppendedOrder(before: seq<Document>, after: seq<Document>, req: OrderRequest, sub: int, fee: int, newId: ObjectId) {
    && |after| == |before| + 1
    && after[..|before|] == before
    && {"_id", "status", "restaurant_id", "items", "subtotal", "delivery_fee", "total"} <= after[|before|].Keys
    && after[|before|]["_id"] == VId(newId)
    && after[|before|]["status"] == VStr("pending")
    && after[|before|]["restaurant_id"] == VStr(req.restaurantId)
    && after[|before|]["items"] == ItemsDoc(req.items)
    && after[|before|]["subtotal"] == VNum(sub)
    && after[|before|]["delivery_fee"] == VNum(fee)
    && after[|before|]["total"] == VNum(sub + fee)
  }

  /** Inserting a placed order appends it as the one new document of the order collection. */
  lemma OrderInsertAppends(db: Db, req: OrderRequest, sub: int, fee: int, newId: ObjectId)
    requires Insert(db, "order", OrderDoc(PlacedOrder(req, sub, fee)), newId).response.Ok?
    ensures AppendedOrder(Coll(db, "order"), Coll(Insert(db, "order", OrderDoc(PlacedOrder(req, sub, fee)), newId).db, "order"),
                          req, sub, fee, newId)
  {
    var orders := Coll(Insert(db, "order", OrderDoc(PlacedOrder(req, sub, fee)), newId).db, "order");
    assert orders[..|Coll(db, "order")|] == Coll(db, "order");
  }

  /**
   * A successful checkout appends exactly one order to the store and changes
   * nothing else: status "pending", the submitted items, the subtotal, the
   * restaurant's fee and total = subtotal + fee, the same total and status as the answer.
   */
  lemma SuccessAppendsOneOrder(db: Db, req: OrderRequest, newId: ObjectId, isEmail: string -> bool)
    requires Checkout(db, req, newId, isEmail).response.Ok?
    ensures AppendedOrder(Coll(db, "order"), Coll(Checkout(db, req, newId, isEmail).db, "order"), req,
                          PriceItems(db, req.items).value, RestaurantFee(db, req.restaurantId).value, newId)
    ensures Checkout(db, req, newId, isEmail).response.value ==
              Receipt(newId, "pending", PriceItems(db, req.items).value + RestaurantFee(db, req.restaurantId).value)
    ensures Checkout(db, req, newId, isEmail).db.configured == db.configured
    ensures forall name :: name != "order" ==> Coll(Checkout(db, req, newId, isEmail).db, name) == Coll(db, name)
  {
    SuccessPassedEveryStep(db, req, newId, isEmail);
    OrderInsertAppends(db, req, PriceItems(db, req.items).value, RestaurantFee(db, req.restaurantId).value, newId);
  }

  /** Among the lines that fail, there is a first one. */
  lemma {:induction false} FirstFailing(items: seq<OrderItem>, index: map<string, Document>, i: nat)
    requires i < |items| && !Resolves(items[i], index)
    ensures exists k :: 0 <= k <= i && !Resolves(items[k], index) && forall j :: 0 <= j < k ==> Resolves(items[j], index)
  {
    if exists k :: 0 <= k < i && !Resolves(items[k], index) {
      var k :| 0 <= k < i && !Resolves(items[k], index);
      FirstFailing(items, index, k);
    }
  }

  /** Pricing succeeds, with the sum over the lines, when there is a line, every id parses and every line resolves. */
  lemma PricingSucceeds(db: Db, items: seq<OrderItem>)
    requires |items| > 0
    requires forall i :: 0 <= i < |items| ==> ValidId(items[i].menuItemId)
    requires forall i :: 0 <= i < |items| ==> Resolves(items[i], FetchMenu(db, ParseItemIds(items).value))
    ensures PriceItems(db, items) == Ok(LineSum(items, FetchMenu(db, ParseItemIds(items).value)))
  {
    var index := FetchMenu(db, ParseItemIds(items).value);
    assert Resolves(items[0], index);
    assert |index| > 0;
    SubtotalIsLineSum(items, index);
  }

  /** On a configured store whose items price and whose restaurant's fee is read, checkout places the order. */
  lemma CheckoutReachesPlaceOrder(db: Db, req: OrderRequest, newId: ObjectId, isEmail: string -> bool)
    requires db.configured && PriceItems(db, req.items).Ok? && RestaurantFee(db, req.restaurantId).Ok?
    ensures Checkout(db, req, newId, isEmail) ==
              PlaceOrder(db, req, PriceItems(db, req.items).value, RestaurantFee(db, req.restaurantId).value, newId, isEmail)
  {
  }

  /**
   * Checkout succeeds when every line resolves, the restaurant exists with a numeric
   * (or missing) fee, the email passes and the driver's id is new.
   */
  lemma SuccessConditions(db: Db, req: OrderRequest, newId: ObjectId, isEmail: string -> bool)
    requires db.configured && ValidOrderRequest(req) && |req.items| > 0
    requires forall i :: 0 <= i < |req.items| ==> ValidId(req.items[i].menuItemId)
    requires forall i :: 0 <= i < |req.items| ==> Resolves(req.items[i], FetchMenu(db, ParseItemIds(req.items).value))
    requires ValidId(req.restaurantId)
    requires FindOne(Coll(db, "restaurant"), Canon(req.restaurantId)).Some?
    requires NumberField(FindOne(Coll(db, "restaurant"), Canon(req.restaurantId)).value, "delivery_fee").Ok?
    requires EmailAccepted(req, isEmail)
    requires !ContainsId(Coll(db, "order"), newId)
    ensures Checkout(db, req, newId, isEmail).response.Ok?
  {
    PricingSucceeds(db, req.items);
    assert RestaurantFee(db, req.restaurantId).Ok?;
    CheckoutReachesPlaceOrder(db, req, newId, isEmail);
  }

  /** Every line of a priced order named, by its raw id, a stored menu item. */
  lemma PricedItemsStored(db: Db, items: seq<OrderItem>)
    requires PriceItems(db, items).Ok?
    ensures forall i :: 0 <= i < |items| ==>
      exists j :: 0 <= j < |Coll(db, "menuitem")| && IdOf(Coll(db, "menuitem")[j]) == Some(Canon(items[i].menuItemId))
                  && Coll(db, "menuitem")[j]["_id"].oid == items[i].menuItemId
  {
    var index := FetchMenu(db, ParseItemIds(items).value);
    SubtotalOkResolves(items, index);
    var coll := Coll(db, "menuitem");
    forall i | 0 <= i < |items|
      ensures exists j :: 0 <= j < |coll| && IdOf(coll[j]) == Some(Canon(items[i].menuItemId))
                          && coll[j]["_id"].oid == items[i].menuItemId
    {
      var raw := items[i].menuItemId;
      assert LineAmount(items[i], index).Ok?;
      FetchedKey(db, ParseItemIds(items).value, raw);
    }
  }

  /** Every item of a placed order named, by its raw id, a menu item stored at that moment. */
  lemma PlacedItemsExisted(db: Db, req: OrderRequest, newId: ObjectId, isEmail: string -> bool)
    requires Checkout(db, req, newId, isEmail).response.Ok?
    ensures forall i :: 0 <= i < |req.items| ==>
      exists j :: 0 <= j < |Coll(db, "menuitem")| && IdOf(Coll(db, "menuitem")[j]) == Some(Canon(req.items[i].menuItemId))
                  && Coll(db, "menuitem")[j]["_id"].oid == req.items[i].menuItemId
  {
    assert PriceItems(db, req.items).Ok?;
    PricedItemsStored(db, req.items);
  }

  /** Checkout keeps the store well formed. */
  lemma CheckoutWellFormed(db: Db, req: OrderRequest, newId: ObjectId, isEmail: string -> bool)
    requires WellFormed(db)
    ensures WellFormed(Checkout(db, req, newId, isEmail).db)
  {
    var after := Checkout(db, req, newId, isEmail);
    if after.response.Ok? {
      var sub := PriceItems(db, req.items).value;
      var fee := RestaurantFee(db, req.restaurantId).value;
      InsertWellFormed(db, "order", OrderDoc(PlacedOrder(req, sub, fee)), newId);
    }
  }
}
