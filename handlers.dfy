/**
 * The HTTP handlers of main.py against the store. `create_order` and
 * `seed_sample_data` change the store and are methods of their own, proved
 * against `Orders.Checkout` and `Seed.Seeding`; the read handlers are
 * functions of the store's state.
 */
module Handlers {
  import opened Wrappers
  import opened Http
  import opened Ids
  import opened Documents
  import opened Schemas
  import opened Database
  import opened Orders
  import opened Seed

  // ---------------------------------------------------------------------------
  // create_order (main.py:138-171)

  /** A failure in the first `k` lines is the failure of the whole run of lines. */
  lemma SubtotalFailsEarly(items: seq<OrderItem>, k: nat, index: map<string, Document>)
    requires k <= |items| && Subtotal(items[..k], index).Err?
    ensures Subtotal(items, index) == Subtotal(items[..k], index)
  {
    assert items == items[..k] + items[k..];
    SubtotalAppend(items[..k], items[k..], index);
  }

  /**
   * The loop of main.py:145-150: price x quantity summed line by line, looked
   * up by the raw submitted id; the first failing line answers.
   */
  method SumLines(items: seq<OrderItem>, index: map<string, Document>) returns (r: Result<int, HttpError>)
    ensures r == Subtotal(items, index)
  {
    var subtotal := 0;
    var i := 0;
    while i < |items|
      invariant 0 <= i <= |items|
      invariant Subtotal(items[..i], index) == Ok(subtotal)
    {
      var it := items[i];
      assert items[..i + 1] == items[..i] + [it];
      SubtotalAppend(items[..i], [it], index);
      assert [it][..0] == [];
      if it.menuItemId !in index {
        SubtotalFailsEarly(items, i + 1, index);
        return Err(MenuItemNotFound);
      }
      var price := NumberField(index[it.menuItemId], "price");
      if price.Err? {
        SubtotalFailsEarly(items, i + 1, index);
        return Err(price.error);
      }
      subtotal := subtotal + price.value * it.quantity;
      i := i + 1;
    }
    assert items[..i] == items;
    return Ok(subtotal);
  }

  /** Pricing in `create_order` (main.py:141-150): parse the ids, fetch the menu, sum the lines. */
  method PriceOrderItems(db: Db, items: seq<OrderItem>) returns (r: Result<int, HttpError>)
    ensures r == PriceItems(db, items)
  {
    var parsed := ParseItemIds(items);
    if parsed.Err? {
      return Err(parsed.error);
    }
    var index := FetchMenu(db, parsed.value);
    if |index| == 0 {
      return Err(InvalidItems);
    }
    r := SumLines(items, index);
  }

  /** The order step (main.py:157-171): build the order, insert it, answer with its id, status and total. */
  method PlaceOrderIn(store: Store, req: OrderRequest, subtotal: int, fee: int, newId: ObjectId, isEmail: string -> bool)
    returns (r: Result<Receipt, HttpError>)
    modifies store
    ensures Outcome(r, store.State()) == PlaceOrder(old(store.State()), req, subtotal, fee, newId, isEmail)
  {
    var total := subtotal + fee;
    var order := ValidateOrder(OrderBody(req, subtotal, fee, total), isEmail);
    if order.Err? {
      PlaceOrderRefused(store.State(), req, subtotal, fee, newId, isEmail);
      return Err(InternalServerError);
    }
    PlaceOrderInserts(store.State(), req, subtotal, fee, newId, isEmail);
    var id := store.CreateDocument("order", OrderDoc(order.value), newId);
    if id.Err? {
      return Err(id.error);
    }
    return Ok(Receipt(id.value, "pending", total));
  }

  /**
   * `create_order` against the store. What it answers and leaves in the store
   * is `Checkout`.
   */
  method CreateOrder(store: Store, req: OrderRequest, newId: ObjectId, isEmail: string -> bool)
    returns (r: Result<Receipt, HttpError>)
    modifies store
    ensures Outcome(r, store.State()) == Checkout(old(store.State()), req, newId, isEmail)
  {
    var db := store.State();
    if !store.configured {
      return Err(InternalServerError);
    }
    var subtotal := PriceOrderItems(db, req.items);
    if subtotal.Err? {
      return Err(subtotal.error);
    }
    var fee := RestaurantFee(db, req.restaurantId);
    if fee.Err? {
      return Err(fee.error);
    }
    CheckoutReachesPlaceOrder(db, req, newId, isEmail);
    r := PlaceOrderIn(store, req, subtotal.value, fee.value, newId, isEmail);
  }

  // ---------------------------------------------------------------------------
  // seed_sample_data (main.py:75-105)

  /**
   * One `create_document` call of a run of inserts: on failure the run answers
   * with its error and the store as it is now; otherwise the rest of the run follows.
   */
  method CreateNext(store: Store, ghost plan: seq<Insertion>, name: string, doc: Document, id: ObjectId)
    returns (r: Result<string, HttpError>)
    requires plan != [] && plan[0] == Insertion(name, doc, id)
    modifies store
    ensures r.Ok? ==> r.value == id
    ensures r.Err? ==> InsertAll(old(store.State()), plan) == Outcome(Err(r.error), store.State())
    ensures r.Ok? ==> InsertAll(old(store.State()), plan) == InsertAll(store.State(), plan[1..])
  {
    r := store.CreateDocument(name, doc, id);
  }

  /**
   * `seed_sample_data` against the store: the six `create_document` calls of
   * main.py:79-103 one after the other, each menu item pointing at the id its
   * restaurant's insert returned. What it answers and leaves is `Seeding`.
   */
  method SeedSampleData(store: Store, ids: SeedIds) returns (r: Result<string, HttpError>)
    modifies store
    ensures Outcome(r, store.State()) == Seeding(old(store.State()), ids)
  {
    if !store.configured {
      return Err(DatabaseNotConfigured);
    }
    if "restaurant" in store.collections && |store.collections["restaurant"]| != 0 {
      return Ok("ok");
    }
    ghost var plan := SeedPlan(ids);
    ghost var goal := InsertAll(store.State(), plan);
    assert goal == Seeding(old(store.State()), ids);
    var r1 := CreateNext(store, plan, "restaurant", RestaurantDoc(PastaPalace()), ids.r1);
    if r1.Err? {
      return Err(r1.error);
    }
    plan := plan[1..];
    var r2 := CreateNext(store, plan, "restaurant", RestaurantDoc(SpiceRoute()), ids.r2);
    if r2.Err? {
      return Err(r2.error);
    }
    var menu := Menu(r1.value, r2.value);
    plan := plan[1..];
    var m1 := CreateNext(store, plan, "menuitem", MenuItemDoc(menu[0]), ids.m1);
    if m1.Err? {
      return Err(m1.error);
    }
    plan := plan[1..];
    var m2 := CreateNext(store, plan, "menuitem", MenuItemDoc(menu[1]), ids.m2);
    if m2.Err? {
      return Err(m2.error);
    }
    plan := plan[1..];
    var m3 := CreateNext(store, plan, "menuitem", MenuItemDoc(menu[2]), ids.m3);
    if m3.Err? {
      return Err(m3.error);
    }
    plan := plan[1..];
    var m4 := CreateNext(store, plan, "menuitem", MenuItemDoc(menu[3]), ids.m4);
    if m4.Err? {
      return Err(m4.error);
    }
    assert plan[1..] == [];
    return Ok("ok");
  }
}
