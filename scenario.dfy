/**
 * The sample data and checkout together: seed an empty store, then order two
 * Margherita Pizzas and one Fettuccine Alfredo from Pasta Palace.
 */
module Scenario {
  import opened Wrappers
  import opened Ids
  import opened Documents
  import opened Schemas
  import opened Database
  import opened Orders
  import opened Seed

  /** The seeded store: a configured, empty store after `seed_sample_data`. */
  function Seeded(ids: SeedIds): Db {
    Seeding(Db(true, map[]), ids).db
  }

  function SampleOrder(ids: SeedIds): OrderRequest {
    OrderRequest(ids.r1, [OrderItem(ids.m1, 2), OrderItem(ids.m2, 1)], "Ada", "1 Main St", None)
  }

  /** The seeded store holds the two restaurants and the four menu items, and is well formed. */
  lemma SeededStore(ids: SeedIds)
    requires DistinctIds(ids)
    ensures WellFormed(Seeded(ids))
    ensures Seeded(ids).configured
    ensures Coll(Seeded(ids), "restaurant") == SeededRestaurants(ids)
    ensures Coll(Seeded(ids), "menuitem") == SeededMenu(ids)
    ensures Coll(Seeded(ids), "order") == []
  {
    var db := Db(true, map[]);
    SeedingFresh(db, ids);
    SeedingWellFormed(db, ids);
  }

  /** The first two seeded menu items carry their ids and their prices. */
  lemma SeededMenuPrices(ids: SeedIds)
    ensures var menu := SeededMenu(ids);
      && |menu| == 4
      && HasObjectId(menu[0]) && menu[0]["_id"].oid == ids.m1 && "price" in menu[0] && menu[0]["price"] == VNum(1299)
      && HasObjectId(menu[1]) && menu[1]["_id"].oid == ids.m2 && "price" in menu[1] && menu[1]["price"] == VNum(1450)
  {
  }

  /** The sample order's ids parse to themselves. */
  lemma SampleIdsParse(ids: SeedIds)
    ensures ParseItemIds(SampleOrder(ids).items) == Ok([ids.m1, ids.m2])
  {
    var items := SampleOrder(ids).items;
    ParsePrinted(ids.m1);
    ParsePrinted(ids.m2);
    assert ValidId(items[0].menuItemId) && ValidId(items[1].menuItemId);
    var r := ParseItemIds(items);
    assert |r.value| == 2;
    ParseCanon(ids.m1);
    ParseCanon(ids.m2);
    assert r.value[0] == Canon(ids.m1) == ids.m1;
    assert r.value[1] == Canon(ids.m2) == ids.m2;
    assert r.value == [ids.m1, ids.m2];
  }

  /** The fetched menu of the sample order holds its two seeded documents, with their prices. */
  lemma SampleMenuFetched(db: Db, ids: SeedIds)
    requires DistinctIds(ids) && Coll(db, "menuitem") == SeededMenu(ids)
    ensures var index := FetchMenu(db, [ids.m1, ids.m2]);
      && ids.m1 in index && "price" in index[ids.m1] && index[ids.m1]["price"] == VNum(1299)
      && ids.m2 in index && "price" in index[ids.m2] && index[ids.m2]["price"] == VNum(1450)
  {
    SeededMenuPrices(ids);
    var parsed := [ids.m1, ids.m2];
    assert parsed[0] == ids.m1 && parsed[1] == ids.m2;
    assert ids.m1 in IdSet(parsed) && ids.m2 in IdSet(parsed);
    assert WellFormedDocs(Coll(db, "menuitem"));
    FetchedIsStored(db, parsed, 0);
    FetchedIsStored(db, parsed, 1);
  }

  /** Two lines whose items are fetched with a price: the subtotal is price x quantity, summed. */
  lemma SubtotalOfTwoLines(a: OrderItem, b: OrderItem, index: map<string, Document>, pa: int, pb: int)
    requires a.menuItemId in index && "price" in index[a.menuItemId] && index[a.menuItemId]["price"] == VNum(pa)
    requires b.menuItemId in index && "price" in index[b.menuItemId] && index[b.menuItemId]["price"] == VNum(pb)
    ensures Subtotal([a, b], index) == Ok(pa * a.quantity + pb * b.quantity)
  {
    assert LineAmount(a, index) == Ok(pa * a.quantity);
    assert LineAmount(b, index) == Ok(pb * b.quantity);
    assert [a][..0] == [];
    assert Subtotal([a], index) == Ok(pa * a.quantity);
    assert [a, b][..1] == [a];
  }

  /** Pricing the sample order against the seeded menu: 2 x 12.99 + 1 x 14.50 = 40.48. */
  lemma SampleOrderPrices(db: Db, ids: SeedIds)
    requires DistinctIds(ids) && Coll(db, "menuitem") == SeededMenu(ids)
    ensures PriceItems(db, SampleOrder(ids).items) == Ok(4048)
  {
    SampleIdsParse(ids);
    SampleMenuFetched(db, ids);
    var index := FetchMenu(db, [ids.m1, ids.m2]);
    SubtotalOfTwoLines(OrderItem(ids.m1, 2), OrderItem(ids.m2, 1), index, 1299, 1450);
    assert |index| > 0;
  }

  /** Pasta Palace's delivery fee, read from the seeded restaurants, is 2.99. */
  lemma SampleRestaurantFee(db: Db, ids: SeedIds)
    requires DistinctIds(ids)
    requires Coll(db, "restaurant") == SeededRestaurants(ids)
    ensures RestaurantFee(db, ids.r1) == Ok(299)
  {
    ParsePrinted(ids.r1);
    var rest := Coll(db, "restaurant");
    assert IdOf(rest[0]) == Some(ids.r1);
    var found := FindOne(rest, ids.r1);
    assert found.value == rest[0] by {
      assert found.value in rest && IdOf(rest[1]) == Some(ids.r2);
    }
  }

  /** On any store holding the seeded restaurants and menu and no order yet, the sample order is accepted. */
  lemma SampleOrderAccepted(db: Db, ids: SeedIds, newId: ObjectId, isEmail: string -> bool)
    requires DistinctIds(ids) && db.configured
    requires Coll(db, "restaurant") == SeededRestaurants(ids) && Coll(db, "menuitem") == SeededMenu(ids)
    requires Coll(db, "order") == []
    ensures Checkout(db, SampleOrder(ids), newId, isEmail).response == Ok(Receipt(newId, "pending", 4347))
  {
    SampleOrderPrices(db, ids);
    SampleRestaurantFee(db, ids);
    PlacesOnSeeded(db, SampleOrder(ids), newId, isEmail);
  }

  /**
   * On the seeded store, the sample order is accepted: subtotal 40.48, the
   * restaurant's fee 2.99, and the answer the new id, "pending" and 43.47.
   */
  lemma SampleOrderTotal(ids: SeedIds, newId: ObjectId, isEmail: string -> bool)
    requires DistinctIds(ids)
    ensures Checkout(Seeded(ids), SampleOrder(ids), newId, isEmail).response == Ok(Receipt(newId, "pending", 4347))
  {
    SeededStore(ids);
    SampleOrderAccepted(Seeded(ids), ids, newId, isEmail);
  }

  lemma PlacesOnSeeded(db: Db, req: OrderRequest, newId: ObjectId, isEmail: string -> bool)
    requires db.configured && Coll(db, "order") == [] && req.customerEmail.None?
    requires ValidOrderRequest(req)
    requires PriceItems(db, req.items) == Ok(4048) && RestaurantFee(db, req.restaurantId) == Ok(299)
    ensures Checkout(db, req, newId, isEmail).response == Ok(Receipt(newId, "pending", 4347))
  {
    CheckoutReachesPlaceOrder(db, req, newId, isEmail);
  }
}
