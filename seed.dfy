/**
 * `seed_sample_data` (main.py:75-105): on a store without restaurants, insert
 * two restaurants and four menu items that point at them. The driver picks
 * the six ids; they are parameters.
 */
module Seed {
  import opened Wrappers
  import opened Http
  import opened Ids
  import opened Documents
  import opened Schemas
  import opened Database

  /** The ids the driver gives the two restaurants and the four menu items, in insertion order. */
  datatype SeedIds = SeedIds(r1: ObjectId, r2: ObjectId, m1: ObjectId, m2: ObjectId, m3: ObjectId, m4: ObjectId)

  /** One `create_document(collection, record)` call, with the id the driver picks for it. */
  datatype Insertion = Insertion(collection: string, doc: Document, id: ObjectId)

  // ---------------------------------------------------------------------------
  // The sample records (main.py:80-103); amounts in cents, rating in hundredths

  const PastaPalaceName: string := "Pasta Palace"
  const PastaPalaceDescription: string := "Authentic Italian pastas and pizzas"
  const PastaPalaceCuisine: string := "Italian"
  const PastaPalaceImage: string := "https://images.unsplash.com/photo-1603133872878-684f208fb84f"
  const SpiceRouteName: string := "Spice Route"
  const SpiceRouteDescription: string := "North Indian curries and tandoori"
  const SpiceRouteCuisine: string := "Indian"
  const SpiceRouteImage: string := "https://images.unsplash.com/photo-1604908177673-3f4f5463f2ef"

  const MargheritaName: string := "Margherita Pizza"
  const MargheritaDescription: string := "Classic with fresh basil"
  const MargheritaImage: string := "https://images.unsplash.com/photo-1548365328-9f547fb09530"
  const FettuccineName: string := "Fettuccine Alfredo"
  const FettuccineDescription: string := "Creamy parmesan sauce"
  const FettuccineImage: string := "https://images.unsplash.com/photo-1529042410759-befb1204b468"
  const ButterChickenName: string := "Butter Chicken"
  const ButterChickenDescription: string := "Rich tomato gravy"
  const ButterChickenImage: string := "https://images.unsplash.com/photo-1588167056547-c183313da70a"
  const PaneerTikkaName: string := "Paneer Tikka"
  const PaneerTikkaDescription: string := "Grilled cottage cheese"
  const PaneerTikkaImage: string := "https://images.unsplash.com/photo-1596797038530-2c107229f829"

  function PastaPalaceBody(): RawRestaurant {
    RawRestaurant(Given(PastaPalaceName), Given(PastaPalaceDescription), Given(PastaPalaceCuisine),
                  Given(PastaPalaceImage), Given(470), Given(299), Given(30))
  }

  function SpiceRouteBody(): RawRestaurant {
    RawRestaurant(Given(SpiceRouteName), Given(SpiceRouteDescription), Given(SpiceRouteCuisine),
                  Given(SpiceRouteImage), Given(460), Given(349), Given(35))
  }

  function PastaPalace(): Restaurant {
    Restaurant(PastaPalaceName, Some(PastaPalaceDescription), Some(PastaPalaceCuisine),
               Some(PastaPalaceImage), Some(470), Some(299), Some(30))
  }

  function SpiceRoute(): Restaurant {
    Restaurant(SpiceRouteName, Some(SpiceRouteDescription), Some(SpiceRouteCuisine),
               Some(SpiceRouteImage), Some(460), Some(349), Some(35))
  }

  /** The four menu-item bodies; `r1` and `r2` are the strings the restaurant inserts returned. */
  function MenuBodies(r1: string, r2: string): seq<RawMenuItem> {
    [ RawMenuItem(Given(r1), Given(MargheritaName), Given(MargheritaDescription), Given(1299),
                  Given(MargheritaImage), Absent, Absent),
      RawMenuItem(Given(r1), Given(FettuccineName), Given(FettuccineDescription), Given(1450),
                  Given(FettuccineImage), Absent, Absent),
      RawMenuItem(Given(r2), Given(ButterChickenName), Given(ButterChickenDescription), Given(1399),
                  Given(ButterChickenImage), Absent, Absent),
      RawMenuItem(Given(r2), Given(PaneerTikkaName), Given(PaneerTikkaDescription), Given(1125),
                  Given(PaneerTikkaImage), Given(true), Absent) ]
  }

  function Menu(r1: string, r2: string): seq<MenuItem> {
    [ MenuItem(r1, MargheritaName, Some(MargheritaDescription), 1299,
               Some(MargheritaImage), Some(false), Some(0)),
      MenuItem(r1, FettuccineName, Some(FettuccineDescription), 1450,
               Some(FettuccineImage), Some(false), Some(0)),
      MenuItem(r2, ButterChickenName, Some(ButterChickenDescription), 1399,
               Some(ButterChickenImage), Some(false), Some(0)),
      MenuItem(r2, PaneerTikkaName, Some(PaneerTikkaDescription), 1125,
               Some(PaneerTikkaImage), Some(true), Some(0)) ]
  }

  /** Both sample restaurant bodies pass validation, and yield the records above. */
  lemma SampleRestaurantsValidate()
    ensures ValidateRestaurant(PastaPalaceBody()) == Ok(PastaPalace())
    ensures ValidateRestaurant(SpiceRouteBody()) == Ok(SpiceRoute())
  {
  }

  /**
   * Every sample menu-item body passes validation, and yields the records above:
   * `is_veg` defaults to false (Paneer Tikka sets it) and `spicy_level` to 0.
   */
  lemma SampleMenuValidates(r1: string, r2: string, k: nat)
    requires k < 4
    ensures |MenuBodies(r1, r2)| == |Menu(r1, r2)| == 4
    ensures ValidateMenuItem(MenuBodies(r1, r2)[k]) == Ok(Menu(r1, r2)[k])
  {
    assert MenuItemOffending(MenuBodies(r1, r2)[k]) == {};
  }

  /** The six inserts of main.py:79-103, in order. */
  function SeedPlan(ids: SeedIds): seq<Insertion> {
    var menu := Menu(ids.r1, ids.r2);
    [ Insertion("restaurant", RestaurantDoc(PastaPalace()), ids.r1),
      Insertion("restaurant", RestaurantDoc(SpiceRoute()), ids.r2),
      Insertion("menuitem", MenuItemDoc(menu[0]), ids.m1),
      Insertion("menuitem", MenuItemDoc(menu[1]), ids.m2),
      Insertion("menuitem", MenuItemDoc(menu[2]), ids.m3),
      Insertion("menuitem", MenuItemDoc(menu[3]), ids.m4) ]
  }

  // ---------------------------------------------------------------------------
  // Running the inserts

  /** The document an insert stores: its record under the `_id` the driver picked. */
  function Stamped(p: Insertion): Document {
    p.doc["_id" := VId(p.id)]
  }

  /** The documents `plan` adds to collection `name`, each under its id, in order. */
  function Added(plan: seq<Insertion>, name: string): seq<Document> {
    if plan == [] then []
    else (if plan[0].collection == name then [Stamped(plan[0])] else []) + Added(plan[1..], name)
  }

  lemma AddedCons(x: Insertion, rest: seq<Insertion>, name: string)
    ensures Added([x] + rest, name) == (if x.collection == name then [Stamped(x)] else []) + Added(rest, name)
  {
    assert ([x] + rest)[1..] == rest;
  }

  /** Within each collection the planned ids are distinct, and none is stored there yet. */
  predicate FreshIds(db: Db, plan: seq<Insertion>) {
    && (forall i, j :: 0 <= i < j < |plan| && plan[i].collection == plan[j].collection ==> plan[i].id != plan[j].id)
    && (forall i :: 0 <= i < |plan| ==> !ContainsId(Coll(db, plan[i].collection), plan[i].id))
  }

  /**
   * The inserts one after the other: the first that fails raises, and the
   * documents inserted before it stay. The store only ever grows.
   */
  function InsertAll(db: Db, plan: seq<Insertion>): (o: Outcome<string>)
    ensures o.response.Ok? ==> o.response.value == "ok"
    ensures o.response.Err? ==> o.response.error == InternalServerError
    ensures o.db.configured == db.configured
    ensures forall name :: Coll(db, name) <= Coll(o.db, name)
    ensures !db.configured ==> o.db == db && (o.response.Ok? <==> plan == [])
    decreases |plan|
  {
    if plan == [] then Outcome(Ok("ok"), db)
    else
      var first := Insert(db, plan[0].collection, plan[0].doc, plan[0].id);
      if first.response.Err? then Outcome(Err(first.response.error), first.db)
      else
        var rest := InsertAll(first.db, plan[1..]);
        assert forall name :: Coll(db, name) <= Coll(first.db, name);
        rest
  }

  /** After the first insert of a fresh plan, the rest of the plan is fresh for the new store. */
  lemma FreshAfterInsert(db: Db, plan: seq<Insertion>)
    requires db.configured && FreshIds(db, plan) && plan != []
    ensures Insert(db, plan[0].collection, plan[0].doc, plan[0].id).response.Ok?
    ensures FreshIds(Insert(db, plan[0].collection, plan[0].doc, plan[0].id).db, plan[1..])
  {
    var p := plan[0];
    var first := Insert(db, p.collection, p.doc, p.id);
    assert !ContainsId(Coll(db, p.collection), p.id);
    var rest := plan[1..];
    forall i | 0 <= i < |rest| ensures !ContainsId(Coll(first.db, rest[i].collection), rest[i].id) {
      var name := rest[i].collection;
      assert rest[i] == plan[i + 1];
      assert !ContainsId(Coll(db, name), rest[i].id);
      if name == p.collection {
        assert p.id != rest[i].id;
      }
    }
    assert forall i, j :: 0 <= i < j < |rest| ==> rest[i] == plan[i + 1] && rest[j] == plan[j + 1];
  }

  /** One successful insert followed by the rest of a plan adds the whole plan to each collection. */
  lemma InsertThenAdded(db: Db, p: Insertion, rest: seq<Insertion>, after: Db, name: string)
    requires Insert(db, p.collection, p.doc, p.id).response.Ok?
    requires Coll(after, name) == Coll(Insert(db, p.collection, p.doc, p.id).db, name) + Added(rest, name)
    ensures Coll(after, name) == Coll(db, name) + Added([p] + rest, name)
  {
    AddedCons(p, rest, name);
  }

  /** On a configured store with fresh ids every insert succeeds, each collection growing by exactly its planned documents. */
  lemma {:induction false} InsertAllFresh(db: Db, plan: seq<Insertion>)
    requires db.configured && FreshIds(db, plan)
    ensures InsertAll(db, plan).response == Ok("ok")
    ensures forall name :: Coll(InsertAll(db, plan).db, name) == Coll(db, name) + Added(plan, name)
    decreases |plan|
  {
    if plan != [] {
      var p := plan[0];
      var first := Insert(db, p.collection, p.doc, p.id);
      var rest := plan[1..];
      FreshAfterInsert(db, plan);
      InsertAllFresh(first.db, rest);
      assert plan == [p] + rest;
      var after := InsertAll(db, plan);
      assert after == InsertAll(first.db, rest);
      forall name ensures Coll(after.db, name) == Coll(db, name) + Added(plan, name) {
        InsertThenAdded(db, p, rest, after.db, name);
      }
    }
  }

  /** Running the inserts keeps the store well formed, whether or not one fails. */
  lemma {:induction false} InsertAllWellFormed(db: Db, plan: seq<Insertion>)
    requires WellFormed(db)
    ensures WellFormed(InsertAll(db, plan).db)
    decreases |plan|
  {
    if plan != [] {
      InsertWellFormed(db, plan[0].collection, plan[0].doc, plan[0].id);
      InsertAllWellFormed(Insert(db, plan[0].collection, plan[0].doc, plan[0].id).db, plan[1..]);
    }
  }

  // ---------------------------------------------------------------------------
  // The handler

  /**
   * `seed_sample_data`: no store is a 500 "Database not configured"; a store that
   * already has a restaurant is left alone; otherwise the six inserts run.
   */
  function Seeding(db: Db, ids: SeedIds): (o: Outcome<string>)
    ensures !db.configured ==> o == Outcome(Err(DatabaseNotConfigured), db)
    ensures db.configured && |Coll(db, "restaurant")| > 0 ==> o == Outcome(Ok("ok"), db)
    ensures o.response.Ok? ==> o.response.value == "ok"
    ensures o.db.configured == db.configured
  {
    if !db.configured then Outcome(Err(DatabaseNotConfigured), db)
    else if |Coll(db, "restaurant")| != 0 then Outcome(Ok("ok"), db)
    else InsertAll(db, SeedPlan(ids))
  }

  /** A configured store has a restaurant after seeding, whatever happened during it. */
  lemma SeedingLeavesRestaurant(db: Db, ids: SeedIds)
    requires db.configured
    ensures |Coll(Seeding(db, ids).db, "restaurant")| > 0
  {
    if |Coll(db, "restaurant")| == 0 {
      var plan := SeedPlan(ids);
      var first := Insert(db, "restaurant", plan[0].doc, ids.r1);
      assert first.response.Ok?;
      assert InsertAll(db, plan) == InsertAll(first.db, plan[1..]);
      assert Coll(first.db, "restaurant") <= Coll(InsertAll(first.db, plan[1..]).db, "restaurant");
    }
  }

  /** Seeding twice is seeding once: the second call answers "ok" and changes nothing. */
  lemma SeedingIsIdempotent(db: Db, a: SeedIds, b: SeedIds)
    requires db.configured
    ensures Seeding(Seeding(db, a).db, b) == Outcome(Ok("ok"), Seeding(db, a).db)
  {
    SeedingLeavesRestaurant(db, a);
  }

  lemma AddedTail(plan: seq<Insertion>, k: nat, name: string)
    requires k < |plan|
    ensures Added(plan[k..], name) == (if plan[k].collection == name then [Stamped(plan[k])] else []) + Added(plan[k + 1..], name)
  {
    AddedCons(plan[k], plan[k + 1..], name);
    assert [plan[k]] + plan[k + 1..] == plan[k..];
  }

  /** The two restaurant ids differ, and so do the four menu item ids. */
  predicate DistinctIds(ids: SeedIds) {
    && ids.r1 != ids.r2
    && ids.m1 != ids.m2 && ids.m1 != ids.m3 && ids.m1 != ids.m4
    && ids.m2 != ids.m3 && ids.m2 != ids.m4 && ids.m3 != ids.m4
  }

  /** No menu item id of the seed is stored yet. */
  predicate MenuIdsFresh(db: Db, ids: SeedIds) {
    forall m :: m in [ids.m1, ids.m2, ids.m3, ids.m4] ==> !ContainsId(Coll(db, "menuitem"), m)
  }

  /** Two restaurant inserts then four menu-item inserts, under the given ids, whatever the records. */
  predicate Shaped(plan: seq<Insertion>, ids: SeedIds) {
    && |plan| == 6
    && plan[0].collection == "restaurant" && plan[0].id == ids.r1
    && plan[1].collection == "restaurant" && plan[1].id == ids.r2
    && plan[2].collection == "menuitem" && plan[2].id == ids.m1
    && plan[3].collection == "menuitem" && plan[3].id == ids.m2
    && plan[4].collection == "menuitem" && plan[4].id == ids.m3
    && plan[5].collection == "menuitem" && plan[5].id == ids.m4
  }

  lemma SeedPlanShaped(ids: SeedIds)
    ensures Shaped(SeedPlan(ids), ids)
  {
  }

  /** What a shaped plan adds to collection `name`, insert by insert. */
  lemma AddedByShaped(plan: seq<Insertion>, ids: SeedIds, name: string)
    requires Shaped(plan, ids)
    ensures Added(plan, name) ==
              if name == "restaurant" then [Stamped(plan[0]), Stamped(plan[1])]
              else if name == "menuitem" then [Stamped(plan[2]), Stamped(plan[3]), Stamped(plan[4]), Stamped(plan[5])]
              else []
  {
    AddedTail(plan, 5, name);
    AddedTail(plan, 4, name);
    AddedTail(plan, 3, name);
    AddedTail(plan, 2, name);
    AddedTail(plan, 1, name);
    AddedTail(plan, 0, name);
    assert plan[6..] == [];
    assert plan[0..] == plan;
  }

  /** With no restaurant stored, distinct ids and fresh menu ids, a shaped plan is fresh. */
  lemma ShapedFresh(db: Db, plan: seq<Insertion>, ids: SeedIds)
    requires Shaped(plan, ids) && |Coll(db, "restaurant")| == 0 && DistinctIds(ids) && MenuIdsFresh(db, ids)
    ensures FreshIds(db, plan)
  {
    forall i | 0 <= i < |plan| ensures !ContainsId(Coll(db, plan[i].collection), plan[i].id) {
      if i >= 2 {
        assert plan[i].collection == "menuitem" && plan[i].id in [ids.m1, ids.m2, ids.m3, ids.m4];
      }
    }
  }

  /** The restaurants a fresh seed stores, in order. */
  function SeededRestaurants(ids: SeedIds): seq<Document> {
    [RestaurantDoc(PastaPalace())["_id" := VId(ids.r1)], RestaurantDoc(SpiceRoute())["_id" := VId(ids.r2)]]
  }

  /** The menu items a fresh seed stores, in order. */
  function SeededMenu(ids: SeedIds): seq<Document> {
    var menu := Menu(ids.r1, ids.r2);
    [MenuItemDoc(menu[0])["_id" := VId(ids.m1)], MenuItemDoc(menu[1])["_id" := VId(ids.m2)],
     MenuItemDoc(menu[2])["_id" := VId(ids.m3)], MenuItemDoc(menu[3])["_id" := VId(ids.m4)]]
  }

  /** What the six inserts of the seed add to collection `name`. */
  lemma AddedBySeedPlan(ids: SeedIds, name: string)
    ensures Added(SeedPlan(ids), name) ==
              if name == "restaurant" then SeededRestaurants(ids)
              else if name == "menuitem" then SeededMenu(ids)
              else []
  {
    var plan := SeedPlan(ids);
    SeedPlanShaped(ids);
    AddedByShaped(plan, ids, name);
  }

  /**
   * On a configured store without restaurants, with six distinct ids and menu
   * ids not yet stored, seeding answers "ok" and adds exactly the two restaurants
   * and the four menu items, in order; nothing else changes.
   */
  lemma SeedingFresh(db: Db, ids: SeedIds)
    requires db.configured && |Coll(db, "restaurant")| == 0
    requires DistinctIds(ids) && MenuIdsFresh(db, ids)
    ensures Seeding(db, ids).response == Ok("ok")
    ensures Coll(Seeding(db, ids).db, "restaurant") == SeededRestaurants(ids)
    ensures Coll(Seeding(db, ids).db, "menuitem") == Coll(db, "menuitem") + SeededMenu(ids)
    ensures forall name :: name != "restaurant" && name != "menuitem" ==> Coll(Seeding(db, ids).db, name) == Coll(db, name)
  {
    var plan := SeedPlan(ids);
    assert Seeding(db, ids) == InsertAll(db, plan);
    SeedPlanShaped(ids);
    ShapedFresh(db, plan, ids);
    InsertAllFresh(db, plan);
    forall name ensures Added(plan, name) == if name == "restaurant" then SeededRestaurants(ids)
                                             else if name == "menuitem" then SeededMenu(ids) else [] {
      AddedBySeedPlan(ids, name);
    }
  }

  /** Seeding keeps the store well formed. */
  lemma SeedingWellFormed(db: Db, ids: SeedIds)
    requires WellFormed(db)
    ensures WellFormed(Seeding(db, ids).db)
  {
    InsertAllWellFormed(db, SeedPlan(ids));
  }

  /**
   * Seeding is not atomic: when the driver's second restaurant insert fails
   * (here, a duplicate id), the first restaurant stays, the answer is a 500 and
   * no menu item is inserted; every later seed call then does nothing.
   */
  lemma SeedingFailureKeepsFirstRestaurant(db: Db, ids: SeedIds, later: SeedIds)
    requires db.configured && |Coll(db, "restaurant")| == 0 && ids.r2 == ids.r1
    ensures Seeding(db, ids).response == Err(InternalServerError)
    ensures Coll(Seeding(db, ids).db, "restaurant") == [RestaurantDoc(PastaPalace())["_id" := VId(ids.r1)]]
    ensures Coll(Seeding(db, ids).db, "menuitem") == Coll(db, "menuitem")
    ensures Seeding(Seeding(db, ids).db, later) == Outcome(Ok("ok"), Seeding(db, ids).db)
  {
    var plan := SeedPlan(ids);
    var first := Insert(db, "restaurant", plan[0].doc, ids.r1);
    var second := Insert(first.db, "restaurant", plan[1].doc, ids.r2);
    assert IdOf(Coll(first.db, "restaurant")[0]) == Some(ids.r1);
    assert second.response.Err?;
    assert plan[1..][0] == plan[1];
    assert InsertAll(first.db, plan[1..]) == Outcome(Err(InternalServerError), first.db);
    assert InsertAll(db, plan) == InsertAll(first.db, plan[1..]);
  }
}
