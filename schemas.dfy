/**
 * The request/record schemas of schemas.py: field constraints, defaults and the
 * validation that builds a record from a request body (or rejects it, listing
 * every offending field). Prices, fees, totals and ratings are in hundredths.
 */
module Schemas {
  import opened Wrappers
  import opened Text
  import opened Documents

  /** How a field arrived in a body: left out, given as `null`, or given a value. */
  datatype Field<+T> = Absent | Null | Given(v: T)

  /** A step of an error location: a field name or a list position. */
  datatype Loc = Key(name: string) | Index(i: nat)

  datatype ErrorKind =
    | Missing            // a required field was left out
    | NoneNotAllowed     // `null` given for a field whose type is not Optional
    | LessThan(ge: int)  // violates `ge=`
    | GreaterThan(le: int) // violates `le=`
    | NotAnEmail         // violates `EmailStr`

  datatype FieldError = FieldError(loc: seq<Loc>, kind: ErrorKind)

  // ---------------------------------------------------------------------------
  // Field-level rules shared by the schemas

  /** A required field (`Field(...)` or no default): it must be given, and not as `null`. */
  function RequiredErrors<T>(name: string, f: Field<T>): (es: seq<FieldError>)
    ensures es == [] <==> f.Given?
    ensures ErrorFields(es) == if f.Given? then {} else {name}
  {
    match f
    case Absent => ErrorAt(name, Missing)
    case Null => ErrorAt(name, NoneNotAllowed)
    case Given(_) => []
  }

  /** A field with a default whose type is not Optional: it may be left out, but not `null`. */
  function NotNullErrors<T>(name: string, f: Field<T>): (es: seq<FieldError>)
    ensures es == [] <==> !f.Null?
  {
    if f.Null? then ErrorAt(name, NoneNotAllowed) else []
  }

  /** A `null` in a non-Optional field is reported under that field, and nothing else is. */
  lemma NotNullFields<T>(name: string, f: Field<T>)
    ensures ErrorFields(NotNullErrors(name, f)) == if f.Null? then {name} else {}
  {
  }

  /** `ge=lo` and (when given) `le=hi`: checked only on a given value; `null` is left to the type. */
  function BoundErrors(name: string, f: Field<int>, lo: int, hi: Option<int>): (es: seq<FieldError>)
    ensures es == [] <==> (f.Given? ==> lo <= f.v && (hi.Some? ==> f.v <= hi.value))
    ensures ErrorFields(es) == if es == [] then {} else {name}
  {
    match f
    case Given(x) =>
      if x < lo then ErrorAt(name, LessThan(lo))
      else if hi.Some? && x > hi.value then ErrorAt(name, GreaterThan(hi.value))
      else []
    case _ => []
  }

  /** The value of an `Optional[...]` field with a default. */
  function OptionalValue<T>(f: Field<T>, default: Option<T>): Option<T> {
    match f
    case Absent => default
    case Null => None
    case Given(x) => Some(x)
  }

  /**
   * How a validated `Optional[...]` field comes through: a given value is kept,
   * `null` becomes `None` and a missing field takes the default.
   */
  predicate Resolved<T(==)>(f: Field<T>, o: Option<T>, default: Option<T>) {
    && (f.Given? ==> o == Some(f.v))
    && (f.Null? ==> o == None)
    && (f.Absent? ==> o == default)
  }

  /** The value of a non-Optional field with a default (`null` was rejected before). */
  function DefaultedValue<T>(f: Field<T>, default: T): T {
    if f.Given? then f.v else default
  }

  /** The field of a record written back as a body field: a value is given, `None` is `null`. */
  function FieldOf<T>(o: Option<T>): Field<T> {
    if o.Some? then Given(o.value) else Null
  }

  predicate AtLeast(x: Option<int>, lo: int) {
    x.Some? ==> lo <= x.value
  }

  predicate Between(x: Option<int>, lo: int, hi: int) {
    x.Some? ==> lo <= x.value <= hi
  }

  /** The field names an error list mentions at its top level. */
  function ErrorFields(es: seq<FieldError>): set<string> {
    set i | 0 <= i < |es| && |es[i].loc| > 0 && es[i].loc[0].Key? :: es[i].loc[0].name
  }

  /** The one error about the top-level field `name`. */
  function ErrorAt(name: string, kind: ErrorKind): (es: seq<FieldError>)
    ensures |es| == 1 && ErrorFields(es) == {name}
  {
    var es := [FieldError([Key(name)], kind)];
    assert es[0].loc[0].name == name;
    es
  }

  lemma ErrorFieldsAppend(a: seq<FieldError>, b: seq<FieldError>)
    ensures ErrorFields(a + b) == ErrorFields(a) + ErrorFields(b)
  {
    var ab := a + b;
    forall x | x in ErrorFields(ab) ensures x in ErrorFields(a) + ErrorFields(b) {
      var i :| 0 <= i < |ab| && |ab[i].loc| > 0 && ab[i].loc[0].Key? && ab[i].loc[0].name == x;
      if i < |a| { assert ab[i] == a[i]; } else { assert ab[i] == b[i - |a|]; }
    }
    forall x | x in ErrorFields(a) + ErrorFields(b) ensures x in ErrorFields(ab) {
      if x in ErrorFields(a) {
        var i :| 0 <= i < |a| && |a[i].loc| > 0 && a[i].loc[0].Key? && a[i].loc[0].name == x;
        assert ab[i] == a[i];
      } else {
        var i :| 0 <= i < |b| && |b[i].loc| > 0 && b[i].loc[0].Key? && b[i].loc[0].name == x;
        assert ab[|a| + i] == b[i];
      }
    }
  }

  // ---------------------------------------------------------------------------
  // Restaurant (schemas.py:17-24)

  datatype Restaurant = Restaurant(
    name: string,
    description: Option<string>,
    cuisine: Option<string>,
    imageUrl: Option<string>,
    rating: Option<int>,       // hundredths, 0..500
    deliveryFee: Option<int>,  // cents, >= 0
    etaMinutes: Option<int>)   // >= 1

  datatype RawRestaurant = RawRestaurant(
    name: Field<string>,
    description: Field<string>,
    cuisine: Field<string>,
    imageUrl: Field<string>,
    rating: Field<int>,
    deliveryFee: Field<int>,
    etaMinutes: Field<int>)

  const DefaultRating := 450
  const DefaultDeliveryFee := 299
  const DefaultEtaMinutes := 30

  /** The constraints of a stored restaurant. */
  predicate ValidRestaurant(r: Restaurant) {
    Between(r.rating, 0, 500) && AtLeast(r.deliveryFee, 0) && AtLeast(r.etaMinutes, 1)
  }

  /** The fields of a body that break a constraint of `Restaurant`. */
  function RestaurantOffending(raw: RawRestaurant): set<string> {
    (if raw.name.Given? then {} else {"name"})
    + (if raw.rating.Given? && !(0 <= raw.rating.v <= 500) then {"rating"} else {})
    + (if raw.deliveryFee.Given? && raw.deliveryFee.v < 0 then {"delivery_fee"} else {})
    + (if raw.etaMinutes.Given? && raw.etaMinutes.v < 1 then {"eta_minutes"} else {})
  }

  function RestaurantErrors(raw: RawRestaurant): (es: seq<FieldError>)
    ensures ErrorFields(es) == RestaurantOffending(raw)
  {
    var e1 := RequiredErrors("name", raw.name);
    var e2 := BoundErrors("rating", raw.rating, 0, Some(500));
    var e3 := BoundErrors("delivery_fee", raw.deliveryFee, 0, None);
    var e4 := BoundErrors("eta_minutes", raw.etaMinutes, 1, None);
    assert ErrorFields(e2) == if raw.rating.Given? && !(0 <= raw.rating.v <= 500) then {"rating"} else {};
    assert ErrorFields(e3) == if raw.deliveryFee.Given? && raw.deliveryFee.v < 0 then {"delivery_fee"} else {};
    assert ErrorFields(e4) == if raw.etaMinutes.Given? && raw.etaMinutes.v < 1 then {"eta_minutes"} else {};
    ErrorFieldsAppend(e1, e2);
    ErrorFieldsAppend(e1 + e2, e3);
    ErrorFieldsAppend(e1 + e2 + e3, e4);
    e1 + e2 + e3 + e4
  }

  /** `Restaurant(**body)`: the record with defaults applied, or every offending field. */
  function ValidateRestaurant(raw: RawRestaurant): (r: Result<Restaurant, seq<FieldError>>)
    ensures r.Ok? <==> RestaurantOffending(raw) == {}
    ensures r.Err? ==> r.error != [] && ErrorFields(r.error) == RestaurantOffending(raw)
    ensures r.Ok? ==> ValidRestaurant(r.value) && raw.name == Given(r.value.name)
    ensures r.Ok? ==> Resolved(raw.description, r.value.description, None)
    ensures r.Ok? ==> Resolved(raw.cuisine, r.value.cuisine, None)
    ensures r.Ok? ==> Resolved(raw.imageUrl, r.value.imageUrl, None)
    ensures r.Ok? ==> Resolved(raw.rating, r.value.rating, Some(DefaultRating))
    ensures r.Ok? ==> Resolved(raw.deliveryFee, r.value.deliveryFee, Some(DefaultDeliveryFee))
    ensures r.Ok? ==> Resolved(raw.etaMinutes, r.value.etaMinutes, Some(DefaultEtaMinutes))
  {
    var es := RestaurantErrors(raw);
    if es != [] then Err(es)
    else Ok(Restaurant(
      raw.name.v,
      OptionalValue(raw.description, None),
      OptionalValue(raw.cuisine, None),
      OptionalValue(raw.imageUrl, None),
      OptionalValue(raw.rating, Some(DefaultRating)),
      OptionalValue(raw.deliveryFee, Some(DefaultDeliveryFee)),
      OptionalValue(raw.etaMinutes, Some(DefaultEtaMinutes))))
  }

  /** The body that spells out every field of `r`. */
  function RawOfRestaurant(r: Restaurant): RawRestaurant {
    RawRestaurant(Given(r.name), FieldOf(r.description), FieldOf(r.cuisine), FieldOf(r.imageUrl),
                  FieldOf(r.rating), FieldOf(r.deliveryFee), FieldOf(r.etaMinutes))
  }

  /** Validation accepts exactly the valid restaurants, and gives them back unchanged. */
  lemma RestaurantRoundTrip(r: Restaurant)
    ensures ValidateRestaurant(RawOfRestaurant(r)).Ok? <==> ValidRestaurant(r)
    ensures ValidRestaurant(r) ==> ValidateRestaurant(RawOfRestaurant(r)) == Ok(r)
  {
  }

  /** A restaurant given only its name gets the defaults, and they are valid. */
  lemma RestaurantDefaults(name: string)
    ensures ValidateRestaurant(RawRestaurant(Given(name), Absent, Absent, Absent, Absent, Absent, Absent))
         == Ok(Restaurant(name, None, None, None, Some(450), Some(299), Some(30)))
  {
  }

  // ---------------------------------------------------------------------------
  // MenuItem (schemas.py:27-34)

  datatype MenuItem = MenuItem(
    restaurantId: string,
    name: string,
    description: Option<string>,
    price: int,                // cents, >= 0
    imageUrl: Option<string>,
    isVeg: Option<bool>,
    spicyLevel: Option<int>)   // 0..3

  datatype RawMenuItem = RawMenuItem(
    restaurantId: Field<string>,
    name: Field<string>,
    description: Field<string>,
    price: Field<int>,
    imageUrl: Field<string>,
    isVeg: Field<bool>,
    spicyLevel: Field<int>)

  predicate ValidMenuItem(m: MenuItem) {
    m.price >= 0 && Between(m.spicyLevel, 0, 3)
  }

  function MenuItemOffending(raw: RawMenuItem): set<string> {
    (if raw.restaurantId.Given? then {} else {"restaurant_id"})
    + (if raw.name.Given? then {} else {"name"})
    + (if !raw.price.Given? || raw.price.v < 0 then {"price"} else {})
    + (if raw.spicyLevel.Given? && !(0 <= raw.spicyLevel.v <= 3) then {"spicy_level"} else {})
  }

  function MenuItemErrors(raw: RawMenuItem): (es: seq<FieldError>)
    ensures ErrorFields(es) == MenuItemOffending(raw)
  {
    var e1 := RequiredErrors("restaurant_id", raw.restaurantId);
    var e2 := RequiredErrors("name", raw.name);
    var e3 := RequiredErrors("price", raw.price) + BoundErrors("price", raw.price, 0, None);
    var e4 := BoundErrors("spicy_level", raw.spicyLevel, 0, Some(3));
    ErrorFieldsAppend(RequiredErrors("price", raw.price), BoundErrors("price", raw.price, 0, None));
    assert ErrorFields(e3) == if !raw.price.Given? || raw.price.v < 0 then {"price"} else {};
    assert ErrorFields(e4) == if raw.spicyLevel.Given? && !(0 <= raw.spicyLevel.v <= 3) then {"spicy_level"} else {};
    ErrorFieldsAppend(e1, e2);
    ErrorFieldsAppend(e1 + e2, e3);
    ErrorFieldsAppend(e1 + e2 + e3, e4);
    e1 + e2 + e3 + e4
  }

  /** `MenuItem(**body)`: the record with defaults applied, or every offending field. */
  function ValidateMenuItem(raw: RawMenuItem): (r: Result<MenuItem, seq<FieldError>>)
    ensures r.Ok? <==> MenuItemOffending(raw) == {}
    ensures r.Err? ==> r.error != [] && ErrorFields(r.error) == MenuItemOffending(raw)
    ensures r.Ok? ==> ValidMenuItem(r.value) && raw.price == Given(r.value.price)
    ensures r.Ok? ==> raw.restaurantId == Given(r.value.restaurantId) && raw.name == Given(r.value.name)
    ensures r.Ok? ==> Resolved(raw.description, r.value.description, None)
    ensures r.Ok? ==> Resolved(raw.imageUrl, r.value.imageUrl, None)
    ensures r.Ok? ==> Resolved(raw.isVeg, r.value.isVeg, Some(false))
    ensures r.Ok? ==> Resolved(raw.spicyLevel, r.value.spicyLevel, Some(0))
  {
    var es := MenuItemErrors(raw);
    if es != [] then Err(es)
    else Ok(MenuItem(
      raw.restaurantId.v,
      raw.name.v,
      OptionalValue(raw.description, None),
      raw.price.v,
      OptionalValue(raw.imageUrl, None),
      OptionalValue(raw.isVeg, Some(false)),
      OptionalValue(raw.spicyLevel, Some(0))))
  }

  function RawOfMenuItem(m: MenuItem): RawMenuItem {
    RawMenuItem(Given(m.restaurantId), Given(m.name), FieldOf(m.description), Given(m.price),
                FieldOf(m.imageUrl), FieldOf(m.isVeg), FieldOf(m.spicyLevel))
  }

  /** Validation accepts exactly the valid menu items, and gives them back unchanged. */
  lemma MenuItemRoundTrip(m: MenuItem)
    ensures ValidateMenuItem(RawOfMenuItem(m)).Ok? <==> ValidMenuItem(m)
    ensures ValidMenuItem(m) ==> ValidateMenuItem(RawOfMenuItem(m)) == Ok(m)
  {
  }

  // ---------------------------------------------------------------------------
  // OrderItem (schemas.py:44-46)

  datatype OrderItem = OrderItem(menuItemId: string, quantity: int)

  datatype RawOrderItem = RawOrderItem(menuItemId: Field<string>, quantity: Field<int>)

  predicate ValidOrderItem(it: OrderItem) {
    it.quantity >= 1
  }

  function OrderItemErrors(raw: RawOrderItem): seq<FieldError> {
    RequiredErrors("menu_item_id", raw.menuItemId)
    + RequiredErrors("quantity", raw.quantity) + BoundErrors("quantity", raw.quantity, 1, None)
  }

  /** `OrderItem(**body)`: both fields are required and `quantity >= 1`. */
  function ValidateOrderItem(raw: RawOrderItem): (r: Result<OrderItem, seq<FieldError>>)
    ensures r.Ok? <==> raw.menuItemId.Given? && raw.quantity.Given? && raw.quantity.v >= 1
    ensures r.Ok? ==> ValidOrderItem(r.value) && raw == RawOrderItem(Given(r.value.menuItemId), Given(r.value.quantity))
    ensures r.Err? ==> r.error != []
  {
    var es := OrderItemErrors(raw);
    if es != [] then Err(es) else Ok(OrderItem(raw.menuItemId.v, raw.quantity.v))
  }

  function RawOfOrderItem(it: OrderItem): RawOrderItem {
    RawOrderItem(Given(it.menuItemId), Given(it.quantity))
  }

  function RawOfOrderItems(items: seq<OrderItem>): (raws: seq<RawOrderItem>)
    ensures |raws| == |items|
    ensures forall i :: 0 <= i < |items| ==> raws[i] == RawOfOrderItem(items[i])
  {
    seq(|items|, i requires 0 <= i < |items| => RawOfOrderItem(items[i]))
  }

  /** Distinct item lists are written out as distinct bodies. */
  lemma RawOfOrderItemsInjective(a: seq<OrderItem>, b: seq<OrderItem>)
    requires RawOfOrderItems(a) == RawOfOrderItems(b)
    ensures a == b
  {
    assert forall i :: 0 <= i < |a| ==> RawOfOrderItems(a)[i] == RawOfOrderItems(b)[i];
  }

  /** The errors of `raw` placed under position `i` of the list field `field`. */
  function Nested(field: string, i: nat, es: seq<FieldError>): (r: seq<FieldError>)
    ensures |r| == |es|
    ensures AllUnder(field, r)
  {
    if es == [] then [] else [FieldError([Key(field), Index(i)] + es[0].loc, es[0].kind)] + Nested(field, i, es[1..])
  }

  /** The error is located at position `j` of a list field. */
  predicate AtItem(e: FieldError, j: nat) {
    |e.loc| >= 2 && e.loc[1] == Index(j)
  }

  /** Nested errors are all located at the position they were placed under. */
  lemma {:induction false} NestedAt(field: string, i: nat, es: seq<FieldError>)
    ensures forall k :: 0 <= k < |Nested(field, i, es)| ==> AtItem(Nested(field, i, es)[k], i)
  {
    if es != [] {
      var r := Nested(field, i, es);
      var rest := Nested(field, i, es[1..]);
      assert r == [r[0]] + rest;
      NestedAt(field, i, es[1..]);
      forall k | 0 <= k < |r| ensures AtItem(r[k], i) {
        if k > 0 {
          assert r[k] == rest[k - 1];
        }
      }
    }
  }

  /** Every error of `es` is located under the top-level field `field`. */
  predicate AllUnder(field: string, es: seq<FieldError>) {
    forall k :: 0 <= k < |es| ==> |es[k].loc| > 0 && es[k].loc[0] == Key(field)
  }

  lemma AllUnderAppend(field: string, a: seq<FieldError>, b: seq<FieldError>)
    requires AllUnder(field, a) && AllUnder(field, b)
    ensures AllUnder(field, a + b)
  {
    forall k | 0 <= k < |a + b| ensures |(a + b)[k].loc| > 0 && (a + b)[k].loc[0] == Key(field) {
      if k < |a| {
        assert (a + b)[k] == a[k];
      } else {
        assert (a + b)[k] == b[k - |a|];
      }
    }
  }

  /** Errors that all sit under one field name just that field. */
  lemma UnderField(field: string, es: seq<FieldError>)
    requires AllUnder(field, es)
    ensures ErrorFields(es) == if es == [] then {} else {field}
  {
    if es != [] {
      assert es[0].loc[0].name == field;
    }
  }

  predicate ItemsValid(raws: seq<RawOrderItem>) {
    forall i :: 0 <= i < |raws| ==> ValidateOrderItem(raws[i]).Ok?
  }

  lemma ItemsValidSplit(raws: seq<RawOrderItem>)
    requires raws != []
    ensures ItemsValid(raws) <==> ItemsValid(raws[..|raws| - 1]) && OrderItemErrors(raws[|raws| - 1]) == []
  {
    assert forall i :: 0 <= i < |raws| - 1 ==> raws[..|raws| - 1][i] == raws[i];
  }

  /** Item-by-item validation of a `List[OrderItem]` field named `field`. */
  function ItemsErrors(field: string, raws: seq<RawOrderItem>): (es: seq<FieldError>)
    ensures es == [] <==> ItemsValid(raws)
  {
    if raws == [] then []
    else
      var n := |raws| - 1;
      ItemsValidSplit(raws);
      ItemsErrors(field, raws[..n]) + Nested(field, n, OrderItemErrors(raws[n]))
  }

  /** Every error about an item is reported under the list field. */
  lemma {:induction false} ItemsErrorsUnder(field: string, raws: seq<RawOrderItem>)
    ensures AllUnder(field, ItemsErrors(field, raws))
  {
    if raws != [] {
      var n := |raws| - 1;
      var front := ItemsErrors(field, raws[..n]);
      var last := Nested(field, n, OrderItemErrors(raws[n]));
      assert ItemsErrors(field, raws) == front + last;
      ItemsErrorsUnder(field, raws[..n]);
      AllUnderAppend(field, front, last);
    }
  }

  /** The error is located at the position of an item that fails validation. */
  predicate AtInvalidItem(raws: seq<RawOrderItem>, e: FieldError) {
    exists j :: 0 <= j < |raws| && AtItem(e, j) && ValidateOrderItem(raws[j]).Err?
  }

  /** Every error of `es` is located at the position of an invalid item. */
  predicate AllAtInvalid(raws: seq<RawOrderItem>, es: seq<FieldError>) {
    forall k :: 0 <= k < |es| ==> AtInvalidItem(raws, es[k])
  }

  /** Every item error is located at the position of an invalid item. */
  lemma {:induction false} ItemsErrorsAtInvalid(field: string, raws: seq<RawOrderItem>)
    ensures AllAtInvalid(raws, ItemsErrors(field, raws))
  {
    if raws != [] {
      var n := |raws| - 1;
      var front := ItemsErrors(field, raws[..n]);
      var last := Nested(field, n, OrderItemErrors(raws[n]));
      assert ItemsErrors(field, raws) == front + last;
      ItemsErrorsAtInvalid(field, raws[..n]);
      NestedAt(field, n, OrderItemErrors(raws[n]));
      forall k | 0 <= k < |front| ensures AtInvalidItem(raws, front[k]) {
        assert AtInvalidItem(raws[..n], front[k]);
        var j :| 0 <= j < n && AtItem(front[k], j) && ValidateOrderItem(raws[..n][j]).Err?;
        assert raws[..n][j] == raws[j];
      }
      forall k | 0 <= k < |last| ensures AtInvalidItem(raws, last[k]) {
        assert OrderItemErrors(raws[n]) != [];
        assert AtItem(last[k], n) && ValidateOrderItem(raws[n]).Err?;
      }
      AllAtInvalidAppend(raws, front, last);
    }
  }

  lemma AllAtInvalidAppend(raws: seq<RawOrderItem>, a: seq<FieldError>, b: seq<FieldError>)
    requires forall k :: 0 <= k < |a| ==> AtInvalidItem(raws, a[k])
    requires forall k :: 0 <= k < |b| ==> AtInvalidItem(raws, b[k])
    ensures AllAtInvalid(raws, a + b)
  {
    forall k | 0 <= k < |a + b| ensures AtInvalidItem(raws, (a + b)[k]) {
      if k < |a| { assert (a + b)[k] == a[k]; } else { assert (a + b)[k] == b[k - |a|]; }
    }
  }

  /** Some error of `es` is located at position `j`. */
  predicate HasErrorAt(es: seq<FieldError>, j: nat) {
    exists k :: 0 <= k < |es| && AtItem(es[k], j)
  }

  lemma HasErrorAtAppend(a: seq<FieldError>, b: seq<FieldError>, j: nat)
    requires HasErrorAt(a, j) || HasErrorAt(b, j)
    ensures HasErrorAt(a + b, j)
  {
    if HasErrorAt(a, j) {
      var k :| 0 <= k < |a| && AtItem(a[k], j);
      assert (a + b)[k] == a[k];
    } else {
      var k :| 0 <= k < |b| && AtItem(b[k], j);
      assert (a + b)[|a| + k] == b[k];
    }
  }

  /** Every invalid item has an error located at its position. */
  lemma {:induction false} InvalidItemHasError(field: string, raws: seq<RawOrderItem>)
    ensures forall j :: 0 <= j < |raws| && ValidateOrderItem(raws[j]).Err? ==> HasErrorAt(ItemsErrors(field, raws), j)
  {
    if raws != [] {
      var n := |raws| - 1;
      var front := ItemsErrors(field, raws[..n]);
      var last := Nested(field, n, OrderItemErrors(raws[n]));
      assert ItemsErrors(field, raws) == front + last;
      InvalidItemHasError(field, raws[..n]);
      NestedAt(field, n, OrderItemErrors(raws[n]));
      forall j | 0 <= j < |raws| && ValidateOrderItem(raws[j]).Err? ensures HasErrorAt(ItemsErrors(field, raws), j) {
        if j < n {
          assert raws[..n][j] == raws[j];
        } else {
          assert j == n && OrderItemErrors(raws[n]) != [];
          assert AtItem(last[0], n);
        }
        HasErrorAtAppend(front, last, j);
      }
    }
  }

  /** The validated items; defined when `ItemsErrors` is empty. */
  function ItemsValue(raws: seq<RawOrderItem>): (items: seq<OrderItem>)
    requires forall i :: 0 <= i < |raws| ==> ValidateOrderItem(raws[i]).Ok?
    ensures |items| == |raws|
    ensures forall i :: 0 <= i < |raws| ==> Ok(items[i]) == ValidateOrderItem(raws[i])
  {
    seq(|raws|, i requires 0 <= i < |raws| => ValidateOrderItem(raws[i]).value)
  }

  /** Validated items are valid and are written out as the bodies they came from. */
  lemma ItemsValueRoundTrip(raws: seq<RawOrderItem>)
    requires forall i :: 0 <= i < |raws| ==> ValidateOrderItem(raws[i]).Ok?
    ensures forall i :: 0 <= i < |raws| ==> ValidOrderItem(ItemsValue(raws)[i])
    ensures RawOfOrderItems(ItemsValue(raws)) == raws
  {
    var items := ItemsValue(raws);
    forall i | 0 <= i < |items| ensures ValidOrderItem(items[i]) && RawOfOrderItems(items)[i] == raws[i] {
      assert Ok(items[i]) == ValidateOrderItem(raws[i]);
    }
  }

  /** Writing valid items out as bodies and validating them again gives them back. */
  lemma {:induction false} ItemsRoundTrip(items: seq<OrderItem>)
    requires forall i :: 0 <= i < |items| ==> ValidOrderItem(items[i])
    ensures ItemsErrors("items", RawOfOrderItems(items)) == []
    ensures ItemsValue(RawOfOrderItems(items)) == items
  {
    var raws := RawOfOrderItems(items);
    forall i | 0 <= i < |raws|
      ensures ValidateOrderItem(raws[i]) == Ok(items[i])
    {
    }
  }

  // ---------------------------------------------------------------------------
  // Order (schemas.py:49-59)

  /** The statuses the schema documents; `status` itself is a free string. */
  const OrderStatuses: seq<string> :=
    ["pending", "confirmed", "preparing", "out_for_delivery", "delivered", "cancelled"]

  datatype Order = Order(
    restaurantId: string,
    customerId: Option<string>,
    customerName: Option<string>,
    customerAddress: Option<string>,
    customerEmail: Option<string>,
    items: seq<OrderItem>,
    subtotal: int,       // cents
    deliveryFee: int,    // cents
    total: int,          // cents
    status: string)

  datatype RawOrder = RawOrder(
    restaurantId: Field<string>,
    customerId: Field<string>,
    customerName: Field<string>,
    customerAddress: Field<string>,
    customerEmail: Field<string>,
    items: Field<seq<RawOrderItem>>,
    subtotal: Field<int>,
    deliveryFee: Field<int>,
    total: Field<int>,
    status: Field<string>)

  /**
   * The constraints of an order. `isEmail` stands for the `EmailStr` check, which
   * belongs to a foreign library. No constraint bounds the amounts or the status.
   */
  predicate ValidOrder(o: Order, isEmail: string -> bool) {
    && (o.customerEmail.Some? ==> isEmail(o.customerEmail.value))
    && forall i :: 0 <= i < |o.items| ==> ValidOrderItem(o.items[i])
  }

  predicate RawOrderOk(raw: RawOrder, isEmail: string -> bool) {
    && raw.restaurantId.Given?
    && (raw.customerEmail.Given? ==> isEmail(raw.customerEmail.v))
    && raw.items.Given? && (forall i :: 0 <= i < |raw.items.v| ==> ValidateOrderItem(raw.items.v[i]).Ok?)
    && !raw.subtotal.Null? && !raw.deliveryFee.Null? && !raw.total.Null? && !raw.status.Null?
  }

  function EmailErrors(f: Field<string>, isEmail: string -> bool): (es: seq<FieldError>)
    ensures es == [] <==> (f.Given? ==> isEmail(f.v))
  {
    if f.Given? && !isEmail(f.v) then ErrorAt("customer_email", NotAnEmail) else []
  }

  /**
   * The fields of an order body that break a constraint of `Order`, in the order
   * they are checked: `items` is named when missing and when an item is invalid.
   */
  function OrderOffending(raw: RawOrder, isEmail: string -> bool): set<string> {
    ((if raw.restaurantId.Given? then {} else {"restaurant_id"})
     + (if raw.customerEmail.Given? && !isEmail(raw.customerEmail.v) then {"customer_email"} else {})
     + (if raw.items.Given? then {} else {"items"})
     + (if raw.items.Given? && !ItemsValid(raw.items.v) then {"items"} else {}))
    + ((if raw.subtotal.Null? then {"subtotal"} else {})
       + (if raw.deliveryFee.Null? then {"delivery_fee"} else {})
       + (if raw.total.Null? then {"total"} else {})
       + (if raw.status.Null? then {"status"} else {}))
  }

  function OrderErrors(raw: RawOrder, isEmail: string -> bool): (es: seq<FieldError>)
    ensures es == [] <==> RawOrderOk(raw, isEmail)
  {
    var e1 := RequiredErrors("restaurant_id", raw.restaurantId);
    var e2 := EmailErrors(raw.customerEmail, isEmail);
    var e3 := RequiredErrors("items", raw.items);
    var e4 := if raw.items.Given? then ItemsErrors("items", raw.items.v) else [];
    var e5 := NotNullErrors("subtotal", raw.subtotal);
    var e6 := NotNullErrors("delivery_fee", raw.deliveryFee);
    var e7 := NotNullErrors("total", raw.total);
    var e8 := NotNullErrors("status", raw.status);
    ((e1 + e2) + (e3 + e4)) + ((e5 + e6) + (e7 + e8))
  }

  /** The fields named by four runs of errors, one after the other. */
  lemma ErrorFieldsAppend4(a: seq<FieldError>, b: seq<FieldError>, c: seq<FieldError>, d: seq<FieldError>)
    ensures ErrorFields((a + b) + (c + d)) == ErrorFields(a) + ErrorFields(b) + ErrorFields(c) + ErrorFields(d)
  {
    ErrorFieldsAppend(a, b);
    ErrorFieldsAppend(c, d);
    ErrorFieldsAppend(a + b, c + d);
  }

  /** The fields an order body's errors name are exactly its offending fields. */
  lemma OrderErrorFields(raw: RawOrder, isEmail: string -> bool)
    ensures ErrorFields(OrderErrors(raw, isEmail)) == OrderOffending(raw, isEmail)
  {
    var e1 := RequiredErrors("restaurant_id", raw.restaurantId);
    var e2 := EmailErrors(raw.customerEmail, isEmail);
    var e3 := RequiredErrors("items", raw.items);
    var e4 := if raw.items.Given? then ItemsErrors("items", raw.items.v) else [];
    var e5 := NotNullErrors("subtotal", raw.subtotal);
    var e6 := NotNullErrors("delivery_fee", raw.deliveryFee);
    var e7 := NotNullErrors("total", raw.total);
    var e8 := NotNullErrors("status", raw.status);
    assert ErrorFields(e2) == if raw.customerEmail.Given? && !isEmail(raw.customerEmail.v) then {"customer_email"} else {};
    if raw.items.Given? { ItemsErrorsUnder("items", raw.items.v); }
    UnderField("items", e4);
    ErrorFieldsAppend4(e1, e2, e3, e4);
    NotNullFields("subtotal", raw.subtotal);
    NotNullFields("delivery_fee", raw.deliveryFee);
    NotNullFields("total", raw.total);
    NotNullFields("status", raw.status);
    ErrorFieldsAppend4(e5, e6, e7, e8);
    ErrorFieldsAppend((e1 + e2) + (e3 + e4), (e5 + e6) + (e7 + e8));
  }

  /** `Order(**body)`: the record with defaults applied (amounts 0, status "pending"), or the offending fields. */
  function ValidateOrder(raw: RawOrder, isEmail: string -> bool): (r: Result<Order, seq<FieldError>>)
    ensures r.Ok? <==> RawOrderOk(raw, isEmail)
    ensures r.Err? ==> r.error != []
    ensures r.Ok? ==> ValidOrder(r.value, isEmail)
    ensures r.Ok? ==> raw.restaurantId == Given(r.value.restaurantId)
    ensures r.Ok? ==> raw.items == Given(RawOfOrderItems(r.value.items))
    ensures r.Ok? ==> Resolved(raw.customerId, r.value.customerId, None)
    ensures r.Ok? ==> Resolved(raw.customerName, r.value.customerName, None)
    ensures r.Ok? ==> Resolved(raw.customerAddress, r.value.customerAddress, None)
    ensures r.Ok? ==> Resolved(raw.customerEmail, r.value.customerEmail, None)
    ensures r.Ok? ==> Resolved(raw.subtotal, Some(r.value.subtotal), Some(0))
    ensures r.Ok? ==> Resolved(raw.deliveryFee, Some(r.value.deliveryFee), Some(0))
    ensures r.Ok? ==> Resolved(raw.total, Some(r.value.total), Some(0))
    ensures r.Ok? ==> Resolved(raw.status, Some(r.value.status), Some("pending"))
  {
    var es := OrderErrors(raw, isEmail);
    if es != [] then Err(es)
    else
      var items := ItemsValue(raw.items.v);
      ItemsValueRoundTrip(raw.items.v);
      Ok(Order(
        raw.restaurantId.v,
        OptionalValue(raw.customerId, None),
        OptionalValue(raw.customerName, None),
        OptionalValue(raw.customerAddress, None),
        OptionalValue(raw.customerEmail, None),
        items,
        DefaultedValue(raw.subtotal, 0),
        DefaultedValue(raw.deliveryFee, 0),
        DefaultedValue(raw.total, 0),
        DefaultedValue(raw.status, "pending")))
  }

  /** A rejected order body names exactly its offending fields. */
  lemma ValidateOrderNamesOffending(raw: RawOrder, isEmail: string -> bool)
    ensures ValidateOrder(raw, isEmail).Err? ==> ErrorFields(ValidateOrder(raw, isEmail).error) == OrderOffending(raw, isEmail)
  {
    OrderErrorFields(raw, isEmail);
  }

  /** Any status string is accepted, including one outside the documented lifecycle. */
  lemma StatusIsUnconstrained(raw: RawOrder, isEmail: string -> bool, status: string)
    requires RawOrderOk(raw, isEmail)
    ensures ValidateOrder(raw.(status := Given(status)), isEmail).Ok?
    ensures ValidateOrder(raw.(status := Given(status)), isEmail).value.status == status
  {
  }

  /** A status outside the documented lifecycle, such as "refunded", is accepted and stored as given. */
  lemma UndocumentedStatusIsKept(raw: RawOrder, isEmail: string -> bool)
    requires RawOrderOk(raw, isEmail)
    ensures "refunded" !in OrderStatuses
    ensures ValidateOrder(raw.(status := Given("refunded")), isEmail).Ok?
    ensures ValidateOrder(raw.(status := Given("refunded")), isEmail).value.status == "refunded"
  {
    StatusIsUnconstrained(raw, isEmail, "refunded");
  }

  /** An order given only its restaurant and items has zero amounts and status "pending". */
  lemma OrderDefaults(restaurantId: string, items: seq<OrderItem>, isEmail: string -> bool)
    requires forall i :: 0 <= i < |items| ==> ValidOrderItem(items[i])
    ensures var r := ValidateOrder(RawOrder(Given(restaurantId), Absent, Absent, Absent, Absent,
                                            Given(RawOfOrderItems(items)), Absent, Absent, Absent, Absent), isEmail);
      r.Ok? && r.value == Order(restaurantId, None, None, None, None, items, 0, 0, 0, "pending")
  {
    ItemsRoundTrip(items);
  }

  // ---------------------------------------------------------------------------
  // Collections (schemas.py:4-8)

  /** The models of schemas.py that name a collection. */
  datatype Model = RestaurantModel | MenuItemModel | OrderModel | CustomerModel

  function ClassName(m: Model): string {
    match m
    case RestaurantModel => "Restaurant"
    case MenuItemModel => "MenuItem"
    case OrderModel => "Order"
    case CustomerModel => "Customer"
  }

  /** Each model is stored in the collection named by its lower-cased class name. */
  function CollectionName(m: Model): (r: string)
    ensures r == Lower(ClassName(m))
  {
    match m
    case RestaurantModel => "restaurant"
    case MenuItemModel => "menuitem"
    case OrderModel => "order"
    case CustomerModel => "customer"
  }

  /** The collection names the handlers use are the ones `CollectionName` gives. */
  lemma CollectionNames()
    ensures CollectionName(RestaurantModel) == "restaurant" && CollectionName(MenuItemModel) == "menuitem"
    ensures CollectionName(OrderModel) == "order"
  {
  }

  // ---------------------------------------------------------------------------
  // Records as stored documents (`model_dump()`)

  function OptStr(o: Option<string>): Value {
    if o.Some? then VStr(o.value) else VNull
  }

  function OptNum(o: Option<int>): Value {
    if o.Some? then VNum(o.value) else VNull
  }

  function OptInt(o: Option<int>): Value {
    if o.Some? then VInt(o.value) else VNull
  }

  function OptBool(o: Option<bool>): Value {
    if o.Some? then VBool(o.value) else VNull
  }

  /** `model_dump()` of a restaurant. */
  function RestaurantDoc(r: Restaurant): Document {
    map["name" := VStr(r.name), "description" := OptStr(r.description), "cuisine" := OptStr(r.cuisine),
        "image_url" := OptStr(r.imageUrl), "rating" := OptNum(r.rating),
        "delivery_fee" := OptNum(r.deliveryFee), "eta_minutes" := OptInt(r.etaMinutes)]
  }

  /** `model_dump()` of a menu item. */
  function MenuItemDoc(m: MenuItem): Document {
    map["restaurant_id" := VStr(m.restaurantId), "name" := VStr(m.name),
        "description" := OptStr(m.description), "price" := VNum(m.price),
        "image_url" := OptStr(m.imageUrl), "is_veg" := OptBool(m.isVeg),
        "spicy_level" := OptInt(m.spicyLevel)]
  }

  function OrderItemDoc(it: OrderItem): Value {
    VDoc(map["menu_item_id" := VStr(it.menuItemId), "quantity" := VInt(it.quantity)])
  }

  function ItemsDoc(items: seq<OrderItem>): Value {
    VList(seq(|items|, i requires 0 <= i < |items| => OrderItemDoc(items[i])))
  }

  /** `model_dump()` of an order. */
  function OrderDoc(o: Order): Document {
    map["restaurant_id" := VStr(o.restaurantId), "customer_id" := OptStr(o.customerId),
        "customer_name" := OptStr(o.customerName), "customer_address" := OptStr(o.customerAddress),
        "customer_email" := OptStr(o.customerEmail),
        "items" := ItemsDoc(o.items),
        "subtotal" := VNum(o.subtotal), "delivery_fee" := VNum(o.deliveryFee),
        "total" := VNum(o.total), "status" := VStr(o.status)]
  }
}
