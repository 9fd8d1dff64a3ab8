/** controllers/orderItemController.go: create with the order and food checks and the unit
    price default, the update, and the listing of one order's items. */
module OrderItems {
  import opened Wrappers
  import opened Replies
  import opened Clock
  import opened ObjectIds
  import opened Documents
  import opened Stores
  import opened Models

  /** The item fields as stored, with the unit price the handler settles on. */
  function OrderItemFields(p: OrderItemPayload, unitPrice: Value): Doc
  {
    map["quantity" := OptInt(p.quantity), "unit_price" := unitPrice,
        "food_id" := OptStr(p.foodId), "order_id" := Str(p.orderId)]
  }

  /** The unit price of a new item: the payload's, or else the food's price as stored. */
  function UnitPrice(p: OrderItemPayload, food: Doc): Value
  {
    if p.unitPrice.Some? then Float(p.unitPrice.value) else Get(food, "price")
  }

  /** `CreateOrderItem`: validate, then check the order, then the food; the first failure
      is reported and nothing is written. */
  function CreateOrderItem(s: Store, p: OrderItemPayload, env: Env): (r: Result<Store>)
    ensures r.Ok? <==>
      && ValidateOrderItem(p) == []
      && Exists(s.orders, "order_id", Str(p.orderId))
      && Exists(s.foods, "food_id", OptStr(p.foodId))
    ensures ValidateOrderItem(p) != [] ==> r == Err(Reject(BadRequest, Violations(ValidateOrderItem(p))))
    ensures ValidateOrderItem(p) == [] && !Exists(s.orders, "order_id", Str(p.orderId)) ==>
      r == Err(Reject(InternalServerError, Text("order was not found")))
    ensures (ValidateOrderItem(p) == [] && Exists(s.orders, "order_id", Str(p.orderId))
             && !Exists(s.foods, "food_id", OptStr(p.foodId))) ==>
      r == Err(Reject(InternalServerError, Text("food item was not found")))
    ensures r.Ok? ==> r.value.(orderItems := s.orderItems) == s
    ensures r.Ok? ==>
      var food := FindOne(s.foods, "food_id", OptStr(p.foodId)).value;
      r.value.orderItems == s.orderItems + [Created(OrderItemFields(p, UnitPrice(p, food)), "order_item_id", env)]
  {
    var errors := ValidateOrderItem(p);
    if errors != [] then Err(Reject(BadRequest, Violations(errors)))
    else if FindOne(s.orders, "order_id", Str(p.orderId)).None? then
      Err(Reject(InternalServerError, Text("order was not found")))
    else
      match FindOne(s.foods, "food_id", OptStr(p.foodId))
      case None => Err(Reject(InternalServerError, Text("food item was not found")))
      case Some(food) =>
        Ok(s.(orderItems := s.orderItems + [Created(OrderItemFields(p, UnitPrice(p, food)), "order_item_id", env)]))
  }

  /** The fields of a new item as stored, whatever the store. */
  lemma CreatedOrderItemFields(p: OrderItemPayload, unitPrice: Value, env: Env)
    ensures var d := Created(OrderItemFields(p, unitPrice), "order_item_id", env);
      && d["unit_price"] == unitPrice && d["quantity"] == OptInt(p.quantity)
      && d["order_id"] == Str(p.orderId) && d["food_id"] == OptStr(p.foodId)
  {
    var fields := OrderItemFields(p, unitPrice);
    assert fields["unit_price"] == unitPrice && fields["quantity"] == OptInt(p.quantity);
    assert fields["order_id"] == Str(p.orderId) && fields["food_id"] == OptStr(p.foodId);
    assert !Reserved("unit_price", "order_item_id") && !Reserved("quantity", "order_item_id");
    assert !Reserved("order_id", "order_item_id") && !Reserved("food_id", "order_item_id");
  }

  /** The stored item: its id is the hex of the new `ObjectID`, its `order_id` and
      `food_id` resolve, and its unit price is always the payload's, because validation
      demands one: the fallback to the food's price never runs. */
  lemma CreatedOrderItem(s: Store, p: OrderItemPayload, env: Env)
    requires CreateOrderItem(s, p, env).Ok?
    ensures var items := CreateOrderItem(s, p, env).value.orderItems;
      && |items| == |s.orderItems| + 1
      && var d := items[|s.orderItems|];
      && d["order_item_id"] == Str(Hex(env.newId))
      && d["created_at"] == d["updated_at"] == Stamp(env.now)
      && p.unitPrice.Some? && d["unit_price"] == Float(p.unitPrice.value)
      && p.quantity.Some? && d["quantity"] == Int(p.quantity.value) && 1 <= p.quantity.value <= 5
      && d["order_id"] == Str(p.orderId) && d["food_id"] == OptStr(p.foodId)
      && Exists(s.orders, "order_id", d["order_id"])
      && Exists(s.foods, "food_id", d["food_id"])
  {
    var food := FindOne(s.foods, "food_id", OptStr(p.foodId)).value;
    var d := Created(OrderItemFields(p, UnitPrice(p, food)), "order_item_id", env);
    assert CreateOrderItem(s, p, env).value.orderItems == s.orderItems + [d];
    CreatedOrderItemFields(p, UnitPrice(p, food), env);
  }

  /** The `$set` document of `UpdateOrderItem`; `order_id` is never among its keys. */
  function OrderItemChanges(p: OrderItemPayload, now: Instant): (staged: Doc)
    ensures "quantity" in staged <==> p.quantity.Some?
    ensures "unit_price" in staged <==> p.unitPrice.Some?
    ensures "food_id" in staged <==> p.foodId.Some?
    ensures staged.Keys <= {"quantity", "unit_price", "food_id", "updated_at"}
    ensures "updated_at" in staged && staged["updated_at"] == Stamp(now)
    ensures forall k :: k in staged && k != "updated_at" ==>
      staged[k] == OrderItemFields(p, OptFloat(p.unitPrice))[k]
  {
    var staged := Stage(map[], "quantity", if p.quantity.Some? then Some(Int(p.quantity.value)) else None);
    var staged := Stage(staged, "unit_price", if p.unitPrice.Some? then Some(Float(p.unitPrice.value)) else None);
    var staged := Stage(staged, "food_id", if p.foodId.Some? then Some(Str(p.foodId.value)) else None);
    staged["updated_at" := Stamp(now)]
  }

  /** `UpdateOrderItem`: no validation runs; a supplied `food_id` must name a food,
      otherwise nothing is written; then the staged fields are `$set` on the item keyed by
      `order_item_id`, inserting one if there is none. */
  function UpdateOrderItem(s: Store, id: string, p: OrderItemPayload, env: Env): (r: Result<Store>)
    ensures r.Err? <==> p.foodId.Some? && !Exists(s.foods, "food_id", Str(p.foodId.value))
    ensures r.Err? ==> r.error == Reject(InternalServerError, Text("food item was not found"))
    ensures r.Ok? ==> r.value.(orderItems := s.orderItems) == s
    ensures r.Ok? ==> Upserted(s.orderItems, r.value.orderItems, "order_item_id", id, OrderItemChanges(p, env.now), env.upsertedId)
  {
    if p.foodId.Some? && FindOne(s.foods, "food_id", Str(p.foodId.value)).None? then
      Err(Reject(InternalServerError, Text("food item was not found")))
    else
      Ok(s.(orderItems := UpdateOneUpsert(s.orderItems, "order_item_id", id, OrderItemChanges(p, env.now), env.upsertedId)))
  }

  /** The update does not apply the model's quantity rule: any quantity is stored. */
  lemma UpdateStoresAnyQuantity(s: Store, id: string, q: int, env: Env)
    ensures var p := OrderItemPayload(Some(q), None, None, "");
      && UpdateOrderItem(s, id, p, env).Ok?
      && FindOne(UpdateOrderItem(s, id, p, env).value.orderItems, "order_item_id", Str(id)).Some?
      && Get(FindOne(UpdateOrderItem(s, id, p, env).value.orderItems, "order_item_id", Str(id)).value, "quantity") == Int(q)
  {
    var p := OrderItemPayload(Some(q), None, None, "");
    var staged := OrderItemChanges(p, env.now);
    UpsertedThenFound(s.orderItems, UpdateOrderItem(s, id, p, env).value.orderItems, "order_item_id", id, staged, env.upsertedId);
  }

  /** `GetOrderItemsByOrderID`: the items whose `order_id` is the parameter, in store order. */
  method ItemsOfOrder(s: Store, orderId: string) returns (items: Collection)
    ensures forall d :: d in items ==> d in s.orderItems && Get(d, "order_id") == Str(orderId)
    ensures forall j :: 0 <= j < |s.orderItems| && Get(s.orderItems[j], "order_id") == Str(orderId) ==>
      s.orderItems[j] in items
    ensures items == Filter(s.orderItems, "order_id", Str(orderId))
  {
    items := FindAll(s.orderItems, "order_id", Str(orderId));
    FilterExactly(s.orderItems, "order_id", Str(orderId));
  }
}
