/** controllers/orderController.go: create with an optional table check, and an update that
    can only move the order to another table. */
module Orders {
  import opened Wrappers
  import opened Replies
  import opened Clock
  import opened Documents
  import opened Stores
  import opened Models

  function OrderFields(p: OrderPayload): Doc
  {
    map["table_id" := OptStr(p.tableId)]
  }

  /** `CreateOrder`: validate (the order model's tags are the parameter `validate`); a
      given `table_id` must name a table, an absent one is not looked up; then insert. */
  function CreateOrder(s: Store, p: OrderPayload, validate: OrderPayload -> seq<FieldError>, env: Env): (r: Result<Store>)
    ensures r.Ok? <==> validate(p) == [] && (p.tableId.Some? ==> Exists(s.tables, "table_id", Str(p.tableId.value)))
    ensures validate(p) != [] ==> r == Err(Reject(BadRequest, Violations(validate(p))))
    ensures validate(p) == [] && p.tableId.Some? && !Exists(s.tables, "table_id", Str(p.tableId.value)) ==>
      r == Err(Reject(InternalServerError, Text("table was not found")))
    ensures r.Ok? ==> r.value == s.(orders := s.orders + [Created(OrderFields(p), "order_id", env)])
  {
    var errors := validate(p);
    if errors != [] then Err(Reject(BadRequest, Violations(errors)))
    else if p.tableId.Some? && FindOne(s.tables, "table_id", Str(p.tableId.value)).None? then
      Err(Reject(InternalServerError, Text("table was not found")))
    else Ok(s.(orders := s.orders + [Created(OrderFields(p), "order_id", env)]))
  }

  /** An order without a table is created whatever the tables are: no lookup happens. */
  lemma OrderWithoutTableIgnoresTables(s: Store, p: OrderPayload, validate: OrderPayload -> seq<FieldError>, env: Env, tables: Collection)
    requires p.tableId.None?
    ensures CreateOrder(s, p, validate, env).Ok? == CreateOrder(s.(tables := tables), p, validate, env).Ok?
  {
  }

  /** The `$set` document of `UpdateOrder`. */
  function OrderChanges(p: OrderPayload, now: Instant): (staged: Doc)
    ensures "table_id" in staged <==> p.tableId.Some?
    ensures staged.Keys <= {"table_id", "updated_at"}
    ensures "updated_at" in staged && staged["updated_at"] == Stamp(now)
    ensures forall k :: k in staged && k != "updated_at" ==> staged[k] == OrderFields(p)[k]
  {
    var staged := Stage(map[], "table_id", if p.tableId.Some? then Some(Str(p.tableId.value)) else None);
    staged["updated_at" := Stamp(now)]
  }

  /** `UpdateOrder`: a supplied `table_id` must name a table, otherwise nothing is written;
      then the staged fields are `$set` on the order keyed by `order_id`, inserting one if
      there is none. */
  function UpdateOrder(s: Store, id: string, p: OrderPayload, env: Env): (r: Result<Store>)
    ensures r.Err? <==> p.tableId.Some? && !Exists(s.tables, "table_id", Str(p.tableId.value))
    ensures r.Err? ==> r.error == Reject(InternalServerError, Text("table was not found"))
    ensures r.Ok? ==> r.value.(orders := s.orders) == s
    ensures r.Ok? ==> Upserted(s.orders, r.value.orders, "order_id", id, OrderChanges(p, env.now), env.upsertedId)
  {
    if p.tableId.Some? && FindOne(s.tables, "table_id", Str(p.tableId.value)).None? then
      Err(Reject(InternalServerError, Text("table was not found")))
    else
      Ok(s.(orders := UpdateOneUpsert(s.orders, "order_id", id, OrderChanges(p, env.now), env.upsertedId)))
  }
}
