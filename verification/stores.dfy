/** The eight collections, the environment a write reads (clock and fresh ids), and the
    referential-integrity invariant the controllers maintain at write time. */
module Stores {
  import opened Wrappers
  import opened ObjectIds
  import opened Clock
  import opened Documents

  datatype Store = Store(
    users: Collection,
    menus: Collection,
    foods: Collection,
    tables: Collection,
    orders: Collection,
    orderItems: Collection,
    invoices: Collection,
    notes: Collection)

  /** What a write takes from its surroundings: the clock reading, the `ObjectID` the
      handler generates for an insert, and the one the store assigns when an update
      inserts instead (upsert). */
  datatype Env = Env(now: Instant, newId: ObjectId, upsertedId: ObjectId)

  /** The timestamp the handlers store: the clock read back through RFC 3339, a whole
      second, which the DateTime it is stored as keeps exactly. */
  function Stamp(now: Instant): (v: Value)
    ensures v == Time(Rfc3339(now))
  {
    Rfc3339IsWholeMillis(now);
    DateTime(Rfc3339(now))
  }

  /** The keys every create sets itself. */
  predicate Reserved(k: string, idKey: string)
  {
    k == "_id" || k == idKey || k == "created_at" || k == "updated_at"
  }

  /** A new document as every create builds it: the payload's fields, `_id` the fresh
      `ObjectID`, the domain id its hex form, and both timestamps the current time. */
  function Created(fields: Doc, idKey: string, env: Env): (d: Doc)
    requires !Reserved(idKey, "")
    ensures d.Keys == fields.Keys + {"_id", idKey, "created_at", "updated_at"}
    ensures d["_id"] == Id(env.newId)
    ensures d[idKey] == Str(Hex(env.newId))
    ensures d["created_at"] == Stamp(env.now) && d["updated_at"] == Stamp(env.now)
    ensures forall k :: k in fields && !Reserved(k, idKey) ==> d[k] == fields[k]
  {
    fields + map["_id" := Id(env.newId), idKey := Str(Hex(env.newId)),
                 "created_at" := Stamp(env.now), "updated_at" := Stamp(env.now)]
  }

  /** What every create handler promises its caller: the new document is what a lookup by
      its fresh domain id returns, provided no earlier document carries that id. */
  lemma CreatedIsFound(c: Collection, fields: Doc, idKey: string, env: Env)
    requires !Reserved(idKey, "")
    requires !Exists(c, idKey, Str(Hex(env.newId)))
    ensures FindOne(c + [Created(fields, idKey, env)], idKey, Str(Hex(env.newId))) == Some(Created(fields, idKey, env))
    ensures Count(c + [Created(fields, idKey, env)], idKey, Str(Hex(env.newId))) == 1
  {
    var d := Created(fields, idKey, env);
    AppendedIsFound(c, d, idKey, Str(Hex(env.newId)));
    assert (c + [d])[..|c|] == c;
  }

  /** Every soft foreign key stored in the store resolves: foods to menus, orders to
      tables, order items to orders and foods, invoices to orders. */
  ghost predicate Integrity(s: Store)
  {
    && RefsResolve(s.foods, "menu_id", s.menus)
    && RefsResolve(s.orders, "table_id", s.tables)
    && RefsResolve(s.orderItems, "order_id", s.orders)
    && RefsResolve(s.orderItems, "food_id", s.foods)
    && RefsResolve(s.invoices, "order_id", s.orders)
  }
}
