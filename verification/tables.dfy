/** controllers/tableController.go: create, and an update with no reference to check. */
module Tables {
  import opened Wrappers
  import opened Replies
  import opened Clock
  import opened Documents
  import opened Stores
  import opened Models

  function TableFields(p: TablePayload): Doc
  {
    map["number_of_guests" := OptInt(p.numberOfGuests), "table_number" := OptInt(p.tableNumber)]
  }

  /** `CreateTable`: validate (the table model's tags are the parameter `validate`), then
      insert. */
  function CreateTable(s: Store, p: TablePayload, validate: TablePayload -> seq<FieldError>, env: Env): (r: Result<Store>)
    ensures r.Ok? <==> validate(p) == []
    ensures r.Err? ==> r.error == Reject(BadRequest, Violations(validate(p)))
    ensures r.Ok? ==> r.value == s.(tables := s.tables + [Created(TableFields(p), "table_id", env)])
  {
    var errors := validate(p);
    if errors != [] then Err(Reject(BadRequest, Violations(errors)))
    else Ok(s.(tables := s.tables + [Created(TableFields(p), "table_id", env)]))
  }

  /** The `$set` document of `UpdateTable`. */
  function TableChanges(p: TablePayload, now: Instant): (staged: Doc)
    ensures "number_of_guests" in staged <==> p.numberOfGuests.Some?
    ensures "table_number" in staged <==> p.tableNumber.Some?
    ensures staged.Keys <= {"number_of_guests", "table_number", "updated_at"}
    ensures "updated_at" in staged && staged["updated_at"] == Stamp(now)
    ensures forall k :: k in staged && k != "updated_at" ==> staged[k] == TableFields(p)[k]
  {
    var staged := Stage(map[], "number_of_guests", if p.numberOfGuests.Some? then Some(Int(p.numberOfGuests.value)) else None);
    var staged := Stage(staged, "table_number", if p.tableNumber.Some? then Some(Int(p.tableNumber.value)) else None);
    staged["updated_at" := Stamp(now)]
  }

  /** `UpdateTable`: no lookup; the staged fields are `$set` on the table keyed by
      `table_id`, inserting one if there is none. */
  function UpdateTable(s: Store, id: string, p: TablePayload, env: Env): (r: Store)
    ensures r.(tables := s.tables) == s
    ensures Upserted(s.tables, r.tables, "table_id", id, TableChanges(p, env.now), env.upsertedId)
  {
    s.(tables := UpdateOneUpsert(s.tables, "table_id", id, TableChanges(p, env.now), env.upsertedId))
  }
}
