/** controllers/menuController.go: create, and the update whose date window must contain
    the current time. */
module Menus {
  import opened Wrappers
  import opened Replies
  import opened Clock
  import opened Documents
  import opened Stores
  import opened Models

  /** `inTimeSpan`: `check` lies strictly after `start` and strictly before `end`. */
  predicate InTimeSpan(start: Instant, end: Instant, check: Instant): (inside: bool)
    ensures inside ==> start < end
    ensures inside ==> check != start && check != end
  {
    start < check && check < end
  }

  /** A window whose end is not after its start contains no instant, and neither end point
      belongs to any window. */
  lemma EmptyWindowRejects(start: Instant, end: Instant, check: Instant)
    ensures end <= start ==> !InTimeSpan(start, end, check)
    ensures !InTimeSpan(start, end, start) && !InTimeSpan(start, end, end)
  {
  }

  function MenuFields(p: MenuPayload): Doc
  {
    map["name" := OptStr(p.name), "category" := OptStr(p.category),
        "start_date" := OptTime(p.startDate), "end_date" := OptTime(p.endDate)]
  }

  /** `CreateMenu`: validate (the menu model's tags are the parameter `validate`), then
      insert; no date window is checked. */
  function CreateMenu(s: Store, p: MenuPayload, validate: MenuPayload -> seq<FieldError>, env: Env): (r: Result<Store>)
    ensures r.Ok? <==> validate(p) == []
    ensures r.Err? ==> r.error == Reject(BadRequest, Violations(validate(p)))
    ensures r.Ok? ==> r.value == s.(menus := s.menus + [Created(MenuFields(p), "menu_id", env)])
  {
    var errors := validate(p);
    if errors != [] then Err(Reject(BadRequest, Violations(errors)))
    else Ok(s.(menus := s.menus + [Created(MenuFields(p), "menu_id", env)]))
  }

  /** The `$set` document of `UpdateMenu`: the dates only as a pair, never name or category. */
  function MenuChanges(p: MenuPayload, now: Instant): (staged: Doc)
    ensures "start_date" in staged <==> p.startDate.Some? && p.endDate.Some?
    ensures "end_date" in staged <==> p.startDate.Some? && p.endDate.Some?
    ensures staged.Keys <= {"start_date", "end_date", "updated_at"}
    ensures "updated_at" in staged && staged["updated_at"] == Stamp(now)
    ensures forall k :: k in staged && k != "updated_at" ==> staged[k] == MenuFields(p)[k]
  {
    var staged: Doc := map[];
    var staged := if p.startDate.Some? && p.endDate.Some? then
        staged["start_date" := DateTime(p.startDate.value)]["end_date" := DateTime(p.endDate.value)]
      else staged;
    staged["updated_at" := Stamp(now)]
  }

  /** `UpdateMenu`: when both dates are given and the current time is not strictly inside
      them, nothing is written; otherwise the staged fields are `$set` on the menu keyed by
      `menu_id`, inserting one if there is none. */
  function UpdateMenu(s: Store, id: string, p: MenuPayload, env: Env): (r: Result<Store>)
    ensures r.Err? <==> p.startDate.Some? && p.endDate.Some? && !InTimeSpan(p.startDate.value, p.endDate.value, env.now)
    ensures r.Err? ==> r.error == Reject(BadRequest, Text("please retype the time"))
    ensures r.Ok? ==> r.value.(menus := s.menus) == s
    ensures r.Ok? ==> Upserted(s.menus, r.value.menus, "menu_id", id, MenuChanges(p, env.now), env.upsertedId)
  {
    if p.startDate.Some? && p.endDate.Some? && !InTimeSpan(p.startDate.value, p.endDate.value, env.now) then
      Err(Reject(BadRequest, Text("please retype the time")))
    else
      Ok(s.(menus := UpdateOneUpsert(s.menus, "menu_id", id, MenuChanges(p, env.now), env.upsertedId)))
  }

  /** An update that gives at most one of the dates is accepted and leaves both dates of
      every menu as they were. */
  lemma SingleDateLeavesDates(s: Store, id: string, p: MenuPayload, env: Env, i: int)
    requires 0 <= i < |s.menus|
    requires p.startDate.None? || p.endDate.None?
    ensures UpdateMenu(s, id, p, env).Ok?
    ensures var after := UpdateMenu(s, id, p, env).value.menus;
      Get(after[i], "start_date") == Get(s.menus[i], "start_date") &&
      Get(after[i], "end_date") == Get(s.menus[i], "end_date")
  {
    var after := UpdateMenu(s, id, p, env).value.menus;
    var staged := MenuChanges(p, env.now);
    if Exists(s.menus, "menu_id", Str(id)) {
      var m := FindFirst(s.menus, "menu_id", Str(id)).value;
      if i != m {
        assert after[i] == s.menus[i];
      }
    } else {
      assert after[i] == s.menus[i];
    }
  }
}
