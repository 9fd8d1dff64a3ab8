/** controllers/foodController.go: the paginated listing, create with a menu check, and the
    merging update. */
module Foods {
  import opened Wrappers
  import opened Replies
  import opened ObjectIds
  import opened Clock
  import opened Documents
  import opened Stores
  import opened Models

  /** The page size of the listing: the handler never changes it. */
  const RecordPerPage: int := 10

  /** The page number the handler ends up with. Both query parameters are parsed into the
      same variable, `page` last, so `recordPerPage` only matters when `page` is absent.
      `atoi` is `strconv.Atoi` with its error dropped (0 for unparsable text); an absent
      parameter reads as "". */
  function RequestedPage(recordPerPage: string, page: string, atoi: string -> int): (n: int)
    ensures page != "" ==> n == atoi(page)
    ensures page == "" && recordPerPage != "" ==> n == atoi(recordPerPage)
    ensures page == "" && recordPerPage == "" ==> n == 1
  {
    var fromDefault := 1;
    var fromRecordPerPage := if recordPerPage != "" then atoi(recordPerPage) else fromDefault;
    if page != "" then atoi(page) else fromRecordPerPage
  }

  lemma MulSign(d: int, size: int)
    requires size >= 1
    ensures d >= 1 ==> d * size >= size
    ensures d <= -1 ==> d * size <= -size
  {
    if d >= 1 {
      assert d * size == (d - 1) * size + size;
    } else if d <= -1 {
      assert d * size == -((-d - 1) * size) - size;
    }
  }

  /** `k` whole pages of `size` items end on a page boundary, at page `k`. */
  lemma MulDivExact(k: int, size: int)
    ensures k >= 0 && size >= 1 ==> (k * size) / size == k && (k * size) % size == 0
  {
    if k >= 0 && size >= 1 {
      var q, r := (k * size) / size, (k * size) % size;
      var d := q - k;
      assert d * size == -r by {
        assert q * size + r == k * size;
        assert d * size == q * size - k * size;
      }
      MulSign(d, size);
    }
  }

  /** Where page `page` of `size` items starts: after the `page - 1` full pages before it. */
  function StartIndex(size: int, page: int): (start: int)
    ensures size >= 1 && page >= 1 ==> start >= 0 && start % size == 0 && start / size == page - 1
  {
    MulDivExact(page - 1, size);
    (page - 1) * size
  }

  /** The one result document of the `$group`/`$project` pipeline. */
  datatype FoodPage = FoodPage(totalCount: nat, foodItems: seq<Doc>)

  /** The aggregation of `GetFoods` with page size `size` and a page of at least 1:
      `$group` over an empty collection yields no document at all; otherwise one document
      with the number of foods and `$slice` of them from the start index. */
  function ListPage(foods: Collection, size: int, page: int): (r: seq<FoodPage>)
    requires size >= 1 && page >= 1
    ensures |foods| == 0 <==> r == []
    ensures |r| <= 1
    ensures forall pg :: pg in r ==> pg.totalCount == |foods| && |pg.foodItems| <= size
    ensures forall pg :: pg in r ==>
      && |pg.foodItems| == (if StartIndex(size, page) >= |foods| then 0
                            else if size < |foods| - StartIndex(size, page) then size
                            else |foods| - StartIndex(size, page))
      && forall i :: 0 <= i < |pg.foodItems| ==> pg.foodItems[i] == foods[StartIndex(size, page) + i]
  {
    if |foods| == 0 then []
    else [FoodPage(|foods|, Slice(foods, StartIndex(size, page), size))]
  }

  /** `GetFoods` on the query strings, when they produce a page of at least 1 (a smaller
      page gives `$slice` a negative start, whose meaning is the store's). The page size
      is always ten. */
  function GetFoods(foods: Collection, recordPerPage: string, page: string, atoi: string -> int): (r: seq<FoodPage>)
    requires RequestedPage(recordPerPage, page, atoi) >= 1
    ensures forall pg :: pg in r ==> |pg.foodItems| <= RecordPerPage
    ensures page != "" ==> r == ListPage(foods, RecordPerPage, atoi(page))
    ensures page == "" && recordPerPage != "" ==> r == ListPage(foods, RecordPerPage, atoi(recordPerPage))
    ensures page == "" && recordPerPage == "" ==> r == ListPage(foods, RecordPerPage, 1)
  {
    ListPage(foods, RecordPerPage, RequestedPage(recordPerPage, page, atoi))
  }

  /** Once `page` is given, `recordPerPage` has no effect at all. */
  lemma RecordPerPageIgnoredWithPage(foods: Collection, recordPerPage: string, recordPerPage': string, page: string, atoi: string -> int)
    requires page != "" && atoi(page) >= 1
    ensures GetFoods(foods, recordPerPage, page, atoi) == GetFoods(foods, recordPerPage', page, atoi)
  {
  }

  /** Every food is listed on exactly one page: the food at position `i` is item
      `i % size` of page `i / size + 1`. */
  lemma PagesCoverFoods(foods: Collection, size: int, i: int)
    requires size >= 1
    requires 0 <= i < |foods|
    ensures var pages := ListPage(foods, size, i / size + 1);
      |pages| == 1 && i % size < |pages[0].foodItems| && pages[0].foodItems[i % size] == foods[i]
  {
    var page := i / size + 1;
    assert StartIndex(size, page) == i - i % size by {
      assert (page - 1) * size == (i / size) * size;
    }
    var pages := ListPage(foods, size, page);
    assert pages[0] in pages;
  }

  /** The food fields as stored: a nil `*T` field is stored as null. */
  function FoodFields(p: FoodPayload): Doc
  {
    map["name" := OptStr(p.name), "price" := OptFloat(p.price),
        "food_image" := OptStr(p.foodImage), "menu_id" := OptStr(p.menuId)]
  }

  /** `CreateFood`: validate (the food model's tags are the parameter `validate`), check
      the menu, then insert the stamped document. */
  function CreateFood(s: Store, p: FoodPayload, validate: FoodPayload -> seq<FieldError>, env: Env): (r: Result<Store>)
    ensures r.Ok? <==> validate(p) == [] && Exists(s.menus, "menu_id", OptStr(p.menuId))
    ensures validate(p) != [] ==> r == Err(Reject(BadRequest, Violations(validate(p))))
    ensures validate(p) == [] && !Exists(s.menus, "menu_id", OptStr(p.menuId)) ==>
      r == Err(Reject(InternalServerError, Text("menu was not found")))
    ensures r.Ok? ==> r.value == s.(foods := s.foods + [Created(FoodFields(p), "food_id", env)])
  {
    var errors := validate(p);
    if errors != [] then Err(Reject(BadRequest, Violations(errors)))
    else if FindOne(s.menus, "menu_id", OptStr(p.menuId)).None? then
      Err(Reject(InternalServerError, Text("menu was not found")))
    else Ok(s.(foods := s.foods + [Created(FoodFields(p), "food_id", env)]))
  }

  /** The `$set` document of `UpdateFood`. */
  function FoodChanges(p: FoodPayload, now: Instant): (staged: Doc)
    ensures "name" in staged <==> p.name.Some?
    ensures "price" in staged <==> p.price.Some?
    ensures "food_image" in staged <==> p.foodImage.Some?
    ensures "menu_id" in staged <==> p.menuId.Some?
    ensures staged.Keys <= {"name", "price", "food_image", "menu_id", "updated_at"}
    ensures "updated_at" in staged && staged["updated_at"] == Stamp(now)
    ensures forall k :: k in staged && k != "updated_at" ==> staged[k] == FoodFields(p)[k]
  {
    var staged := Stage(map[], "name", if p.name.Some? then Some(Str(p.name.value)) else None);
    var staged := Stage(staged, "price", if p.price.Some? then Some(Float(p.price.value)) else None);
    var staged := Stage(staged, "food_image", if p.foodImage.Some? then Some(Str(p.foodImage.value)) else None);
    var staged := Stage(staged, "menu_id", if p.menuId.Some? then Some(Str(p.menuId.value)) else None);
    staged["updated_at" := Stamp(now)]
  }

  /** `UpdateFood`: a supplied `menu_id` must name a menu, otherwise nothing is written;
      then the present fields and `updated_at` are `$set` on the food keyed by `food_id`,
      inserting one if there is none. */
  function UpdateFood(s: Store, id: string, p: FoodPayload, env: Env): (r: Result<Store>)
    ensures r.Err? <==> p.menuId.Some? && !Exists(s.menus, "menu_id", Str(p.menuId.value))
    ensures r.Err? ==> r.error == Reject(InternalServerError, Text("menu was not found"))
    ensures r.Ok? ==> r.value.(foods := s.foods) == s
    ensures r.Ok? ==> Upserted(s.foods, r.value.foods, "food_id", id, FoodChanges(p, env.now), env.upsertedId)
  {
    if p.menuId.Some? && FindOne(s.menus, "menu_id", Str(p.menuId.value)).None? then
      Err(Reject(InternalServerError, Text("menu was not found")))
    else
      Ok(s.(foods := UpdateOneUpsert(s.foods, "food_id", id, FoodChanges(p, env.now), env.upsertedId)))
  }

  /** A created food can be fetched by its `food_id`, provided no earlier document already
      carries that id. */
  lemma CreatedFoodIsFound(s: Store, p: FoodPayload, validate: FoodPayload -> seq<FieldError>, env: Env)
    requires CreateFood(s, p, validate, env).Ok?
    requires !Exists(s.foods, "food_id", Str(Hex(env.newId)))
    ensures var foods := CreateFood(s, p, validate, env).value.foods;
      FindOne(foods, "food_id", Str(Hex(env.newId))) == Some(Created(FoodFields(p), "food_id", env))
  {
    AppendedIsFound(s.foods, Created(FoodFields(p), "food_id", env), "food_id", Str(Hex(env.newId)));
  }
}
