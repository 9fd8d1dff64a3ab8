/** Places where controllers/foodController.go and the untagged models (orderItemModel.go,
    inoviceModel.go, noteModel.go) do something other than what the surrounding code
    evidently intends: each is modelled as written, with the input that shows the
    difference, and as intended, with the intended property proved. */
module Findings {
  import opened Wrappers
  import opened Replies
  import opened ObjectIds
  import opened Clock
  import opened Documents
  import opened Stores
  import opened Models
  import opened Foods
  import OrderItems
  import Invoices
  import Notes

  // ---- `recordPerPage` is parsed into `page` ----

  /** The page size as intended: `recordPerPage` when it parses to at least 1, else ten. */
  function PageSize(recordPerPage: string, atoi: string -> int): (n: int)
    ensures n >= 1
    ensures recordPerPage != "" && atoi(recordPerPage) >= 1 ==> n == atoi(recordPerPage)
  {
    if recordPerPage != "" && atoi(recordPerPage) >= 1 then atoi(recordPerPage) else RecordPerPage
  }

  /** The page number as intended: `page` when it parses to at least 1, else the first. */
  function PageNumber(page: string, atoi: string -> int): (n: int)
    ensures n >= 1
    ensures page != "" && atoi(page) >= 1 ==> n == atoi(page)
  {
    if page != "" && atoi(page) >= 1 then atoi(page) else 1
  }

  /** The listing with each query parameter read into its own variable; every input now
      has a well-defined page. */
  function GetFoodsCorrected(foods: Collection, recordPerPage: string, page: string, atoi: string -> int): (r: seq<FoodPage>)
    ensures |r| <= 1 && (|foods| == 0 <==> r == [])
    ensures forall pg :: pg in r ==> pg.totalCount == |foods| && |pg.foodItems| <= PageSize(recordPerPage, atoi)
  {
    ListPage(foods, PageSize(recordPerPage, atoi), PageNumber(page, atoi))
  }

  /** As written, asking for five foods per page with no page number yields page five of
      ten foods each: for 25 foods, an empty page. As intended, it is the first five. */
  lemma RecordPerPageReadAsPage(foods: Collection, atoi: string -> int)
    requires |foods| == 25 && atoi("5") == 5
    ensures GetFoods(foods, "5", "", atoi) == [FoodPage(25, [])]
    ensures GetFoodsCorrected(foods, "5", "", atoi) == [FoodPage(25, foods[..5])]
  {
    assert StartIndex(RecordPerPage, 5) == 40;
    var pages := GetFoodsCorrected(foods, "5", "", atoi);
    assert pages[0] in pages;
    assert pages[0].foodItems == foods[..5];
  }

  /** As intended, the first page holds the first `recordPerPage` foods (or all of them),
      and every food is on exactly the page its position says. */
  lemma CorrectedPagesHonourSize(foods: Collection, recordPerPage: string, atoi: string -> int, n: int, i: int)
    requires recordPerPage != "" && atoi(recordPerPage) == n && n >= 1
    requires 0 <= i < |foods|
    ensures var first := GetFoodsCorrected(foods, recordPerPage, "", atoi);
      |first| == 1 && first[0].foodItems == foods[..if n < |foods| then n else |foods|]
    ensures var pg := ListPage(foods, n, i / n + 1);
      |pg| == 1 && i % n < |pg[0].foodItems| && pg[0].foodItems[i % n] == foods[i]
  {
    var first := GetFoodsCorrected(foods, recordPerPage, "", atoi);
    assert first[0] in first;
    assert first[0].foodItems == foods[..if n < |foods| then n else |foods|];
    PagesCoverFoods(foods, n, i);
  }

  // ---- `OrderItem` carries no `bson` tags ----

  function LowerChar(c: char): char
  {
    if 'A' <= c <= 'Z' then (c as int + 32) as char else c
  }

  /** The key the driver's default struct codec gives a field without a `bson` tag: the
      Go field name in lower case. */
  function Lower(name: string): (r: string)
    ensures |r| == |name|
    ensures forall i :: 0 <= i < |name| ==> r[i] == LowerChar(name[i])
  {
    seq(|name|, i requires 0 <= i < |name| => LowerChar(name[i]))
  }

  /** The driver's keys for the untagged fields of `OrderItem`. */
  lemma DriverKeys()
    ensures Lower("Quantity") == "quantity" && Lower("UnitPrice") == "unitprice"
    ensures Lower("CreatedAt") == "createdat" && Lower("UpdatedAt") == "updatedat"
    ensures Lower("FoodID") == "foodid" && Lower("OrderItemID") == "orderitemid" && Lower("OrderID") == "orderid"
  {
  }

  /** An order item as the driver writes it: only `_id` is tagged, every other field is
      stored under its lowered Go name (see `DriverKeys`). */
  function StoredOrderItem(p: OrderItemPayload, unitPrice: Value, env: Env): Doc
  {
    map["_id" := Id(env.newId),
        "quantity" := OptInt(p.quantity),
        "unitprice" := unitPrice,
        "createdat" := Stamp(env.now),
        "updatedat" := Stamp(env.now),
        "foodid" := OptStr(p.foodId),
        "orderitemid" := Str(Hex(env.newId)),
        "orderid" := Str(p.orderId)]
  }

  /** `CreateOrderItem` as written: the same checks, then the insert under the driver's
      keys. */
  function CreateOrderItemAsWritten(s: Store, p: OrderItemPayload, env: Env): (r: Result<Store>)
    ensures r.Ok? <==> OrderItems.CreateOrderItem(s, p, env).Ok?
    ensures r.Err? ==> r == OrderItems.CreateOrderItem(s, p, env)
  {
    match OrderItems.CreateOrderItem(s, p, env)
    case Err(e) => Err(e)
    case Ok(_) =>
      var food := FindOne(s.foods, "food_id", OptStr(p.foodId)).value;
      Ok(s.(orderItems := s.orderItems + [StoredOrderItem(p, OrderItems.UnitPrice(p, food), env)]))
  }

  /** None of the driver's keys is `order_id` or `order_item_id`. */
  lemma StoredItemLacksFilterKeys(p: OrderItemPayload, unitPrice: Value, env: Env)
    ensures Get(StoredOrderItem(p, unitPrice, env), "order_id") == Null
    ensures Get(StoredOrderItem(p, unitPrice, env), "order_item_id") == Null
  {
  }

  /** As written, a created item is never listed by `GetOrderItemsByOrderID`, and is not
      what an update of its own `order_item_id` finds: the update inserts another
      document instead. */
  lemma AsWrittenItemInvisible(s: Store, p: OrderItemPayload, env: Env, orderId: string)
    requires CreateOrderItemAsWritten(s, p, env).Ok?
    ensures var items := CreateOrderItemAsWritten(s, p, env).value.orderItems;
      Filter(items, "order_id", Str(orderId)) == Filter(s.orderItems, "order_id", Str(orderId))
    ensures var items := CreateOrderItemAsWritten(s, p, env).value.orderItems;
      !Exists(s.orderItems, "order_item_id", Str(Hex(env.newId))) ==>
        !Exists(items, "order_item_id", Str(Hex(env.newId)))
  {
    var food := FindOne(s.foods, "food_id", OptStr(p.foodId)).value;
    var d := StoredOrderItem(p, OrderItems.UnitPrice(p, food), env);
    StoredItemLacksFilterKeys(p, OrderItems.UnitPrice(p, food), env);
    FilterAppend(s.orderItems, d, "order_id", Str(orderId));
    if !Exists(s.orderItems, "order_item_id", Str(Hex(env.newId))) {
      var items := s.orderItems + [d];
      forall j | 0 <= j < |items| ensures !Matches(items[j], "order_item_id", Str(Hex(env.newId))) {
        if j < |s.orderItems| {
          assert items[j] == s.orderItems[j];
        }
      }
    }
  }

  /** As intended (the model's `CreateOrderItem`, stored under the keys the handlers
      filter on), the created item is listed last for its order ... */
  lemma CreatedItemListed(s: Store, p: OrderItemPayload, env: Env)
    requires OrderItems.CreateOrderItem(s, p, env).Ok?
    ensures var items := OrderItems.CreateOrderItem(s, p, env).value.orderItems;
      && |items| == |s.orderItems| + 1
      && Filter(items, "order_id", Str(p.orderId)) == Filter(s.orderItems, "order_id", Str(p.orderId)) + [items[|s.orderItems|]]
  {
    OrderItems.CreatedOrderItem(s, p, env);
    var items := OrderItems.CreateOrderItem(s, p, env).value.orderItems;
    var d := items[|s.orderItems|];
    assert items == s.orderItems + [d];
    assert Get(d, "order_id") == Str(p.orderId);
    FilterAppend(s.orderItems, d, "order_id", Str(p.orderId));
  }

  /** ... and is what a lookup of its `order_item_id` finds, so an update of it changes it
      rather than inserting another item. */
  lemma CreatedItemFound(s: Store, p: OrderItemPayload, env: Env)
    requires OrderItems.CreateOrderItem(s, p, env).Ok?
    requires !Exists(s.orderItems, "order_item_id", Str(Hex(env.newId)))
    ensures var items := OrderItems.CreateOrderItem(s, p, env).value.orderItems;
      && |items| == |s.orderItems| + 1
      && FindOne(items, "order_item_id", Str(Hex(env.newId))) == Some(items[|s.orderItems|])
  {
    OrderItems.CreatedOrderItem(s, p, env);
    var items := OrderItems.CreateOrderItem(s, p, env).value.orderItems;
    var d := items[|s.orderItems|];
    assert items == s.orderItems + [d];
    AppendedIsFound(s.orderItems, d, "order_item_id", Str(Hex(env.newId)));
  }

  // ---- `Invoice` and `Note` carry no `bson` tags either ----

  /** The driver's keys for the untagged fields of `Invoice`. */
  lemma InvoiceDriverKeys()
    ensures Lower("InvoiceID") == "invoiceid" && Lower("OrderID") == "orderid"
    ensures Lower("PaymentMethod") == "paymentmethod" && Lower("PaymentStatus") == "paymentstatus"
    ensures Lower("PaymentDue") == "paymentdue"
  {
  }

  /** The driver's keys for the untagged fields of `Note`: only the id and the
      timestamps differ from the keys the handlers use. */
  lemma NoteDriverKeys()
    ensures Lower("Text") == "text" && Lower("Title") == "title" && Lower("NoteID") == "noteid"
  {
  }

  /** An invoice as the driver writes it (see `InvoiceDriverKeys`). */
  function StoredInvoice(p: InvoicePayload, env: Env): Doc
  {
    map["_id" := Id(env.newId),
        "invoiceid" := Str(Hex(env.newId)),
        "orderid" := Str(p.orderId),
        "paymentmethod" := OptStr(p.paymentMethod),
        "paymentstatus" := OptStr(p.paymentStatus),
        "paymentdue" := Invoices.PaymentDue(p, env.now),
        "createdat" := Stamp(env.now),
        "updatedat" := Stamp(env.now)]
  }

  /** A note as the driver writes it (see `NoteDriverKeys`). */
  function StoredNote(p: NotePayload, env: Env): Doc
  {
    map["_id" := Id(env.newId),
        "text" := Str(p.text),
        "title" := Str(p.title),
        "createdat" := Stamp(env.now),
        "updatedat" := Stamp(env.now),
        "noteid" := Str(Hex(env.newId))]
  }

  /** `CreateInvoice` as written: the same checks, then the insert under the driver's keys. */
  function CreateInvoiceAsWritten(s: Store, p: InvoicePayload, nilMethodPasses: bool, env: Env): (r: Result<Store>)
    ensures r.Ok? <==> Invoices.CreateInvoice(s, p, nilMethodPasses, env).Ok?
    ensures r.Err? ==> r == Invoices.CreateInvoice(s, p, nilMethodPasses, env)
    ensures r.Ok? ==> r.value.(invoices := s.invoices) == s && |r.value.invoices| == |s.invoices| + 1
  {
    match Invoices.CreateInvoice(s, p, nilMethodPasses, env)
    case Err(e) => Err(e)
    case Ok(_) => Ok(s.(invoices := s.invoices + [StoredInvoice(p, env)]))
  }

  /** `CreateNote` as written: the insert under the driver's keys. */
  function CreateNoteAsWritten(s: Store, p: NotePayload, env: Env): (r: Store)
    ensures r.(notes := s.notes) == s
    ensures |r.notes| == |s.notes| + 1 && r.notes[..|s.notes|] == s.notes
    ensures Get(r.notes[|s.notes|], "note_id") == Null
  {
    s.(notes := s.notes + [StoredNote(p, env)])
  }

  /** A document stored without `key` is not found by `key`, and an upsert keyed by it
      inserts a further document instead of changing it. */
  lemma HiddenInsertThenUpsertAppends(c: Collection, d: Doc, key: string, id: string, staged: Doc, newId: ObjectId, after: Collection)
    requires key !in d && !Exists(c, key, Str(id))
    requires Upserted(c + [d], after, key, id, staged, newId)
    ensures FindOne(c + [d], key, Str(id)).None?
    ensures after == c + [d] + [UpsertSeed(key, id, newId) + staged]
  {
    var c' := c + [d];
    forall j | 0 <= j < |c'| ensures !Matches(c'[j], key, Str(id)) {
      if j < |c| {
        assert c'[j] == c[j];
      }
    }
  }

  /** A document stored under `key` with a fresh `id` is what an upsert keyed by `id`
      changes in place: nothing is inserted and every staged field lands on it. */
  lemma FoundInsertThenUpsertInPlace(c: Collection, d: Doc, key: string, id: string, staged: Doc, newId: ObjectId, after: Collection)
    requires Matches(d, key, Str(id)) && !Exists(c, key, Str(id))
    requires Upserted(c + [d], after, key, id, staged, newId)
    ensures |after| == |c| + 1 && after[..|c|] == c
    ensures forall k :: k in staged ==> after[|c|][k] == staged[k]
  {
    var c' := c + [d];
    assert Matches(c'[|c|], key, Str(id));
    assert FirstMatch(c', key, Str(id), |c|) by {
      forall j | 0 <= j < |c| ensures !Matches(c'[j], key, Str(id)) {
        assert c'[j] == c[j];
      }
    }
    forall j | 0 <= j < |c| ensures after[j] == c[j] {
      assert c'[j] == c[j];
    }
  }

  /** As written, a created invoice is not what `GetInvoice` finds by its `invoice_id`,
      and `UpdateInvoice` of that id inserts another document, leaving it untouched. */
  lemma AsWrittenInvoiceUnreachable(s: Store, p: InvoicePayload, nilMethodPasses: bool, env: Env, q: InvoicePayload, env': Env)
    requires CreateInvoiceAsWritten(s, p, nilMethodPasses, env).Ok?
    requires !Exists(s.invoices, "invoice_id", Str(Hex(env.newId)))
    ensures var created := CreateInvoiceAsWritten(s, p, nilMethodPasses, env).value;
      && FindOne(created.invoices, "invoice_id", Str(Hex(env.newId))).None?
      && Invoices.UpdateInvoice(created, Hex(env.newId), q, env').invoices
         == created.invoices + [UpsertSeed("invoice_id", Hex(env.newId), env'.upsertedId) + Invoices.InvoiceChanges(q, env'.now)]
  {
    var created := CreateInvoiceAsWritten(s, p, nilMethodPasses, env).value;
    assert created.invoices == s.invoices + [StoredInvoice(p, env)];
    HiddenInsertThenUpsertAppends(s.invoices, StoredInvoice(p, env), "invoice_id", Hex(env.newId),
      Invoices.InvoiceChanges(q, env'.now), env'.upsertedId, Invoices.UpdateInvoice(created, Hex(env.newId), q, env').invoices);
  }

  /** As intended (the model's `CreateInvoice`), `GetInvoice` finds the created invoice and
      `UpdateInvoice` of its id changes it in place. */
  lemma CreatedInvoiceUpdatedInPlace(s: Store, p: InvoicePayload, nilMethodPasses: bool, env: Env, q: InvoicePayload, env': Env)
    requires Invoices.CreateInvoice(s, p, nilMethodPasses, env).Ok?
    requires !Exists(s.invoices, "invoice_id", Str(Hex(env.newId)))
    ensures var created := Invoices.CreateInvoice(s, p, nilMethodPasses, env).value;
      var after := Invoices.UpdateInvoice(created, Hex(env.newId), q, env').invoices;
      && |created.invoices| == |s.invoices| + 1
      && FindOne(created.invoices, "invoice_id", Str(Hex(env.newId))) == Some(created.invoices[|s.invoices|])
      && |after| == |created.invoices| && after[..|s.invoices|] == s.invoices
      && forall k :: k in Invoices.InvoiceChanges(q, env'.now) ==> after[|s.invoices|][k] == Invoices.InvoiceChanges(q, env'.now)[k]
  {
    var created := Invoices.CreateInvoice(s, p, nilMethodPasses, env).value;
    var d := Created(Invoices.InvoiceFields(p, env.now), "invoice_id", env);
    assert created.invoices == s.invoices + [d];
    CreatedIsFound(s.invoices, Invoices.InvoiceFields(p, env.now), "invoice_id", env);
    FoundInsertThenUpsertInPlace(s.invoices, d, "invoice_id", Hex(env.newId),
      Invoices.InvoiceChanges(q, env'.now), env'.upsertedId, Invoices.UpdateInvoice(created, Hex(env.newId), q, env').invoices);
  }

  /** As written, a created note is not what `GetNote` finds by its `note_id`, and
      `UpdateNote` of that id inserts another document, leaving it untouched. */
  lemma AsWrittenNoteUnreachable(s: Store, p: NotePayload, env: Env, q: NotePayload, env': Env)
    requires !Exists(s.notes, "note_id", Str(Hex(env.newId)))
    ensures var created := CreateNoteAsWritten(s, p, env);
      && FindOne(created.notes, "note_id", Str(Hex(env.newId))).None?
      && Notes.UpdateNote(created, Hex(env.newId), q, env').notes
         == created.notes + [UpsertSeed("note_id", Hex(env.newId), env'.upsertedId) + Notes.NoteChanges(q, env'.now)]
  {
    var created := CreateNoteAsWritten(s, p, env);
    assert created.notes == s.notes + [StoredNote(p, env)];
    HiddenInsertThenUpsertAppends(s.notes, StoredNote(p, env), "note_id", Hex(env.newId),
      Notes.NoteChanges(q, env'.now), env'.upsertedId, Notes.UpdateNote(created, Hex(env.newId), q, env').notes);
  }

  /** As intended (the model's `CreateNote`), `GetNote` finds the created note and
      `UpdateNote` of its id changes it in place. */
  lemma CreatedNoteUpdatedInPlace(s: Store, p: NotePayload, env: Env, q: NotePayload, env': Env)
    requires !Exists(s.notes, "note_id", Str(Hex(env.newId)))
    ensures var created := Notes.CreateNote(s, p, env);
      var after := Notes.UpdateNote(created, Hex(env.newId), q, env').notes;
      && FindOne(created.notes, "note_id", Str(Hex(env.newId))) == Some(created.notes[|s.notes|])
      && |after| == |created.notes| && after[..|s.notes|] == s.notes
      && forall k :: k in Notes.NoteChanges(q, env'.now) ==> after[|s.notes|][k] == Notes.NoteChanges(q, env'.now)[k]
  {
    var created := Notes.CreateNote(s, p, env);
    var d := Created(Notes.NoteFields(p), "note_id", env);
    CreatedIsFound(s.notes, Notes.NoteFields(p), "note_id", env);
    FoundInsertThenUpsertInPlace(s.notes, d, "note_id", Hex(env.newId),
      Notes.NoteChanges(q, env'.now), env'.upsertedId, Notes.UpdateNote(created, Hex(env.newId), q, env').notes);
  }
}
