/** main.go and the route files: the user routes are public, every other write passes the
    authentication gate first and is then routed to its controller. Over the whole service,
    the soft foreign keys checked at write time keep resolving. */
module Service {
  import opened Wrappers
  import opened Replies
  import opened Clock
  import opened Documents
  import opened Stores
  import opened Models
  import opened Tokens
  import opened Auth
  import Foods
  import Menus
  import Tables
  import Orders
  import OrderItems
  import Invoices
  import Notes
  import Users

  /** The validators of the model files that carry no model of their own, and the
      validator's verdict on a nil `payment_method`. */
  datatype Validators = Validators(
    food: FoodPayload -> seq<FieldError>,
    menu: MenuPayload -> seq<FieldError>,
    table: TablePayload -> seq<FieldError>,
    order: OrderPayload -> seq<FieldError>,
    user: UserPayload -> seq<FieldError>,
    nilMethodPasses: bool)

  /** Password hashing and comparison, token signing and token parsing. */
  datatype Crypto = Crypto(
    hash: string -> string,
    matches: (string, string) -> bool,
    sign: Claims -> string,
    parse: (string, Instant) -> Parsed)

  /** A create or an update by domain id, with its decoded payload. */
  datatype Write<P> = Create(payload: P) | Update(id: string, payload: P)

  /** A write request, as routed to its handler. */
  datatype Request =
    | SignUpCall(user: UserPayload)
    | LoginCall(user: UserPayload)
    | FoodCall(food: Write<FoodPayload>)
    | MenuCall(menu: Write<MenuPayload>)
    | TableCall(table: Write<TablePayload>)
    | OrderCall(order: Write<OrderPayload>)
    | OrderItemCall(item: Write<OrderItemPayload>)
    | InvoiceCall(invoice: Write<InvoicePayload>)
    | NoteCall(note: Write<NotePayload>)

  datatype Kind = UsersKind | MenusKind | FoodsKind | TablesKind | OrdersKind | OrderItemsKind | InvoicesKind | NotesKind

  /** `t` differs from `s` at most in collection `k`. */
  predicate OnlyWrites(s: Store, t: Store, k: Kind)
  {
    match k
    case UsersKind => t.(users := s.users) == s
    case MenusKind => t.(menus := s.menus) == s
    case FoodsKind => t.(foods := s.foods) == s
    case TablesKind => t.(tables := s.tables) == s
    case OrdersKind => t.(orders := s.orders) == s
    case OrderItemsKind => t.(orderItems := s.orderItems) == s
    case InvoicesKind => t.(invoices := s.invoices) == s
    case NotesKind => t.(notes := s.notes) == s
  }

  /** The one collection a request may write. */
  function Target(req: Request): Kind
  {
    match req
    case SignUpCall(_) => UsersKind
    case LoginCall(_) => UsersKind
    case FoodCall(_) => FoodsKind
    case MenuCall(_) => MenusKind
    case TableCall(_) => TablesKind
    case OrderCall(_) => OrdersKind
    case OrderItemCall(_) => OrderItemsKind
    case InvoiceCall(_) => InvoicesKind
    case NoteCall(_) => NotesKind
  }

  /** The user routes are registered before the gate is installed. */
  predicate Protected(req: Request)
  {
    !req.SignUpCall? && !req.LoginCall?
  }

  function ApplyUser(s: Store, req: Request, v: Validators, c: Crypto, env: Env): (r: Result<Store>)
    requires !Protected(req)
    ensures r.Ok? ==> OnlyWrites(s, r.value, UsersKind)
  {
    match req
    case SignUpCall(p) =>
      (match Users.SignUp(s, p, v.user, env, c.hash, c.sign)
       case Ok(a) => Ok(a.store)
       case Err(e) => Err(e))
    case LoginCall(p) =>
      (match Users.Login(s, p, env, c.matches, c.sign)
       case Ok(a) => Ok(a.store)
       case Err(e) => Err(e))
  }

  function ApplyFood(s: Store, w: Write<FoodPayload>, v: Validators, env: Env): (r: Result<Store>)
    ensures r.Ok? ==> OnlyWrites(s, r.value, FoodsKind)
  {
    match w
    case Create(p) => Foods.CreateFood(s, p, v.food, env)
    case Update(id, p) => Foods.UpdateFood(s, id, p, env)
  }

  function ApplyMenu(s: Store, w: Write<MenuPayload>, v: Validators, env: Env): (r: Result<Store>)
    ensures r.Ok? ==> OnlyWrites(s, r.value, MenusKind)
  {
    match w
    case Create(p) => Menus.CreateMenu(s, p, v.menu, env)
    case Update(id, p) => Menus.UpdateMenu(s, id, p, env)
  }

  function ApplyTable(s: Store, w: Write<TablePayload>, v: Validators, env: Env): (r: Result<Store>)
    ensures r.Ok? ==> OnlyWrites(s, r.value, TablesKind)
  {
    match w
    case Create(p) => Tables.CreateTable(s, p, v.table, env)
    case Update(id, p) => Ok(Tables.UpdateTable(s, id, p, env))
  }

  function ApplyOrder(s: Store, w: Write<OrderPayload>, v: Validators, env: Env): (r: Result<Store>)
    ensures r.Ok? ==> OnlyWrites(s, r.value, OrdersKind)
  {
    match w
    case Create(p) => Orders.CreateOrder(s, p, v.order, env)
    case Update(id, p) => Orders.UpdateOrder(s, id, p, env)
  }

  function ApplyOrderItem(s: Store, w: Write<OrderItemPayload>, env: Env): (r: Result<Store>)
    ensures r.Ok? ==> OnlyWrites(s, r.value, OrderItemsKind)
  {
    match w
    case Create(p) => OrderItems.CreateOrderItem(s, p, env)
    case Update(id, p) => OrderItems.UpdateOrderItem(s, id, p, env)
  }

  function ApplyInvoice(s: Store, w: Write<InvoicePayload>, v: Validators, env: Env): (r: Result<Store>)
    ensures r.Ok? ==> OnlyWrites(s, r.value, InvoicesKind)
  {
    match w
    case Create(p) => Invoices.CreateInvoice(s, p, v.nilMethodPasses, env)
    case Update(id, p) => Ok(Invoices.UpdateInvoice(s, id, p, env))
  }

  function ApplyNote(s: Store, w: Write<NotePayload>, env: Env): (r: Store)
    ensures OnlyWrites(s, r, NotesKind)
  {
    match w
    case Create(p) => Notes.CreateNote(s, p, env)
    case Update(id, p) => Notes.UpdateNote(s, id, p, env)
  }

  /** The groups of protected handlers. */
  datatype Side = Catalogue | Floor | Billing

  /** Menus and the foods on them; tables and the orders at them; order items, invoices
      and notes. */
  function SideOf(req: Request): Side
    requires Protected(req)
  {
    match req
    case FoodCall(_) => Catalogue
    case MenuCall(_) => Catalogue
    case TableCall(_) => Floor
    case OrderCall(_) => Floor
    case OrderItemCall(_) => Billing
    case InvoiceCall(_) => Billing
    case NoteCall(_) => Billing
  }

  function ApplyCatalogue(s: Store, req: Request, v: Validators, env: Env): (r: Result<Store>)
    requires Protected(req) && SideOf(req) == Catalogue
    ensures r.Ok? ==> OnlyWrites(s, r.value, Target(req))
  {
    match req
    case FoodCall(w) => ApplyFood(s, w, v, env)
    case MenuCall(w) => ApplyMenu(s, w, v, env)
  }

  function ApplyFloor(s: Store, req: Request, v: Validators, env: Env): (r: Result<Store>)
    requires Protected(req) && SideOf(req) == Floor
    ensures r.Ok? ==> OnlyWrites(s, r.value, Target(req))
  {
    match req
    case TableCall(w) => ApplyTable(s, w, v, env)
    case OrderCall(w) => ApplyOrder(s, w, v, env)
  }

  function ApplyBilling(s: Store, req: Request, v: Validators, env: Env): (r: Result<Store>)
    requires Protected(req) && SideOf(req) == Billing
    ensures r.Ok? ==> OnlyWrites(s, r.value, Target(req))
  {
    match req
    case OrderItemCall(w) => ApplyOrderItem(s, w, env)
    case InvoiceCall(w) => ApplyInvoice(s, w, v, env)
    case NoteCall(w) => Ok(ApplyNote(s, w, env))
  }

  /** The handler of a request, on the store it sees; the reply body is dropped. Only the
      request's own collection can change. */
  function Apply(s: Store, req: Request, v: Validators, c: Crypto, env: Env): (r: Result<Store>)
    ensures r.Ok? ==> OnlyWrites(s, r.value, Target(req))
  {
    if !Protected(req) then ApplyUser(s, req, v, c, env)
    else match SideOf(req)
      case Catalogue => ApplyCatalogue(s, req, v, env)
      case Floor => ApplyFloor(s, req, v, env)
      case Billing => ApplyBilling(s, req, v, env)
  }

  /** A request through the router: a protected one runs only when the gate lets it
      through, and a refused one writes nothing. */
  function Serve(s: Store, header: string, req: Request, v: Validators, c: Crypto, env: Env): (r: Result<Store>)
    ensures !Protected(req) ==> r == Apply(s, req, v, c, env)
    ensures Protected(req) && Authenticate(header, env.now, c.parse).Err? ==>
      r == Err(Authenticate(header, env.now, c.parse).error)
    ensures Protected(req) && r.Ok? ==>
      header != "" && c.parse(header, env.now).Parsed? && c.parse(header, env.now).claims.expiresAt >= UnixSeconds(env.now)
  {
    if !Protected(req) then Apply(s, req, v, c, env)
    else match Authenticate(header, env.now, c.parse)
      case Err(e) => Err(e)
      case Ok(_) => Apply(s, req, v, c, env)
  }

  /** References into a collection that only gains a document keep resolving. */
  lemma GrowKeepsRefs(c: Collection, field: string, target: Collection, d: Doc)
    requires RefsResolve(c, field, target)
    ensures RefsResolve(c, field, target + [d])
  {
    forall w | Exists(target, field, w) ensures Exists(target + [d], field, w) {
      AppendKeepsExists(target, d, field, w);
    }
    RefsResolveGrow(c, field, target, target + [d]);
  }

  /** References into a collection updated without staging the referenced field keep
      resolving. */
  lemma UpdateKeepsRefs(c: Collection, field: string, before: Collection, after: Collection,
                        key: string, id: string, staged: Doc, newId: ObjectIds.ObjectId)
    requires RefsResolve(c, field, before)
    requires Upserted(before, after, key, id, staged, newId)
    requires field !in staged
    ensures RefsResolve(c, field, after)
  {
    forall w | Exists(before, field, w) ensures Exists(after, field, w) {
      UpsertKeepsExists(before, after, key, id, staged, newId, field, w);
    }
    RefsResolveGrow(c, field, before, after);
  }

  lemma FoodWritePreservesIntegrity(s: Store, w: Write<FoodPayload>, v: Validators, env: Env)
    requires Integrity(s)
    requires ApplyFood(s, w, v, env).Ok?
    ensures Integrity(ApplyFood(s, w, v, env).value)
  {
    var s' := ApplyFood(s, w, v, env).value;
    match w
    case Create(p) =>
      var d := Created(Foods.FoodFields(p), "food_id", env);
      assert s' == s.(foods := s.foods + [d]);
      assert !Reserved("menu_id", "food_id");
      AppendKeepsRefs(s.foods, d, "menu_id", s.menus);
      GrowKeepsRefs(s.orderItems, "food_id", s.foods, d);
    case Update(id, p) =>
      var staged := Foods.FoodChanges(p, env.now);
      UpsertKeepsRefs(s.foods, s'.foods, "food_id", id, staged, env.upsertedId, "menu_id", s.menus);
      UpdateKeepsRefs(s.orderItems, "food_id", s.foods, s'.foods, "food_id", id, staged, env.upsertedId);
  }

  lemma MenuWritePreservesIntegrity(s: Store, w: Write<MenuPayload>, v: Validators, env: Env)
    requires Integrity(s)
    requires ApplyMenu(s, w, v, env).Ok?
    ensures Integrity(ApplyMenu(s, w, v, env).value)
  {
    var s' := ApplyMenu(s, w, v, env).value;
    match w
    case Create(p) =>
      GrowKeepsRefs(s.foods, "menu_id", s.menus, Created(Menus.MenuFields(p), "menu_id", env));
    case Update(id, p) =>
      UpdateKeepsRefs(s.foods, "menu_id", s.menus, s'.menus, "menu_id", id, Menus.MenuChanges(p, env.now), env.upsertedId);
  }

  lemma TableWritePreservesIntegrity(s: Store, w: Write<TablePayload>, v: Validators, env: Env)
    requires Integrity(s)
    requires ApplyTable(s, w, v, env).Ok?
    ensures Integrity(ApplyTable(s, w, v, env).value)
  {
    var s' := ApplyTable(s, w, v, env).value;
    match w
    case Create(p) =>
      GrowKeepsRefs(s.orders, "table_id", s.tables, Created(Tables.TableFields(p), "table_id", env));
    case Update(id, p) =>
      UpdateKeepsRefs(s.orders, "table_id", s.tables, s'.tables, "table_id", id, Tables.TableChanges(p, env.now), env.upsertedId);
  }

  lemma OrderWritePreservesIntegrity(s: Store, w: Write<OrderPayload>, v: Validators, env: Env)
    requires Integrity(s)
    requires ApplyOrder(s, w, v, env).Ok?
    ensures Integrity(ApplyOrder(s, w, v, env).value)
  {
    var s' := ApplyOrder(s, w, v, env).value;
    match w
    case Create(p) =>
      var d := Created(Orders.OrderFields(p), "order_id", env);
      assert s' == s.(orders := s.orders + [d]);
      assert !Reserved("table_id", "order_id");
      AppendKeepsRefs(s.orders, d, "table_id", s.tables);
      GrowKeepsRefs(s.orderItems, "order_id", s.orders, d);
      GrowKeepsRefs(s.invoices, "order_id", s.orders, d);
    case Update(id, p) =>
      var staged := Orders.OrderChanges(p, env.now);
      UpsertKeepsRefs(s.orders, s'.orders, "order_id", id, staged, env.upsertedId, "table_id", s.tables);
      UpdateKeepsRefs(s.orderItems, "order_id", s.orders, s'.orders, "order_id", id, staged, env.upsertedId);
      UpdateKeepsRefs(s.invoices, "order_id", s.orders, s'.orders, "order_id", id, staged, env.upsertedId);
  }

  lemma OrderItemWritePreservesIntegrity(s: Store, w: Write<OrderItemPayload>, env: Env)
    requires Integrity(s)
    requires ApplyOrderItem(s, w, env).Ok?
    ensures Integrity(ApplyOrderItem(s, w, env).value)
  {
    var s' := ApplyOrderItem(s, w, env).value;
    match w
    case Create(p) =>
      OrderItems.CreatedOrderItem(s, p, env);
      var d := s'.orderItems[|s.orderItems|];
      assert s'.orderItems == s.orderItems + [d];
      AppendKeepsRefs(s.orderItems, d, "order_id", s.orders);
      AppendKeepsRefs(s.orderItems, d, "food_id", s.foods);
    case Update(id, p) =>
      var staged := OrderItems.OrderItemChanges(p, env.now);
      UpsertKeepsRefs(s.orderItems, s'.orderItems, "order_item_id", id, staged, env.upsertedId, "order_id", s.orders);
      UpsertKeepsRefs(s.orderItems, s'.orderItems, "order_item_id", id, staged, env.upsertedId, "food_id", s.foods);
  }

  lemma InvoiceWritePreservesIntegrity(s: Store, w: Write<InvoicePayload>, v: Validators, env: Env)
    requires Integrity(s)
    requires ApplyInvoice(s, w, v, env).Ok?
    ensures Integrity(ApplyInvoice(s, w, v, env).value)
  {
    var s' := ApplyInvoice(s, w, v, env).value;
    match w
    case Create(p) =>
      Invoices.CreatedInvoiceIsValid(s, p, v.nilMethodPasses, env);
      var d := s'.invoices[|s.invoices|];
      assert s'.invoices == s.invoices + [d];
      AppendKeepsRefs(s.invoices, d, "order_id", s.orders);
    case Update(id, p) =>
      UpsertKeepsRefs(s.invoices, s'.invoices, "invoice_id", id, Invoices.InvoiceChanges(p, env.now), env.upsertedId, "order_id", s.orders);
  }

  lemma CatalogueWritePreservesIntegrity(s: Store, req: Request, v: Validators, env: Env)
    requires Protected(req) && SideOf(req) == Catalogue
    requires Integrity(s)
    requires ApplyCatalogue(s, req, v, env).Ok?
    ensures Integrity(ApplyCatalogue(s, req, v, env).value)
  {
    match req
    case FoodCall(w) => FoodWritePreservesIntegrity(s, w, v, env);
    case MenuCall(w) => MenuWritePreservesIntegrity(s, w, v, env);
  }

  lemma FloorWritePreservesIntegrity(s: Store, req: Request, v: Validators, env: Env)
    requires Protected(req) && SideOf(req) == Floor
    requires Integrity(s)
    requires ApplyFloor(s, req, v, env).Ok?
    ensures Integrity(ApplyFloor(s, req, v, env).value)
  {
    match req
    case TableCall(w) => TableWritePreservesIntegrity(s, w, v, env);
    case OrderCall(w) => OrderWritePreservesIntegrity(s, w, v, env);
  }

  lemma BillingWritePreservesIntegrity(s: Store, req: Request, v: Validators, env: Env)
    requires Protected(req) && SideOf(req) == Billing
    requires Integrity(s)
    requires ApplyBilling(s, req, v, env).Ok?
    ensures Integrity(ApplyBilling(s, req, v, env).value)
  {
    match req
    case OrderItemCall(w) => OrderItemWritePreservesIntegrity(s, w, env);
    case InvoiceCall(w) => InvoiceWritePreservesIntegrity(s, w, v, env);
    case NoteCall(w) =>
  }

  /** Every handler keeps every stored reference resolving. */
  lemma ApplyPreservesIntegrity(s: Store, req: Request, v: Validators, c: Crypto, env: Env)
    requires Integrity(s)
    requires Apply(s, req, v, c, env).Ok?
    ensures Integrity(Apply(s, req, v, c, env).value)
  {
    if Protected(req) {
      match SideOf(req)
      case Catalogue => CatalogueWritePreservesIntegrity(s, req, v, env);
      case Floor => FloorWritePreservesIntegrity(s, req, v, env);
      case Billing => BillingWritePreservesIntegrity(s, req, v, env);
    }
  }

  /** Whatever is requested, with whatever token, the store keeps its integrity. */
  lemma ServePreservesIntegrity(s: Store, header: string, req: Request, v: Validators, c: Crypto, env: Env)
    requires Integrity(s)
    ensures Serve(s, header, req, v, c, env).Ok? ==> Integrity(Serve(s, header, req, v, c, env).value)
  {
    if Serve(s, header, req, v, c, env).Ok? {
      ApplyPreservesIntegrity(s, req, v, c, env);
    }
  }
}
