# Restaurant management backend — write-side model

A Dafny model of the write side of a Go/gin restaurant backend backed by MongoDB: the create
and update handlers of eight entity kinds (users, menus, foods, tables, orders, order items,
invoices, notes), the paginated food listing, the order-item filter, sign-up and login, JWT
issue and validation, and the authentication middleware in front of every route except the
user routes.

The store is a `Store` of eight collections. Each collection is a sequence of documents
(`map<string, Value>`) kept in store order, because `FindOne` acts on the first match and the
food listing slices in store order. Every handler is a pure function from a store, a decoded
payload and an `Env` to a `Result<Store>`. `Env` carries the clock reading, the `ObjectID` the
handler generates and the one an upsert assigns. A failure is a `Reject(status, message)` or a
`Panic`, the latter where the Go code dereferences a nil `*T` field.

- Hashing, hash comparison, token signing and token parsing are function parameters.
- `strconv.Atoi` and the validators of the model files not included here are also parameters.

Modules, one per source file or concern:

- `Wrappers` and `Replies`: `Option`, `Result` and the HTTP replies.
- `ObjectIds`: 12-byte ids and their 24-character hex form.
- `Clock`: nanosecond instants, RFC 3339 truncation, the millisecond precision of a stored BSON DateTime, and Unix seconds.
- `Documents`: filters, `FindOne`, `CountDocuments`, `Find`, `$slice`, and `UpdateOne` with `$set` and upsert.
- `Stores`: the store, the shape of a created document, and the referential-integrity invariant.
- `Models`: payloads, and the `OrderItem` and `Invoice` validation tags.
- `Foods`, `Menus`, `Tables`, `Orders`, `Notes`, `OrderItems`, `Invoices`, `Users`: one per controller.
- `Tokens`: the token helper. `Auth`: the middleware.
- `Service`: the routing, and the integrity invariant across every handler.
- `Findings`: defects of the source, each as written and as corrected.

## Model

| member | source | states |
|---|---|---|
| Clock.Rfc3339 | controllers/foodController.go:119-120 | formatting and re-parsing the clock as RFC 3339 truncates it to the whole second at or below it |
| Clock.Millis | controllers/invoiceController.go:97 | a `time.Time` written as a BSON DateTime is the instant rounded down to a whole millisecond |
| Clock.Rfc3339IsWholeMillis | controllers/foodController.go:119-120 | an RFC 3339 timestamp is already a whole millisecond, so storing it loses nothing |
| Documents.DateTime | controllers/menuController.go:114-115 | a date given in a payload is stored to the millisecond at or below it |
| Stores.Stamp | controllers/foodController.go:119-120 | the stored created_at/updated_at is exactly the clock truncated to the second |
| Clock.UnixSeconds | helpers/tokenHelper.go:43 | `Unix()` is the floor of the instant in seconds |
| Clock.Rfc3339Monotonic | controllers/foodController.go:119-120 | the stored timestamps keep the order of the clock readings |
| Clock.UnixSecondsAfterHours | helpers/tokenHelper.go:43-50 | adding n hours adds exactly 3600·n to the Unix seconds |
| ObjectIds.Hex | controllers/foodController.go:121-122 | the hex form of an ObjectID has 24 characters |
| ObjectIds.HexOfInjective | controllers/foodController.go:121-122 | equal hex strings of equal-length byte strings come from equal bytes (induction) |
| ObjectIds.HexInjective | controllers/foodController.go:121-122 | distinct ObjectIDs give distinct domain ids |
| Documents.FindFirst | controllers/foodController.go:113 | the position acted on is the first match, and there is none exactly when nothing matches |
| Documents.FirstMatchUnique | controllers/foodController.go:113 | the first match is unique |
| Documents.FindOne | controllers/foodController.go:113-117 | a document is found exactly when one matches, and it matches and belongs to the collection |
| Documents.Count | controllers/userController.go:103-113 | `CountDocuments` is positive exactly when some document matches, and is at most the collection size |
| Documents.Filter | controllers/orderItemController.go:69-78 | `Find` returns no more documents than the collection holds |
| Documents.FilterExactly | controllers/orderItemController.go:69 | every returned document matches and belongs to the collection, and every matching document is returned (induction) |
| Documents.FilterAppend | controllers/orderItemController.go:69 | an appended document is listed last exactly when it matches (the unfolding of the filter on its last element, used by the inserts) |
| Documents.FindAll | controllers/orderItemController.go:69-78 | the cursor loop collects exactly the filter's result (loop invariant) |
| Documents.Slice | controllers/foodController.go:51 | `$slice` yields min(n, size − start) documents, none past the end, each the one at start + i |
| Documents.UpdateOneUpsert | controllers/foodController.go:175-186 | `$set` with upsert: the first match gets the staged keys and every other document is untouched; with no match, a seed with `_id` and the domain id plus the staged keys is appended |
| Documents.UpsertedThenFound | controllers/foodController.go:175-186 | after the upsert, a lookup by the id finds a document carrying every staged value |
| Documents.UpsertIdempotent | controllers/foodController.go:175-186 | repeating the same update changes nothing more |
| Documents.UpsertKeepsExists | controllers/foodController.go:175-186 | an update that does not stage a field keeps every document reachable by that field |
| Documents.AppendedIsFound | controllers/foodController.go:124 | an inserted document under a fresh id is what `FindOne` by that id returns |
| Documents.AppendKeepsExists | controllers/foodController.go:124 | an insert keeps every earlier match |
| Documents.RefsResolveGrow | controllers/foodController.go:113-117 | references keep resolving while their target only gains matches |
| Documents.AppendKeepsRefs | controllers/foodController.go:113-124 | an insert whose reference was checked keeps every reference resolving |
| Documents.UpsertKeepsRefs | controllers/foodController.go:162-186 | an update whose staged reference was checked keeps every reference resolving |
| Stores.Created | controllers/foodController.go:119-124 | a created document has the payload's fields, `_id` the new ObjectID, the domain id its hex form, and both timestamps the truncated clock |
| Stores.CreatedIsFound | controllers/foodController.go:119-124 | a created document is exactly what a lookup by its new domain id finds, and it is the only match |
| Models.ValidateOrderItem | models/orderItemModel.go:12-18 | no violation exactly when quantity is given and in 1..5, unit_price and food_id are given, and order_id is non-empty |
| Models.ValidateInvoice | models/inoviceModel.go:14-15 | no violation exactly when payment_method is CARD, CASH or "" (nil by the validator's verdict) and payment_status is PENDING or PAID |
| Models.InvoiceOrderIdUnchecked | models/inoviceModel.go:12-16 | neither order_id nor payment_due affects validation, so an empty order id reaches the lookup |
| Foods.RequestedPage | controllers/foodController.go:26-36 | the page is `page` parsed when given, else `recordPerPage` parsed when given, else 1 |
| Foods.StartIndex | controllers/foodController.go:38 | for a page of at least 1 the start index is a non-negative multiple of the page size, with exactly page − 1 whole pages before it |
| Foods.GetFoods | controllers/foodController.go:27-38 | pages never exceed ten items; `page` decides the page when given, otherwise `recordPerPage` does, and with neither it is the first page |
| Foods.ListPage | controllers/foodController.go:41-52 | no document for an empty collection; otherwise one, with the total count and the foods from the start index, in store order |
| Foods.RecordPerPageIgnoredWithPage | controllers/foodController.go:30-36 | once `page` is given, `recordPerPage` has no effect |
| Foods.PagesCoverFoods | controllers/foodController.go:38-51 | the food at position i is item i mod size of page i div size + 1 |
| Foods.CreateFood | controllers/foodController.go:106-124 | 400 on a violation, then "menu was not found" when the menu is missing; success exactly when both pass, and it appends the created food and nothing else |
| Foods.CreatedFoodIsFound | controllers/foodController.go:119-124 | the created food is what a lookup by its new food_id returns |
| Foods.FoodChanges | controllers/foodController.go:148-173 | name, price, food_image and menu_id are staged exactly when given, updated_at always, nothing else |
| Foods.UpdateFood | controllers/foodController.go:162-186 | fails exactly when a supplied menu_id names no menu, changing nothing; otherwise upserts by food_id and touches no other collection |
| Menus.InTimeSpan | controllers/menuController.go:149-151 | an instant inside the window makes the window non-empty and is neither of its end points; `Menus.EmptyWindowRejects` states the strictness for all inputs |
| Menus.EmptyWindowRejects | controllers/menuController.go:149-151 | the window test is strict: no instant lies in an empty window, and neither end point lies in any window |
| Menus.CreateMenu | controllers/menuController.go:72-83 | fails exactly on a violation; otherwise appends the created menu, with no date-window check |
| Menus.MenuChanges | controllers/menuController.go:107-119 | both dates are staged only as a pair, name and category never, updated_at always |
| Menus.UpdateMenu | controllers/menuController.go:109-132 | fails with "please retype the time" exactly when both dates are given and now is not strictly inside them; otherwise upserts by menu_id |
| Menus.SingleDateLeavesDates | controllers/menuController.go:109-116 | an update with at most one date succeeds and leaves every menu's dates as they were |
| Tables.CreateTable | controllers/tableController.go:72-83 | fails exactly on a violation; otherwise appends the created table |
| Tables.TableChanges | controllers/tableController.go:107-118 | number_of_guests and table_number are staged exactly when given, updated_at always |
| Tables.UpdateTable | controllers/tableController.go:120-131 | no lookup; upserts by table_id and touches no other collection |
| Orders.CreateOrder | controllers/orderController.go:74-94 | 400 on a violation, then "table was not found" only when a table_id is given and names no table; otherwise appends the created order |
| Orders.OrderWithoutTableIgnoresTables | controllers/orderController.go:81-87 | without a table_id the outcome does not depend on the tables |
| Orders.OrderChanges | controllers/orderController.go:118-131 | only table_id (when given) and updated_at are staged |
| Orders.UpdateOrder | controllers/orderController.go:120-144 | fails exactly when a supplied table_id names no table, changing nothing; otherwise upserts by order_id |
| Notes.CreateNote | controllers/noteController.go:72-83 | always appends the created note and changes nothing else |
| Notes.NoteChanges | controllers/noteController.go:109-118 | text and title are staged exactly when non-empty, updated_at always |
| Notes.UpdateNote | controllers/noteController.go:120-131 | upserts by note_id and touches no other collection |
| Notes.UpdateNeverClearsNote | controllers/noteController.go:109-115 | no update empties a text or title that was set |
| OrderItems.CreateOrderItem | controllers/orderItemController.go:96-128 | 400 first, then "order was not found", then "food item was not found"; success exactly when all pass, appending the created item |
| OrderItems.CreatedOrderItemFields | controllers/orderItemController.go:118-126 | the stored item keeps the payload's quantity, unit price, order_id and food_id |
| OrderItems.CreatedOrderItem | controllers/orderItemController.go:118-126 | the new item's id is the hex of the new ObjectID, its order and food exist, and its unit price is the payload's, so the food-price fallback never runs |
| OrderItems.OrderItemChanges | controllers/orderItemController.go:152-173 | quantity, unit_price and food_id are staged exactly when given, order_id never, updated_at always |
| OrderItems.UpdateOrderItem | controllers/orderItemController.go:162-186 | fails exactly when a supplied food_id names no food, changing nothing; otherwise upserts by order_item_id |
| OrderItems.UpdateStoresAnyQuantity | controllers/orderItemController.go:154-156 | the update stores a quantity outside 1..5, which the create refuses |
| OrderItems.ItemsOfOrder | controllers/orderItemController.go:66-80 | the listing is exactly the items whose order_id is the parameter, in store order |
| Invoices.CreateInvoice | controllers/invoiceController.go:72-97 | 400 first, then "order was not found"; success exactly when both pass, appending the created invoice |
| Invoices.CreatedInvoiceFields | controllers/invoiceController.go:86-95 | the stored invoice keeps the order_id and payment_status; its payment_due is the given date, or now plus 720 hours, each stored to the millisecond |
| Invoices.CreatedInvoice | controllers/invoiceController.go:88-89 | the new invoice's id is the hex of the new ObjectID |
| Invoices.CreatedInvoiceDue | controllers/invoiceController.go:92-95 | a missing payment_due becomes now plus 30 × 24 hours, taken without the RFC 3339 truncation and stored as a DateTime to the millisecond; a given one is stored to the millisecond |
| Invoices.CreatedInvoiceIsValid | controllers/invoiceController.go:72-84 | the stored invoice's status is PENDING or PAID and its order exists |
| Invoices.InvoiceChanges | controllers/invoiceController.go:121-136 | payment_method, payment_status and payment_due are staged exactly when given, order_id never, updated_at always |
| Invoices.UpdateInvoice | controllers/invoiceController.go:138-149 | upserts by invoice_id and touches no other collection |
| Invoices.UpdateStoresAnyStatus | controllers/invoiceController.go:127-129 | the update stores any payment status, including one the create refuses |
| Tokens.GenerateAllTokens | helpers/tokenHelper.go:35-67 | the access token signs the email, names and uid with an expiry 86400 seconds after the second of issue; the refresh token signs an empty identity expiring 604800 seconds after it |
| Tokens.TokenLifetimes | helpers/tokenHelper.go:37-52 | the access token expires 86400 s and the refresh token 604800 s after issue; only the access token carries the identity |
| Tokens.TokenChanges | helpers/tokenHelper.go:75-80 | exactly token, refresh_token and updated_at are staged |
| Tokens.UpdateAllTokens | helpers/tokenHelper.go:82-95 | the tokens are upserted on the user keyed by user_id |
| Tokens.ValidateToken | helpers/tokenHelper.go:104-130 | a parse error's text, or "the token is invalid", comes with no claims; parsed claims are returned, and the message is empty exactly when expiresAt ≥ now (equality passes) and is otherwise "token is expired" |
| Tokens.AccessTokenValidity | helpers/tokenHelper.go:104-129 | an issued access token validates, with its identity, exactly up to 86400 s after issue |
| Auth.Authenticate | middleware/authMiddleware.go:14-39 | an empty header gives 401 "No authorization header provided"; a validation message gives 401 with that message; success exactly for a parsed, unexpired token, with the claims' identity; a message-less parse error panics |
| Auth.AccessTokenPassesGate | middleware/authMiddleware.go:24-37 | an access token from sign-up or login opens the gate for a day with the user's identity |
| Auth.RefreshTokenPassesGate | helpers/tokenHelper.go:48-52 | a refresh token opens the gate too, for a week, with an empty identity |
| Users.VerifyPassword | controllers/userController.go:30-41 | (true, "") exactly when the comparison accepts the offered password against the digest, else (false, "login or password is incorrect") |
| Users.SignUp | controllers/userController.go:96-150 | 400, then the email conflict, then the phone conflict (each 409, nothing inserted); success exactly when all pass and password, email and names are present, appending the user |
| Users.CreatedUserIdentity | controllers/userController.go:133-136 | the new user's user_id is the hex of the new ObjectID, and it keeps the payload's email, phone and names |
| Users.CreatedUserSecrets | controllers/userController.go:116-141 | the new user stores the digest and the generated tokens |
| Users.SignedUpUser | controllers/userController.go:116-141 | the stored password is the hash of the given one, and the access token is signed over the new user's identity |
| Users.SignedUpUserIsFound | controllers/userController.go:103-144 | the new user is what a lookup by its email returns |
| Users.SignUpKeepsUnique | controllers/userController.go:103-130 | a valid sign-up with a new email and a new phone number succeeds, and sign-up keeps stored emails and phone numbers unique |
| Users.Login | controllers/userController.go:169-180 | an unknown email gives 401 "login or password is incorrect"; success only for a found user whose digest accepts the password |
| Users.LoginAs | controllers/userController.go:176-192 | on success only the users change, the reply is the found user with the new tokens, and the tokens are signed over its identity and upserted by its user_id |
| Users.LoginFailuresIndistinguishable | controllers/userController.go:169-179 | an unknown email and a wrong password get the identical reply |
| Users.LoginOfFound | controllers/userController.go:176-192 | a found user whose digest accepts the password logs in, and the reply's other fields are the stored ones |
| Users.SignUpThenLogin | controllers/userController.go:169-190 | a user who just signed up logs in with the same credentials and gets the new user's id and a token over the same identity |
| Service.ApplyUser | routes/userRouter.go:12-13 | sign-up and login write only the users |
| Service.ApplyFood | routes/foodRouter.go:12-13 | the food handlers write only the foods |
| Service.ApplyMenu | routes/menuRouter.go:12-13 | the menu handlers write only the menus |
| Service.ApplyTable | routes/tableRouter.go:12-13 | the table handlers write only the tables |
| Service.ApplyOrder | routes/orderRouter.go:12-13 | the order handlers write only the orders |
| Service.ApplyOrderItem | routes/orderItemRouter.go:13-14 | the order-item handlers write only the order items |
| Service.ApplyInvoice | routes/invoiceRouter.go:12-13 | the invoice handlers write only the invoices |
| Service.ApplyNote | routes/noteRouter.go:12-13 | the note handlers write only the notes |
| Service.ApplyCatalogue | main.go:34-35 | the food and menu routes write only their own collection |
| Service.ApplyFloor | main.go:36-37 | the order and table routes write only their own collection |
| Service.ApplyBilling | main.go:38-40 | the order-item, invoice and note routes write only their own collection |
| Service.Apply | main.go:29-40 | every handler writes at most the collection its route names |
| Service.Serve | main.go:29-40 | user routes skip the gate; a protected request that the gate refuses gets the gate's reply, and one that succeeds carried a valid, unexpired token |
| Service.GrowKeepsRefs | controllers/foodController.go:124 | references into a collection that only gains documents keep resolving |
| Service.UpdateKeepsRefs | controllers/menuController.go:107-132 | references into a collection updated without staging the referenced field keep resolving |
| Service.FoodWritePreservesIntegrity | controllers/foodController.go:113-186 | a food write keeps every stored reference resolving |
| Service.MenuWritePreservesIntegrity | controllers/menuController.go:107-132 | a menu write keeps every stored reference resolving |
| Service.TableWritePreservesIntegrity | controllers/tableController.go:107-131 | a table write keeps every stored reference resolving |
| Service.OrderWritePreservesIntegrity | controllers/orderController.go:81-144 | an order write keeps every stored reference resolving |
| Service.OrderItemWritePreservesIntegrity | controllers/orderItemController.go:103-186 | an order-item write keeps every stored reference resolving |
| Service.InvoiceWritePreservesIntegrity | controllers/invoiceController.go:79-149 | an invoice write keeps every stored reference resolving |
| Service.CatalogueWritePreservesIntegrity | main.go:34-35 | food and menu requests keep integrity |
| Service.FloorWritePreservesIntegrity | main.go:36-37 | order and table requests keep integrity |
| Service.BillingWritePreservesIntegrity | main.go:38-40 | order-item, invoice and note requests keep integrity |
| Service.ApplyPreservesIntegrity | main.go:29-40 | every successful handler keeps every stored reference resolving |
| Service.ServePreservesIntegrity | main.go:29-40 | whatever the request and token, a successful request keeps the store's integrity |
| Findings.PageSize | controllers/foodController.go:27-32 | the intended page size is `recordPerPage` when it parses to at least 1, else ten |
| Findings.PageNumber | controllers/foodController.go:34-36 | the intended page number is `page` when it parses to at least 1, else the first |
| Findings.GetFoodsCorrected | controllers/foodController.go:27-52 | the corrected listing reports the total and never exceeds the requested page size |
| Findings.RecordPerPageReadAsPage | controllers/foodController.go:30-32 | as written, recordPerPage=5 on 25 foods returns page five of ten, which is empty; corrected, it returns the first five |
| Findings.CorrectedPagesHonourSize | controllers/foodController.go:27-52 | corrected, the first page holds exactly the first recordPerPage foods |
| Findings.Lower | models/orderItemModel.go:12-18 | the driver's default key is the field name lower-cased, character by character |
| Findings.DriverKeys | models/orderItemModel.go:12-18 | the untagged OrderItem fields are stored as quantity, unitprice, createdat, updatedat, foodid, orderitemid and orderid |
| Findings.CreateOrderItemAsWritten | controllers/orderItemController.go:96-128 | the as-written create fails and succeeds exactly as the corrected one does |
| Findings.StoredItemLacksFilterKeys | models/orderItemModel.go:17-18 | an item as stored has neither order_id nor order_item_id |
| Findings.AsWrittenItemInvisible | controllers/orderItemController.go:66-69 | as written, a created item is never listed for its order and is not found by its order_item_id |
| Findings.CreatedItemListed | controllers/orderItemController.go:66-69 | corrected, the created item is listed last for its order |
| Findings.CreatedItemFound | controllers/orderItemController.go:176 | corrected, the created item is what a lookup by its order_item_id finds |
| Findings.InvoiceDriverKeys | models/inoviceModel.go:12-16 | the untagged Invoice fields are stored as invoiceid, orderid, paymentmethod, paymentstatus and paymentdue |
| Findings.NoteDriverKeys | models/noteModel.go:12-16 | the untagged Note fields are stored as text, title and noteid |
| Findings.CreateInvoiceAsWritten | controllers/invoiceController.go:72-97 | the as-written create fails exactly as the corrected one does, and on success appends one invoice and touches nothing else |
| Findings.CreateNoteAsWritten | controllers/noteController.go:72-83 | the as-written create appends one note that carries no note_id |
| Findings.HiddenInsertThenUpsertAppends | controllers/invoiceController.go:138-149 | a document stored without the filter key is not found by it, and the keyed upsert appends a further document |
| Findings.FoundInsertThenUpsertInPlace | controllers/invoiceController.go:138-149 | a document stored under the filter key with a fresh id is updated in place by the keyed upsert |
| Findings.AsWrittenInvoiceUnreachable | controllers/invoiceController.go:50 | as written, GetInvoice does not find a created invoice by its invoice_id, and UpdateInvoice of that id inserts a new document |
| Findings.CreatedInvoiceUpdatedInPlace | controllers/invoiceController.go:138-149 | corrected, the created invoice is found by its invoice_id and updated in place |
| Findings.AsWrittenNoteUnreachable | controllers/noteController.go:50 | as written, GetNote does not find a created note by its note_id, and UpdateNote of that id inserts a new document |
| Findings.CreatedNoteUpdatedInPlace | controllers/noteController.go:120-131 | corrected, the created note is found by its note_id and updated in place |

## Left out

- I/O: the HTTP server, gin routing beyond which routes are public, JSON binding and its 400 replies, and the response bodies of successful writes, which are driver results.
- The read handlers other than `GetFoods` and `GetOrderItemsByOrderID` (`GetFoodByID`, `GetMenus`, `GetUsers` and the like). They are single `FindOne` or `Find` calls, covered by `Documents.FindOne` and `Documents.Filter`.
- `Logout`, which only replies with a constant message, and the gate on the `GetAllUsers` and `Logout` routes, which write nothing.
- Store failures: errors from `InsertOne`, `UpdateOne`, `CountDocuments` and `Aggregate`, the 100-second timeouts, and the `log.Fatal` and `log.Panic` paths. The store is assumed to answer.
- `GetFoods` with a page below 1, where `$slice` gets a negative start whose meaning is the store's; `Foods.GetFoods` requires a page of at least 1.
- `strconv.Atoi` is a parameter; its parse-error value (0) is whatever the parameter returns.
- bcrypt hashing and comparison, and HS256 signing and parsing with the configured secret, are parameters, as are the validators of the Food, Menu, Table, Order and User models. Those model files are not part of this model; their stored keys are taken from the controllers' filters and `$set` keys.
- Concurrency: two requests racing between a uniqueness or reference check and the write.
- Integer widths: counts, quantities and Unix seconds are unbounded; 64-bit overflow is not modelled. Prices are opaque 64-bit patterns that are only copied.
- Each handler reads the clock several times (`created_at`, `updated_at`, tokens, `payment_due`); the model reads it once per request.
- A stored field of an unexpected BSON type, which would fail to decode, is not modelled: the documents are maps of already-decoded values.
- Auth.Authenticate: the JWT library's own check of `exp` is not modelled as such. The parser takes the clock, and the lemmas hold for any parser that either still returns expired claims or fails with a non-empty error.
- Users.SignUp: a missing email or phone is counted as `null` by the uniqueness checks, as the driver would. A missing password, email or name is dereferenced and modelled as `Panic`, not as a particular reply.

## Findings

| source | as written | input that shows it | evidently intended | confidence | as-written member | corrected member |
|---|---|---|---|---|---|---|
| controllers/foodController.go:30-32 | the `recordPerPage` query parameter is parsed into `page`; the page size stays 10 | 25 foods, `?recordPerPage=5`: the start index is 40, so the page is empty | `recordPerPage` sets the page size, and `page` the page | high, not executed | Findings.RecordPerPageReadAsPage | Findings.CorrectedPagesHonourSize |
| models/orderItemModel.go:10-18 | `OrderItem` has no `bson` tags, so the driver stores `OrderItemID` as `orderitemid` and `OrderID` as `orderid`, while the handlers filter on `order_item_id` and `order_id` | create any order item, then list its order or update it by its id: the list omits it, and the update inserts a new document | the fields are stored under `order_item_id` and `order_id` | medium (depends on the driver's default struct codec), not executed | Findings.AsWrittenItemInvisible | Findings.CreatedItemListed |
| models/inoviceModel.go:10-19 | `Invoice` has no `bson` tags, so the driver stores `InvoiceID` as `invoiceid`, while `GetInvoice` and `UpdateInvoice` filter on `invoice_id` | create any invoice, then fetch or update it by its id: the fetch fails, and the update inserts a new document | the fields are stored under `invoice_id`, `order_id` and the other snake-case keys | medium (depends on the driver's default struct codec), not executed | Findings.AsWrittenInvoiceUnreachable | Findings.CreatedInvoiceUpdatedInPlace |
| models/noteModel.go:10-17 | `Note` has no `bson` tags, so the driver stores `NoteID` as `noteid`, while `GetNote` and `UpdateNote` filter on `note_id` | create any note, then fetch or update it by its id: the fetch fails, and the update inserts a new document | the id is stored under `note_id` | medium (depends on the driver's default struct codec), not executed | Findings.AsWrittenNoteUnreachable | Findings.CreatedNoteUpdatedInPlace |
