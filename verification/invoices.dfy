/** controllers/invoiceController.go: create with the order check and the thirty-day
    payment-due default, and the update. Invoices are stored under the keys the handlers
    filter on; `Findings` covers the untagged layout the driver would write. */
module Invoices {
  import opened Wrappers
  import opened Replies
  import opened Clock
  import opened ObjectIds
  import opened Documents
  import opened Stores
  import opened Models

  /** How long after creation an invoice falls due when the payload names no date. */
  const PaymentTerm: int := 30 * 24 * Hour

  /** The payment-due date of a new invoice as stored. The default is taken from the clock
      directly, without the RFC 3339 round trip the timestamps go through, so it keeps the
      milliseconds a DateTime holds. */
  function PaymentDue(p: InvoicePayload, now: Instant): Value
  {
    if p.paymentDue.Some? then DateTime(p.paymentDue.value) else DateTime(now + PaymentTerm)
  }

  function InvoiceFields(p: InvoicePayload, now: Instant): Doc
  {
    map["order_id" := Str(p.orderId), "payment_method" := OptStr(p.paymentMethod),
        "payment_status" := OptStr(p.paymentStatus), "payment_due" := PaymentDue(p, now)]
  }

  /** `CreateInvoice`: validate, then check the order; the first failure is reported and
      nothing is written. */
  function CreateInvoice(s: Store, p: InvoicePayload, nilMethodPasses: bool, env: Env): (r: Result<Store>)
    ensures r.Ok? <==> ValidateInvoice(p, nilMethodPasses) == [] && Exists(s.orders, "order_id", Str(p.orderId))
    ensures ValidateInvoice(p, nilMethodPasses) != [] ==>
      r == Err(Reject(BadRequest, Violations(ValidateInvoice(p, nilMethodPasses))))
    ensures ValidateInvoice(p, nilMethodPasses) == [] && !Exists(s.orders, "order_id", Str(p.orderId)) ==>
      r == Err(Reject(InternalServerError, Text("order was not found")))
    ensures r.Ok? ==> r.value == s.(invoices := s.invoices + [Created(InvoiceFields(p, env.now), "invoice_id", env)])
  {
    var errors := ValidateInvoice(p, nilMethodPasses);
    if errors != [] then Err(Reject(BadRequest, Violations(errors)))
    else if FindOne(s.orders, "order_id", Str(p.orderId)).None? then
      Err(Reject(InternalServerError, Text("order was not found")))
    else Ok(s.(invoices := s.invoices + [Created(InvoiceFields(p, env.now), "invoice_id", env)]))
  }

  /** The fields of a new invoice as stored, whatever the store. */
  lemma CreatedInvoiceFields(p: InvoicePayload, env: Env)
    ensures var d := Created(InvoiceFields(p, env.now), "invoice_id", env);
      && d["order_id"] == Str(p.orderId) && d["payment_status"] == OptStr(p.paymentStatus)
      && (p.paymentDue.None? ==> d["payment_due"] == DateTime(env.now + 720 * Hour))
      && (p.paymentDue.Some? ==> d["payment_due"] == DateTime(p.paymentDue.value))
  {
    var fields := InvoiceFields(p, env.now);
    assert fields["order_id"] == Str(p.orderId) && fields["payment_status"] == OptStr(p.paymentStatus);
    assert fields["payment_due"] == PaymentDue(p, env.now);
    assert PaymentTerm == 720 * Hour;
    assert !Reserved("payment_status", "invoice_id") && !Reserved("order_id", "invoice_id");
    assert !Reserved("payment_due", "invoice_id");
  }

  /** The stored invoice's id is the hex of the new `ObjectID`. */
  lemma CreatedInvoice(s: Store, p: InvoicePayload, nilMethodPasses: bool, env: Env)
    requires CreateInvoice(s, p, nilMethodPasses, env).Ok?
    ensures var invoices := CreateInvoice(s, p, nilMethodPasses, env).value.invoices;
      && |invoices| == |s.invoices| + 1
      && invoices[|s.invoices|]["invoice_id"] == Str(Hex(env.newId))
  {
    var d := Created(InvoiceFields(p, env.now), "invoice_id", env);
    assert CreateInvoice(s, p, nilMethodPasses, env).value.invoices == s.invoices + [d];
  }

  /** The stored invoice is due thirty days after the clock reading unless the payload
      names a date, which is kept as given. */
  lemma CreatedInvoiceDue(s: Store, p: InvoicePayload, nilMethodPasses: bool, env: Env)
    requires CreateInvoice(s, p, nilMethodPasses, env).Ok?
    ensures var invoices := CreateInvoice(s, p, nilMethodPasses, env).value.invoices;
      && |invoices| == |s.invoices| + 1
      && var due := invoices[|s.invoices|]["payment_due"];
      && (p.paymentDue.None? ==> due == DateTime(env.now + 720 * Hour))
      && (p.paymentDue.Some? ==> due == DateTime(p.paymentDue.value))
  {
    var d := Created(InvoiceFields(p, env.now), "invoice_id", env);
    assert CreateInvoice(s, p, nilMethodPasses, env).value.invoices == s.invoices + [d];
    CreatedInvoiceFields(p, env);
  }

  /** The stored invoice passed validation and names an existing order. */
  lemma CreatedInvoiceIsValid(s: Store, p: InvoicePayload, nilMethodPasses: bool, env: Env)
    requires CreateInvoice(s, p, nilMethodPasses, env).Ok?
    ensures var invoices := CreateInvoice(s, p, nilMethodPasses, env).value.invoices;
      && |invoices| == |s.invoices| + 1
      && var d := invoices[|s.invoices|];
      && d["payment_status"] in {Str("PENDING"), Str("PAID")}
      && Exists(s.orders, "order_id", d["order_id"])
  {
    var d := Created(InvoiceFields(p, env.now), "invoice_id", env);
    assert CreateInvoice(s, p, nilMethodPasses, env).value.invoices == s.invoices + [d];
    CreatedInvoiceFields(p, env);
  }

  /** The `$set` document of `UpdateInvoice`: no enumeration is checked and `order_id` is
      never among its keys. */
  function InvoiceChanges(p: InvoicePayload, now: Instant): (staged: Doc)
    ensures "payment_method" in staged <==> p.paymentMethod.Some?
    ensures "payment_status" in staged <==> p.paymentStatus.Some?
    ensures "payment_due" in staged <==> p.paymentDue.Some?
    ensures staged.Keys <= {"payment_method", "payment_status", "payment_due", "updated_at"}
    ensures "updated_at" in staged && staged["updated_at"] == Stamp(now)
    ensures forall k :: k in staged && k != "updated_at" ==> staged[k] == InvoiceFields(p, now)[k]
  {
    var staged := Stage(map[], "payment_method", if p.paymentMethod.Some? then Some(Str(p.paymentMethod.value)) else None);
    var staged := Stage(staged, "payment_status", if p.paymentStatus.Some? then Some(Str(p.paymentStatus.value)) else None);
    var staged := Stage(staged, "payment_due", if p.paymentDue.Some? then Some(DateTime(p.paymentDue.value)) else None);
    staged["updated_at" := Stamp(now)]
  }

  /** `UpdateInvoice`: the staged fields are `$set` on the invoice keyed by `invoice_id`,
      inserting one if there is none. */
  function UpdateInvoice(s: Store, id: string, p: InvoicePayload, env: Env): (r: Store)
    ensures r.(invoices := s.invoices) == s
    ensures Upserted(s.invoices, r.invoices, "invoice_id", id, InvoiceChanges(p, env.now), env.upsertedId)
  {
    s.(invoices := UpdateOneUpsert(s.invoices, "invoice_id", id, InvoiceChanges(p, env.now), env.upsertedId))
  }

  /** Because the update skips validation, it stores a payment status outside PENDING and
      PAID, which the create would refuse. */
  lemma UpdateStoresAnyStatus(s: Store, id: string, status: string, env: Env)
    ensures var p := InvoicePayload("", None, Some(status), None);
      && FindOne(UpdateInvoice(s, id, p, env).invoices, "invoice_id", Str(id)).Some?
      && Get(FindOne(UpdateInvoice(s, id, p, env).invoices, "invoice_id", Str(id)).value, "payment_status") == Str(status)
  {
    var p := InvoicePayload("", None, Some(status), None);
    UpsertedThenFound(s.invoices, UpdateInvoice(s, id, p, env).invoices, "invoice_id", id, InvoiceChanges(p, env.now), env.upsertedId);
  }
}
