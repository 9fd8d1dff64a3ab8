/** Decoded request bodies, one per entity, and the validation tags of the two model
    files that carry them. A `*T` field of the Go struct is an `Option`. */
module Models {
  import opened Wrappers
  import opened Replies
  import opened Clock

  datatype FoodPayload = FoodPayload(
    name: Option<string>, price: Option<bv64>, foodImage: Option<string>, menuId: Option<string>)

  datatype MenuPayload = MenuPayload(
    name: Option<string>, category: Option<string>, startDate: Option<Instant>, endDate: Option<Instant>)

  datatype TablePayload = TablePayload(numberOfGuests: Option<int>, tableNumber: Option<int>)

  datatype OrderPayload = OrderPayload(tableId: Option<string>)

  datatype OrderItemPayload = OrderItemPayload(
    quantity: Option<int>, unitPrice: Option<bv64>, foodId: Option<string>, orderId: string)

  datatype InvoicePayload = InvoicePayload(
    orderId: string, paymentMethod: Option<string>, paymentStatus: Option<string>, paymentDue: Option<Instant>)

  /** The note model has plain string fields: an absent field decodes as "". */
  datatype NotePayload = NotePayload(text: string, title: string)

  datatype UserPayload = UserPayload(
    firstName: Option<string>, lastName: Option<string>, password: Option<string>,
    email: Option<string>, phone: Option<string>)

  const QuantityTag := "eq=1|eq=2|eq=3|eq=4|eq=5"
  const PaymentMethodTag := "eq=CARD|eq=CASH|eq="
  const PaymentStatusTag := "eq=PENDING|eq=PAID"

  /** The tags of `OrderItem`, checked in field order: `quantity` required and one of 1..5,
      `unit_price` and `food_id` required (any non-nil value passes), `order_id` required
      (a non-empty string). */
  function ValidateOrderItem(p: OrderItemPayload): (errors: seq<FieldError>)
    ensures errors == [] <==>
      && p.quantity.Some? && 1 <= p.quantity.value <= 5
      && p.unitPrice.Some?
      && p.foodId.Some?
      && p.orderId != ""
    ensures forall e :: e in errors ==> e.field in {"Quantity", "UnitPrice", "FoodID", "OrderID"}
  {
    (match p.quantity
     case None => [FieldError("Quantity", "required")]
     case Some(q) => if 1 <= q <= 5 then [] else [FieldError("Quantity", QuantityTag)])
    + (if p.unitPrice.None? then [FieldError("UnitPrice", "required")] else [])
    + (if p.foodId.None? then [FieldError("FoodID", "required")] else [])
    + (if p.orderId == "" then [FieldError("OrderID", "required")] else [])
  }

  /** The tags of `Invoice`: `payment_method` one of CARD, CASH or "" (how the validator
      treats a nil `*string` under a tag without `required` is the library's business, so it
      is the parameter `nilMethodPasses`), `payment_status` required and PENDING or PAID.
      `order_id`, `invoice_id` and `payment_due` carry no tag. */
  function ValidateInvoice(p: InvoicePayload, nilMethodPasses: bool): (errors: seq<FieldError>)
    ensures errors == [] <==>
      && (p.paymentMethod.None? ==> nilMethodPasses)
      && (p.paymentMethod.Some? ==> p.paymentMethod.value in {"CARD", "CASH", ""})
      && p.paymentStatus.Some? && p.paymentStatus.value in {"PENDING", "PAID"}
    ensures forall e :: e in errors ==> e.field in {"PaymentMethod", "PaymentStatus"}
  {
    (match p.paymentMethod
     case None => if nilMethodPasses then [] else [FieldError("PaymentMethod", PaymentMethodTag)]
     case Some(m) => if m in {"CARD", "CASH", ""} then [] else [FieldError("PaymentMethod", PaymentMethodTag)])
    + (match p.paymentStatus
       case None => [FieldError("PaymentStatus", "required")]
       case Some(st) => if st in {"PENDING", "PAID"} then [] else [FieldError("PaymentStatus", PaymentStatusTag)])
  }

  /** The validation does not look at `order_id` beyond its tag-less declaration: an empty
      order id passes and reaches the order lookup. */
  lemma InvoiceOrderIdUnchecked(p: InvoicePayload, nilMethodPasses: bool)
    ensures ValidateInvoice(p, nilMethodPasses) == ValidateInvoice(p.(orderId := ""), nilMethodPasses)
    ensures ValidateInvoice(p, nilMethodPasses) == ValidateInvoice(p.(paymentDue := None), nilMethodPasses)
  {
  }
}
