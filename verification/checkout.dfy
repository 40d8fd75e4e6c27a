/** The checkout page: its pricing (subtotal, shipping by method, total), the
    contact and shipping form, the information → shipping → payment steps,
    and the order payload it posts. */
module Checkout {
  import opened Wrappers
  import opened Catalog
  import opened ClientCart
  import CartPage

  // ---------------------------------------------------------------------------
  // Pricing

  /** The fee for the express method, whatever the subtotal. */
  const ExpressFee: nat := 20

  /** `calculateShipping`: 20 for "express"; for any other method 0 when the
      subtotal is above 100 and 10 otherwise. */
  function Shipping(lines: seq<ClientLine>, shippingMethod: string): (fee: nat)
    ensures shippingMethod == "express" ==> fee == ExpressFee
    ensures shippingMethod != "express" ==> (fee == 0 <==> Subtotal(lines) > 100)
    ensures shippingMethod != "express" && fee != 0 ==> fee == 10
  {
    if shippingMethod == "express" then ExpressFee
    else if Subtotal(lines) > 100 then 0 else 10
  }

  /** `calculateTotal`: the subtotal plus a fee of 0, 10 or 20, so never below
      the subtotal; with the standard method it is the shopping-bag page's total. */
  function Total(lines: seq<ClientLine>, shippingMethod: string): (r: int)
    ensures r == Subtotal(lines) + Shipping(lines, shippingMethod)
    ensures r >= Subtotal(lines)
    ensures r - Subtotal(lines) in {0, 10, 20}
    ensures shippingMethod != "express" ==> r == CartPage.Total(lines)
  {
    Subtotal(lines) + Shipping(lines, shippingMethod)
  }

  /** A subtotal of exactly 100 still pays the standard fee, while express pays
      20 even for a large subtotal. */
  lemma ShippingBoundary(lines: seq<ClientLine>, shippingMethod: string)
    ensures Subtotal(lines) == 100 && shippingMethod != "express" ==> Total(lines, shippingMethod) == 110
    ensures Subtotal(lines) > 100 && shippingMethod == "express" ==> Total(lines, shippingMethod) == Subtotal(lines) + 20
  {
  }

  // ---------------------------------------------------------------------------
  // The form

  /** The page's form state. */
  datatype FormData = FormData(
    email: string,
    phone: string,
    firstName: string,
    lastName: string,
    country: string,
    state: string,
    address: string,
    city: string,
    postalCode: string,
    shippingMethod: string)

  /** All fields empty, standard shipping selected. */
  const InitialForm := FormData("", "", "", "", "", "", "", "", "", "standard")

  /** The form's input names. */
  datatype Field = Email | Phone | FirstName | LastName | Country | State | Address
                 | City | PostalCode | ShippingMethod

  function Get(form: FormData, f: Field): string {
    match f
    case Email => form.email
    case Phone => form.phone
    case FirstName => form.firstName
    case LastName => form.lastName
    case Country => form.country
    case State => form.state
    case Address => form.address
    case City => form.city
    case PostalCode => form.postalCode
    case ShippingMethod => form.shippingMethod
  }

  /** `handleInputChange`: `{...formData, [name]: value}`: the named field takes
      the new value and every other field keeps its own. */
  function SetField(form: FormData, f: Field, value: string): (r: FormData)
    ensures Get(r, f) == value
    ensures forall g :: g != f ==> Get(r, g) == Get(form, g)
  {
    match f
    case Email => form.(email := value)
    case Phone => form.(phone := value)
    case FirstName => form.(firstName := value)
    case LastName => form.(lastName := value)
    case Country => form.(country := value)
    case State => form.(state := value)
    case Address => form.(address := value)
    case City => form.(city := value)
    case PostalCode => form.(postalCode := value)
    case ShippingMethod => form.(shippingMethod := value)
  }

  /** The check in `handleShippingSubmit`: first name, last name and address are
      non-empty. City, state, country and postal code are not looked at. */
  predicate ShippingFormComplete(form: FormData) {
    form.firstName != "" && form.lastName != "" && form.address != ""
  }

  // ---------------------------------------------------------------------------
  // Steps

  datatype Step = InformationStep | ShippingStep | PaymentStep

  /** `handleShippingSubmit`: on to payment when the check passes, otherwise the
      step stays where it was. */
  function SubmitShipping(step: Step, form: FormData): (next: Step)
    ensures ShippingFormComplete(form) ==> next == PaymentStep
    ensures !ShippingFormComplete(form) ==> next == step
  {
    if ShippingFormComplete(form) then PaymentStep else step
  }

  /** What the user can do on the page. */
  datatype Event =
    | Edit(field: Field, value: string)  // typing into an input or picking a radio button
    | SubmitInformation                   // the contact form's submit button
    | SubmitShippingForm                  // the shipping form's submit button
    | InformationTab                      // the INFORMATION tab
    | ShippingTab                         // the SHIPPING tab
    | PaymentTab                          // the PAYMENT tab (it has no handler)

  datatype PageState = PageState(step: Step, form: FormData)

  const InitialPage := PageState(InformationStep, InitialForm)

  /** The handlers. The contact form always moves to shipping; the INFORMATION
      tab always returns to information; the SHIPPING tab moves to shipping
      except from information; the PAYMENT tab does nothing. Payment is entered
      only from a shipping submit that passes the check. */
  function Next(s: PageState, e: Event): (r: PageState)
    ensures e == SubmitInformation ==> r.step == ShippingStep
    ensures e == InformationTab ==> r.step == InformationStep
    ensures e == ShippingTab ==> r.step == (if s.step == InformationStep then InformationStep else ShippingStep)
    ensures e == PaymentTab ==> r == s
    ensures !e.Edit? ==> r.form == s.form
    ensures e.Edit? ==> r.step == s.step && r.form == SetField(s.form, e.field, e.value)
    ensures r.step == PaymentStep && s.step != PaymentStep ==>
      e == SubmitShippingForm && ShippingFormComplete(s.form)
  {
    match e
    case Edit(f, v) => s.(form := SetField(s.form, f, v))
    case SubmitInformation => s.(step := ShippingStep)
    case SubmitShippingForm => s.(step := SubmitShipping(s.step, s.form))
    case InformationTab => s.(step := InformationStep)
    case ShippingTab => if s.step != InformationStep then s.(step := ShippingStep) else s
    case PaymentTab => s
  }

  /** The step whose form shows the input for `f`: email and phone are on the
      contact form, everything else on the shipping form. */
  function InputStep(f: Field): Step {
    match f
    case Email => InformationStep
    case Phone => InformationStep
    case _ => ShippingStep
  }

  /** An event the page can produce in state `s`: inputs and submit buttons
      exist only while their form is shown; the tabs are always there. */
  predicate Enabled(s: PageState, e: Event) {
    match e
    case Edit(f, _) => InputStep(f) == s.step
    case SubmitInformation => s.step == InformationStep
    case SubmitShippingForm => s.step == ShippingStep
    case _ => true
  }

  function Run(s: PageState, events: seq<Event>): PageState
    decreases |events|
  {
    if events == [] then s else Run(Next(s, events[0]), events[1..])
  }

  /** Every event of the run is one the page can produce when it happens. */
  predicate EnabledRun(s: PageState, events: seq<Event>)
    decreases |events|
  {
    events == [] || (Enabled(s, events[0]) && EnabledRun(Next(s, events[0]), events[1..]))
  }

  /** The page invariant: whenever the payment step shows, the shipping check holds. */
  predicate PaymentReady(s: PageState) {
    s.step == PaymentStep ==> ShippingFormComplete(s.form)
  }

  lemma NextKeepsPaymentReady(s: PageState, e: Event)
    requires PaymentReady(s) && Enabled(s, e)
    ensures PaymentReady(Next(s, e))
  {
  }

  /** Along any run of events the page can produce, the payment step only shows
      with a first name, last name and address filled in. */
  lemma {:induction false} RunKeepsPaymentReady(s: PageState, events: seq<Event>)
    requires PaymentReady(s) && EnabledRun(s, events)
    ensures PaymentReady(Run(s, events))
    decreases |events|
  {
    if events != [] {
      NextKeepsPaymentReady(s, events[0]);
      RunKeepsPaymentReady(Next(s, events[0]), events[1..]);
    }
  }

  // ---------------------------------------------------------------------------
  // The order payload

  datatype OrderLine = OrderLine(product: ProductId, quantity: int, size: string, color: string)

  datatype ShippingAddress = ShippingAddress(
    firstName: string, lastName: string, address: string,
    city: string, state: string, country: string, postalCode: string)

  datatype OrderData = OrderData(
    items: seq<OrderLine>,
    shippingAddress: ShippingAddress,
    totalAmount: int,
    shippingMethod: string)

  /** `cartItems.map(item => ({ product: item.product._id, ... }))`: one entry
      per line, in order, copying product id, quantity, size and color. A line
      whose product is null makes the dereference throw, so there is no result. */
  function OrderLines(lines: seq<ClientLine>): (r: Option<seq<OrderLine>>)
    ensures r.Some? <==> forall k :: 0 <= k < |lines| ==> lines[k].product.Some?
    ensures r.Some? ==> |r.value| == |lines|
    ensures r.Some? ==> forall k :: 0 <= k < |lines| ==>
      r.value[k] == OrderLine(lines[k].product.value.id, lines[k].quantity, lines[k].size, lines[k].color)
  {
    if lines == [] then Some([])
    else if lines[0].product.None? then None
    else match OrderLines(lines[1..])
      case None => None
      case Some(rest) =>
        Some([OrderLine(lines[0].product.value.id, lines[0].quantity, lines[0].size, lines[0].color)] + rest)
  }

  function AddressOf(form: FormData): ShippingAddress {
    ShippingAddress(form.firstName, form.lastName, form.address,
                    form.city, form.state, form.country, form.postalCode)
  }

  /** The `orderData` of `handlePaymentSubmit`; None when building it throws
      (the page then reports that the order failed and posts nothing). */
  function BuildOrder(lines: seq<ClientLine>, form: FormData): (order: Option<OrderData>)
    ensures order.Some? <==> forall k :: 0 <= k < |lines| ==> lines[k].product.Some?
    ensures order.Some? ==> order.value.items == OrderLines(lines).value
    ensures order.Some? ==> |order.value.items| == |lines|
    ensures order.Some? ==> forall k :: 0 <= k < |lines| ==>
      order.value.items[k].product == lines[k].product.value.id && order.value.items[k].quantity == lines[k].quantity
    ensures order.Some? ==> order.value.totalAmount == Total(lines, form.shippingMethod)
    ensures order.Some? ==> order.value.totalAmount >= Subtotal(lines)
    ensures order.Some? ==> order.value.shippingMethod == form.shippingMethod
    ensures order.Some? ==> order.value.shippingAddress == AddressOf(form)
  {
    match OrderLines(lines)
    case None => None
    case Some(items) => Some(OrderData(items, AddressOf(form), Total(lines, form.shippingMethod), form.shippingMethod))
  }

  /** An order placed from the payment step of any run the page can produce,
      starting from the freshly loaded page, carries a shipping address with
      first name, last name and street address filled in. */
  lemma PlacedOrderHasAddress(events: seq<Event>, lines: seq<ClientLine>)
    requires EnabledRun(InitialPage, events)
    requires Run(InitialPage, events).step == PaymentStep
    requires BuildOrder(lines, Run(InitialPage, events).form).Some?
    ensures var a := BuildOrder(lines, Run(InitialPage, events).form).value.shippingAddress;
      a.firstName != "" && a.lastName != "" && a.address != ""
  {
    RunKeepsPaymentReady(InitialPage, events);
  }
}
