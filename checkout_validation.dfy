/** The checkout form schema (lib/validations/checkout.ts): minimum lengths on
    the customer and address fields, a closed set of payment methods, optional
    card details and a defaulted "same as shipping" flag.  The library's e-mail
    check is a parameter `isEmail`, about which nothing is assumed. */
module CheckoutValidation {
  import opened Types

  datatype Address = Address(street: string, city: string, state: string, zipCode: string, country: string)

  datatype CardDetails = CardDetails(cardNumber: string, expiryDate: string, cvv: string, cardholderName: string)

  datatype PaymentMethod = Card | Paypal | Bank {
    /** The enumeration value the schema accepts for this method. */
    function Name(): string {
      match this
      case Card => "card"
      case Paypal => "paypal"
      case Bank => "bank"
    }
  }

  /** The payment method whose enumeration value is `s`, if any. */
  function PaymentMethodNamed(s: string): (r: Option<PaymentMethod>)
    ensures r.Some? ==> r.value.Name() == s
    ensures forall m: PaymentMethod :: m.Name() == s ==> r == Some(m)
  {
    if s == "card" then Some(Card)
    else if s == "paypal" then Some(Paypal)
    else if s == "bank" then Some(Bank)
    else None
  }

  /** The form values as submitted, before the schema applies its default. */
  datatype CheckoutInput = CheckoutInput(
    customerName: string,
    customerEmail: string,
    customerPhone: string,
    shippingAddress: Address,
    billingAddress: Address,
    sameAsShipping: Option<bool>,
    paymentMethod: Option<string>,
    cardDetails: Option<CardDetails>)

  /** `CheckoutFormData`: what a successful parse yields. */
  datatype CheckoutData = CheckoutData(
    customerName: string,
    customerEmail: string,
    customerPhone: string,
    shippingAddress: Address,
    billingAddress: Address,
    sameAsShipping: bool,
    paymentMethod: PaymentMethod,
    cardDetails: Option<CardDetails>)

  /** One validation failure: the field's path and the message shown under it. */
  datatype Issue = Issue(path: string, message: string)

  predicate AddressValid(a: Address) {
    && |a.street| >= 5
    && |a.city| >= 2
    && |a.state| >= 2
    && |a.zipCode| >= 5
    && |a.country| >= 2
  }

  predicate CardDetailsValid(c: CardDetails) {
    && |c.cardNumber| >= 16
    && |c.expiryDate| >= 5
    && |c.cvv| >= 3
    && |c.cardholderName| >= 2
  }

  /** `checkoutSchema.parse`: the parsed data, or None when any rule fails. */
  function Parse(d: CheckoutInput, isEmail: string -> bool): (r: Option<CheckoutData>)
    ensures r.Some? <==> Issues(d, isEmail) == []
    ensures r.Some? ==> r.value.sameAsShipping == (d.sameAsShipping != Some(false))
    ensures r.Some? ==> d.paymentMethod == Some(r.value.paymentMethod.Name())
    ensures r.Some? ==> && r.value.customerName == d.customerName
                        && r.value.customerEmail == d.customerEmail
                        && r.value.customerPhone == d.customerPhone
                        && r.value.shippingAddress == d.shippingAddress
                        && r.value.billingAddress == d.billingAddress
                        && r.value.cardDetails == d.cardDetails
  {
    AddressIssuesIffValid("shippingAddress", d.shippingAddress);
    AddressIssuesIffValid("billingAddress", d.billingAddress);
    if && |d.customerName| >= 2
       && isEmail(d.customerEmail)
       && |d.customerPhone| >= 10
       && AddressValid(d.shippingAddress)
       && AddressValid(d.billingAddress)
       && d.paymentMethod.Some?
       && PaymentMethodNamed(d.paymentMethod.value).Some?
       && (d.cardDetails.Some? ==> CardDetailsValid(d.cardDetails.value))
    then
      Some(CheckoutData(
        d.customerName, d.customerEmail, d.customerPhone,
        d.shippingAddress, d.billingAddress,
        d.sameAsShipping.GetOr(true),
        PaymentMethodNamed(d.paymentMethod.value).value,
        d.cardDetails))
    else
      None
  }

  function MinLength(path: string, s: string, n: nat, message: string): seq<Issue> {
    if |s| >= n then [] else [Issue(path, message)]
  }

  function AddressIssues(prefix: string, a: Address): seq<Issue> {
    MinLength(prefix + ".street", a.street, 5, "Street address is required")
    + MinLength(prefix + ".city", a.city, 2, "City is required")
    + MinLength(prefix + ".state", a.state, 2, "State is required")
    + MinLength(prefix + ".zipCode", a.zipCode, 5, "ZIP code is required")
    + MinLength(prefix + ".country", a.country, 2, "Country is required")
  }

  function PaymentMethodIssues(m: Option<string>): seq<Issue> {
    match m
    case None => [Issue("paymentMethod", "Please select a payment method")]
    case Some(s) => if PaymentMethodNamed(s).Some? then [] else [Issue("paymentMethod", "Invalid enum value")]
  }

  function CardDetailsIssues(c: Option<CardDetails>): seq<Issue> {
    match c
    case None => []
    case Some(c) =>
      MinLength("cardDetails.cardNumber", c.cardNumber, 16, "Card number must be 16 digits")
      + MinLength("cardDetails.expiryDate", c.expiryDate, 5, "Please enter expiry date (MM/YY)")
      + MinLength("cardDetails.cvv", c.cvv, 3, "CVV must be 3-4 digits")
      + MinLength("cardDetails.cardholderName", c.cardholderName, 2, "Cardholder name is required")
  }

  /** Every failing rule of the schema, in field order, with the schema's message. */
  function Issues(d: CheckoutInput, isEmail: string -> bool): seq<Issue> {
    MinLength("customerName", d.customerName, 2, "Name must be at least 2 characters")
    + (if isEmail(d.customerEmail) then [] else [Issue("customerEmail", "Please enter a valid email address")])
    + MinLength("customerPhone", d.customerPhone, 10, "Please enter a valid phone number")
    + AddressIssues("shippingAddress", d.shippingAddress)
    + AddressIssues("billingAddress", d.billingAddress)
    + PaymentMethodIssues(d.paymentMethod)
    + CardDetailsIssues(d.cardDetails)
  }

  /** The address rules do not depend on which address they are applied to. */
  lemma AddressIssuesIffValid(prefix: string, a: Address)
    ensures AddressIssues(prefix, a) == [] <==> AddressValid(a)
  {
  }

  /** The schema treats the two addresses alike: swapping them never changes
      whether the form is accepted. */
  lemma AddressesCheckedAlike(d: CheckoutInput, isEmail: string -> bool)
    ensures Parse(d, isEmail).Some? <==>
            Parse(d.(shippingAddress := d.billingAddress, billingAddress := d.shippingAddress), isEmail).Some?
  {
  }

  /** The billing address is validated whatever `sameAsShipping` says: an
      accepted form always has a valid billing address, and a form that asks
      for the shipping address to be reused is still refused over a bad
      billing address. */
  lemma BillingAlwaysValidated(d: CheckoutInput, isEmail: string -> bool)
    ensures Parse(d, isEmail).Some? ==> AddressValid(d.billingAddress)
    ensures !AddressValid(d.billingAddress) ==> Parse(d.(sameAsShipping := Some(true)), isEmail).None?
  {
  }

  /** There are no maximum lengths: lengthening every length-checked field
      of an accepted form keeps it accepted. */
  lemma NoMaximumLengths(d: CheckoutInput, isEmail: string -> bool, extra: string)
    requires Parse(d, isEmail).Some?
    ensures Parse(Lengthened(d, extra), isEmail).Some?
  {
  }

  function LengthenedAddress(a: Address, extra: string): Address {
    Address(a.street + extra, a.city + extra, a.state + extra, a.zipCode + extra, a.country + extra)
  }

  /** `d` with `extra` appended to every field that has a minimum length. */
  function Lengthened(d: CheckoutInput, extra: string): CheckoutInput {
    d.(customerName := d.customerName + extra,
       customerPhone := d.customerPhone + extra,
       shippingAddress := LengthenedAddress(d.shippingAddress, extra),
       billingAddress := LengthenedAddress(d.billingAddress, extra),
       cardDetails := match d.cardDetails
                      case None => None
                      case Some(c) => Some(CardDetails(c.cardNumber + extra, c.expiryDate + extra,
                                                       c.cvv + extra, c.cardholderName + extra)))
  }

  /** Card details may always be left out, the card method included; when
      they are given, the form is refused unless all four meet their minimums. */
  lemma CardDetailsOptional(d: CheckoutInput, isEmail: string -> bool)
    ensures Parse(d, isEmail).Some? ==> Parse(d.(cardDetails := None), isEmail).Some?
    ensures d.cardDetails.Some? && !CardDetailsValid(d.cardDetails.value) ==> Parse(d, isEmail).None?
  {
  }

  /** The payment method is accepted iff it is one of the three names, and the
      name round-trips through the parsed method. */
  lemma PaymentMethodRoundTrip(m: PaymentMethod, s: string)
    ensures PaymentMethodNamed(m.Name()) == Some(m)
    ensures PaymentMethodNamed(s).Some? <==> s in ["card", "paypal", "bank"]
  {
  }

  /** The schema with the billing address checked only when it is not the
      shipping address, so that a hidden billing form cannot block checkout.
      When the box is ticked, the shipping address stands in for the billing one. */
  function ParseIntended(d: CheckoutInput, isEmail: string -> bool): (r: Option<CheckoutData>)
    ensures d.sameAsShipping == Some(false) ==> r == Parse(d, isEmail)
    ensures d.sameAsShipping != Some(false) ==>
              (r.Some? <==> Parse(d.(billingAddress := d.shippingAddress), isEmail).Some?)
    ensures r.Some? ==> r.value.sameAsShipping == (d.sameAsShipping != Some(false))
    ensures r.Some? ==> r.value.billingAddress ==
                        if d.sameAsShipping == Some(false) then d.billingAddress else d.shippingAddress
  {
    if d.sameAsShipping == Some(false) then Parse(d, isEmail)
    else Parse(d.(billingAddress := d.shippingAddress), isEmail)
  }

  /** With the box ticked, the intended schema does not look at the billing
      values at all; with it unticked, it is the schema as written. */
  lemma IntendedIgnoresHiddenBilling(d: CheckoutInput, b: Address, isEmail: string -> bool)
    ensures d.sameAsShipping != Some(false) ==>
              ParseIntended(d.(billingAddress := b), isEmail) == ParseIntended(d, isEmail)
    ensures d.sameAsShipping == Some(false) ==> ParseIntended(d, isEmail) == Parse(d, isEmail)
  {
    if d.sameAsShipping != Some(false) {
      assert d.(billingAddress := b).(billingAddress := d.shippingAddress) == d.(billingAddress := d.shippingAddress);
    }
  }
}
