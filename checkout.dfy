/** The checkout page: the form and its schema (three required fields, everything else
    optional), the new-address and card sections that the selected values reveal, and
    the confirmation that leads to the order tracking route. */
module Checkout {
  import opened Optional
  import Cart

  datatype CheckoutForm = CheckoutForm(
    deliveryAddress: string,
    newAddressStreet: Option<string>,
    newAddressCity: Option<string>,
    newAddressZip: Option<string>,
    paymentMethod: string,
    cardNumber: Option<string>,
    cardExpiry: Option<string>,
    cardCvc: Option<string>,
    agreeToTerms: bool,
    contactlessDelivery: Option<bool>)

  /** The fields the schema can reject. */
  datatype Field = DeliveryAddress | PaymentMethod | AgreeToTerms

  /** The form's default values. */
  function DefaultForm(): CheckoutForm {
    CheckoutForm("", None, None, None, "", None, None, None, false, Some(false))
  }

  /** The schema's per-field error messages; a field is absent when it passes. */
  function FieldErrors(f: CheckoutForm): (errors: map<Field, string>)
    ensures DeliveryAddress in errors <==> |f.deliveryAddress| < 1
    ensures PaymentMethod in errors <==> |f.paymentMethod| < 1
    ensures AgreeToTerms in errors <==> !f.agreeToTerms
    ensures DeliveryAddress in errors ==> errors[DeliveryAddress] == "Please select or enter a delivery address."
    ensures PaymentMethod in errors ==> errors[PaymentMethod] == "Please select a payment method."
    ensures AgreeToTerms in errors ==> errors[AgreeToTerms] == "You must agree to the terms and conditions."
  {
    var address := if |f.deliveryAddress| < 1
      then map[DeliveryAddress := "Please select or enter a delivery address."] else map[];
    var payment := if |f.paymentMethod| < 1
      then map[PaymentMethod := "Please select a payment method."] else map[];
    var terms := if !f.agreeToTerms
      then map[AgreeToTerms := "You must agree to the terms and conditions."] else map[];
    address + payment + terms
  }

  /** The form passes the schema when no field has an error. */
  predicate IsValid(f: CheckoutForm) {
    FieldErrors(f) == map[]
  }

  /** Valid exactly when there is an address, a payment method and the terms are agreed. */
  lemma ValidIff(f: CheckoutForm)
    ensures IsValid(f) <==> f.deliveryAddress != "" && f.paymentMethod != "" && f.agreeToTerms
  {
    var errors := FieldErrors(f);
    if errors != map[] {
      var k :| k in errors;
      assert k == DeliveryAddress || k == PaymentMethod || k == AgreeToTerms;
    }
  }

  /** Only the three required fields matter: new-address fields, card fields and the
      contactless flag never change the errors. */
  lemma OptionalFieldsIrrelevant(f: CheckoutForm, g: CheckoutForm)
    requires f.deliveryAddress == g.deliveryAddress && f.paymentMethod == g.paymentMethod
    requires f.agreeToTerms == g.agreeToTerms
    ensures FieldErrors(f) == FieldErrors(g)
  {
  }

  /** The card-detail fields are shown exactly when the payment method is "card"; when
      they are, what is typed into them never decides whether the form passes, which then
      depends only on the address and the terms. */
  function CardDetailsShown(f: CheckoutForm): (r: bool)
    ensures r <==> f.paymentMethod == "card"
    ensures r ==> (IsValid(f) <==> f.deliveryAddress != "" && f.agreeToTerms)
    ensures r ==> FieldErrors(f.(cardNumber := None, cardExpiry := None, cardCvc := None)) == FieldErrors(f)
  {
    ValidIff(f);
    f.paymentMethod == "card"
  }

  /** A card payment with no card details at all passes, although the card fields are
      on screen. */
  lemma CardDetailsNotRequired(address: string)
    requires address != ""
    ensures CardDetailsShown(CheckoutForm(address, None, None, None, "card", None, None, None, true, None))
    ensures IsValid(CheckoutForm(address, None, None, None, "card", None, None, None, true, None))
  {
    ValidIff(CheckoutForm(address, None, None, None, "card", None, None, None, true, None));
  }

  /** Any non-empty payment method passes, not only card, paypal and cod. */
  lemma AnyPaymentMethodAccepted(f: CheckoutForm)
    requires f.deliveryAddress != "" && f.agreeToTerms && f.paymentMethod != ""
    ensures IsValid(f)
  {
    ValidIff(f);
  }

  /** The untouched form fails on all three required fields. */
  lemma DefaultFormInvalid()
    ensures FieldErrors(DefaultForm()).Keys == {DeliveryAddress, PaymentMethod, AgreeToTerms}
    ensures !IsValid(DefaultForm())
  {
    ValidIff(DefaultForm());
  }

  /** The figures the order summary card shows, written into the page as literals. */
  function SummaryFigures(): Cart.Totals {
    Cart.Totals(24.97, 2.99, 2.00, 29.96)
  }

  /** Within half a cent, the literal summary is what the cart page computes for its
      starting cart: 24.97, 2.99, 1.9976 and 29.9576. */
  lemma SummaryMatchesStartingCart()
    ensures var shown, t := SummaryFigures(), Cart.CartTotals(Cart.InitialCartItems());
      shown.subtotal == t.subtotal && shown.deliveryFee == t.deliveryFee &&
      shown.taxes - 0.005 <= t.taxes < shown.taxes + 0.005 &&
      shown.grandTotal - 0.005 <= t.grandTotal < shown.grandTotal + 0.005
  {
    Cart.InitialCartTotals();
  }

  /** The route the confirmation leads to. */
  const TrackingPath: string := "/orders/my-new-order-124/tracking"

  /** The page's state: the form, the two visibility flags and the route last navigated to. */
  class CheckoutPage {
    var form: CheckoutForm
    var showNewAddressForm: bool
    var isOrderPlacedAlertOpen: bool
    var navigatedTo: Option<string>

    ghost predicate Valid()
      reads this
    {
      showNewAddressForm == (form.deliveryAddress == "new")
    }

    constructor ()
      ensures Valid()
      ensures form == DefaultForm() && !showNewAddressForm && !isOrderPlacedAlertOpen
      ensures navigatedTo.None?
    {
      form := DefaultForm();
      showNewAddressForm := false;
      isOrderPlacedAlertOpen := false;
      navigatedTo := None;
    }

    /** A field edit, followed by the effect that watches the selected address. */
    method Edit(newForm: CheckoutForm)
      requires Valid()
      modifies this
      ensures Valid()
      ensures form == newForm
      ensures showNewAddressForm <==> newForm.deliveryAddress == "new"
      ensures isOrderPlacedAlertOpen == old(isOrderPlacedAlertOpen) && navigatedTo == old(navigatedTo)
    {
      form := newForm;
      if form.deliveryAddress == "new" {
        showNewAddressForm := true;
      } else {
        showNewAddressForm := false;
      }
    }

    /** "Place Order": the schema runs; only a valid form opens the confirmation. */
    method Submit() returns (errors: map<Field, string>)
      requires Valid()
      modifies this
      ensures Valid()
      ensures errors == FieldErrors(form)
      ensures isOrderPlacedAlertOpen <==> old(isOrderPlacedAlertOpen) || errors == map[]
      ensures form == old(form) && navigatedTo == old(navigatedTo)
    {
      errors := FieldErrors(form);
      if errors == map[] {
        isOrderPlacedAlertOpen := true;
      }
    }

    /** "Track Order": close the confirmation and go to the tracking page. */
    method HandleAlertConfirm()
      requires Valid()
      modifies this
      ensures Valid()
      ensures !isOrderPlacedAlertOpen && navigatedTo == Some(TrackingPath)
      ensures form == old(form)
    {
      isOrderPlacedAlertOpen := false;
      navigatedTo := Some(TrackingPath);
    }
  }
}
