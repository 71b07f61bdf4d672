// The two-step checkout page: a shipping form, then a review step whose
// submit hands the shopper to the hosted payment page.

module Checkout {
  import opened Types
  import Cart
  import Lists

  /** The form state, one entry per key of the source's form object. */
  datatype ShippingForm = ShippingForm(name: string, email: string, address: string, city: string, zip: string)

  /**
   * The name of an input on the shipping step. The form state has an email
   * entry, but the page renders no input for it, so no change event sets it.
   */
  datatype Field = Name | Address | City | Zip

  const EmptyForm: ShippingForm := ShippingForm("", "", "", "", "")

  function Get(form: ShippingForm, field: Field): string
  {
    match field
    case Name => form.name
    case Address => form.address
    case City => form.city
    case Zip => form.zip
  }

  /** Overwrite one field of the form. */
  function Set(form: ShippingForm, field: Field, value: string): (r: ShippingForm)
    ensures Get(r, field) == value
    ensures forall other :: other != field ==> Get(r, other) == Get(form, other)
    ensures r.email == form.email
  {
    match field
    case Name => form.(name := value)
    case Address => form.(address := value)
    case City => form.(city := value)
    case Zip => form.(zip := value)
  }

  /** The step-1 check: name, address, city and zip are non-empty (email is not checked). */
  predicate ShippingComplete(form: ShippingForm)
  {
    form.name != "" && form.address != "" && form.city != "" && form.zip != ""
  }

  /** The email field plays no part in the step-1 check. */
  lemma ShippingCompleteIgnoresEmail(form: ShippingForm, value: string)
    ensures ShippingComplete(form.(email := value)) == ShippingComplete(form)
  {
  }

  /** What a submit did: alerted about missing details, moved to review, or scheduled the payment redirect. */
  datatype SubmitOutcome = MissingDetails | ReviewShown | PaymentRedirectScheduled

  /** What a press of the submit button did: nothing while it is disabled, otherwise a submit. */
  datatype PressOutcome = ButtonDisabled | Submitted(outcome: SubmitOutcome)

  datatype View = EmptyBag | ShippingStep | ReviewStep

  class Wizard {
    /** The cart passed in by the page; the wizard never changes it. */
    const cart: seq<CartItem>
    var form: ShippingForm
    var processing: bool
    var step: int
    /** How many times the page has called its `onCheckout` prop. */
    ghost var checkoutCalls: nat

    ghost predicate Valid()
      reads this
    {
      step == 1 || step == 2
    }

    constructor (cart: seq<CartItem>)
      ensures Valid()
      ensures this.cart == cart && form == EmptyForm && !processing && step == 1
      ensures checkoutCalls == 0
    {
      this.cart := cart;
      checkoutCalls := 0;
      form := EmptyForm;
      processing := false;
      step := 1;
    }

    /** The amount shown on the page: the sum of price times quantity. */
    function Total(): (t: int)
      ensures t == Lists.Sum(cart, Cart.LineTotal)
    {
      Cart.Total(cart)
    }

    /** An empty cart shows the empty-bag view instead of the wizard. */
    function CurrentView(): (v: View)
      reads this
      ensures v == EmptyBag <==> |cart| == 0
      ensures v == ShippingStep <==> |cart| > 0 && step == 1
      ensures v == ReviewStep <==> |cart| > 0 && step != 1
    {
      if |cart| == 0 then EmptyBag else if step == 1 then ShippingStep else ReviewStep
    }

    /**
     * The form's submit handler. It may call `onCheckout`, but no branch
     * does, so it never places an order.
     */
    method HandleSubmit() returns (outcome: SubmitOutcome)
      requires Valid()
      modifies this`step, this`processing, this`checkoutCalls
      ensures Valid()
      ensures checkoutCalls == old(checkoutCalls)
      ensures old(step) == 1 && !ShippingComplete(form) ==>
        outcome == MissingDetails && step == 1 && processing == old(processing)
      ensures old(step) == 1 && ShippingComplete(form) ==>
        outcome == ReviewShown && step == 2 && processing == old(processing)
      ensures old(step) != 1 ==>
        outcome == PaymentRedirectScheduled && step == old(step) && processing
    {
      if step == 1 {
        if !ShippingComplete(form) {
          outcome := MissingDetails;
          return;
        }
        step := 2;
        outcome := ReviewShown;
        return;
      }
      processing := true;
      outcome := PaymentRedirectScheduled;
    }

    /** The submit button: disabled while processing, otherwise it submits the form. */
    method PressSubmit() returns (outcome: PressOutcome)
      requires Valid()
      modifies this`step, this`processing, this`checkoutCalls
      ensures Valid()
      ensures checkoutCalls == old(checkoutCalls)
      ensures old(processing) <==> outcome == ButtonDisabled
      ensures old(processing) ==> step == old(step) && processing
      ensures !old(processing) && old(step) == 1 && !ShippingComplete(form) ==>
        outcome == Submitted(MissingDetails) && step == 1 && !processing
      ensures !old(processing) && old(step) == 1 && ShippingComplete(form) ==>
        outcome == Submitted(ReviewShown) && step == 2 && !processing
      ensures !old(processing) && old(step) != 1 ==>
        outcome == Submitted(PaymentRedirectScheduled) && step == old(step) && processing
    {
      if processing {
        outcome := ButtonDisabled;
      } else {
        var o := HandleSubmit();
        outcome := Submitted(o);
      }
    }

    /** The scheduled redirect fires: the payment page opens and processing ends. */
    method RedirectTimerFired()
      modifies this`processing
      ensures !processing
    {
      processing := false;
    }

    /** "Edit Shipping Details": back to step 1 with the form kept. */
    method EditShippingDetails()
      requires Valid()
      modifies this`step
      ensures Valid() && step == 1
    {
      step := 1;
    }

    /** An input's change handler: overwrite exactly the named field. */
    method HandleInputChange(field: Field, value: string)
      modifies this`form
      ensures form == Set(old(form), field, value)
      ensures Get(form, field) == value
      ensures forall other :: other != field ==> Get(form, other) == Get(old(form), other)
      ensures form.email == old(form).email
    {
      form := Set(form, field, value);
    }
  }
}
