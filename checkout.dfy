/**
 * The checkout page (src/components/CheckoutPage.tsx): a three-step flow
 * address -> payment -> success, the payment choice, the address form, and
 * the delayed hand-over of the order to the session controller.
 */
module Checkout {
  import opened Types
  import opened CartPricing

  datatype Step = AddressStep | PaymentStep | SuccessStep

  /** What the visitor can do on the page. */
  datatype Action = Continue | EditField(name: string, value: string) | ChoosePayment(choice: PaymentMethod) | PlaceOrderClick

  /** The address form's field names, all starting empty. */
  const FIELDS: set<string> := {"name", "email", "phone", "address", "city", "state", "pincode"}

  /** The controls the page renders in each step: the address form and its button, the payment choice and its button, or nothing but the confirmation. */
  predicate Available(step: Step, a: Action)
    ensures Available(step, a) ==> step != SuccessStep
    ensures a.EditField? ==> (Available(step, a) <==> step == AddressStep)
    ensures a == PlaceOrderClick ==> (Available(step, a) <==> step == PaymentStep)
  {
    match step
    case AddressStep => a.Continue? || a.EditField?
    case PaymentStep => a.ChoosePayment? || a.PlaceOrderClick?
    case SuccessStep => false
  }

  /** The step after an action, or None when the page offers no such control. */
  function Next(step: Step, a: Action): (r: Option<Step>)
    ensures r.None? <==> !Available(step, a)
    ensures r == Some(SuccessStep) <==> step == PaymentStep && a == PlaceOrderClick
    ensures r == Some(PaymentStep) <==> (step == AddressStep && a == Continue) || (step == PaymentStep && a.ChoosePayment?)
    ensures step == SuccessStep ==> r.None?
  {
    if !Available(step, a) then None
    else match a
      case Continue => Some(PaymentStep)
      case PlaceOrderClick => Some(SuccessStep)
      case _ => Some(step)
  }

  /** The step after a sequence of clicks; a click on a control that is not shown does nothing. */
  function Run(step: Step, actions: seq<Action>): Step
    decreases |actions|
  {
    if actions == [] then step
    else
      var next := Next(step, actions[0]);
      Run(if next.Some? then next.value else step, actions[1..])
  }

  /** Nothing leaves the confirmation. */
  lemma {:induction false} SuccessIsFinal(actions: seq<Action>)
    ensures Run(SuccessStep, actions) == SuccessStep
    decreases |actions|
  {
    if actions != [] {
      SuccessIsFinal(actions[1..]);
    }
  }

  /** From the payment step, the confirmation is reached only by clicking "Place Order". */
  lemma {:induction false} PaymentNeedsPlaceOrder(actions: seq<Action>)
    requires Run(PaymentStep, actions) == SuccessStep
    ensures exists j :: 0 <= j < |actions| && actions[j] == PlaceOrderClick
    decreases |actions|
  {
    assert actions != [];
    if actions[0] == PlaceOrderClick {
      assert actions[0] == PlaceOrderClick;
    } else {
      assert Next(PaymentStep, actions[0]) != Some(SuccessStep);
      assert Run(PaymentStep, actions[1..]) == SuccessStep;
      PaymentNeedsPlaceOrder(actions[1..]);
      var j :| 0 <= j < |actions[1..]| && actions[1..][j] == PlaceOrderClick;
      assert actions[j + 1] == PlaceOrderClick;
    }
  }

  /** From the address step, the confirmation needs "Continue to Payment" and, later, "Place Order". */
  lemma {:induction false} SuccessNeedsBothSteps(actions: seq<Action>)
    requires Run(AddressStep, actions) == SuccessStep
    ensures exists i, j :: 0 <= i < j < |actions| && actions[i] == Continue && actions[j] == PlaceOrderClick
    decreases |actions|
  {
    assert actions != [];
    if actions[0] == Continue {
      assert Run(PaymentStep, actions[1..]) == SuccessStep;
      PaymentNeedsPlaceOrder(actions[1..]);
      var j :| 0 <= j < |actions[1..]| && actions[1..][j] == PlaceOrderClick;
      assert actions[0] == Continue && actions[j + 1] == PlaceOrderClick;
    } else {
      assert Next(AddressStep, actions[0]) != Some(PaymentStep);
      assert Run(AddressStep, actions[1..]) == SuccessStep;
      SuccessNeedsBothSteps(actions[1..]);
      var i, j :| 0 <= i < j < |actions[1..]| && actions[1..][i] == Continue && actions[1..][j] == PlaceOrderClick;
      assert actions[i + 1] == Continue && actions[j + 1] == PlaceOrderClick;
    }
  }

  class CheckoutFlow {
    const items: seq<CartItem>
    var step: Step
    var paymentMethod: PaymentMethod
    var form: map<string, string>
    /** Redirect timers started by "Place Order" that have not fired yet. */
    var pendingTimers: nat
    /** How many times `onPlaceOrder` has been called. */
    var ordersHandedOver: nat

    constructor (cartItems: seq<CartItem>)
      ensures items == cartItems && step == AddressStep && paymentMethod == Card
      ensures form.Keys == FIELDS && forall k :: k in form ==> form[k] == ""
      ensures pendingTimers == 0 && ordersHandedOver == 0
      ensures Valid()
    {
      items := cartItems;
      step := AddressStep;
      paymentMethod := Card;
      form := map k | k in FIELDS :: "";
      pendingTimers, ordersHandedOver := 0, 0;
    }

    /** The order totals, by the cart's formulas. */
    function OrderTotals(): (t: Totals)
      ensures t.subtotal == Subtotal(items)
      ensures t.shipping == 0 <==> t.subtotal > FREE_SHIPPING_ABOVE
      ensures t.shipping == 0 || t.shipping == SHIPPING_FEE
      ensures t.tax * 100.0 == t.subtotal as real * 18.0
      ensures t.total == (t.subtotal + t.shipping) as real + t.tax
    {
      ComputeTotals(items)
    }

    /** `handleInputChange`: one field takes the typed value; the form is shown in the address step only. */
    method InputChange(name: string, value: string)
      requires name in FIELDS
      requires step == AddressStep && Valid()
      modifies this
      ensures Valid()
      ensures form == old(form)[name := value]
      ensures step == old(step) && paymentMethod == old(paymentMethod)
      ensures pendingTimers == old(pendingTimers) && ordersHandedOver == old(ordersHandedOver)
    {
      form := form[name := value];
    }

    /** `handleContinueToPayment`: no address field is checked. */
    method ContinueToPayment()
      requires step == AddressStep && Valid()
      modifies this
      ensures Valid()
      ensures Next(old(step), Continue) == Some(step) && step == PaymentStep
      ensures form == old(form) && paymentMethod == old(paymentMethod)
      ensures pendingTimers == old(pendingTimers) && ordersHandedOver == old(ordersHandedOver)
    {
      step := PaymentStep;
    }

    /** The payment radio group, shown in the payment step only. */
    method ChoosePayment(m: PaymentMethod)
      requires step == PaymentStep && Valid()
      modifies this
      ensures Valid()
      ensures paymentMethod == m
      ensures step == old(step) && form == old(form)
      ensures pendingTimers == old(pendingTimers) && ordersHandedOver == old(ordersHandedOver)
    {
      paymentMethod := m;
    }

    /** `handlePlaceOrder`: the confirmation shows now; the order is handed over when the timer fires. */
    method PlaceOrder()
      requires step == PaymentStep && Valid()
      modifies this
      ensures Valid()
      ensures Next(old(step), PlaceOrderClick) == Some(step) && step == SuccessStep
      ensures pendingTimers == old(pendingTimers) + 1 && ordersHandedOver == old(ordersHandedOver)
      ensures form == old(form) && paymentMethod == old(paymentMethod)
    {
      step := SuccessStep;
      pendingTimers := pendingTimers + 1;
    }

    /** A redirect timer fires and calls `onPlaceOrder`. */
    method TimerFires()
      requires pendingTimers > 0 && Valid()
      modifies this
      ensures Valid()
      ensures pendingTimers == old(pendingTimers) - 1 && ordersHandedOver == old(ordersHandedOver) + 1
      ensures step == old(step) && form == old(form) && paymentMethod == old(paymentMethod)
    {
      pendingTimers := pendingTimers - 1;
      ordersHandedOver := ordersHandedOver + 1;
    }

    /**
     * The form holds exactly the seven address fields; a timer is started, or
     * the order handed over, only once the confirmation shows, and nothing
     * leaves it.
     */
    predicate Valid()
      reads this
    {
      && form.Keys == FIELDS
      && (pendingTimers + ordersHandedOver > 0 ==> step == SuccessStep)
    }
  }
}
