/** CheckoutPage: a flat shipping price by delivery method, the final total,
    the shipping form, and the payment hand-off whose failures reset `loading`. */
module Checkout {
  import opened Wrappers
  import opened Cart
  import opened Toasts

  const StandardMethod: string := "standard"
  const ExpressMethod: string := "express"
  const ServerErrorMessage: string := "Ошибка на сервере"
  const NoUrlMessage: string := "Не удалось получить ссылку на оплату"

  /** The six fields of the shipping form, all empty at first. */
  const InitialShippingInfo: map<string, string> :=
    map["name" := "", "email" := "", "address" := "", "city" := "", "postcode" := "", "country" := ""]

  /** `shippingCost`: 10 for express delivery, 5 for every other method. */
  function ShippingCost(delivery: string): (c: int)
    ensures c == 5 || c == 10
    ensures c == 10 <==> delivery == ExpressMethod
  {
    if delivery == ExpressMethod then 10 else 5
  }

  /** `finalTotal`: the cart total plus the shipping cost. */
  function FinalTotal(cart: seq<CartLine>, delivery: string): (t: real)
    ensures Total(cart) + 5.0 <= t <= Total(cart) + 10.0
    ensures t == Total(cart) + 10.0 <==> delivery == ExpressMethod
    ensures t - Total(cart) == ShippingCost(delivery) as real
  {
    Total(cart) + ShippingCost(delivery) as real
  }

  /** The amounts on the summary's lines, one per cart line, in cart order. */
  function SummaryAmounts(lines: seq<CartLine>): (r: seq<real>)
    ensures |r| == |lines|
    ensures forall i :: 0 <= i < |lines| ==> r[i] == lines[i].price * (lines[i].quantity as real)
  {
    seq(|lines|, i requires 0 <= i < |lines| => LineAmount(lines[i]))
  }

  function Sum(xs: seq<real>): real
  {
    if xs == [] then 0.0 else xs[0] + Sum(xs[1..])
  }

  /** The summary's line amounts add up to the "items" figure shown beneath them. */
  lemma {:induction false} SummaryAddsUpToTotal(lines: seq<CartLine>)
    ensures Sum(SummaryAmounts(lines)) == Total(lines)
  {
    if lines != [] {
      assert SummaryAmounts(lines)[1..] == SummaryAmounts(lines[1..]);
      SummaryAddsUpToTotal(lines[1..]);
    }
  }

  datatype View = EmptyCartView | FormView

  /** An empty cart shows the empty-cart message instead of the form and summary. */
  function PageView(cart: seq<CartLine>): (v: View)
    ensures v == EmptyCartView <==> cart == []
  {
    if |cart| == 0 then EmptyCartView else FormView
  }

  /** The three ways the `create-session` call can end: `fetch` or `json` throws,
      the response is not ok (with the body's `message`, if any), or it is ok
      (with the session's `url`, if any). */
  datatype PaymentResponse =
    | NetworkFailure(message: string)
    | Rejected(bodyMessage: Option<string>)
    | Accepted(url: Option<string>)

  /** Where the payment flow ends: the processor's URL, or the message the error toast shows. */
  function PaymentOutcome(response: PaymentResponse): (r: Result<string, string>)
    ensures r.Ok? <==> response.Accepted? && response.url.Some? && response.url.value != ""
    ensures r.Ok? ==> r.value == response.url.value
    ensures response.NetworkFailure? ==> r == Err(response.message)
    ensures response.Rejected? && response.bodyMessage.Some? && response.bodyMessage.value != "" ==>
      r == Err(response.bodyMessage.value)
    ensures response.Rejected? && (response.bodyMessage.None? || response.bodyMessage.value == "") ==>
      r == Err(ServerErrorMessage)
    ensures response.Accepted? && (response.url.None? || response.url.value == "") ==> r == Err(NoUrlMessage)
    ensures !response.NetworkFailure? && r.Err? ==> r.error != ""
  {
    match response
    case NetworkFailure(message) => Err(message)
    case Rejected(bodyMessage) =>
      if bodyMessage.Some? && bodyMessage.value != "" then Err(bodyMessage.value) else Err(ServerErrorMessage)
    case Accepted(url) =>
      if url.Some? && url.value != "" then Ok(url.value) else Err(NoUrlMessage)
  }

  /** The body posted to `create-session`. */
  datatype CheckoutRequest = CheckoutRequest(
    cartItems: seq<CartLine>, shippingInfo: map<string, string>, shippingMethod: string)

  class CheckoutPage {
    var shippingInfo: map<string, string>
    var shippingMethod: string
    var loading: bool

    constructor ()
      ensures shippingInfo == InitialShippingInfo && shippingMethod == StandardMethod && !loading
      ensures ShippingCost(shippingMethod) == 5
    {
      shippingInfo := InitialShippingInfo;
      shippingMethod := StandardMethod;
      loading := false;
    }

    /** The pay button is disabled exactly while `loading` is on. */
    predicate PayDisabled(): (r: bool)
      reads this
      ensures r <==> loading
    {
      loading
    }

    /** `handleChange`: the input named `name` takes `value`; every other field keeps its value. */
    method HandleChange(name: string, value: string)
      modifies this
      ensures shippingInfo == old(shippingInfo)[name := value]
      ensures forall k :: k in old(shippingInfo) && k != name ==>
        k in shippingInfo && shippingInfo[k] == old(shippingInfo)[k]
      ensures shippingMethod == old(shippingMethod) && loading == old(loading)
    {
      shippingInfo := shippingInfo[name := value];
    }

    /** The delivery radio buttons. */
    method SelectShippingMethod(delivery: string)
      modifies this
      ensures shippingMethod == delivery
      ensures shippingInfo == old(shippingInfo) && loading == old(loading)
    {
      shippingMethod := delivery;
    }

    /** `handlePayment`: `loading` is set, the request is sent, and then either the browser
        leaves for the processor's URL (still loading) or an error toast is shown and
        `loading` is cleared so that the button works again. */
    method HandlePayment(cart: seq<CartLine>, toasts: ToastQueue, now: nat, response: PaymentResponse)
      returns (request: CheckoutRequest, redirect: Option<string>)
      requires toasts.Valid()
      modifies this, toasts
      ensures toasts.Valid()
      ensures |old(toasts.toasts)| <= |toasts.toasts|
      ensures toasts.pending == old(toasts.pending) + AddedIds(old(toasts.toasts), toasts.toasts)
      ensures request == CheckoutRequest(cart, old(shippingInfo), old(shippingMethod))
      ensures shippingInfo == old(shippingInfo) && shippingMethod == old(shippingMethod)
      ensures PaymentOutcome(response).Ok? ==>
        redirect == Some(PaymentOutcome(response).value) && PayDisabled()
        && toasts.toasts == old(toasts.toasts) && toasts.pending == old(toasts.pending)
      ensures PaymentOutcome(response).Err? ==>
        redirect == None && !PayDisabled()
        && toasts.toasts == old(toasts.toasts) + [Toast(now, PaymentOutcome(response).error, ErrorKind)]
    {
      loading := true;
      request := CheckoutRequest(cart, shippingInfo, shippingMethod);
      var outcome := PaymentOutcome(response);
      if outcome.Ok? {
        redirect := Some(outcome.value);
      } else {
        toasts.ShowToast(outcome.error, Some(ErrorKind), now);
        loading := false;
        redirect := None;
      }
    }
  }
}
