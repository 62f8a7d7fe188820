/**
 * The checkout page (frontend/src/pages/Checkout.js): contact-form
 * validation, the pickup-time slots, the order payload built from the cart,
 * and the handlers that create the order and start the Stripe or PayPal
 * payment.
 *
 * The page's state is `Page`; each handler is a function from the old page
 * to the new one (`...Op`), and the `CheckoutPage` class's methods are proved
 * to update its fields exactly as those functions say. Requests to the back
 * end are recorded in the state (their bodies, in order) and their answers
 * are parameters.
 */
module Checkout {
  import opened Wrappers
  import opened Text
  import OrderStore

  // -------------------------------------------------------------- the form

  /** A cart line as the cart store hands it to the page; `price` in cents. */
  datatype CartLine = CartLine(
    productId: string, productName: string, price: int, quantity: int, imageUrl: Option<string>)

  datatype FormData = FormData(
    customerName: string, customerEmail: string, customerPhone: string, pickupTime: string, notes: string)

  const EmptyForm := FormData("", "", "", "", "")

  datatype Field = CustomerName | CustomerEmail | CustomerPhone | PickupTime | Notes

  /** `handleInputChange`: the named field takes the new value, the others keep theirs. */
  function WithField(f: FormData, field: Field, value: string): (r: FormData)
    ensures field == CustomerName ==> r == f.(customerName := value)
    ensures field == CustomerEmail ==> r == f.(customerEmail := value)
    ensures field == CustomerPhone ==> r == f.(customerPhone := value)
    ensures field == PickupTime ==> r == f.(pickupTime := value)
    ensures field == Notes ==> r == f.(notes := value)
  {
    match field
    case CustomerName => f.(customerName := value)
    case CustomerEmail => f.(customerEmail := value)
    case CustomerPhone => f.(customerPhone := value)
    case PickupTime => f.(pickupTime := value)
    case Notes => f.(notes := value)
  }

  const NameRequired := "Por favor, introduce tu nombre"
  const EmailRequired := "Por favor, introduce tu email"
  const EmailInvalid := "Email inválido"
  const PhoneRequired := "Por favor, introduce tu teléfono"
  const PickupRequired := "Por favor, selecciona la hora de recogida"
  const OrderFailedMessage := "Error al crear el pedido. Por favor, inténtalo de nuevo."
  const PaymentFailedMessage := "Error al procesar el pago. Por favor, inténtalo de nuevo."

  /** A character of the class `[^\s@]`. */
  predicate EmailChar(c: char)
  {
    !IsWhitespace(c) && c != '@'
  }

  predicate AllEmailChars(s: string)
  {
    forall i :: 0 <= i < |s| ==> EmailChar(s[i])
  }

  /** The position of the first `c` in `s`, if there is one. */
  function IndexOf(s: string, c: char): (r: Option<nat>)
    ensures r.Some? ==> r.value < |s| && s[r.value] == c && forall i :: 0 <= i < r.value ==> s[i] != c
    ensures r.None? ==> forall i :: 0 <= i < |s| ==> s[i] != c
  {
    if s == [] then None
    else if s[0] == c then Some(0)
    else match IndexOf(s[1..], c)
      case None => None
      case Some(k) => Some(k + 1)
  }

  /**
   * `/^[^\s@]+@[^\s@]+\.[^\s@]+$/.test(s)`, decided by splitting at the first
   * `@`: a non-empty local part, then a domain of at least three characters
   * with a `.` somewhere strictly inside it, and no whitespace or second `@`.
   */
  function EmailPattern(s: string): (r: bool)
    ensures r ==> 5 <= |s| && s[0] != '@' && '@' in s
  {
    match IndexOf(s, '@')
    case None => false
    case Some(a) =>
      var domain := s[a + 1..];
      && a > 0
      && AllEmailChars(s[..a])
      && AllEmailChars(domain)
      && |domain| >= 3
      && '.' in domain[1..|domain| - 1]
  }

  /**
   * The language of the pattern, read off the regular expression: `s` is
   * X `@` Y `.` Z with X, Y, Z non-empty runs of `[^\s@]` (which includes `.`),
   * split at `@` position `a` and `.` position `d`.
   */
  predicate SplitsAt(s: string, a: int, d: int)
  {
    && 0 < a && a + 1 < d && d + 1 < |s|
    && s[a] == '@' && s[d] == '.'
    && AllEmailChars(s[..a]) && AllEmailChars(s[a + 1..])
  }

  ghost predicate MatchesEmailRegex(s: string)
  {
    exists a, d :: SplitsAt(s, a, d)
  }

  /** The first-`@` decision procedure accepts exactly the language of the regular expression. */
  lemma EmailPatternIsRegex(s: string)
    ensures EmailPattern(s) <==> MatchesEmailRegex(s)
  {
    if EmailPattern(s) {
      var a := IndexOf(s, '@').value;
      var domain := s[a + 1..];
      var j :| 0 <= j < |domain[1..|domain| - 1]| && domain[1..|domain| - 1][j] == '.';
      assert SplitsAt(s, a, a + 2 + j);
    }
    if MatchesEmailRegex(s) {
      var a, d :| SplitsAt(s, a, d);
      assert forall i :: 0 <= i < a ==> s[..a][i] == s[i];
      assert IndexOf(s, '@') == Some(a);
      var domain := s[a + 1..];
      assert domain[1..|domain| - 1][d - a - 2] == '.';
    }
  }

  /**
   * An accepted email has exactly one `@`, no whitespace, and a `.` in the
   * domain with characters on both sides of it.
   */
  lemma AcceptedEmailShape(s: string)
    requires EmailPattern(s)
    ensures multiset(s)['@'] == 1
    ensures forall i :: 0 <= i < |s| ==> !IsWhitespace(s[i])
    ensures exists a, d :: 0 < a && a + 1 < d && d + 1 < |s| && s[a] == '@' && s[d] == '.'
  {
    EmailPatternIsRegex(s);
    var a, d :| SplitsAt(s, a, d);
    SingleAt(s, a);
  }

  /** An `@` at `a` with `[^\s@]` on both sides is the only `@`, and `s` has no whitespace. */
  lemma SingleAt(s: string, a: int)
    requires 0 <= a < |s| && s[a] == '@'
    requires AllEmailChars(s[..a]) && AllEmailChars(s[a + 1..])
    ensures multiset(s)['@'] == 1
    ensures forall i :: 0 <= i < |s| ==> !IsWhitespace(s[i])
  {
    forall k | 0 <= k < |s| && k != a
      ensures EmailChar(s[k])
    {
      if k < a {
        assert s[k] == s[..a][k];
      } else {
        assert s[k] == s[a + 1..][k - a - 1];
      }
    }
    assert s == s[..a] + [s[a]] + s[a + 1..];
    assert '@' !in s[..a] && '@' !in s[a + 1..];
    assert multiset(s) == multiset(s[..a]) + multiset{s[a]} + multiset(s[a + 1..]);
  }

  /** `validateForm`: the message of the first check that fails, or "" when all pass. */
  function ValidateForm(f: FormData): string
  {
    if IsBlank(f.customerName) then NameRequired
    else if IsBlank(f.customerEmail) then EmailRequired
    else if !EmailPattern(f.customerEmail) then EmailInvalid
    else if IsBlank(f.customerPhone) then PhoneRequired
    else if f.pickupTime == "" then PickupRequired
    else ""
  }

  /**
   * Each message is returned exactly when its check is the first to fail, in
   * the order name, email present, email pattern, phone, pickup time; the
   * empty string exactly when every check passes.
   */
  lemma ValidateFormFirstFailure(f: FormData)
    ensures ValidateForm(f) == "" <==>
      !IsBlank(f.customerName) && !IsBlank(f.customerEmail) && EmailPattern(f.customerEmail)
      && !IsBlank(f.customerPhone) && f.pickupTime != ""
    ensures ValidateForm(f) == NameRequired <==> IsBlank(f.customerName)
    ensures ValidateForm(f) == EmailRequired <==> !IsBlank(f.customerName) && IsBlank(f.customerEmail)
    ensures ValidateForm(f) == EmailInvalid <==>
      !IsBlank(f.customerName) && !IsBlank(f.customerEmail) && !EmailPattern(f.customerEmail)
    ensures ValidateForm(f) == PhoneRequired <==>
      !IsBlank(f.customerName) && !IsBlank(f.customerEmail) && EmailPattern(f.customerEmail)
      && IsBlank(f.customerPhone)
    ensures ValidateForm(f) == PickupRequired <==>
      !IsBlank(f.customerName) && !IsBlank(f.customerEmail) && EmailPattern(f.customerEmail)
      && !IsBlank(f.customerPhone) && f.pickupTime == ""
  {
  }

  /** A form that passes validation has a well-shaped email and non-blank contact fields. */
  lemma ValidFormShape(f: FormData)
    requires ValidateForm(f) == ""
    ensures multiset(f.customerEmail)['@'] == 1
    ensures exists i :: 0 <= i < |f.customerName| && !IsWhitespace(f.customerName[i])
    ensures exists i :: 0 <= i < |f.customerPhone| && !IsWhitespace(f.customerPhone[i])
  {
    ValidateFormFirstFailure(f);
    AcceptedEmailShape(f.customerEmail);
    BlankIffAllWhitespace(f.customerName);
    BlankIffAllWhitespace(f.customerPhone);
  }

  /** The empty form stops at the name. */
  lemma EmptyFormNeedsName()
    ensures ValidateForm(EmptyForm) == NameRequired
  {
    assert IsBlank("");
  }

  // ------------------------------------------------------- pickup-time slots

  const MinutesPerDay: nat := 1440
  const SlotCount: nat := 8
  const SlotSpacing: nat := 15

  /**
   * `now.setMinutes(Math.ceil(now.getMinutes() / 15) * 15 + 30)` for a clock
   * reading `now` given in minutes since midnight: the minute rounded up to a
   * quarter, plus half an hour; the result may run past midnight. It is the
   * quarter hour 30 to 44 minutes after `now`.
   */
  function FirstSlot(now: nat): (first: nat)
    ensures now + 30 <= first <= now + 44
    ensures first % SlotSpacing == 0
  {
    var hour, minute := now / 60, now % 60;
    var quarters := (minute + 14) / 15;
    assert now == hour * 60 + minute;
    assert minute <= quarters * 15 <= minute + 14;
    assert hour * 60 + quarters * 15 + 30 == (hour * 4 + quarters + 2) * 15;
    hour * 60 + quarters * 15 + 30
  }

  /** The minute of the day of slot `i`, wrapping past midnight. */
  function SlotMinute(now: nat, i: nat): (m: nat)
    ensures m < MinutesPerDay
  {
    (FirstSlot(now) + i * SlotSpacing) % MinutesPerDay
  }

  /** Consecutive slots are 15 minutes apart on the clock. */
  lemma SlotsSpaced(now: nat, i: nat)
    ensures SlotMinute(now, i + 1) == (SlotMinute(now, i) + SlotSpacing) % MinutesPerDay
  {
    var t := FirstSlot(now) + i * SlotSpacing;
    assert FirstSlot(now) + (i + 1) * SlotSpacing == t + SlotSpacing;
    var q := t / MinutesPerDay;
    assert t == q * MinutesPerDay + t % MinutesPerDay;
    ModShift(t % MinutesPerDay + SlotSpacing, q);
  }

  /** Adding whole days does not move the minute of the day. */
  lemma ModShift(x: nat, q: nat)
    ensures (q * MinutesPerDay + x) % MinutesPerDay == x % MinutesPerDay
  {
  }

  /** The eight slots are eight different times. */
  lemma SlotsDistinct(now: nat, i: nat, j: nat)
    requires i < j < SlotCount
    ensures SlotMinute(now, i) != SlotMinute(now, j)
  {
    var a := FirstSlot(now) + i * SlotSpacing;
    var b := FirstSlot(now) + j * SlotSpacing;
    assert 0 < b - a < MinutesPerDay;
  }

  function DigitChar(d: nat): char
    requires d < 10
  {
    ('0' as int + d) as char
  }

  /** `n.toString().padStart(2, '0')` for `n < 100`. */
  function TwoDigits(n: nat): (r: string)
    requires n < 100
    ensures |r| == 2
  {
    [DigitChar(n / 10), DigitChar(n % 10)]
  }

  /** `${hours}:${mins}` for minute of the day `m`. */
  function ClockText(m: nat): (r: string)
    requires m < MinutesPerDay
    ensures |r| == 5 && r[2] == ':'
  {
    TwoDigits(m / 60) + ":" + TwoDigits(m % 60)
  }

  function DigitValue(c: char): Option<nat>
  {
    if '0' <= c <= '9' then Some(c as int - '0' as int) else None
  }

  /** Reads an `HH:MM` clock text back as a minute of the day. */
  function ParseClock(t: string): Option<nat>
  {
    if |t| != 5 || t[2] != ':' then None
    else match (DigitValue(t[0]), DigitValue(t[1]), DigitValue(t[3]), DigitValue(t[4]))
      case (Some(h1), Some(h0), Some(m1), Some(m0)) =>
        var h, m := h1 * 10 + h0, m1 * 10 + m0;
        if h < 24 && m < 60 then Some(h * 60 + m) else None
      case _ => None
  }

  /** Every slot text reads back as its minute of the day. */
  lemma ClockTextRoundTrip(m: nat)
    requires m < MinutesPerDay
    ensures ParseClock(ClockText(m)) == Some(m)
  {
    var t := ClockText(m);
    assert DigitValue(t[0]) == Some(m / 60 / 10) && DigitValue(t[1]) == Some(m / 60 % 10);
    assert DigitValue(t[3]) == Some(m % 60 / 10) && DigitValue(t[4]) == Some(m % 60 % 10);
  }

  /** `generateTimeOptions`, for a clock reading `now` in minutes since midnight. */
  method GenerateTimeOptions(now: nat) returns (options: seq<string>)
    requires now < MinutesPerDay
    ensures |options| == SlotCount
    ensures forall i :: 0 <= i < SlotCount ==> options[i] == ClockText(SlotMinute(now, i))
    ensures forall i :: 0 <= i < SlotCount ==> ParseClock(options[i]) == Some(SlotMinute(now, i))
  {
    options := [];
    var start := FirstSlot(now);
    for i := 0 to SlotCount
      invariant |options| == i
      invariant forall k :: 0 <= k < i ==> options[k] == ClockText(SlotMinute(now, k))
      invariant forall k :: 0 <= k < i ==> ParseClock(options[k]) == Some(SlotMinute(now, k))
    {
      var time := (start + i * SlotSpacing) % MinutesPerDay;
      ClockTextRoundTrip(time);
      options := options + [ClockText(time)];
    }
  }

  // ------------------------------------------------------------ the payload

  /** One cart line as an order item: product id, name, price and quantity. */
  function OrderItem(line: CartLine): (item: OrderStore.CartItem)
    ensures item.productId == line.productId && item.productName == line.productName
    ensures item.price == line.price && item.quantity == line.quantity
  {
    OrderStore.CartItem(line.productId, line.quantity, line.productName, line.price)
  }

  /** `items.map(...)`: the cart's lines as order items, same number, same order. */
  function OrderItems(cart: seq<CartLine>): (items: seq<OrderStore.CartItem>)
    ensures |items| == |cart|
    ensures forall i :: 0 <= i < |cart| ==> items[i] == OrderItem(cart[i])
  {
    seq(|cart|, i requires 0 <= i < |cart| => OrderItem(cart[i]))
  }

  /** The body of `POST /api/orders`: the items and the form's fields. */
  function OrderPayload(cart: seq<CartLine>, f: FormData): (o: OrderStore.OrderCreate)
    ensures o.items == OrderItems(cart) && o.notes == Some(f.notes)
    ensures o.customerName == f.customerName && o.customerEmail == f.customerEmail
    ensures o.customerPhone == f.customerPhone && o.pickupTime == f.pickupTime
  {
    OrderStore.OrderCreate(OrderItems(cart), f.customerName, f.customerEmail, f.customerPhone,
                           f.pickupTime, Some(f.notes))
  }

  /** Σ price × quantity over the cart's lines, in cents. */
  function LinesTotal(cart: seq<CartLine>): int
  {
    if cart == [] then 0 else cart[0].price * cart[0].quantity + LinesTotal(cart[1..])
  }

  /**
   * The order the server stores for this page's payload carries the cart's
   * total, the form's notes unchanged, and the status pending.
   */
  lemma {:induction false} StoredOrderMatchesCart(id: string, cart: seq<CartLine>, f: FormData)
    ensures var o := OrderStore.NewOrder(id, OrderPayload(cart, f));
      o.total == LinesTotal(cart) && o.notes == f.notes && o.status == "pending"
      && |o.items| == |cart|
  {
    ItemsTotal(cart);
  }

  lemma {:induction false} ItemsTotal(cart: seq<CartLine>)
    ensures OrderStore.OrderTotal(OrderItems(cart)) == LinesTotal(cart)
  {
    if cart != [] {
      ItemsTotal(cart[1..]);
      assert OrderItems(cart)[1..] == OrderItems(cart[1..]);
    }
  }

  // -------------------------------------------------------------- the page

  /** The answer to `POST /api/orders`. */
  datatype OrderReply = OrderCreated(id: string) | OrderRequestFailed

  /** The answer to `POST /api/checkout/stripe`: the response's `url` field, or a failure. */
  datatype CheckoutReply = CheckoutSession(url: Option<string>) | CheckoutRequestFailed

  /**
   * The page's state: the cart it shows, the form, the order id it holds, the
   * error message, where the browser was sent, and the bodies of the order and
   * checkout requests it made, in order.
   */
  datatype Page = Page(
    cart: seq<CartLine>, form: FormData, orderId: string, error: string, location: Option<string>,
    orderRequests: seq<OrderStore.OrderCreate>, checkoutRequests: seq<OrderStore.CheckoutRequest>)

  /** Where PayPal approval sends the browser. */
  const PayPalSuccessPath := "/payment-success?method=paypal"

  /** The page when it mounts: the `order_id` URL parameter, when present, is the order id. */
  function Mount(cart: seq<CartLine>, orderIdParam: Option<string>): (p: Page)
    ensures p.orderId == (if orderIdParam.Some? then orderIdParam.value else "")
    ensures p.cart == cart && p.form == EmptyForm && p.error == "" && p.location == None
    ensures p.orderRequests == [] && p.checkoutRequests == []
  {
    Page(cart, EmptyForm, if orderIdParam.Some? then orderIdParam.value else "", "", None, [], [])
  }

  /** The effect that leaves the page when there is neither a cart nor an order. */
  function GuardOp(p: Page): (r: Page)
    ensures p.cart == [] && p.orderId == "" ==> r == p.(location := Some("/menu"))
    ensures p.cart != [] || p.orderId != "" ==> r == p
  {
    if p.cart == [] && p.orderId == "" then p.(location := Some("/menu")) else p
  }

  /**
   * `createOrder`: an invalid form sets its message and makes no request;
   * otherwise exactly one order request with the cart and the form, and the
   * returned id becomes the page's order id, or the failure message is shown.
   */
  function CreateOrderOp(p: Page, reply: OrderReply): (r: (Page, Option<string>))
    ensures r.0.cart == p.cart && r.0.form == p.form && r.0.location == p.location
    ensures r.0.checkoutRequests == p.checkoutRequests
    ensures ValidateForm(p.form) != "" ==> r == (p.(error := ValidateForm(p.form)), None)
    ensures ValidateForm(p.form) == "" ==> r.0.orderRequests == p.orderRequests + [OrderPayload(p.cart, p.form)]
    ensures ValidateForm(p.form) == "" && reply.OrderCreated? ==>
              r.1 == Some(reply.id) && r.0.orderId == reply.id && r.0.error == ""
    ensures ValidateForm(p.form) == "" && reply.OrderRequestFailed? ==>
              r.1 == None && r.0.orderId == p.orderId && r.0.error == OrderFailedMessage
  {
    var validationError := ValidateForm(p.form);
    if validationError != "" then (p.(error := validationError), None)
    else SendOrderOp(p, reply)
  }

  /** The part of `createOrder` after the form passed: the request and its reply. */
  function SendOrderOp(p: Page, reply: OrderReply): (r: (Page, Option<string>))
  {
    var sent := p.(error := "", orderRequests := p.orderRequests + [OrderPayload(p.cart, p.form)]);
    match reply
    case OrderCreated(id) => (sent.(orderId := id), Some(id))
    case OrderRequestFailed => (sent.(error := OrderFailedMessage), None)
  }

  /**
   * The order id the Stripe handler pays for: the held one, else the one just
   * created, if any. It is never empty, and a new order's id is used only when
   * none is held and the form is valid.
   */
  function StripeOrderId(p: Page, orderReply: OrderReply): (r: Option<string>)
    ensures r.Some? ==> r.value != ""
    ensures p.orderId != "" ==> r == Some(p.orderId)
    ensures p.orderId == "" && r.Some? ==>
              ValidateForm(p.form) == "" && orderReply == OrderCreated(r.value)
  {
    if p.orderId != "" then Some(p.orderId)
    else if ValidateForm(p.form) == "" && orderReply.OrderCreated? && orderReply.id != "" then Some(orderReply.id)
    else None
  }

  /** The redirect URL the checkout reply carries, when it carries a non-empty one. */
  function RedirectUrl(reply: CheckoutReply): Option<string>
  {
    if reply.CheckoutSession? && reply.url.Some? && reply.url.value != "" then reply.url else None
  }

  /**
   * `handleStripePayment`: the held order id, else a newly created order's id,
   * then the checkout request for it; `StripeEffects` states what follows.
   */
  function StripeOp(p: Page, orderReply: OrderReply, checkoutReply: CheckoutReply, origin: string): Page
  {
    var (q, current) := if p.orderId != "" then (p, Some(p.orderId)) else CreateOrderOp(p, orderReply);
    if current.None? || current.value == "" then q
    else PayWith(q, current.value, checkoutReply, origin)
  }

  /**
   * What `handleStripePayment` promises, stated of `r`, the page `StripeOp`
   * leaves: an order is created only when none is held; no checkout request
   * without an order id; the cart is cleared and the browser sent away only
   * when a URL comes back; a failed checkout request shows the payment error.
   */
  lemma StripeEffects(p: Page, orderReply: OrderReply, checkoutReply: CheckoutReply, origin: string, r: Page)
    requires r == StripeOp(p, orderReply, checkoutReply, origin)
    ensures p.orderId != "" ==> r.orderRequests == p.orderRequests
    ensures p.orderId == "" && ValidateForm(p.form) == "" ==>
              r.orderRequests == p.orderRequests + [OrderPayload(p.cart, p.form)]
    ensures p.orderId == "" && ValidateForm(p.form) != "" ==> r.orderRequests == p.orderRequests
    ensures StripeOrderId(p, orderReply).None? ==>
              r.checkoutRequests == p.checkoutRequests && r.cart == p.cart && r.location == p.location
    ensures StripeOrderId(p, orderReply).Some? ==>
              r.checkoutRequests == p.checkoutRequests
                + [OrderStore.CheckoutRequest(StripeOrderId(p, orderReply).value, origin, "stripe")]
    ensures r.cart == (if StripeOrderId(p, orderReply).Some? && RedirectUrl(checkoutReply).Some? then [] else p.cart)
    ensures r.location == (if StripeOrderId(p, orderReply).Some? && RedirectUrl(checkoutReply).Some?
                           then RedirectUrl(checkoutReply) else p.location)
    ensures StripeOrderId(p, orderReply).Some? && checkoutReply.CheckoutRequestFailed? ==>
              r.error == PaymentFailedMessage
    ensures p.orderId != "" ==> r.orderId == p.orderId
    ensures p.orderId == "" && ValidateForm(p.form) == "" && orderReply.OrderCreated? ==>
              r.orderId == orderReply.id
    ensures r.form == p.form
  {
  }

  /**
   * The second half of `handleStripePayment`, once an order id is at hand: one
   * checkout request for that order; on a reply with a URL the cart is cleared
   * and the browser sent there, on a failure the payment error is shown, and
   * otherwise nothing else changes.
   */
  function PayWith(p: Page, id: string, checkoutReply: CheckoutReply, origin: string): (r: Page)
    ensures r.checkoutRequests == p.checkoutRequests + [OrderStore.CheckoutRequest(id, origin, "stripe")]
    ensures r.orderRequests == p.orderRequests && r.orderId == p.orderId && r.form == p.form
    ensures RedirectUrl(checkoutReply).Some? ==> r.cart == [] && r.location == RedirectUrl(checkoutReply)
    ensures RedirectUrl(checkoutReply).None? ==> r.cart == p.cart && r.location == p.location
    ensures r.error == (if checkoutReply.CheckoutRequestFailed? then PaymentFailedMessage else p.error)
  {
    var sent := p.(checkoutRequests := p.checkoutRequests + [OrderStore.CheckoutRequest(id, origin, "stripe")]);
    match checkoutReply
    case CheckoutSession(url) =>
      if url.Some? && url.value != "" then sent.(cart := [], location := url) else sent
    case CheckoutRequestFailed => sent.(error := PaymentFailedMessage)
  }

  /**
   * Pressing the Stripe button a second time after the first press created an
   * order but the payment request failed makes no second order: over both
   * presses exactly one order request is sent, and both checkout requests name
   * that order.
   */
  lemma RetryReusesOrder(p: Page, id: string, orderReply2: OrderReply, origin: string, reply2: CheckoutReply)
    requires p.orderId == "" && ValidateForm(p.form) == "" && id != ""
    ensures var p1 := StripeOp(p, OrderCreated(id), CheckoutRequestFailed, origin);
      var p2 := StripeOp(p1, orderReply2, reply2, origin);
      && p2.orderRequests == p.orderRequests + [OrderPayload(p.cart, p.form)]
      && p1.cart == p.cart
      && p2.checkoutRequests == p.checkoutRequests
           + [OrderStore.CheckoutRequest(id, origin, "stripe"), OrderStore.CheckoutRequest(id, origin, "stripe")]
  {
    var p1 := StripeOp(p, OrderCreated(id), CheckoutRequestFailed, origin);
    FirstPressCreates(p, id, origin);
    SecondPressReuses(p1, orderReply2, reply2, origin);
  }

  /** A press without a held id that creates order `id` and then fails to pay holds `id`, keeping the cart. */
  lemma FirstPressCreates(p: Page, id: string, origin: string)
    requires p.orderId == "" && ValidateForm(p.form) == "" && id != ""
    ensures var p1 := StripeOp(p, OrderCreated(id), CheckoutRequestFailed, origin);
      && p1.orderId == id && p1.cart == p.cart
      && p1.orderRequests == p.orderRequests + [OrderPayload(p.cart, p.form)]
      && p1.checkoutRequests == p.checkoutRequests + [OrderStore.CheckoutRequest(id, origin, "stripe")]
  {
    assert StripeOrderId(p, OrderCreated(id)) == Some(id);
  }

  /** A press with a held id sends no order request and one checkout request for that id. */
  lemma SecondPressReuses(p: Page, orderReply: OrderReply, reply: CheckoutReply, origin: string)
    requires p.orderId != ""
    ensures var p2 := StripeOp(p, orderReply, reply, origin);
      && p2.orderRequests == p.orderRequests
      && p2.checkoutRequests == p.checkoutRequests + [OrderStore.CheckoutRequest(p.orderId, origin, "stripe")]
  {
  }

  /**
   * The PayPal button's order callback: it calls `createOrder` every time,
   * whether or not the page already holds an order id, and lets the widget go
   * on only when an id came back.
   */
  function PayPalCreateOp(p: Page, reply: OrderReply): (r: (Page, bool))
    ensures r.0 == CreateOrderOp(p, reply).0
    ensures r.1 <==> ValidateForm(p.form) == "" && reply.OrderCreated? && reply.id != ""
  {
    var (q, created) := CreateOrderOp(p, reply);
    (q, created.Some? && created.value != "")
  }

  /** Unlike the Stripe path, the PayPal path sends a new order request even when an order id is held. */
  lemma PayPalRecreatesOrder(p: Page, reply: OrderReply)
    requires p.orderId != "" && ValidateForm(p.form) == ""
    ensures |PayPalCreateOp(p, reply).0.orderRequests| == |p.orderRequests| + 1
    ensures StripeOp(p, reply, CheckoutRequestFailed, "").orderRequests == p.orderRequests
  {
  }

  /** `handlePayPalApprove`: clear the cart and go to the success page marked as PayPal, with no request. */
  function PayPalApproveOp(p: Page): (r: Page)
    ensures r.cart == [] && r.location == Some(PayPalSuccessPath)
    ensures r.orderRequests == p.orderRequests && r.checkoutRequests == p.checkoutRequests
    ensures r.orderId == p.orderId && r.form == p.form && r.error == p.error
  {
    p.(cart := [], location := Some(PayPalSuccessPath))
  }

  /** The page as an object whose handlers update its fields. */
  class CheckoutPage {
    var cart: seq<CartLine>
    var form: FormData
    var orderId: string
    var error: string
    var location: Option<string>
    var orderRequests: seq<OrderStore.OrderCreate>
    var checkoutRequests: seq<OrderStore.CheckoutRequest>

    /** The fields as a value. */
    function State(): Page
      reads this
    {
      Page(cart, form, orderId, error, location, orderRequests, checkoutRequests)
    }

    /** Mounting with the cart's lines and the `order_id` URL parameter. */
    constructor (cartLines: seq<CartLine>, orderIdParam: Option<string>)
      ensures State() == Mount(cartLines, orderIdParam)
    {
      cart, form, error, location := cartLines, EmptyForm, "", None;
      orderId := if orderIdParam.Some? then orderIdParam.value else "";
      orderRequests, checkoutRequests := [], [];
    }

    /** The empty-cart effect. */
    method Guard()
      modifies this
      ensures State() == GuardOp(old(State()))
    {
      if |cart| == 0 && orderId == "" {
        location := Some("/menu");
      }
    }

    /** `handleInputChange`. */
    method Input(field: Field, value: string)
      modifies this
      ensures State() == old(State()).(form := WithField(old(form), field, value))
    {
      form := WithField(form, field, value);
    }

    /** `createOrder`; `reply` answers the order request if one is made. */
    method CreateOrder(reply: OrderReply) returns (created: Option<string>)
      modifies this
      ensures (State(), created) == CreateOrderOp(old(State()), reply)
    {
      var validationError := ValidateForm(form);
      if validationError != "" {
        error := validationError;
        return None;
      }
      created := SendOrder(reply);
    }

    /** The request `createOrder` makes once the form is valid, and its reply. */
    method SendOrder(reply: OrderReply) returns (created: Option<string>)
      modifies this
      ensures (State(), created) == SendOrderOp(old(State()), reply)
    {
      error := "";
      orderRequests := orderRequests + [OrderPayload(cart, form)];
      match reply {
        case OrderCreated(id) =>
          orderId := id;
          created := Some(id);
        case OrderRequestFailed =>
          error := OrderFailedMessage;
          created := None;
      }
    }

    /** `handleStripePayment`; `origin` is the page's origin. */
    method HandleStripePayment(orderReply: OrderReply, checkoutReply: CheckoutReply, origin: string)
      modifies this
      ensures State() == StripeOp(old(State()), orderReply, checkoutReply, origin)
    {
      var currentOrderId := orderId;
      if currentOrderId == "" {
        var created := CreateOrder(orderReply);
        if created.None? || created.value == "" {
          return;
        }
        currentOrderId := created.value;
      }
      Pay(currentOrderId, checkoutReply, origin);
    }

    /** The checkout request of `handleStripePayment` for order `id`, and its reply. */
    method Pay(id: string, checkoutReply: CheckoutReply, origin: string)
      modifies this
      ensures State() == PayWith(old(State()), id, checkoutReply, origin)
    {
      checkoutRequests := checkoutRequests + [OrderStore.CheckoutRequest(id, origin, "stripe")];
      match checkoutReply {
        case CheckoutSession(url) =>
          if url.Some? && url.value != "" {
            cart := [];
            location := url;
          }
        case CheckoutRequestFailed =>
          error := PaymentFailedMessage;
      }
    }

    /** The PayPal button's `createOrder` callback; `proceeds` says whether the widget goes on. */
    method PayPalCreateOrder(reply: OrderReply) returns (proceeds: bool)
      modifies this
      ensures (State(), proceeds) == PayPalCreateOp(old(State()), reply)
    {
      var created := CreateOrder(reply);
      proceeds := created.Some? && created.value != "";
    }

    /** `handlePayPalApprove`. */
    method HandlePayPalApprove()
      modifies this
      ensures State() == PayPalApproveOp(old(State()))
    {
      cart := [];
      location := Some(PayPalSuccessPath);
    }
  }
}
