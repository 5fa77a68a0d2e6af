/** The payment form's submission, `PaymentView.post` of mysite/views.py,
    and the reference key `create_refrence_key` hands out. The calls into
    the payment processor are not modelled; what they return (or raise) is
    a parameter of the view. */
module Payments {
  import opened Models
  import opened Db
  import opened Store
  import opened CartTags

  // ---------------------------------------------------------------------------
  // Reference keys (create_refrence_key)
  // ---------------------------------------------------------------------------

  /** `string.ascii_lowercase + string.digits`. */
  const KeyAlphabet: string := "abcdefghijklmnopqrstuvwxyz0123456789"

  /** The length `k=20` the key is drawn with. */
  const KeyLength: nat := 20

  predicate IsKeyChar(c: char)
  {
    'a' <= c <= 'z' || '0' <= c <= '9'
  }

  /** The position of a key character in the alphabet. */
  function KeyIndex(c: char): (d: nat)
    requires IsKeyChar(c)
    ensures d < |KeyAlphabet| && KeyAlphabet[d] == c
  {
    if 'a' <= c <= 'z' then c as int - 'a' as int else c as int - '0' as int + 26
  }

  /** The alphabet holds exactly the key characters, each once. */
  lemma AlphabetChars(d: nat)
    requires d < |KeyAlphabet|
    ensures IsKeyChar(KeyAlphabet[d]) && KeyIndex(KeyAlphabet[d]) == d
  {
  }

  /** What `random.choices(alphabet, k=20)` draws: 20 positions in the
      alphabet. */
  predicate KeyDraws(draws: seq<nat>)
  {
    |draws| == KeyLength && InAlphabet(draws)
  }

  predicate InAlphabet(draws: seq<nat>)
  {
    forall k :: 0 <= k < |draws| ==> draws[k] < |KeyAlphabet|
  }

  /** `''.join(...)` of the drawn characters. */
  function ReferenceKey(draws: seq<nat>): (key: string)
    requires InAlphabet(draws)
    ensures |key| == |draws|
    ensures forall k :: 0 <= k < |key| ==> IsKeyChar(key[k])
  {
    if draws == [] then ""
    else
      AlphabetChars(draws[0]);
      [KeyAlphabet[draws[0]]] + ReferenceKey(draws[1..])
  }

  /** The draws a key was made from. */
  function KeyDrawsOf(key: string): (draws: seq<nat>)
    requires forall k :: 0 <= k < |key| ==> IsKeyChar(key[k])
    ensures |draws| == |key| && InAlphabet(draws)
  {
    if key == "" then [] else [KeyIndex(key[0])] + KeyDrawsOf(key[1..])
  }

  /** Different draws give different keys: the key determines its draws. */
  lemma {:induction false} KeyDetermined(draws: seq<nat>)
    requires InAlphabet(draws)
    ensures KeyDrawsOf(ReferenceKey(draws)) == draws
  {
    if draws != [] {
      AlphabetChars(draws[0]);
      KeyDetermined(draws[1..]);
      assert ReferenceKey(draws)[1..] == ReferenceKey(draws[1..]);
    }
  }

  /** Every 20-character key over the alphabet can be drawn. */
  lemma {:induction false} EveryKeyDrawable(key: string)
    requires forall k :: 0 <= k < |key| ==> IsKeyChar(key[k])
    ensures ReferenceKey(KeyDrawsOf(key)) == key
  {
    if key != "" {
      EveryKeyDrawable(key[1..]);
      assert KeyDrawsOf(key)[1..] == KeyDrawsOf(key[1..]);
    }
  }

  /** A drawn key is 20 characters long, lower-case letters and digits. */
  lemma KeyShape(draws: seq<nat>)
    requires KeyDraws(draws)
    ensures var key := ReferenceKey(draws);
      |key| == 20 && forall k :: 0 <= k < |key| ==> 'a' <= key[k] <= 'z' || '0' <= key[k] <= '9'
  {
  }

  // ---------------------------------------------------------------------------
  // The view's inputs and outcomes
  // ---------------------------------------------------------------------------

  /** The cleaned data of `PaymentForm`. */
  datatype PaymentForm = PaymentForm(token: string, save: bool, useDefault: bool)

  /** The errors the view tells apart: the five Stripe error classes it
      catches by name, any other Stripe error, and any other exception. */
  datatype ChargeError =
    | CardError
    | RateLimitError
    | InvalidRequestError
    | AuthenticationError
    | APIConnectionError
    | OtherStripeError
    | OtherError

  /** A call into the payment processor: it returns an object's id, or raises. */
  datatype Call = Returned(id: string) | Raised(error: ChargeError)

  /** Whom `stripe.Charge.create` charges: the saved customer, or the card token. */
  datatype Payer = ByCustomer(customerId: Option<string>) | BySource(token: string)

  /** The arguments of `stripe.Charge.create`. */
  datatype ChargeRequest = ChargeRequest(amount: int, currency: string, payer: Payer)

  datatype PaymentOutcome =
    | ServerError                  // no active order, no profile, or the customer call raised
    | InvalidData                  // "Invalid data received"
    | CardDeclined                 // the card error's message, then back to the payment page
    | ChargeFailed(error: ChargeError)  // one of the other messages, then home
    | Paid(refKey: string)         // "Your order was successful"

  /** The tables afterwards, the outcome, and the charge requested if any. */
  datatype PaymentRun = PaymentRun(t: Tables, outcome: PaymentOutcome, charged: Option<ChargeRequest>)

  /** `stripe_customer_id != '' and stripe_customer_id is not None`. */
  predicate HasCustomer(p: UserProfile)
  {
    p.customerId.Some? && p.customerId.value != ""
  }

  // ---------------------------------------------------------------------------
  // The view as a function of the tables
  // ---------------------------------------------------------------------------

  /** The `if save:` block: a card is added to the known customer, or a new
      customer is created and the profile remembers it for one-click
      purchases. None when the processor raises (outside the `try`). */
  function SaveCard(t: Tables, user: UserId, form: PaymentForm, customerCall: Call): (r: Option<Tables>)
    requires user in t.profiles
    ensures r.None? <==> form.save && customerCall.Raised?
    ensures r.Some? ==> r.value == t.(profiles := r.value.profiles) && user in r.value.profiles
    ensures r.Some? ==>
              r.value.profiles ==
                if form.save && !HasCustomer(t.profiles[user]) then t.profiles[user := UserProfile(Some(customerCall.id), true)]
                else t.profiles
  {
    if !form.save then Some(t)
    else if HasCustomer(t.profiles[user]) then
      if customerCall.Raised? then None else Some(t)
    else
      match customerCall
      case Raised(_) => None
      case Returned(id) => Some(t.(profiles := t.profiles[user := UserProfile(Some(id), true)]))
  }

  /** The charge for order `o`: its total in cents, in dollars, from the
      saved customer when the card is saved or the default is used. */
  ghost function ChargeRequestOf(t: Tables, user: UserId, o: Id, form: PaymentForm): ChargeRequest
    requires Consistent(t) && o in t.orders && user in t.profiles
  {
    var payer := if form.useDefault || form.save then ByCustomer(t.profiles[user].customerId) else BySource(form.token);
    ChargeRequest(OrderTotal(t, o) * 100, "usd", payer)
  }

  /** After a successful charge: a Payment row for the order total, every
      line of the order marked ordered, and the order itself marked ordered
      with its payment and reference key. */
  ghost function RecordPayment(t: Tables, user: UserId, o: Id, chargeId: string, key: string): Tables
    requires Consistent(t) && o in t.orders
  {
    var (t1, p) := InsertPayment(t, Payment(user, chargeId, OrderTotal(t, o)));
    var t2 := MarkOrdered(t1, t.orders[o].items);
    SaveOrder(t2, o, t.orders[o].(ordered := true, payment := Some(p), refKey := Some(key)))
  }

  /** `PaymentView.post`. */
  ghost function Pay(t: Tables, user: UserId, form: PaymentForm, formValid: bool,
                     customerCall: Call, charge: Call, draws: seq<nat>): PaymentRun
    requires Consistent(t) && KeyDraws(draws)
  {
    match ActiveOrder(t.orders, user)
    case None => PaymentRun(t, ServerError, None)
    case Some(o) =>
      if user !in t.profiles then PaymentRun(t, ServerError, None)
      else if !formValid then PaymentRun(t, InvalidData, None)
      else
        match SaveCard(t, user, form, customerCall)
        case None => PaymentRun(t, ServerError, None)
        case Some(t1) =>
          ProfilesConsistent(t, t1);
          ChargeOrder(t1, user, o, form, charge, draws)
  }

  /** The rest of the view once the card step is done: the charge, and on
      success the payment recorded under a fresh key. */
  ghost function ChargeOrder(t: Tables, user: UserId, o: Id, form: PaymentForm, charge: Call, draws: seq<nat>): PaymentRun
    requires Consistent(t) && o in t.orders && user in t.profiles && KeyDraws(draws)
  {
    var request := ChargeRequestOf(t, user, o, form);
    match charge
    case Raised(e) => PaymentRun(t, if e == CardError then CardDeclined else ChargeFailed(e), Some(request))
    case Returned(id) =>
      var key := ReferenceKey(draws);
      PaymentRun(RecordPayment(t, user, o, id, key), Paid(key), Some(request))
  }

  /** Remembering a customer in the profile keeps the database consistent. */
  lemma ProfilesConsistent(t: Tables, t': Tables)
    requires Consistent(t) && t' == t.(profiles := t'.profiles)
    ensures Consistent(t')
  {
    assert KeysBelowNext(t');
  }

  // ---------------------------------------------------------------------------
  // Totals do not depend on the profiles
  // ---------------------------------------------------------------------------

  /** The order total reads only lines, items, orders and coupons. */
  lemma OrderTotalFrame(t: Tables, t': Tables, o: Id)
    requires Consistent(t) && Consistent(t') && o in t.orders
    requires t'.lines == t.lines && t'.items == t.items && t'.orders == t.orders && t'.coupons == t.coupons
    ensures OrderTotal(t', o) == OrderTotal(t, o)
  {
    OrderPriced(t, o);
    LinesTotalFrame(t, t', t.orders[o].items);
  }

  // ---------------------------------------------------------------------------
  // Recording the payment keeps the database consistent
  // ---------------------------------------------------------------------------

  /** `order.items.all().update(ordered=True)` on the line table. */
  function MarkLines(lines: Lines, ids: seq<Id>): Lines
  {
    map x | x in lines :: if x in ids then lines[x].(ordered := true) else lines[x]
  }

  /** The order as the view saves it after the charge. */
  function PaidOrder(v: Order, p: Id, key: string): Order
  {
    v.(ordered := true, payment := Some(p), refKey := Some(key))
  }

  /** RecordPayment table by table. */
  lemma RecordPaymentTables(t: Tables, user: UserId, o: Id, chargeId: string, key: string)
    requires Consistent(t) && o in t.orders
    ensures var r := RecordPayment(t, user, o, chargeId, key);
      && r.orders == t.orders[o := PaidOrder(t.orders[o], t.next, key)]
      && r.lines == MarkLines(t.lines, t.orders[o].items)
      && r.payments == t.payments[t.next := Payment(user, chargeId, OrderTotal(t, o))]
      && r == t.(orders := r.orders, lines := r.lines, payments := r.payments, next := t.next + 1)
  {
  }

  /** A line of the user's cart belongs to no other order. */
  lemma CartLineOnlyHere(orders: Orders, lines: Lines, user: UserId, o: Id, p: Id, l: Id)
    requires OrderLinesWellFormed(orders, lines) && OneCartPerUser(orders)
    requires IsCart(orders, o, user) && l in orders[o].items
    requires p in orders && l in orders[p].items
    ensures p == o
  {
    var k :| 0 <= k < |orders[o].items| && orders[o].items[k] == l;
    var m :| 0 <= m < |orders[p].items| && orders[p].items[m] == l;
    assert LineOf(lines, l, user, false);
    assert LineOf(lines, l, orders[p].user, orders[p].ordered);
    assert IsCart(orders, p, user);
  }

  /** Paying for the cart `o` keeps every order's lines well formed. */
  lemma PaidLinesWellFormed(orders: Orders, lines: Lines, user: UserId, o: Id, p: Id, key: string)
    requires OrderLinesWellFormed(orders, lines) && OneCartPerUser(orders) && IsCart(orders, o, user)
    ensures OrderLinesWellFormed(orders[o := PaidOrder(orders[o], p, key)], MarkLines(lines, orders[o].items))
  {
    var orders' := orders[o := PaidOrder(orders[o], p, key)];
    var lines' := MarkLines(lines, orders[o].items);
    var ids := orders[o].items;
    forall q | q in orders'
      ensures forall k :: 0 <= k < |orders'[q].items| ==> LineOf(lines', orders'[q].items[k], orders'[q].user, orders'[q].ordered)
    {
      forall k | 0 <= k < |orders'[q].items|
        ensures LineOf(lines', orders'[q].items[k], orders'[q].user, orders'[q].ordered)
      {
        var l := orders'[q].items[k];
        assert LineOf(lines, l, orders[q].user, orders[q].ordered);
        if q == o {
          assert l in ids;
        } else if l in ids {
          CartLineOnlyHere(orders, lines, user, o, q, l);
        }
      }
    }
  }

  /** The row facts about lines survive marking lines ordered. */
  lemma MarkLinesFacts(orders: Orders, lines: Lines, items: Items, user: UserId, o: Id, p: Id, key: string)
    requires OneOpenLine(lines) && QuantitiesPositive(lines) && LinesPriced(lines, items)
    requires LooseLinesSingle(orders, lines) && o in orders
    ensures var lines' := MarkLines(lines, orders[o].items);
      && OneOpenLine(lines') && QuantitiesPositive(lines') && LinesPriced(lines', items)
      && LooseLinesSingle(orders[o := PaidOrder(orders[o], p, key)], lines')
  {
    var orders' := orders[o := PaidOrder(orders[o], p, key)];
    var lines' := MarkLines(lines, orders[o].items);
    forall l1, l2, u, i | IsOpenLine(lines', l1, u, i) && IsOpenLine(lines', l2, u, i) ensures l1 == l2 {
      assert IsOpenLine(lines, l1, u, i) && IsOpenLine(lines, l2, u, i);
    }
    forall l | InSomeOrder(orders, l) ensures InSomeOrder(orders', l) {
      var q :| q in orders && l in orders[q].items;
      assert q in orders' && l in orders'[q].items;
    }
  }

  /** The facts about orders survive paying for the cart `o`. */
  lemma PaidOrderFacts(orders: Orders, coupons: map<Id, Coupon>, refunds: map<Id, Refund>, user: UserId, o: Id, p: Id, key: string)
    requires OneCartPerUser(orders) && CartsNonEmpty(orders) && CouponsExist(orders, coupons)
    requires RefundsOfPaidOrders(refunds, orders) && RequestsHaveRefund(orders, refunds) && KeyedOrdersPaid(orders)
    requires IsCart(orders, o, user)
    ensures var orders' := orders[o := PaidOrder(orders[o], p, key)];
      && OneCartPerUser(orders') && CartsNonEmpty(orders') && CouponsExist(orders', coupons)
      && RefundsOfPaidOrders(refunds, orders') && RequestsHaveRefund(orders', refunds) && KeyedOrdersPaid(orders')
  {
    var orders' := orders[o := PaidOrder(orders[o], p, key)];
    forall o1, o2, u | IsCart(orders', o1, u) && IsCart(orders', o2, u) ensures o1 == o2 {
      assert IsCart(orders, o1, u) && IsCart(orders, o2, u);
    }
    assert forall f :: f in refunds ==> orders[refunds[f].order].ordered;
    assert !HasRefund(refunds, o);
  }

  lemma RecordPaymentConsistent(t: Tables, user: UserId, o: Id, chargeId: string, key: string)
    requires Consistent(t) && IsCart(t.orders, o, user)
    ensures Consistent(RecordPayment(t, user, o, chargeId, key))
  {
    var orders' := t.orders[o := PaidOrder(t.orders[o], t.next, key)];
    var lines' := MarkLines(t.lines, t.orders[o].items);
    var pay := Payment(user, chargeId, OrderTotal(t, o));
    RecordPaymentTables(t, user, o, chargeId, key);
    PaidLinesWellFormed(t.orders, t.lines, user, o, t.next, key);
    MarkLinesFacts(t.orders, t.lines, t.items, user, o, t.next, key);
    PaidOrderFacts(t.orders, t.coupons, t.refunds, user, o, t.next, key);
    assert forall k :: k in lines' ==> k in t.lines;
    assert forall k :: k in orders' ==> k in t.orders;
    PaidRowsReplaced(t, lines', orders', t.payments[t.next := pay]);
  }

  /** New line and order tables that keep the row facts, and one more
      payment row at the next key, keep the database consistent. */
  lemma PaidRowsReplaced(t: Tables, lines': Lines, orders': Orders, payments': map<Id, Payment>)
    requires Consistent(t)
    requires OrderLinesWellFormed(orders', lines') && OneCartPerUser(orders') && OneOpenLine(lines')
    requires QuantitiesPositive(lines') && LooseLinesSingle(orders', lines') && CartsNonEmpty(orders')
    requires LinesPriced(lines', t.items) && CouponsExist(orders', t.coupons)
    requires RefundsOfPaidOrders(t.refunds, orders') && RequestsHaveRefund(orders', t.refunds) && KeyedOrdersPaid(orders')
    requires forall k :: k in lines' ==> k in t.lines
    requires forall k :: k in orders' ==> k in t.orders
    requires forall k :: k in payments' ==> k in t.payments || k == t.next
    ensures Consistent(t.(lines := lines', orders := orders', payments := payments', next := t.next + 1))
  {
    assert KeysBelowNext(t.(lines := lines', orders := orders', payments := payments', next := t.next + 1));
  }

  // ---------------------------------------------------------------------------
  // What the view promises
  // ---------------------------------------------------------------------------

  /** The view keeps the database consistent. */
  lemma PayConsistent(t: Tables, user: UserId, form: PaymentForm, formValid: bool,
                      customerCall: Call, charge: Call, draws: seq<nat>)
    requires Consistent(t) && KeyDraws(draws)
    ensures Consistent(Pay(t, user, form, formValid, customerCall, charge, draws).t)
  {
    var run := Pay(t, user, form, formValid, customerCall, charge, draws);
    match ActiveOrder(t.orders, user)
    case None =>
    case Some(o) =>
      if user in t.profiles && formValid && SaveCard(t, user, form, customerCall).Some? {
        var t1 := SaveCard(t, user, form, customerCall).value;
        ProfilesConsistent(t, t1);
        if charge.Returned? {
          RecordPaymentConsistent(t1, user, o, charge.id, ReferenceKey(draws));
          assert run.t == RecordPayment(t1, user, o, charge.id, ReferenceKey(draws));
        } else {
          assert run.t == t1;
        }
      }
  }

  /** Exactly when the order is paid: the user has a cart and a profile,
      the form is valid, saving the card did not raise and the charge went
      through. */
  lemma PaidExactly(t: Tables, user: UserId, form: PaymentForm, formValid: bool,
                    customerCall: Call, charge: Call, draws: seq<nat>)
    requires Consistent(t) && KeyDraws(draws)
    ensures var run := Pay(t, user, form, formValid, customerCall, charge, draws);
      run.outcome.Paid? <==>
        && ActiveOrder(t.orders, user).Some? && user in t.profiles && formValid
        && (form.save ==> customerCall.Returned?) && charge.Returned?
  {
  }

  /** The view when the card step went through: the charge is requested on
      the tables the card step left, and a successful charge records the
      payment on them. */
  lemma ChargeRun(t: Tables, user: UserId, form: PaymentForm, formValid: bool,
                  customerCall: Call, charge: Call, draws: seq<nat>)
    requires Consistent(t) && KeyDraws(draws)
    requires ActiveOrder(t.orders, user).Some? && user in t.profiles && formValid
    requires form.save ==> customerCall.Returned?
    ensures SaveCard(t, user, form, customerCall).Some?
    ensures var o := ActiveOrder(t.orders, user).value;
      var t1 := SaveCard(t, user, form, customerCall).value;
      var run := Pay(t, user, form, formValid, customerCall, charge, draws);
      && Consistent(t1) && o in t1.orders && user in t1.profiles
      && run == ChargeOrder(t1, user, o, form, charge, draws)
  {
    ProfilesConsistent(t, SaveCard(t, user, form, customerCall).value);
  }

  /** What the charge step requests and, on success, records. */
  lemma ChargeOrderRun(t: Tables, user: UserId, o: Id, form: PaymentForm, charge: Call, draws: seq<nat>)
    requires Consistent(t) && o in t.orders && user in t.profiles && KeyDraws(draws)
    ensures var run := ChargeOrder(t, user, o, form, charge, draws);
      && run.charged == Some(ChargeRequestOf(t, user, o, form))
      && (charge.Returned? ==> run.t == RecordPayment(t, user, o, charge.id, ReferenceKey(draws)))
      && (charge.Returned? ==> run.outcome == Paid(ReferenceKey(draws)))
  {
  }

  /** A charge is requested exactly when the view gets past the `if save:`
      block. */
  lemma ChargeRequestedExactly(t: Tables, user: UserId, form: PaymentForm, formValid: bool,
                               customerCall: Call, charge: Call, draws: seq<nat>)
    requires Consistent(t) && KeyDraws(draws)
    ensures var run := Pay(t, user, form, formValid, customerCall, charge, draws);
      run.charged.Some? <==>
        ActiveOrder(t.orders, user).Some? && user in t.profiles && formValid && (form.save ==> customerCall.Returned?)
  {
  }

  /** The charge is for the order total in cents, in dollars; it is taken
      from the saved customer exactly when the card is saved or the default
      is used, with the customer id as the `if save:` block left it, and
      from the card token otherwise. */
  lemma ChargeRequested(t: Tables, user: UserId, form: PaymentForm, formValid: bool,
                        customerCall: Call, charge: Call, draws: seq<nat>)
    requires Consistent(t) && KeyDraws(draws)
    requires ActiveOrder(t.orders, user).Some? && user in t.profiles && formValid
    requires form.save ==> customerCall.Returned?
    ensures var run := Pay(t, user, form, formValid, customerCall, charge, draws);
      var customer := if form.save && !HasCustomer(t.profiles[user]) then Some(customerCall.id) else t.profiles[user].customerId;
      var payer := if form.save || form.useDefault then ByCustomer(customer) else BySource(form.token);
      run.charged == Some(ChargeRequest(100 * OrderTotal(t, ActiveOrder(t.orders, user).value), "usd", payer))
  {
    var o := ActiveOrder(t.orders, user).value;
    ChargeRun(t, user, form, formValid, customerCall, charge, draws);
    var t1 := SaveCard(t, user, form, customerCall).value;
    ChargeOrderRun(t1, user, o, form, charge, draws);
    OrderTotalFrame(t, t1, o);
    SaveCardCustomer(t, user, form, customerCall);
    var total := OrderTotal(t, o);
    ChargeRequestIs(t1, user, o, form, total);
  }

  /** The customer id the `if save:` block leaves in the profile. */
  lemma SaveCardCustomer(t: Tables, user: UserId, form: PaymentForm, customerCall: Call)
    requires user in t.profiles && (form.save ==> customerCall.Returned?)
    ensures SaveCard(t, user, form, customerCall).Some?
    ensures SaveCard(t, user, form, customerCall).value.profiles[user].customerId ==
      if form.save && !HasCustomer(t.profiles[user]) then Some(customerCall.id) else t.profiles[user].customerId
  {
  }

  lemma ChargeRequestIs(t: Tables, user: UserId, o: Id, form: PaymentForm, total: int)
    requires Consistent(t) && o in t.orders && user in t.profiles && OrderTotal(t, o) == total
    ensures var customer := t.profiles[user].customerId;
      var payer := if form.save || form.useDefault then ByCustomer(customer) else BySource(form.token);
      ChargeRequestOf(t, user, o, form) == ChargeRequest(100 * total, "usd", payer)
  {
  }

  /** On success: one new Payment row for the order total with the charge
      id, the order's lines all ordered, the order ordered with that payment
      and a fresh 20-character key; no other order or line is touched, and
      the profile changes only as the `if save:` block leaves it. */
  lemma PaymentRecorded(t: Tables, user: UserId, form: PaymentForm, formValid: bool,
                        customerCall: Call, charge: Call, draws: seq<nat>)
    requires Consistent(t) && KeyDraws(draws)
    requires ActiveOrder(t.orders, user).Some? && user in t.profiles && formValid
    requires (form.save ==> customerCall.Returned?) && charge.Returned?
    ensures var run := Pay(t, user, form, formValid, customerCall, charge, draws);
      var t' := run.t;
      var o := ActiveOrder(t.orders, user).value;
      && run.outcome == Paid(ReferenceKey(draws)) && run.charged.Some?
      && t'.payments == t.payments[t.next := Payment(user, charge.id, OrderTotal(t, o))]
      && t'.orders == t.orders[o := t.orders[o].(ordered := true, payment := Some(t.next), refKey := Some(run.outcome.refKey))]
      && (forall l :: l in t'.lines <==> l in t.lines)
      && (forall l :: l in t.lines ==> t'.lines[l] == if l in t.orders[o].items then t.lines[l].(ordered := true) else t.lines[l])
      && t'.items == t.items && t'.addresses == t.addresses && t'.coupons == t.coupons && t'.refunds == t.refunds
      && run.charged.value.amount == 100 * t'.payments[t.next].amount
      && t'.profiles ==
           if form.save && !HasCustomer(t.profiles[user]) then t.profiles[user := UserProfile(Some(customerCall.id), true)]
           else t.profiles
  {
    var o := ActiveOrder(t.orders, user).value;
    var key := ReferenceKey(draws);
    ChargeRun(t, user, form, formValid, customerCall, charge, draws);
    var t1 := SaveCard(t, user, form, customerCall).value;
    ChargeOrderRun(t1, user, o, form, charge, draws);
    OrderTotalFrame(t, t1, o);
    var total := OrderTotal(t, o);
    RecordPaymentTables(t1, user, o, charge.id, key);
    ChargeRequestIs(t1, user, o, form, total);
    var r := RecordPayment(t1, user, o, charge.id, key);
    PaidTablesFrom(t, t1, r, user, o, charge.id, key, total);
  }

  /** The tables the payment leaves, in terms of the tables before the card
      step, which changed only the profiles. */
  lemma PaidTablesFrom(t: Tables, t1: Tables, r: Tables, user: UserId, o: Id, chargeId: string, key: string, total: int)
    requires o in t.orders && t1 == t.(profiles := t1.profiles)
    requires r.orders == t1.orders[o := PaidOrder(t1.orders[o], t1.next, key)]
    requires r.lines == MarkLines(t1.lines, t1.orders[o].items)
    requires r.payments == t1.payments[t1.next := Payment(user, chargeId, total)]
    requires r == t1.(orders := r.orders, lines := r.lines, payments := r.payments, next := t1.next + 1)
    ensures r.payments == t.payments[t.next := Payment(user, chargeId, total)]
    ensures r.orders == t.orders[o := t.orders[o].(ordered := true, payment := Some(t.next), refKey := Some(key))]
    ensures forall l :: l in r.lines <==> l in t.lines
    ensures forall l :: l in t.lines ==> r.lines[l] == if l in t.orders[o].items then t.lines[l].(ordered := true) else t.lines[l]
    ensures r.items == t.items && r.addresses == t.addresses && r.coupons == t.coupons && r.refunds == t.refunds
    ensures r.profiles == t1.profiles
  {
  }

  /** Every failure leaves orders, lines and payments as they were; only a
      newly created customer may have been remembered in the profile. */
  lemma FailureChargesNothing(t: Tables, user: UserId, form: PaymentForm, formValid: bool,
                              customerCall: Call, charge: Call, draws: seq<nat>)
    requires Consistent(t) && KeyDraws(draws)
    requires !Pay(t, user, form, formValid, customerCall, charge, draws).outcome.Paid?
    ensures var t' := Pay(t, user, form, formValid, customerCall, charge, draws).t;
      && t' == t.(profiles := t'.profiles)
      && (t'.profiles != t.profiles ==>
            && form.save && user in t.profiles && !HasCustomer(t.profiles[user]) && customerCall.Returned?
            && t'.profiles == t.profiles[user := UserProfile(Some(customerCall.id), true)])
  {
  }

  /** With no active order, no profile, an invalid form, or a raising
      customer call, nothing is written and nothing is charged. */
  lemma EarlyFailuresChangeNothing(t: Tables, user: UserId, form: PaymentForm, formValid: bool,
                                   customerCall: Call, charge: Call, draws: seq<nat>)
    requires Consistent(t) && KeyDraws(draws)
    requires Pay(t, user, form, formValid, customerCall, charge, draws).outcome in {ServerError, InvalidData}
    ensures var run := Pay(t, user, form, formValid, customerCall, charge, draws);
      run.t == t && run.charged.None?
  {
  }

  /** After paying the user has no cart left: the cart badge shows 0. */
  lemma PaidEmptiesCart(t: Tables, user: UserId, form: PaymentForm, formValid: bool,
                        customerCall: Call, charge: Call, draws: seq<nat>)
    requires Consistent(t) && KeyDraws(draws)
    requires ActiveOrder(t.orders, user).Some? && user in t.profiles && formValid
    requires (form.save ==> customerCall.Returned?) && charge.Returned?
    ensures var t' := Pay(t, user, form, formValid, customerCall, charge, draws).t;
      ActiveOrder(t'.orders, user).None? && CartItemCount(t', user) == 0
  {
    var o := ActiveOrder(t.orders, user).value;
    ChargeRun(t, user, form, formValid, customerCall, charge, draws);
    var t1 := SaveCard(t, user, form, customerCall).value;
    ChargeOrderRun(t1, user, o, form, charge, draws);
    RecordPaymentTables(t1, user, o, charge.id, ReferenceKey(draws));
    NoCartAfterPaying(t.orders, user, o, t1.next, ReferenceKey(draws));
  }

  /** Paying for the user's only cart leaves the user without one. */
  lemma NoCartAfterPaying(orders: Orders, user: UserId, o: Id, p: Id, key: string)
    requires OneCartPerUser(orders) && IsCart(orders, o, user)
    ensures ActiveOrder(orders[o := PaidOrder(orders[o], p, key)], user).None?
  {
    var orders' := orders[o := PaidOrder(orders[o], p, key)];
    forall q | IsCart(orders', q, user) ensures false {
      assert IsCart(orders, q, user);
    }
  }

  // ---------------------------------------------------------------------------
  // The view on the store
  // ---------------------------------------------------------------------------

  /** `PaymentView.post`; `customerCall` and `charge` are what the processor
      answers, `draws` what the random generator draws. */
  method PayPost(db: Store, user: UserId, form: PaymentForm, formValid: bool,
                 customerCall: Call, charge: Call, draws: seq<nat>)
    returns (outcome: PaymentOutcome, charged: Option<ChargeRequest>)
    requires db.Valid() && KeyDraws(draws)
    modifies db
    ensures db.Valid()
    ensures PaymentRun(db.Snapshot(), outcome, charged) == Pay(old(db.Snapshot()), user, form, formValid, customerCall, charge, draws)
  {
    ghost var t := db.Snapshot();
    PayConsistent(t, user, form, formValid, customerCall, charge, draws);
    var found := db.FindActiveOrder(user);
    if found.None? {
      return ServerError, None;
    }
    var o := found.value;
    var order := db.orders[o];
    var profile := db.FindProfile(user);
    if profile.None? {
      return ServerError, None;
    }
    if !formValid {
      return InvalidData, None;
    }
    var userprofile := profile.value;
    if form.save {
      if HasCustomer(userprofile) {
        if customerCall.Raised? {
          return ServerError, None;
        }
      } else {
        if customerCall.Raised? {
          return ServerError, None;
        }
        userprofile := UserProfile(Some(customerCall.id), true);
        db.SaveProfile(user, userprofile);
      }
    }
    ghost var t1 := db.Snapshot();
    assert t1 == SaveCard(t, user, form, customerCall).value;
    ProfilesConsistent(t, t1);
    var total := db.CalculateOrderTotal(o);
    var payer := if form.useDefault || form.save then ByCustomer(userprofile.customerId) else BySource(form.token);
    charged := Some(ChargeRequest(total * 100, "usd", payer));
    match charge
    case Raised(e) =>
      outcome := if e == CardError then CardDeclined else ChargeFailed(e);
    case Returned(chargeId) =>
      var key := ReferenceKey(draws);
      RecordPost(db, user, o, order, chargeId, key);
      outcome := Paid(key);
  }

  /** The `try` block after the charge went through. */
  method RecordPost(db: Store, user: UserId, o: Id, order: Order, chargeId: string, key: string)
    requires db.Valid() && o in db.orders && db.orders[o] == order
    modifies db
    ensures db.Snapshot() == RecordPayment(old(db.Snapshot()), user, o, chargeId, key)
  {
    var amount := db.CalculateOrderTotal(o);
    var p := db.InsertPayment(Payment(user, chargeId, amount));
    db.MarkOrdered(order.items);
    var paid := order.(ordered := true, payment := Some(p), refKey := Some(key));
    db.SaveOrder(o, paid);
  }
}
