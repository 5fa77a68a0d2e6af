/** The checkout form's submission, `CheckoutView.post` of mysite/views.py:
    the active order gets a shipping and a billing address, each either the
    user's saved default, a freshly entered one, or (for billing) a copy of
    the shipping address; then the customer is sent to the payment page. */
module Checkout {
  import opened Models
  import opened Db
  import opened Store

  /** The cleaned data of `CheckOutForm`. Text fields left blank are "". */
  datatype CheckoutForm = CheckoutForm(
    shippingStreet: string,
    shippingApartment: string,
    shippingCountry: string,
    shippingZip: string,
    sameBilling: bool,
    setDefaultShipping: bool,
    useDefaultShipping: bool,
    billingStreet: string,
    billingApartment: string,
    billingCountry: string,
    billingZip: string,
    setDefaultBilling: bool,
    useDefaultBilling: bool,
    paymentOption: string)

  /** How the request ends. */
  datatype CheckoutOutcome =
    | NoActiveOrder          // ObjectDoesNotExist: the summary page
    | FailedCheckout         // "Failed checkout", back to the form
    | ShippingIncomplete     // "Please fill in the required shipping address fields"
    | BillingIncomplete      // "Please fill in the required billing address fields"
    | NoDefaultAddress       // indexing an empty queryset raises: a server error
    | ToPayment(option: string)  // redirect to the payment page for "stripe" or "paypal"

  /** `form.is_valid()`: the country fields hold known codes or are blank
      (`countriesKnown`) and the payment option is one of the two choices;
      every other field is optional. */
  predicate FormValid(f: CheckoutForm, countriesKnown: bool)
  {
    countriesKnown && (f.paymentOption == "S" || f.paymentOption == "P")
  }

  /** The fields `is_valid_form` checks before a new address is stored. */
  function ShippingFields(f: CheckoutForm): seq<string>
  {
    [f.shippingStreet, f.shippingCountry, f.shippingZip]
  }

  function BillingFields(f: CheckoutForm): seq<string>
  {
    [f.billingStreet, f.billingCountry, f.billingZip]
  }

  /** No value is the empty string. */
  predicate AllFilled(values: seq<string>)
  {
    forall k :: 0 <= k < |values| ==> values[k] != ""
  }

  /** `is_valid_form(values)`: the scan that answers false at the first
      blank value. */
  method IsValidForm(values: seq<string>) returns (ok: bool)
    ensures ok <==> AllFilled(values)
  {
    for k := 0 to |values|
      invariant forall m :: 0 <= m < k ==> values[m] != ""
    {
      if values[k] == "" {
        return false;
      }
    }
    return true;
  }

  /** `qs[len(qs) - 1]` of `Address.objects.filter(user=user,
      address_type=kind, default=True)`: some default address of that kind,
      or None when the queryset is empty (and the indexing raises). */
  ghost predicate DefaultPick(addresses: map<Id, Address>, user: UserId, kind: AddressType, pick: Option<Id>)
  {
    match pick
    case None => forall a :: !IsDefaultAddress(addresses, a, user, kind)
    case Some(a) => IsDefaultAddress(addresses, a, user, kind)
  }

  /** The default-address queryset of that kind is not empty. */
  ghost predicate HasDefault(addresses: map<Id, Address>, user: UserId, kind: AddressType)
  {
    exists a :: IsDefaultAddress(addresses, a, user, kind)
  }

  /** A pick is present exactly when the queryset is not empty. */
  lemma PickPresent(addresses: map<Id, Address>, user: UserId, kind: AddressType, pick: Option<Id>)
    requires DefaultPick(addresses, user, kind, pick)
    ensures pick.Some? <==> HasDefault(addresses, user, kind)
  {
    if pick.Some? {
      assert IsDefaultAddress(addresses, pick.value, user, kind);
    }
  }

  // ---------------------------------------------------------------------------
  // The view as a function of the tables
  // ---------------------------------------------------------------------------

  /** Where the shipping part leaves the request: stopped with an outcome,
      or on to billing with the order's shipping address. */
  datatype ShipStep = Stopped(t: Tables, outcome: CheckoutOutcome) | Shipped(t: Tables, address: Id)

  /** The new address a form's entries describe. */
  function EnteredShipping(user: UserId, f: CheckoutForm): Address
  {
    Address(user, f.shippingStreet, f.shippingApartment, f.shippingZip, f.shippingCountry, Shipping, f.setDefaultShipping)
  }

  function EnteredBilling(user: UserId, f: CheckoutForm): Address
  {
    Address(user, f.billingStreet, f.billingApartment, f.billingZip, f.billingCountry, Billing, f.setDefaultBilling)
  }

  /** The shipping part of the view on the active order `o`. */
  function Ship(t: Tables, user: UserId, o: Id, f: CheckoutForm, shippingDefault: Option<Id>): (r: ShipStep)
    requires o in t.orders
    ensures r.Stopped? ==> r.t == t
    ensures r.Shipped? ==> o in r.t.orders && r.t.orders[o].shipping == Some(r.address)
    ensures r.Shipped? ==>
      if f.useDefaultShipping then Some(r.address) == shippingDefault && r.t.addresses == t.addresses
      else r.address == t.next && r.t.addresses == t.addresses[t.next := EnteredShipping(user, f)]
  {
    if f.useDefaultShipping then
      match shippingDefault
      case None => Stopped(t, NoDefaultAddress)
      case Some(s) => Shipped(LinkShipping(t, o, s), s)
    else if AllFilled(ShippingFields(f)) then
      var ins := InsertAddress(t, EnteredShipping(user, f));
      Shipped(LinkShipping(ins.0, o, ins.1), ins.1)
    else
      Stopped(t, ShippingIncomplete)
  }

  /** The order ships to `s`. */
  function LinkShipping(t: Tables, o: Id, s: Id): (r: Tables)
    requires o in t.orders
    ensures r == SaveOrder(t, o, t.orders[o].(shipping := Some(s)))
    ensures r.addresses == t.addresses && r.next == t.next
    ensures o in r.orders && r.orders[o] == t.orders[o].(shipping := Some(s))
  {
    SaveOrder(t, o, t.orders[o].(shipping := Some(s)))
  }

  /** The billing part, once the order ships to `s`. A copy of the shipping
      address takes precedence over the saved default. */
  function Bill(t: Tables, user: UserId, o: Id, s: Id, f: CheckoutForm, billingDefault: Option<Id>): (r: (Tables, CheckoutOutcome))
    requires o in t.orders && s in t.addresses
    ensures o in r.0.orders && r.0.orders[o].shipping == t.orders[o].shipping
  {
    if f.sameBilling then
      var ins := InsertAddress(t, t.addresses[s].(kind := Billing));
      LinkBilling(ins.0, o, ins.1, f)
    else if f.useDefaultBilling then
      match billingDefault
      case None => (t, NoDefaultAddress)
      case Some(b) => LinkBilling(t, o, b, f)
    else if AllFilled(BillingFields(f)) then
      var ins := InsertAddress(t, EnteredBilling(user, f));
      LinkBilling(ins.0, o, ins.1, f)
    else
      (t, BillingIncomplete)
  }

  /** The billing part leaves existing address rows as they were. */
  lemma BillKeepsAddress(t: Tables, user: UserId, o: Id, s: Id, f: CheckoutForm, billingDefault: Option<Id>)
    requires o in t.orders && s in t.addresses && s < t.next
    ensures s in Bill(t, user, o, s, f, billingDefault).0.addresses
    ensures Bill(t, user, o, s, f, billingDefault).0.addresses[s] == t.addresses[s]
  {
  }

  /** The order bills to `b`, then the redirect. */
  function LinkBilling(t: Tables, o: Id, b: Id, f: CheckoutForm): (r: (Tables, CheckoutOutcome))
    requires o in t.orders
    ensures r.0 == SaveOrder(t, o, t.orders[o].(billing := Some(b)))
    ensures r.0.addresses == t.addresses && r.0.next == t.next
    ensures o in r.0.orders && r.0.orders[o] == t.orders[o].(billing := Some(b))
    ensures r.0.orders[o].shipping == t.orders[o].shipping
  {
    Finish(SaveOrder(t, o, t.orders[o].(billing := Some(b))), f)
  }

  /** The redirect chosen by the payment option. */
  function Finish(t: Tables, f: CheckoutForm): (r: (Tables, CheckoutOutcome))
    ensures r.0 == t
  {
    if f.paymentOption == "S" then (t, ToPayment("stripe"))
    else if f.paymentOption == "P" then (t, ToPayment("paypal"))
    else (t, FailedCheckout)
  }

  /** `CheckoutView.post`. The default picks stand for the two querysets. */
  ghost function Checkout(t: Tables, user: UserId, f: CheckoutForm, countriesKnown: bool,
                          shippingDefault: Option<Id>, billingDefault: Option<Id>): (Tables, CheckoutOutcome)
    requires DefaultPick(t.addresses, user, Shipping, shippingDefault)
    requires DefaultPick(t.addresses, user, Billing, billingDefault)
  {
    match ActiveOrder(t.orders, user)
    case None => (t, NoActiveOrder)
    case Some(o) =>
      if !FormValid(f, countriesKnown) then (t, FailedCheckout)
      else
        match Ship(t, user, o, f, shippingDefault)
        case Stopped(t1, outcome) => (t1, outcome)
        case Shipped(t1, s) => Bill(t1, user, o, s, f, billingDefault)
  }

  // ---------------------------------------------------------------------------
  // What the view writes
  // ---------------------------------------------------------------------------

  /** `t'` differs from `t` only in new address rows and in the addresses
      the order `o` points to. */
  ghost predicate AddressWrites(t: Tables, t': Tables, o: Id)
  {
    && t' == t.(addresses := t'.addresses, orders := t'.orders, next := t'.next)
    && t.next <= t'.next
    && (forall a :: a in t.addresses ==> a in t'.addresses && t'.addresses[a] == t.addresses[a])
    && (forall a :: a in t'.addresses ==> a in t.addresses || t.next <= a < t'.next)
    && (forall p :: p in t.orders <==> p in t'.orders)
    && (forall p :: p in t.orders && p != o ==> t'.orders[p] == t.orders[p])
    && (o in t.orders ==> t'.orders[o] == t.orders[o].(shipping := t'.orders[o].shipping, billing := t'.orders[o].billing))
  }

  lemma AddressWritesTrans(t: Tables, t1: Tables, t2: Tables, o: Id)
    requires AddressWrites(t, t1, o) && AddressWrites(t1, t2, o)
    ensures AddressWrites(t, t2, o)
  {
  }

  lemma NoWrites(t: Tables, o: Id)
    ensures AddressWrites(t, t, o)
  {
  }

  /** Storing a new address row is such a write. */
  lemma InsertAddressWrites(t: Tables, a: Address, o: Id)
    requires KeysBelowNext(t)
    ensures AddressWrites(t, InsertAddress(t, a).0, o) && KeysBelowNext(InsertAddress(t, a).0)
  {
  }

  /** So is saving the order with new address links. */
  lemma SaveLinksWrites(t: Tables, o: Id, v: Order)
    requires o in t.orders && KeysBelowNext(t)
    requires v == t.orders[o].(shipping := v.shipping, billing := v.billing)
    ensures AddressWrites(t, SaveOrder(t, o, v), o) && KeysBelowNext(SaveOrder(t, o, v))
  {
  }

  lemma ShipWrites(t: Tables, user: UserId, o: Id, f: CheckoutForm, shippingDefault: Option<Id>)
    requires o in t.orders && KeysBelowNext(t)
    ensures AddressWrites(t, Ship(t, user, o, f, shippingDefault).t, o)
    ensures KeysBelowNext(Ship(t, user, o, f, shippingDefault).t)
  {
    if f.useDefaultShipping {
      if shippingDefault.Some? {
        SaveLinksWrites(t, o, t.orders[o].(shipping := shippingDefault));
      } else {
        NoWrites(t, o);
      }
    } else if AllFilled(ShippingFields(f)) {
      var (t1, s) := InsertAddress(t, EnteredShipping(user, f));
      InsertAddressWrites(t, EnteredShipping(user, f), o);
      SaveLinksWrites(t1, o, t1.orders[o].(shipping := Some(s)));
      AddressWritesTrans(t, t1, SaveOrder(t1, o, t1.orders[o].(shipping := Some(s))), o);
    } else {
      NoWrites(t, o);
    }
  }

  lemma BillWrites(t: Tables, user: UserId, o: Id, s: Id, f: CheckoutForm, billingDefault: Option<Id>)
    requires o in t.orders && s in t.addresses && KeysBelowNext(t)
    ensures AddressWrites(t, Bill(t, user, o, s, f, billingDefault).0, o)
  {
    if f.sameBilling || (!f.useDefaultBilling && AllFilled(BillingFields(f))) {
      var a := if f.sameBilling then t.addresses[s].(kind := Billing) else EnteredBilling(user, f);
      var (t1, b) := InsertAddress(t, a);
      InsertAddressWrites(t, a, o);
      SaveLinksWrites(t1, o, t1.orders[o].(billing := Some(b)));
      AddressWritesTrans(t, t1, SaveOrder(t1, o, t1.orders[o].(billing := Some(b))), o);
      assert Bill(t, user, o, s, f, billingDefault).0 == SaveOrder(t1, o, t1.orders[o].(billing := Some(b)));
    } else if f.useDefaultBilling && billingDefault.Some? {
      SaveLinksWrites(t, o, t.orders[o].(billing := billingDefault));
    } else {
      NoWrites(t, o);
    }
  }

  /** Checkout writes only address rows and the shipping and billing links
      of the user's active order: every other order and every other table
      is untouched, and without an active order nothing is written. */
  lemma CheckoutWrites(t: Tables, user: UserId, f: CheckoutForm, countriesKnown: bool,
                       shippingDefault: Option<Id>, billingDefault: Option<Id>)
    requires DefaultPick(t.addresses, user, Shipping, shippingDefault) && KeysBelowNext(t)
    requires DefaultPick(t.addresses, user, Billing, billingDefault)
    ensures var t' := Checkout(t, user, f, countriesKnown, shippingDefault, billingDefault).0;
      var cart := ActiveOrder(t.orders, user);
      && (cart.None? ==> t' == t)
      && (cart.Some? ==> AddressWrites(t, t', cart.value))
  {
    match ActiveOrder(t.orders, user)
    case None =>
    case Some(o) =>
      if FormValid(f, countriesKnown) {
        ShipWrites(t, user, o, f, shippingDefault);
        match Ship(t, user, o, f, shippingDefault)
        case Stopped(_, _) =>
        case Shipped(t1, s) =>
          BillWrites(t1, user, o, s, f, billingDefault);
          AddressWritesTrans(t, t1, Bill(t1, user, o, s, f, billingDefault).0, o);
      } else {
        NoWrites(t, o);
      }
  }

  /** Address writes keep the database consistent. */
  lemma AddressWritesConsistent(t: Tables, t': Tables, o: Id)
    requires Consistent(t) && AddressWrites(t, t', o)
    ensures Consistent(t')
  {
    var orders' := t'.orders;
    assert t' == t.(addresses := t'.addresses, orders := orders', next := t'.next);
    AddressLinksKept(t.orders, orders', t.lines, t.coupons, t.refunds, o);
  }

  /** Relinking the addresses of one order keeps every fact about orders. */
  lemma AddressLinksKept(orders: Orders, orders': Orders, lines: Lines, coupons: map<Id, Coupon>, refunds: map<Id, Refund>, o: Id)
    requires forall p :: p in orders <==> p in orders'
    requires forall p :: p in orders && p != o ==> orders'[p] == orders[p]
    requires o in orders ==> orders'[o] == orders[o].(shipping := orders'[o].shipping, billing := orders'[o].billing)
    requires OrderLinesWellFormed(orders, lines) && OneCartPerUser(orders) && LooseLinesSingle(orders, lines)
    requires CartsNonEmpty(orders) && RefundsOfPaidOrders(refunds, orders)
    requires CouponsExist(orders, coupons) && RequestsHaveRefund(orders, refunds) && KeyedOrdersPaid(orders)
    ensures OrderLinesWellFormed(orders', lines) && OneCartPerUser(orders') && LooseLinesSingle(orders', lines)
    ensures CartsNonEmpty(orders') && RefundsOfPaidOrders(refunds, orders')
    ensures CouponsExist(orders', coupons) && RequestsHaveRefund(orders', refunds) && KeyedOrdersPaid(orders')
  {
    assert SameOrderShape(orders, orders');
    OrderShapeKept(orders, orders', lines, refunds);
    forall p | p in orders' ensures orders'[p].coupon == orders[p].coupon && orders'[p].refKey == orders[p].refKey
      && orders'[p].refundRequested == orders[p].refundRequested
    {
    }
  }

  /** Checkout keeps the database consistent. */
  lemma CheckoutConsistent(t: Tables, user: UserId, f: CheckoutForm, countriesKnown: bool,
                           shippingDefault: Option<Id>, billingDefault: Option<Id>)
    requires Consistent(t) && DefaultPick(t.addresses, user, Shipping, shippingDefault)
    requires DefaultPick(t.addresses, user, Billing, billingDefault)
    ensures Consistent(Checkout(t, user, f, countriesKnown, shippingDefault, billingDefault).0)
  {
    match ActiveOrder(t.orders, user)
    case None =>
    case Some(o) =>
      if FormValid(f, countriesKnown) {
        ShipWrites(t, user, o, f, shippingDefault);
        match Ship(t, user, o, f, shippingDefault)
        case Stopped(_, _) =>
        case Shipped(t1, s) =>
          BillWrites(t1, user, o, s, f, billingDefault);
          AddressWritesTrans(t, t1, Bill(t1, user, o, s, f, billingDefault).0, o);
          AddressWritesConsistent(t, Bill(t1, user, o, s, f, billingDefault).0, o);
      }
  }

  // ---------------------------------------------------------------------------
  // How the request ends
  // ---------------------------------------------------------------------------

  /** The shipping part succeeds: a default exists when one is asked for,
      otherwise the entered address is complete. */
  predicate ShippingOk(f: CheckoutForm, shippingDefault: Option<Id>)
  {
    if f.useDefaultShipping then shippingDefault.Some? else AllFilled(ShippingFields(f))
  }

  /** The billing part succeeds. */
  predicate BillingOk(f: CheckoutForm, billingDefault: Option<Id>)
  {
    f.sameBilling || if f.useDefaultBilling then billingDefault.Some? else AllFilled(BillingFields(f))
  }

  /** Every outcome, and exactly when it happens. A valid form never ends in
      "Failed checkout" once addresses were written, since its payment option
      is always one of the two redirects. */
  lemma CheckoutOutcomes(t: Tables, user: UserId, f: CheckoutForm, countriesKnown: bool,
                         shippingDefault: Option<Id>, billingDefault: Option<Id>)
    requires DefaultPick(t.addresses, user, Shipping, shippingDefault)
    requires DefaultPick(t.addresses, user, Billing, billingDefault)
    ensures var out := Checkout(t, user, f, countriesKnown, shippingDefault, billingDefault).1;
      var cart := ActiveOrder(t.orders, user).Some?;
      var valid := cart && FormValid(f, countriesKnown);
      var hasShip := HasDefault(t.addresses, user, Shipping);
      var hasBill := HasDefault(t.addresses, user, Billing);
      var shipped := valid && if f.useDefaultShipping then hasShip else AllFilled(ShippingFields(f));
      var billed := f.sameBilling || if f.useDefaultBilling then hasBill else AllFilled(BillingFields(f));
      && (out == NoActiveOrder <==> !cart)
      && (out == FailedCheckout <==> cart && !FormValid(f, countriesKnown))
      && (out == ShippingIncomplete <==> valid && !f.useDefaultShipping && !AllFilled(ShippingFields(f)))
      && (out == BillingIncomplete <==> shipped && !f.sameBilling && !f.useDefaultBilling && !AllFilled(BillingFields(f)))
      && (out == NoDefaultAddress <==>
            valid && ((f.useDefaultShipping && !hasShip)
                      || (shipped && !f.sameBilling && f.useDefaultBilling && !hasBill)))
      && (out.ToPayment? <==> shipped && billed)
      && (out.ToPayment? ==> out.option == if f.paymentOption == "S" then "stripe" else "paypal")
  {
    PickPresent(t.addresses, user, Shipping, shippingDefault);
    PickPresent(t.addresses, user, Billing, billingDefault);
    match ActiveOrder(t.orders, user)
    case None =>
    case Some(o) =>
      if FormValid(f, countriesKnown) {
        var st := Ship(t, user, o, f, shippingDefault);
        ShipOutcome(t, user, o, f, shippingDefault);
        if st.Shipped? {
          CheckoutShipped(t, user, f, countriesKnown, shippingDefault, billingDefault, o);
          BillOutcome(st.t, user, o, st.address, f, billingDefault);
        } else {
          CheckoutStopped(t, user, f, countriesKnown, shippingDefault, billingDefault, o);
        }
      }
  }

  /** The view once the form is valid and the shipping part is done. */
  lemma CheckoutShipped(t: Tables, user: UserId, f: CheckoutForm, countriesKnown: bool,
                        shippingDefault: Option<Id>, billingDefault: Option<Id>, o: Id)
    requires DefaultPick(t.addresses, user, Shipping, shippingDefault)
    requires DefaultPick(t.addresses, user, Billing, billingDefault)
    requires ActiveOrder(t.orders, user) == Some(o) && FormValid(f, countriesKnown)
    requires Ship(t, user, o, f, shippingDefault).Shipped?
    ensures var st := Ship(t, user, o, f, shippingDefault);
      st.address in st.t.addresses &&
      Checkout(t, user, f, countriesKnown, shippingDefault, billingDefault) == Bill(st.t, user, o, st.address, f, billingDefault)
  {
  }

  lemma CheckoutStopped(t: Tables, user: UserId, f: CheckoutForm, countriesKnown: bool,
                        shippingDefault: Option<Id>, billingDefault: Option<Id>, o: Id)
    requires DefaultPick(t.addresses, user, Shipping, shippingDefault)
    requires DefaultPick(t.addresses, user, Billing, billingDefault)
    requires ActiveOrder(t.orders, user) == Some(o) && FormValid(f, countriesKnown)
    requires Ship(t, user, o, f, shippingDefault).Stopped?
    ensures Checkout(t, user, f, countriesKnown, shippingDefault, billingDefault)
      == (t, Ship(t, user, o, f, shippingDefault).outcome)
  {
  }

  /** The shipping part goes on exactly when it succeeds, and otherwise says why not. */
  lemma ShipOutcome(t: Tables, user: UserId, o: Id, f: CheckoutForm, shippingDefault: Option<Id>)
    requires o in t.orders
    ensures var st := Ship(t, user, o, f, shippingDefault);
      && (st.Shipped? <==> ShippingOk(f, shippingDefault))
      && (st.Stopped? ==> st.outcome == if f.useDefaultShipping then NoDefaultAddress else ShippingIncomplete)
  {
  }

  /** The billing part ends in each outcome exactly when its case applies. */
  lemma BillOutcome(t: Tables, user: UserId, o: Id, s: Id, f: CheckoutForm, billingDefault: Option<Id>)
    requires o in t.orders && s in t.addresses
    ensures var out := Bill(t, user, o, s, f, billingDefault).1;
      var pick := f.paymentOption == "S" || f.paymentOption == "P";
      && (out == BillingIncomplete <==> !f.sameBilling && !f.useDefaultBilling && !AllFilled(BillingFields(f)))
      && (out == NoDefaultAddress <==> !f.sameBilling && f.useDefaultBilling && billingDefault.None?)
      && (out.ToPayment? <==> BillingOk(f, billingDefault) && pick)
      && (out == FailedCheckout <==> BillingOk(f, billingDefault) && !pick)
      && (out.ToPayment? ==> out.option == if f.paymentOption == "S" then "stripe" else "paypal")
      && out != NoActiveOrder && out != ShippingIncomplete
  {
  }

  /** Every way of stopping before an address is written leaves the
      database as it was. */
  lemma EarlyStopsChangeNothing(t: Tables, user: UserId, f: CheckoutForm, countriesKnown: bool,
                                shippingDefault: Option<Id>, billingDefault: Option<Id>)
    requires DefaultPick(t.addresses, user, Shipping, shippingDefault)
    requires DefaultPick(t.addresses, user, Billing, billingDefault)
    requires ActiveOrder(t.orders, user).None? || !FormValid(f, countriesKnown) || !ShippingOk(f, shippingDefault)
    ensures Checkout(t, user, f, countriesKnown, shippingDefault, billingDefault).0 == t
  {
  }

  /** What a successful shipping part leaves. */
  lemma ShipResult(t: Tables, user: UserId, o: Id, f: CheckoutForm, shippingDefault: Option<Id>)
    requires o in t.orders && KeysBelowNext(t) && ShippingOk(f, shippingDefault)
    requires shippingDefault.Some? ==> shippingDefault.value in t.addresses
    ensures Ship(t, user, o, f, shippingDefault).Shipped?
    ensures var st := Ship(t, user, o, f, shippingDefault);
      && o in st.t.orders && st.t.orders[o].shipping == Some(st.address) && st.address in st.t.addresses
      && (f.useDefaultShipping ==> Some(st.address) == shippingDefault)
      && (!f.useDefaultShipping ==> st.address == t.next && st.t.addresses[st.address] == EnteredShipping(user, f))
  {
  }

  /** Once shipping succeeds the order ships to the saved default or to a
      new row holding the entered address, and this stays so however the
      billing part ends (an incomplete billing address does not undo it). */
  lemma ShippingRecorded(t: Tables, user: UserId, f: CheckoutForm, countriesKnown: bool,
                         shippingDefault: Option<Id>, billingDefault: Option<Id>)
    requires DefaultPick(t.addresses, user, Shipping, shippingDefault) && KeysBelowNext(t)
    requires DefaultPick(t.addresses, user, Billing, billingDefault)
    requires ActiveOrder(t.orders, user).Some? && FormValid(f, countriesKnown) && ShippingOk(f, shippingDefault)
    ensures var o := ActiveOrder(t.orders, user).value;
      var t' := Checkout(t, user, f, countriesKnown, shippingDefault, billingDefault).0;
      && t'.orders[o].shipping.Some?
      && var s := t'.orders[o].shipping.value;
      && s in t'.addresses
      && (f.useDefaultShipping ==> Some(s) == shippingDefault && IsDefaultAddress(t'.addresses, s, user, Shipping))
      && (!f.useDefaultShipping ==> s !in t.addresses && t'.addresses[s] == EnteredShipping(user, f))
  {
    var o := ActiveOrder(t.orders, user).value;
    ShipResult(t, user, o, f, shippingDefault);
    ShipWrites(t, user, o, f, shippingDefault);
    var st := Ship(t, user, o, f, shippingDefault);
    BillWrites(st.t, user, o, st.address, f, billingDefault);
    CheckoutShipped(t, user, f, countriesKnown, shippingDefault, billingDefault, o);
    BillKeepsAddress(st.t, user, o, st.address, f, billingDefault);
    if f.useDefaultShipping {
      assert IsDefaultAddress(t.addresses, st.address, user, Shipping);
      assert st.t.addresses == t.addresses;
    }
  }

  /** With `same_billing_address` the order bills to a new row that copies
      the shipping address with the billing kind, whatever `use_default_billing`
      says; the shipping row itself stays as it was. */
  lemma SameBillingCopies(t: Tables, user: UserId, f: CheckoutForm, countriesKnown: bool,
                          shippingDefault: Option<Id>, billingDefault: Option<Id>)
    requires DefaultPick(t.addresses, user, Shipping, shippingDefault) && KeysBelowNext(t)
    requires DefaultPick(t.addresses, user, Billing, billingDefault)
    requires ActiveOrder(t.orders, user).Some? && FormValid(f, countriesKnown) && ShippingOk(f, shippingDefault)
    requires f.sameBilling
    ensures var o := ActiveOrder(t.orders, user).value;
      var t' := Checkout(t, user, f, countriesKnown, shippingDefault, billingDefault).0;
      && t'.orders[o].shipping.Some? && t'.orders[o].billing.Some?
      && var s := t'.orders[o].shipping.value;
      && var b := t'.orders[o].billing.value;
      && s in t'.addresses && b in t'.addresses && b != s && b !in t.addresses
      && t'.addresses[b] == t'.addresses[s].(kind := Billing)
  {
    var o := ActiveOrder(t.orders, user).value;
    ShipResult(t, user, o, f, shippingDefault);
    ShipWrites(t, user, o, f, shippingDefault);
    var st := Ship(t, user, o, f, shippingDefault);
    CheckoutShipped(t, user, f, countriesKnown, shippingDefault, billingDefault, o);
    assert st.address < st.t.next;
  }

  /** Without the copy, the order bills to the saved default when asked, or
      else to a new row holding the entered billing address. */
  lemma BillingRecorded(t: Tables, user: UserId, f: CheckoutForm, countriesKnown: bool,
                        shippingDefault: Option<Id>, billingDefault: Option<Id>)
    requires DefaultPick(t.addresses, user, Shipping, shippingDefault) && KeysBelowNext(t)
    requires DefaultPick(t.addresses, user, Billing, billingDefault)
    requires ActiveOrder(t.orders, user).Some? && FormValid(f, countriesKnown) && ShippingOk(f, shippingDefault)
    requires !f.sameBilling && BillingOk(f, billingDefault)
    ensures var o := ActiveOrder(t.orders, user).value;
      var t' := Checkout(t, user, f, countriesKnown, shippingDefault, billingDefault).0;
      && t'.orders[o].billing.Some?
      && var b := t'.orders[o].billing.value;
      && b in t'.addresses
      && (f.useDefaultBilling ==> Some(b) == billingDefault && IsDefaultAddress(t'.addresses, b, user, Billing))
      && (!f.useDefaultBilling ==> b !in t.addresses && t'.addresses[b] == EnteredBilling(user, f))
  {
    var o := ActiveOrder(t.orders, user).value;
    ShipResult(t, user, o, f, shippingDefault);
    ShipWrites(t, user, o, f, shippingDefault);
    var st := Ship(t, user, o, f, shippingDefault);
    CheckoutShipped(t, user, f, countriesKnown, shippingDefault, billingDefault, o);
    assert t.next <= st.t.next;
  }

  // ---------------------------------------------------------------------------
  // The view on the store
  // ---------------------------------------------------------------------------

  /** `CheckoutView.post`. `shippingDefault` and `billingDefault` are the
      rows the two default-address querysets end with. */
  method CheckoutPost(db: Store, user: UserId, f: CheckoutForm, countriesKnown: bool,
                      shippingDefault: Option<Id>, billingDefault: Option<Id>) returns (outcome: CheckoutOutcome)
    requires db.Valid() && DefaultPick(db.addresses, user, Shipping, shippingDefault)
    requires DefaultPick(db.addresses, user, Billing, billingDefault)
    modifies db
    ensures db.Valid()
    ensures (db.Snapshot(), outcome) == Checkout(old(db.Snapshot()), user, f, countriesKnown, shippingDefault, billingDefault)
  {
    ghost var t := db.Snapshot();
    CheckoutConsistent(t, user, f, countriesKnown, shippingDefault, billingDefault);
    var found := db.FindActiveOrder(user);
    if found.None? {
      return NoActiveOrder;
    }
    var o := found.value;
    if !FormValid(f, countriesKnown) {
      return FailedCheckout;
    }
    var step := ShipPost(db, user, o, f, shippingDefault);
    match step
    case Stopped(_, out) =>
      outcome := out;
    case Shipped(_, s) =>
      outcome := BillPost(db, user, o, s, f, billingDefault);
  }

  /** The shipping part on the store. */
  method ShipPost(db: Store, user: UserId, o: Id, f: CheckoutForm, shippingDefault: Option<Id>) returns (step: ShipStep)
    requires o in db.orders && (shippingDefault.Some? ==> shippingDefault.value in db.addresses)
    modifies db
    ensures step == Ship(old(db.Snapshot()), user, o, f, shippingDefault)
    ensures db.Snapshot() == step.t
    ensures step.Shipped? ==> o in db.orders && step.address in db.addresses
  {
    ghost var t := db.Snapshot();
    var order := db.orders[o];
    if f.useDefaultShipping {
      if shippingDefault.None? {
        return Stopped(db.Snapshot(), NoDefaultAddress);
      }
      var s := shippingDefault.value;
      order := order.(shipping := Some(s));
      db.SaveOrder(o, order);
      step := Shipped(db.Snapshot(), s);
    } else {
      var ok := IsValidForm(ShippingFields(f));
      if !ok {
        return Stopped(db.Snapshot(), ShippingIncomplete);
      }
      var s := db.InsertAddress(EnteredShipping(user, f));
      order := order.(shipping := Some(s));
      db.SaveOrder(o, order);
      step := Shipped(db.Snapshot(), s);
    }
  }

  /** The billing part on the store. The copy is saved twice, as the view
      does: first as a new row, then with the billing kind. */
  method BillPost(db: Store, user: UserId, o: Id, s: Id, f: CheckoutForm, billingDefault: Option<Id>)
    returns (outcome: CheckoutOutcome)
    requires o in db.orders && s in db.addresses
    modifies db
    ensures (db.Snapshot(), outcome) == Bill(old(db.Snapshot()), user, o, s, f, billingDefault)
  {
    ghost var t := db.Snapshot();
    var order := db.orders[o];
    var b: Id;
    if f.sameBilling {
      var copy := db.addresses[s];
      b := db.InsertAddress(copy);
      copy := copy.(kind := Billing);
      db.SaveAddress(b, copy);
      assert t.addresses[b := t.addresses[s]][b := copy] == t.addresses[b := copy];
    } else if f.useDefaultBilling {
      if billingDefault.None? {
        return NoDefaultAddress;
      }
      b := billingDefault.value;
    } else {
      var ok := IsValidForm(BillingFields(f));
      if !ok {
        return BillingIncomplete;
      }
      b := db.InsertAddress(EnteredBilling(user, f));
    }
    order := order.(billing := Some(b));
    db.SaveOrder(o, order);
    if f.paymentOption == "S" {
      return ToPayment("stripe");
    }
    if f.paymentOption == "P" {
      return ToPayment("paypal");
    }
    return FailedCheckout;
  }
}
