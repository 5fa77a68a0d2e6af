/** The promo-code form, `AddCounponView.post` of mysite/views.py: the
    coupon whose code the user typed becomes the coupon of the active order,
    replacing any earlier one. */
module Coupons {
  import opened Models
  import opened Db
  import opened Store

  datatype CouponOutcome =
    | NoResponse      // the form is invalid and the view returns None
    | NoActiveOrder   // "You do not have active order."
    | ServerError     // several coupons share the code: MultipleObjectsReturned escapes
    | InvalidCoupon   // "Invalid Coupon Code"
    | CouponApplied   // "Successfully added cupon code"

  /** `AddCounponView.post` with the typed `code`. */
  ghost function ApplyCoupon(t: Tables, user: UserId, code: string, formValid: bool): (Tables, CouponOutcome)
  {
    if !formValid then (t, NoResponse)
    else
      match ActiveOrder(t.orders, user)
      case None => (t, NoActiveOrder)
      case Some(o) =>
        if !CodeUnique(t.coupons, code) then (t, ServerError)
        else
          match CouponByCode(t.coupons, code)
          case None => (t, InvalidCoupon)
          case Some(c) => (SaveOrder(t, o, t.orders[o].(coupon := Some(c))), CouponApplied)
  }

  /** Every outcome, and exactly when it happens. */
  lemma CouponOutcomes(t: Tables, user: UserId, code: string, formValid: bool)
    ensures var out := ApplyCoupon(t, user, code, formValid).1;
      var cart := formValid && ActiveOrder(t.orders, user).Some?;
      var matches := exists c :: c in t.coupons && t.coupons[c].code == code;
      && (out == NoResponse <==> !formValid)
      && (out == NoActiveOrder <==> formValid && ActiveOrder(t.orders, user).None?)
      && (out == ServerError <==> cart && !CodeUnique(t.coupons, code))
      && (out == InvalidCoupon <==> cart && !matches)
      && (out == CouponApplied <==> cart && matches && CodeUnique(t.coupons, code))
  {
    if !CodeUnique(t.coupons, code) {
      var c1, c2 :| c1 in t.coupons && c2 in t.coupons && t.coupons[c1].code == code && t.coupons[c2].code == code && c1 != c2;
    }
  }

  /** Applying a coupon changes one field of one order: the active order's
      coupon becomes the coupon with that code, whatever it was before. */
  lemma CouponReplaced(t: Tables, user: UserId, code: string, formValid: bool)
    requires ApplyCoupon(t, user, code, formValid).1 == CouponApplied
    ensures var t' := ApplyCoupon(t, user, code, formValid).0;
      var o := ActiveOrder(t.orders, user).value;
      exists c :: c in t.coupons && t.coupons[c].code == code
        && t' == t.(orders := t.orders[o := t.orders[o].(coupon := Some(c))])
  {
    var c := CouponByCode(t.coupons, code).value;
    assert c in t.coupons && t.coupons[c].code == code;
  }

  /** Every other outcome leaves the database as it was. */
  lemma MissesChangeNothing(t: Tables, user: UserId, code: string, formValid: bool)
    requires ApplyCoupon(t, user, code, formValid).1 != CouponApplied
    ensures ApplyCoupon(t, user, code, formValid).0 == t
  {
  }

  /** Submitting the same code twice is the same as once. */
  lemma ApplyCouponIdempotent(t: Tables, user: UserId, code: string, formValid: bool)
    requires Consistent(t)
    ensures var t' := ApplyCoupon(t, user, code, formValid).0;
      ApplyCoupon(t', user, code, formValid).0 == t'
  {
    var (t', out) := ApplyCoupon(t, user, code, formValid);
    if out == CouponApplied {
      var o := ActiveOrder(t.orders, user).value;
      var c := CouponByCode(t.coupons, code).value;
      assert IsCart(t'.orders, o, user);
      OneCouponCartKept(t, o, c);
      ActiveOrderIs(t'.orders, user, o);
      assert t'.coupons == t.coupons;
      assert t'.orders[o := t'.orders[o].(coupon := Some(c))] == t'.orders;
    }
  }

  lemma OneCouponCartKept(t: Tables, o: Id, c: Id)
    requires Consistent(t) && o in t.orders
    ensures OneCartPerUser(SaveOrder(t, o, t.orders[o].(coupon := Some(c))).orders)
  {
    var orders' := SaveOrder(t, o, t.orders[o].(coupon := Some(c))).orders;
    forall o1, o2, u | IsCart(orders', o1, u) && IsCart(orders', o2, u) ensures o1 == o2 {
      assert IsCart(t.orders, o1, u) && IsCart(t.orders, o2, u);
    }
  }

  /** The view keeps the database consistent: the new coupon exists. */
  lemma ApplyCouponConsistent(t: Tables, user: UserId, code: string, formValid: bool)
    requires Consistent(t)
    ensures Consistent(ApplyCoupon(t, user, code, formValid).0)
  {
    if ApplyCoupon(t, user, code, formValid).1 == CouponApplied {
      var o := ActiveOrder(t.orders, user).value;
      var c := CouponByCode(t.coupons, code).value;
      AppliedTables(t, user, code, formValid);
      var orders' := t.orders[o := t.orders[o].(coupon := Some(c))];
      CouponOrderFacts(t.orders, t.lines, t.coupons, t.refunds, o, c);
      RowsReplaced(t, t.lines, orders', t.next);
    } else {
      MissesChangeNothing(t, user, code, formValid);
    }
  }

  /** On success the view sets the coupon found by the code on the active order. */
  lemma AppliedTables(t: Tables, user: UserId, code: string, formValid: bool)
    requires ApplyCoupon(t, user, code, formValid).1 == CouponApplied
    ensures ActiveOrder(t.orders, user).Some? && CouponByCode(t.coupons, code).Some?
    ensures var o := ActiveOrder(t.orders, user).value;
      var c := CouponByCode(t.coupons, code).value;
      c in t.coupons && ApplyCoupon(t, user, code, formValid).0 == t.(orders := t.orders[o := t.orders[o].(coupon := Some(c))])
  {
  }

  /** Setting an existing coupon on an order keeps the facts about orders. */
  lemma CouponOrderFacts(orders: Orders, lines: Lines, coupons: map<Id, Coupon>, refunds: map<Id, Refund>, o: Id, c: Id)
    requires o in orders && c in coupons
    requires OrderLinesWellFormed(orders, lines) && OneCartPerUser(orders) && LooseLinesSingle(orders, lines)
    requires CartsNonEmpty(orders) && RefundsOfPaidOrders(refunds, orders)
    requires CouponsExist(orders, coupons) && KeyedOrdersPaid(orders) && RequestsHaveRefund(orders, refunds)
    ensures var orders' := orders[o := orders[o].(coupon := Some(c))];
      && OrderLinesWellFormed(orders', lines) && OneCartPerUser(orders') && LooseLinesSingle(orders', lines)
      && CartsNonEmpty(orders') && RefundsOfPaidOrders(refunds, orders')
      && CouponsExist(orders', coupons) && KeyedOrdersPaid(orders') && RequestsHaveRefund(orders', refunds)
      && (forall k :: k in orders' <==> k in orders)
  {
    var orders' := orders[o := orders[o].(coupon := Some(c))];
    assert SameOrderShape(orders, orders');
    OrderShapeKept(orders, orders', lines, refunds);
    assert forall p :: p in orders' ==> orders'[p].refKey == orders[p].refKey && orders'[p].refundRequested == orders[p].refundRequested;
  }

  /** With the coupon applied, the order total is the line prices less the
      new coupon's amount, with no floor at zero. */
  lemma AppliedCouponTotal(t: Tables, user: UserId, code: string, formValid: bool)
    requires Consistent(t) && ApplyCoupon(t, user, code, formValid).1 == CouponApplied
    ensures var t' := ApplyCoupon(t, user, code, formValid).0;
      var o := ActiveOrder(t.orders, user).value;
      && Consistent(t') && o in t'.orders
      && OrderTotal(t', o) == LinesTotal(t, t.orders[o].items) - t.coupons[CouponByCode(t.coupons, code).value].amount
  {
    var o := ActiveOrder(t.orders, user).value;
    var c := CouponByCode(t.coupons, code).value;
    AppliedTables(t, user, code, formValid);
    ApplyCouponConsistent(t, user, code, formValid);
    var t' := t.(orders := t.orders[o := t.orders[o].(coupon := Some(c))]);
    OrderPriced(t, o);
    CouponTotal(t, t', o, c);
  }

  /** The total of the order with coupon `c`, from its line prices. */
  lemma CouponTotal(t: Tables, t': Tables, o: Id, c: Id)
    requires Consistent(t') && o in t.orders && Priced(t, t.orders[o].items) && c in t.coupons
    requires t' == t.(orders := t.orders[o := t.orders[o].(coupon := Some(c))])
    ensures OrderTotal(t', o) == LinesTotal(t, t.orders[o].items) - t.coupons[c].amount
  {
    LinesTotalFrame(t, t', t.orders[o].items);
  }

  /** `AddCounponView.post` on the store. */
  method ApplyCouponPost(db: Store, user: UserId, code: string, formValid: bool) returns (outcome: CouponOutcome)
    requires db.Valid()
    modifies db
    ensures db.Valid()
    ensures (db.Snapshot(), outcome) == ApplyCoupon(old(db.Snapshot()), user, code, formValid)
  {
    ApplyCouponConsistent(db.Snapshot(), user, code, formValid);
    if !formValid {
      return NoResponse;
    }
    var found := db.FindActiveOrder(user);
    if found.None? {
      return NoActiveOrder;
    }
    var o := found.value;
    var order := db.orders[o];
    var unique := db.CouponCodeUnique(code);
    if !unique {
      return ServerError;
    }
    var coupon := db.FindCoupon(code);
    if coupon.None? {
      return InvalidCoupon;
    }
    order := order.(coupon := Some(coupon.value));
    db.SaveOrder(o, order);
    return CouponApplied;
  }
}
