/** The refund form, `CreateRefundView.post` of mysite/views.py: whoever
    knows an order's reference key can file one Refund for that order, which
    then shows as requested to the staff. */
module Refunds {
  import opened Models
  import opened Db
  import opened Store

  /** The cleaned data of `RefundForm`. */
  datatype RefundForm = RefundForm(refKey: string, email: string, reason: string)

  datatype RefundOutcome =
    | NoResponse        // the form is invalid and the view returns None
    | InvalidKey        // "Invalid Refrence Key"
    | ServerError       // several orders share the key, or the order already has
                        // its Refund (the one-to-one link refuses a second)
    | RefundRequested   // "Refund is requested"

  /** `CreateRefundView.post`, submitted by `user`. */
  ghost function RequestRefund(t: Tables, user: UserId, form: RefundForm, formValid: bool): (Tables, RefundOutcome)
  {
    if !formValid then (t, NoResponse)
    else if !KeyUnique(t.orders, form.refKey) then (t, ServerError)
    else
      match OrderByKey(t.orders, form.refKey)
      case None => (t, InvalidKey)
      case Some(o) =>
        if HasRefund(t.refunds, o) then (t, ServerError)
        else
          var (t1, _) := InsertRefund(t, Refund(user, form.email, form.reason, o, false));
          (SaveOrder(t1, o, t1.orders[o].(refundRequested := true)), RefundRequested)
  }

  /** Every outcome, and exactly when it happens. */
  lemma RefundOutcomes(t: Tables, user: UserId, form: RefundForm, formValid: bool)
    ensures var out := RequestRefund(t, user, form, formValid).1;
      var keyed := exists o :: o in t.orders && t.orders[o].refKey == Some(form.refKey);
      var unique := KeyUnique(t.orders, form.refKey);
      && (out == NoResponse <==> !formValid)
      && (out == InvalidKey <==> formValid && !keyed)
      && (out == ServerError <==>
            formValid && (!unique || (keyed && HasRefund(t.refunds, OrderByKey(t.orders, form.refKey).value))))
      && (out == RefundRequested <==>
            formValid && unique && keyed && !HasRefund(t.refunds, OrderByKey(t.orders, form.refKey).value))
  {
    if !KeyUnique(t.orders, form.refKey) {
      var o1, o2 :| o1 in t.orders && o2 in t.orders && t.orders[o1].refKey == Some(form.refKey)
        && t.orders[o2].refKey == Some(form.refKey) && o1 != o2;
    }
  }

  /** A request adds exactly one Refund, linked to the keyed order and
      recording the submitting user, and marks that order requested; nothing
      else changes. */
  lemma RefundFiled(t: Tables, user: UserId, form: RefundForm, formValid: bool)
    requires RequestRefund(t, user, form, formValid).1 == RefundRequested
    ensures var t' := RequestRefund(t, user, form, formValid).0;
      var o := OrderByKey(t.orders, form.refKey).value;
      && t.orders[o].refKey == Some(form.refKey)
      && t'.refunds == t.refunds[t.next := Refund(user, form.email, form.reason, o, false)]
      && t'.orders == t.orders[o := t.orders[o].(refundRequested := true)]
      && t' == t.(refunds := t'.refunds, orders := t'.orders, next := t.next + 1)
  {
  }

  /** Afterwards the order has exactly one Refund, the new one. */
  lemma ExactlyOneRefund(t: Tables, user: UserId, form: RefundForm, formValid: bool)
    requires KeysBelowNext(t) && RequestRefund(t, user, form, formValid).1 == RefundRequested
    ensures var t' := RequestRefund(t, user, form, formValid).0;
      var o := OrderByKey(t.orders, form.refKey).value;
      forall f :: f in t'.refunds && t'.refunds[f].order == o <==> f == t.next
  {
  }

  /** Every other outcome leaves the database as it was. */
  lemma RejectionsChangeNothing(t: Tables, user: UserId, form: RefundForm, formValid: bool)
    requires RequestRefund(t, user, form, formValid).1 != RefundRequested
    ensures RequestRefund(t, user, form, formValid).0 == t
  {
  }

  /** Asking a second time with the same key fails on the one-to-one link
      and leaves the first request as it is. */
  lemma SecondRequestRefused(t: Tables, user: UserId, user2: UserId, form: RefundForm, form2: RefundForm, formValid: bool)
    requires RequestRefund(t, user, form, formValid).1 == RefundRequested
    requires form2.refKey == form.refKey
    ensures var t' := RequestRefund(t, user, form, formValid).0;
      RequestRefund(t', user2, form2, formValid) == (t', ServerError)
  {
    var t' := RequestRefund(t, user, form, formValid).0;
    var o := OrderByKey(t.orders, form.refKey).value;
    assert t'.orders[o].refKey == Some(form.refKey);
    assert forall p :: p in t'.orders ==> t'.orders[p].refKey == t.orders[p].refKey;
    assert KeyUnique(t'.orders, form.refKey);
    assert OrderByKey(t'.orders, form.refKey) == Some(o);
    assert t'.refunds[t.next].order == o;
  }

  /** Only paid orders carry a key, so only they can be refunded; the view
      keeps the database consistent. */
  lemma RequestRefundConsistent(t: Tables, user: UserId, form: RefundForm, formValid: bool)
    requires Consistent(t)
    ensures Consistent(RequestRefund(t, user, form, formValid).0)
  {
    if RequestRefund(t, user, form, formValid).1 == RefundRequested {
      var o := OrderByKey(t.orders, form.refKey).value;
      RefundFiled(t, user, form, formValid);
      assert t.orders[o].ordered && !HasRefund(t.refunds, o);
      FilingConsistent(t, Refund(user, form.email, form.reason, o, false));
    }
  }

  /** The first Refund of a paid order, with the order marked requested. */
  lemma FilingConsistent(t: Tables, r: Refund)
    requires Consistent(t) && r.order in t.orders && t.orders[r.order].ordered && !HasRefund(t.refunds, r.order)
    ensures var o := r.order;
      Consistent(t.(refunds := t.refunds[t.next := r], orders := t.orders[o := t.orders[o].(refundRequested := true)], next := t.next + 1))
  {
    var o := r.order;
    var orders' := t.orders[o := t.orders[o].(refundRequested := true)];
    var refunds' := t.refunds[t.next := r];
    RequestedOrderFacts(t.orders, t.lines, t.coupons, t.refunds, o);
    RefundMapFacts(t.refunds, t.orders, t.next, r, o);
    RefundRowsReplaced(t, orders', refunds');
  }

  /** Marking an order requested keeps the facts about orders that do not
      read the refund flag. */
  lemma RequestedOrderFacts(orders: Orders, lines: Lines, coupons: map<Id, Coupon>, refunds: map<Id, Refund>, o: Id)
    requires o in orders
    requires OrderLinesWellFormed(orders, lines) && OneCartPerUser(orders) && LooseLinesSingle(orders, lines)
    requires CartsNonEmpty(orders) && RefundsOfPaidOrders(refunds, orders)
    requires CouponsExist(orders, coupons) && KeyedOrdersPaid(orders)
    ensures var orders' := orders[o := orders[o].(refundRequested := true)];
      && OrderLinesWellFormed(orders', lines) && OneCartPerUser(orders') && LooseLinesSingle(orders', lines)
      && CartsNonEmpty(orders') && CouponsExist(orders', coupons) && KeyedOrdersPaid(orders')
  {
    var orders' := orders[o := orders[o].(refundRequested := true)];
    assert SameOrderShape(orders, orders');
    OrderShapeKept(orders, orders', lines, refunds);
    assert forall p :: p in orders' ==> orders'[p].coupon == orders[p].coupon && orders'[p].refKey == orders[p].refKey;
  }

  /** New order and refund tables that keep the row facts, with at most one
      new refund at the next key, keep the database consistent. */
  lemma RefundRowsReplaced(t: Tables, orders': Orders, refunds': map<Id, Refund>)
    requires Consistent(t)
    requires OrderLinesWellFormed(orders', t.lines) && OneCartPerUser(orders') && LooseLinesSingle(orders', t.lines)
    requires CartsNonEmpty(orders') && CouponsExist(orders', t.coupons) && KeyedOrdersPaid(orders')
    requires OneRefundPerOrder(refunds') && RequestsHaveRefund(orders', refunds') && RefundsOfPaidOrders(refunds', orders')
    requires forall k :: k in orders' ==> k in t.orders
    requires forall k :: k in refunds' ==> k in t.refunds || k == t.next
    ensures Consistent(t.(refunds := refunds', orders := orders', next := t.next + 1))
  {
    assert KeysBelowNext(t.(refunds := refunds', orders := orders', next := t.next + 1));
  }

  /** Filing the first Refund of the paid order `o` keeps the refund facts. */
  lemma RefundMapFacts(refunds: map<Id, Refund>, orders: Orders, next: Id, r: Refund, o: Id)
    requires OneRefundPerOrder(refunds) && RequestsHaveRefund(orders, refunds) && RefundsOfPaidOrders(refunds, orders)
    requires forall k :: k in refunds ==> k < next
    requires o in orders && orders[o].ordered && !HasRefund(refunds, o) && r.order == o
    ensures var refunds' := refunds[next := r];
      var orders' := orders[o := orders[o].(refundRequested := true)];
      OneRefundPerOrder(refunds') && RequestsHaveRefund(orders', refunds') && RefundsOfPaidOrders(refunds', orders')
  {
    var refunds' := refunds[next := r];
    var orders' := orders[o := orders[o].(refundRequested := true)];
    assert refunds'[next].order == o;
    forall p | p in orders' && orders'[p].refundRequested ensures HasRefund(refunds', p) {
      if p != o {
        var f :| f in refunds && refunds[f].order == p;
        assert f in refunds' && refunds'[f].order == p;
      }
    }
    forall f1, f2 | f1 in refunds' && f2 in refunds' && refunds'[f1].order == refunds'[f2].order ensures f1 == f2 {
      assert f1 != next ==> f1 in refunds && refunds[f1].order != o;
      assert f2 != next ==> f2 in refunds && refunds[f2].order != o;
    }
  }

  /** `CreateRefundView.post` on the store. */
  method RequestRefundPost(db: Store, user: UserId, form: RefundForm, formValid: bool) returns (outcome: RefundOutcome)
    requires db.Valid()
    modifies db
    ensures db.Valid()
    ensures (db.Snapshot(), outcome) == RequestRefund(old(db.Snapshot()), user, form, formValid)
  {
    RequestRefundConsistent(db.Snapshot(), user, form, formValid);
    if !formValid {
      return NoResponse;
    }
    var unique := db.ReferenceKeyUnique(form.refKey);
    if !unique {
      return ServerError;
    }
    var found := db.FindOrderByKey(form.refKey);
    if found.None? {
      return InvalidKey;
    }
    var o := found.value;
    var order := db.orders[o];
    var taken := db.RefundExists(o);
    if taken {
      return ServerError;
    }
    var _ := db.InsertRefund(Refund(user, form.email, form.reason, o, false));
    order := order.(refundRequested := true);
    db.SaveOrder(o, order);
    return RefundRequested;
  }
}
