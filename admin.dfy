/** The staff action `make_refund_accepted` of mysite/admin.py: for every
    selected order with a refund requested, the request is cleared, the
    refund marked granted and the linked Refund accepted. */
module Admin {
  import opened Models
  import opened Db
  import opened Store

  /** What the action leaves: every selected order that had a refund
      requested is granted, with its Refund accepted; every other row is as
      it was. */
  ghost function Granted(t: Tables, selection: seq<Id>): (r: Tables)
  {
    t.(orders := map o | o in t.orders ::
         if o in selection && t.orders[o].refundRequested
         then t.orders[o].(refundRequested := false, refundGranted := true)
         else t.orders[o],
       refunds := map f | f in t.refunds ::
         if GrantsRefund(t, selection, f) then t.refunds[f].(accepted := true) else t.refunds[f])
  }

  /** The Refund `f` belongs to a selected order with a refund requested. */
  ghost predicate GrantsRefund(t: Tables, selection: seq<Id>, f: Id)
    requires f in t.refunds
  {
    var o := t.refunds[f].order;
    o in selection && o in t.orders && t.orders[o].refundRequested
  }

  /** One pass of the loop body on `o`. */
  ghost function AcceptOne(t: Tables, o: Id): Tables
    requires o in t.orders && RequestsHaveRefund(t.orders, t.refunds)
  {
    if !t.orders[o].refundRequested then t
    else
      var f := RefundOf(t.refunds, o);
      SaveOrder(t.(refunds := t.refunds[f := t.refunds[f].(accepted := true)]),
                o, t.orders[o].(refundRequested := false, refundGranted := true))
  }

  // ---------------------------------------------------------------------------
  // The loop computes the closed form
  // ---------------------------------------------------------------------------

  /** The action changes only refund flags: users, lines, ordered flags and
      the links of refunds stay. */
  lemma GrantedShape(t: Tables, selection: seq<Id>)
    ensures var r := Granted(t, selection);
      && SameOrderShape(t.orders, r.orders)
      && (forall f :: f in r.refunds <==> f in t.refunds)
      && (forall f :: f in t.refunds ==> r.refunds[f].order == t.refunds[f].order)
      && r == t.(orders := r.orders, refunds := r.refunds)
  {
  }

  /** Running the loop body on an order not yet visited extends the closed
      form by that order. */
  lemma GrantedStep(t: Tables, done: seq<Id>, o: Id)
    requires o in t.orders && o !in done
    requires OneRefundPerOrder(t.refunds) && RequestsHaveRefund(t.orders, t.refunds)
    requires RequestsHaveRefund(Granted(t, done).orders, Granted(t, done).refunds)
    ensures AcceptOne(Granted(t, done), o) == Granted(t, done + [o])
  {
    if t.orders[o].refundRequested {
      StepGrants(t, done, o);
    } else {
      StepSkips(t, done, o);
    }
  }

  lemma StepGrants(t: Tables, done: seq<Id>, o: Id)
    requires o in t.orders && o !in done && t.orders[o].refundRequested
    requires OneRefundPerOrder(t.refunds) && RequestsHaveRefund(t.orders, t.refunds)
    requires RequestsHaveRefund(Granted(t, done).orders, Granted(t, done).refunds)
    ensures AcceptOne(Granted(t, done), o) == Granted(t, done + [o])
  {
    StepGrantsOrders(t, done, o);
    StepGrantsRefunds(t, done, o);
  }

  lemma StepGrantsOrders(t: Tables, done: seq<Id>, o: Id)
    requires o in t.orders && o !in done && t.orders[o].refundRequested
    requires RequestsHaveRefund(Granted(t, done).orders, Granted(t, done).refunds)
    ensures AcceptOne(Granted(t, done), o).orders == Granted(t, done + [o]).orders
  {
    var g := Granted(t, done);
    assert g.orders[o] == t.orders[o];
  }

  lemma StepGrantsRefunds(t: Tables, done: seq<Id>, o: Id)
    requires o in t.orders && o !in done && t.orders[o].refundRequested
    requires OneRefundPerOrder(t.refunds) && RequestsHaveRefund(t.orders, t.refunds)
    requires RequestsHaveRefund(Granted(t, done).orders, Granted(t, done).refunds)
    ensures AcceptOne(Granted(t, done), o).refunds == Granted(t, done + [o]).refunds
  {
    var g := Granted(t, done);
    var g' := Granted(t, done + [o]);
    assert g.orders[o] == t.orders[o];
    var f := RefundOf(g.refunds, o);
    assert g.refunds[f] == t.refunds[f];
    var a := AcceptOne(g, o);
    forall x | x in t.refunds ensures a.refunds[x] == g'.refunds[x] {
      if x == f {
        assert GrantsRefund(t, done + [o], x);
      } else {
        assert t.refunds[x].order != o;
      }
    }
  }

  lemma StepSkips(t: Tables, done: seq<Id>, o: Id)
    requires o in t.orders && o !in done && !t.orders[o].refundRequested
    requires RequestsHaveRefund(Granted(t, done).orders, Granted(t, done).refunds)
    ensures AcceptOne(Granted(t, done), o) == Granted(t, done + [o])
  {
    var g := Granted(t, done);
    var g' := Granted(t, done + [o]);
    assert g.orders[o] == t.orders[o];
    assert g.orders == g'.orders;
    forall x | x in t.refunds ensures g.refunds[x] == g'.refunds[x] {
      assert GrantsRefund(t, done, x) == GrantsRefund(t, done + [o], x);
    }
    assert g.refunds == g'.refunds;
  }

  /** An empty selection changes nothing. */
  lemma GrantedNothing(t: Tables)
    ensures Granted(t, []) == t
  {
    assert Granted(t, []).orders == t.orders;
    assert Granted(t, []).refunds == t.refunds;
  }

  // ---------------------------------------------------------------------------
  // What the action promises
  // ---------------------------------------------------------------------------

  /** The action keeps the database consistent; in particular every selected
      order it grants has its Refund, since a request always has one. */
  lemma GrantedConsistent(t: Tables, selection: seq<Id>)
    requires Consistent(t)
    ensures Consistent(Granted(t, selection))
  {
    var r := Granted(t, selection);
    GrantedShape(t, selection);
    OrderShapeKept(t.orders, r.orders, t.lines, t.refunds);
    GrantedKeepsRefundFacts(t, selection);
    GrantedKeepsOrderFacts(t, selection);
  }

  lemma GrantedKeepsRefundFacts(t: Tables, selection: seq<Id>)
    requires RefundsOfPaidOrders(t.refunds, t.orders) && OneRefundPerOrder(t.refunds)
    requires RequestsHaveRefund(t.orders, t.refunds)
    ensures var r := Granted(t, selection);
      RefundsOfPaidOrders(r.refunds, r.orders) && OneRefundPerOrder(r.refunds) && RequestsHaveRefund(r.orders, r.refunds)
  {
    var r := Granted(t, selection);
    GrantedShape(t, selection);
    forall f | f in r.refunds ensures r.refunds[f].order in r.orders && r.orders[r.refunds[f].order].ordered {
      assert t.refunds[f].order in t.orders;
    }
    forall o | o in r.orders && r.orders[o].refundRequested ensures HasRefund(r.refunds, o) {
      var f :| f in t.refunds && t.refunds[f].order == o;
      assert f in r.refunds && r.refunds[f].order == o;
    }
  }

  lemma GrantedKeepsOrderFacts(t: Tables, selection: seq<Id>)
    requires CouponsExist(t.orders, t.coupons) && KeyedOrdersPaid(t.orders)
    ensures var r := Granted(t, selection);
      CouponsExist(r.orders, r.coupons) && KeyedOrdersPaid(r.orders)
  {
    var r := Granted(t, selection);
    forall o | o in r.orders && r.orders[o].coupon.Some? ensures r.orders[o].coupon.value in r.coupons {
      assert r.orders[o].coupon == t.orders[o].coupon;
    }
    forall o | o in r.orders && r.orders[o].refKey.Some? ensures r.orders[o].ordered {
      assert r.orders[o].refKey == t.orders[o].refKey;
    }
  }

  /** A selected order with a refund requested ends granted and no longer
      requested, and its Refund is accepted. */
  lemma RequestedOrdersGranted(t: Tables, selection: seq<Id>, o: Id)
    requires Consistent(t) && o in selection && o in t.orders && t.orders[o].refundRequested
    ensures var r := Granted(t, selection);
      && r.orders[o] == t.orders[o].(refundRequested := false, refundGranted := true)
      && HasRefund(r.refunds, o) && r.refunds[RefundOf(r.refunds, o)].accepted
  {
    var r := Granted(t, selection);
    var f :| f in t.refunds && t.refunds[f].order == o;
    assert GrantsRefund(t, selection, f);
    assert f in r.refunds && r.refunds[f].order == o;
    var f' := RefundOf(r.refunds, o);
    assert t.refunds[f'].order == o;
  }

  /** A selected order without a request, and its Refund if it has one, are
      left exactly as they were. */
  lemma UnrequestedOrdersUntouched(t: Tables, selection: seq<Id>, o: Id)
    requires o in t.orders && !t.orders[o].refundRequested
    ensures var r := Granted(t, selection);
      && r.orders[o] == t.orders[o]
      && forall f :: f in t.refunds && t.refunds[f].order == o ==> r.refunds[f] == t.refunds[f]
  {
  }

  /** Orders outside the selection, and their Refunds, are never modified. */
  lemma UnselectedOrdersUntouched(t: Tables, selection: seq<Id>, o: Id)
    requires o in t.orders && o !in selection
    ensures var r := Granted(t, selection);
      && r.orders[o] == t.orders[o]
      && forall f :: f in t.refunds && t.refunds[f].order == o ==> r.refunds[f] == t.refunds[f]
  {
  }

  /** Afterwards no selected order still has a refund requested. */
  lemma NoSelectedRequestLeft(t: Tables, selection: seq<Id>)
    ensures forall o :: o in selection && o in Granted(t, selection).orders ==> !Granted(t, selection).orders[o].refundRequested
  {
  }

  /** Running the action twice on the same selection is the same as once. */
  lemma GrantedIdempotent(t: Tables, selection: seq<Id>)
    ensures Granted(Granted(t, selection), selection) == Granted(t, selection)
  {
    var r := Granted(t, selection);
    var r2 := Granted(r, selection);
    forall o | o in r.orders ensures r2.orders[o] == r.orders[o] {
      if o in selection {
        assert !r.orders[o].refundRequested;
      }
    }
    assert r2.orders == r.orders;
    forall f | f in r.refunds ensures r2.refunds[f] == r.refunds[f] {
      var o := r.refunds[f].order;
      assert o in selection && o in r.orders ==> !r.orders[o].refundRequested;
    }
    assert r2.refunds == r.refunds;
  }

  // ---------------------------------------------------------------------------
  // The action on the store
  // ---------------------------------------------------------------------------

  /** `make_refund_accepted(modeladmin, request, queryset)`; `selection` is
      the queryset, a list of distinct existing orders. */
  method MakeRefundAccepted(db: Store, selection: seq<Id>)
    requires db.Valid() && Distinct(selection)
    requires forall k :: 0 <= k < |selection| ==> selection[k] in db.orders
    modifies db
    ensures db.Valid()
    ensures db.Snapshot() == Granted(old(db.Snapshot()), selection)
  {
    ghost var t := db.Snapshot();
    GrantedConsistent(t, selection);
    GrantedNothing(t);
    assert selection[..0] == [];
    for k := 0 to |selection|
      invariant db.Snapshot() == Granted(t, selection[..k])
    {
      var o := selection[k];
      LoopStep(t, selection, k);
      GrantOne(db, o);
    }
    assert selection[..|selection|] == selection;
  }

  /** What the loop needs to know before visiting `selection[k]`. */
  lemma LoopStep(t: Tables, selection: seq<Id>, k: nat)
    requires Consistent(t) && Distinct(selection) && k < |selection|
    requires forall k :: 0 <= k < |selection| ==> selection[k] in t.orders
    ensures var g := Granted(t, selection[..k]);
      && selection[k] in g.orders && RequestsHaveRefund(g.orders, g.refunds) && OneRefundPerOrder(g.refunds)
      && AcceptOne(g, selection[k]) == Granted(t, selection[..k + 1])
  {
    var o := selection[k];
    var done := selection[..k];
    assert o !in done;
    GrantedKeepsRefundFacts(t, done);
    GrantedStep(t, done, o);
    assert selection[..k + 1] == done + [o];
  }

  /** The loop body for one order of the queryset. */
  method GrantOne(db: Store, o: Id)
    requires o in db.orders && RequestsHaveRefund(db.orders, db.refunds) && OneRefundPerOrder(db.refunds)
    modifies db
    ensures db.Snapshot() == AcceptOne(old(db.Snapshot()), o)
  {
    var order := db.orders[o];
    if order.refundRequested {
      order := order.(refundRequested := false, refundGranted := true);
      var f := db.FindRefundOf(o);
      db.SaveRefund(f, db.refunds[f].(accepted := true));
      db.SaveOrder(o, order);
    }
  }
}
