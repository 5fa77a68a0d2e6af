/** The database as mutable state: one object holding every table, and the
    queries and single-row updates the views perform through the ORM. Each
    method is proved against the query or update of module Db that it runs. */
module Store {
  import opened Models
  import opened Db

  class Store {
    var items: Items
    var lines: Lines
    var orders: Orders
    var addresses: map<Id, Address>
    var coupons: map<Id, Coupon>
    var payments: map<Id, Payment>
    var refunds: map<Id, Refund>
    var profiles: map<UserId, UserProfile>
    var next: Id

    /** The tables as one value. */
    function Snapshot(): Tables
      reads this
    {
      Tables(items, lines, orders, addresses, coupons, payments, refunds, profiles, next)
    }

    ghost predicate Valid()
      reads this
    {
      Consistent(Snapshot())
    }

    /** A database holding the given consistent tables. */
    constructor (t: Tables)
      requires Consistent(t)
      ensures Valid() && Snapshot() == t
    {
      items, lines, orders, addresses := t.items, t.lines, t.orders, t.addresses;
      coupons, payments, refunds, profiles := t.coupons, t.payments, t.refunds, t.profiles;
      next := t.next;
    }

    /** `Item.objects.filter(slug=slug)`, the lookup of `get_object_or_404`. */
    method FindItemBySlug(slug: string) returns (r: Option<Id>)
      requires SlugUnique(items, slug)
      ensures r == FindItem(items, slug)
    {
      if exists i :: i in items && items[i].slug == slug {
        var i :| i in items && items[i].slug == slug;
        r := Some(i);
      } else {
        r := None;
      }
    }

    /** `Order.objects.filter(user=user, ordered=False)`, first row. */
    method FindActiveOrder(user: UserId) returns (r: Option<Id>)
      requires OneCartPerUser(orders)
      ensures r == ActiveOrder(orders, user)
    {
      if exists o :: o in orders && IsCart(orders, o, user) {
        var o :| o in orders && IsCart(orders, o, user);
        ActiveOrderIs(orders, user, o);
        r := Some(o);
      } else {
        r := None;
      }
    }

    /** `OrderItem.objects.get_or_create(user=user, item=item, ordered=False)`. */
    method GetOrCreateLine(user: UserId, item: Id) returns (l: Id)
      requires OneOpenLine(lines)
      modifies this
      ensures (Snapshot(), l) == Db.GetOrCreateLine(old(Snapshot()), user, item)
    {
      ghost var t := Snapshot();
      if exists x :: x in lines && IsOpenLine(lines, x, user, item) {
        var x :| x in lines && IsOpenLine(lines, x, user, item);
        OpenLineIs(lines, x, user, item);
        l := x;
      } else {
        l := next;
        lines := lines[l := OrderItem(user, item, 1, false)];
        next := next + 1;
      }
      assert (Snapshot(), l) == Db.GetOrCreateLine(t, user, item);
    }

    /** `order.items.filter(item__slug=slug).exists()`: a scan of the order's lines. */
    method HasLineWithSlug(o: Id, slug: string) returns (found: bool)
      requires o in orders
      ensures found == OrderHasSlug(Snapshot(), o, slug)
    {
      var ids := orders[o].items;
      var k := 0;
      found := false;
      while k < |ids| && !found
        invariant 0 <= k <= |ids|
        invariant !found ==> forall m :: 0 <= m < k ==> !(ids[m] in lines && lines[ids[m]].item in items && items[lines[ids[m]].item].slug == slug)
        invariant found ==> OrderHasSlug(Snapshot(), o, slug)
      {
        var x := ids[k];
        found := x in lines && lines[x].item in items && items[lines[x].item].slug == slug;
        k := k + 1;
      }
    }

    /** `Order.calculate_order_total`: the line prices added up, then the
        coupon's amount taken off. */
    method CalculateOrderTotal(o: Id) returns (total: int)
      requires Valid() && o in orders
      ensures total == OrderTotal(Snapshot(), o)
    {
      OrderPriced(Snapshot(), o);
      total := SumLines(orders[o].items);
      if orders[o].coupon.Some? {
        total := total - coupons[orders[o].coupon.value].amount;
      }
    }

    /** The loop of `calculate_order_total`: each line's price added to the
        running total. */
    method SumLines(ids: seq<Id>) returns (total: int)
      requires Priced(Snapshot(), ids)
      ensures total == LinesTotal(Snapshot(), ids)
    {
      total := 0;
      for k := 0 to |ids|
        invariant total == LinesTotal(Snapshot(), ids[..k])
      {
        assert ids[..k + 1][..k] == ids[..k];
        total := total + LineTotal(items[lines[ids[k]].item], lines[ids[k]].quantity);
      }
      assert ids[..|ids|] == ids;
    }

    /** `item.save()` with the pre-save hook: the slug is derived afresh from
        category and title, whatever slug the caller supplied. A `key` of None
        inserts a new row. */
    method SaveItem(key: Option<Id>, item: Item) returns (id: Id)
      requires Valid()
      requires key.Some? ==> key.value in items
      modifies this
      ensures Valid()
      ensures key.Some? ==> id == key.value && next == old(next)
      ensures key.None? ==> id == old(next) && next == old(next) + 1
      ensures items == old(items)[id := item.(slug := Slug(item.category, item.title))]
      ensures Snapshot() == old(Snapshot()).(items := items, next := next)
    {
      var stored := item.(slug := Slug(item.category, item.title));
      SaveItemConsistent(Snapshot(), if key.Some? then key.value else next, stored);
      if key.Some? {
        id := key.value;
      } else {
        id := next;
        next := next + 1;
      }
      items := items[id := stored];
    }

    /** `ordered_item.quantity = q; ordered_item.save()`. */
    method SetQuantity(l: Id, q: nat)
      requires l in lines
      modifies this
      ensures Snapshot() == Db.SetQuantity(old(Snapshot()), l, q)
    {
      lines := lines[l := lines[l].(quantity := q)];
    }

    /** `order.items.add(ordered_item)`. */
    method AttachLine(o: Id, l: Id)
      requires o in orders
      modifies this
      ensures Snapshot() == Db.AttachLine(old(Snapshot()), o, l)
    {
      orders := orders[o := orders[o].(items := orders[o].items + [l])];
    }

    /** `Order.objects.create(user=user, ordered=False)`. */
    method CreateOrder(user: UserId) returns (o: Id)
      modifies this
      ensures o == old(next)
      ensures Snapshot() == Db.CreateOrder(old(Snapshot()), user)
    {
      o := next;
      orders := orders[o := NewOrder(user, [])];
      next := next + 1;
    }

    /** `ordered_item.delete()`, together with the many-to-many rows listing it. */
    method DeleteLine(l: Id)
      modifies this
      ensures Snapshot() == Db.DeleteLine(old(Snapshot()), l)
    {
      orders := map p | p in orders :: orders[p].(items := Without(orders[p].items, l));
      lines := lines - {l};
    }

    /** `not order.items.exists()`. */
    method OrderIsEmpty(o: Id) returns (empty: bool)
      requires o in orders
      ensures empty <==> orders[o].items == []
    {
      empty := |orders[o].items| == 0;
    }

    /** `order.delete()` on an order nothing refers to. */
    method DeleteOrder(o: Id)
      modifies this
      ensures Snapshot() == old(Snapshot()).(orders := old(orders) - {o})
    {
      orders := orders - {o};
    }

    /** `order.save()` with the fields of `v`. */
    method SaveOrder(o: Id, v: Order)
      modifies this
      ensures Snapshot() == Db.SaveOrder(old(Snapshot()), o, v)
    {
      orders := orders[o := v];
    }

    /** `address.save()` of a new row. */
    method InsertAddress(a: Address) returns (id: Id)
      modifies this
      ensures (Snapshot(), id) == Db.InsertAddress(old(Snapshot()), a)
    {
      id := next;
      addresses := addresses[id := a];
      next := next + 1;
    }

    /** `address.save()` of an existing row. */
    method SaveAddress(id: Id, a: Address)
      modifies this
      ensures Snapshot() == old(Snapshot()).(addresses := old(addresses)[id := a])
    {
      addresses := addresses[id := a];
    }

    /** `payment.save()` of a new row. */
    method InsertPayment(p: Payment) returns (id: Id)
      modifies this
      ensures (Snapshot(), id) == Db.InsertPayment(old(Snapshot()), p)
    {
      id := next;
      payments := payments[id := p];
      next := next + 1;
    }

    /** `refund.save()` of a new row. */
    method InsertRefund(f: Refund) returns (id: Id)
      modifies this
      ensures (Snapshot(), id) == Db.InsertRefund(old(Snapshot()), f)
    {
      id := next;
      refunds := refunds[id := f];
      next := next + 1;
    }

    /** `refund.save()` of an existing row. */
    method SaveRefund(id: Id, f: Refund)
      modifies this
      ensures Snapshot() == old(Snapshot()).(refunds := old(refunds)[id := f])
    {
      refunds := refunds[id := f];
    }

    /** `userprofile.save()`. */
    method SaveProfile(user: UserId, p: UserProfile)
      modifies this
      ensures Snapshot() == old(Snapshot()).(profiles := old(profiles)[user := p])
    {
      profiles := profiles[user := p];
    }

    /** `order.items.all().update(ordered=True)`. */
    method MarkOrdered(ids: seq<Id>)
      modifies this
      ensures Snapshot() == Db.MarkOrdered(old(Snapshot()), ids)
    {
      lines := map x | x in lines :: if x in ids then lines[x].(ordered := true) else lines[x];
    }

    /** `UserProfile.objects.get(user=user)`, with DoesNotExist as None. */
    method FindProfile(user: UserId) returns (r: Option<UserProfile>)
      ensures r == if user in profiles then Some(profiles[user]) else None
    {
      r := if user in profiles then Some(profiles[user]) else None;
    }

    /** Whether `get(code=code)` can succeed without MultipleObjectsReturned. */
    method CouponCodeUnique(code: string) returns (b: bool)
      ensures b == CodeUnique(coupons, code)
    {
      b := forall c1, c2 :: c1 in coupons && c2 in coupons && coupons[c1].code == code && coupons[c2].code == code ==> c1 == c2;
    }

    /** Whether `get(refrence_key=key)` can succeed without MultipleObjectsReturned. */
    method ReferenceKeyUnique(key: string) returns (b: bool)
      ensures b == KeyUnique(orders, key)
    {
      b := forall o1, o2 :: o1 in orders && o2 in orders && orders[o1].refKey == Some(key) && orders[o2].refKey == Some(key) ==> o1 == o2;
    }

    /** `Coupon.objects.get(code=code)`, with DoesNotExist as None. */
    method FindCoupon(code: string) returns (r: Option<Id>)
      requires CodeUnique(coupons, code)
      ensures r == CouponByCode(coupons, code)
    {
      if exists c :: c in coupons && coupons[c].code == code {
        var c :| c in coupons && coupons[c].code == code;
        r := Some(c);
      } else {
        r := None;
      }
    }

    /** `Order.objects.get(refrence_key=key)`, with DoesNotExist as None. */
    method FindOrderByKey(key: string) returns (r: Option<Id>)
      requires KeyUnique(orders, key)
      ensures r == OrderByKey(orders, key)
    {
      if exists o :: o in orders && orders[o].refKey == Some(key) {
        var o :| o in orders && orders[o].refKey == Some(key);
        r := Some(o);
      } else {
        r := None;
      }
    }

    /** Whether some Refund already links to `o` (the one-to-one check the
        database makes when a second one is saved). */
    method RefundExists(o: Id) returns (b: bool)
      ensures b == HasRefund(refunds, o)
    {
      b := exists r :: r in refunds && refunds[r].order == o;
    }

    /** `order.refund`. */
    method FindRefundOf(o: Id) returns (r: Id)
      requires OneRefundPerOrder(refunds) && HasRefund(refunds, o)
      ensures r == RefundOf(refunds, o)
    {
      r :| r in refunds && refunds[r].order == o;
    }
  }
}
