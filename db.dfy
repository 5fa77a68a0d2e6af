/** The database as a value: one map per table, the invariant that every
    sequence of requests keeps, and the queries the views run against it.
    Predicates take the tables they read rather than the whole database, so
    that an update of one table visibly leaves the facts about the others. */
module Db {
  import opened Models

  type Items = map<Id, Item>
  type Lines = map<Id, OrderItem>
  type Orders = map<Id, Order>

  /** All tables, keyed by primary key (profiles by their user), and the next
      free primary key (the auto-increment counter, shared by all tables). */
  datatype Tables = Tables(
    items: Items,
    lines: Lines,
    orders: Orders,
    addresses: map<Id, Address>,
    coupons: map<Id, Coupon>,
    payments: map<Id, Payment>,
    refunds: map<Id, Refund>,
    profiles: map<UserId, UserProfile>,
    next: Id)

  // ---------------------------------------------------------------------------
  // The invariant
  // ---------------------------------------------------------------------------

  ghost predicate KeysBelowNext(t: Tables)
  {
    && (forall k :: k in t.items ==> k < t.next)
    && (forall k :: k in t.lines ==> k < t.next)
    && (forall k :: k in t.orders ==> k < t.next)
    && (forall k :: k in t.addresses ==> k < t.next)
    && (forall k :: k in t.coupons ==> k < t.next)
    && (forall k :: k in t.payments ==> k < t.next)
    && (forall k :: k in t.refunds ==> k < t.next)
  }

  predicate Distinct(ids: seq<Id>)
  {
    forall j, k :: 0 <= j < k < |ids| ==> ids[j] != ids[k]
  }

  /** `l` is an OrderItem row of `user` with the given ordered flag. */
  predicate LineOf(lines: Lines, l: Id, user: UserId, ordered: bool)
  {
    l in lines && lines[l].user == user && lines[l].ordered == ordered
  }

  /** Every line of an order is a row of the order's user whose ordered flag
      agrees with the order's, and no line is listed twice. */
  ghost predicate OrderLinesWellFormed(orders: Orders, lines: Lines)
  {
    forall o :: o in orders ==>
      && Distinct(orders[o].items)
      && forall k :: 0 <= k < |orders[o].items| ==> LineOf(lines, orders[o].items[k], orders[o].user, orders[o].ordered)
  }

  /** `o` is an unordered Order of `user`: an active cart. */
  predicate IsCart(orders: Orders, o: Id, user: UserId)
  {
    o in orders && orders[o].user == user && !orders[o].ordered
  }

  ghost predicate OneCartPerUser(orders: Orders)
  {
    forall o1, o2, user :: IsCart(orders, o1, user) && IsCart(orders, o2, user) ==> o1 == o2
  }

  /** `l` is the unordered OrderItem of (`user`, `item`), the row that
      `get_or_create(user=..., item=..., ordered=False)` looks for. */
  predicate IsOpenLine(lines: Lines, l: Id, user: UserId, item: Id)
  {
    l in lines && lines[l].user == user && lines[l].item == item && !lines[l].ordered
  }

  ghost predicate OneOpenLine(lines: Lines)
  {
    forall l1, l2, user, item :: IsOpenLine(lines, l1, user, item) && IsOpenLine(lines, l2, user, item) ==> l1 == l2
  }

  ghost predicate QuantitiesPositive(lines: Lines)
  {
    forall l :: l in lines ==> lines[l].quantity >= 1
  }

  ghost predicate InSomeOrder(orders: Orders, l: Id)
  {
    exists o :: o in orders && l in orders[o].items
  }

  /** An unordered line that no order lists was made by `get_or_create` and
      never changed since: its quantity is still 1. */
  ghost predicate LooseLinesSingle(orders: Orders, lines: Lines)
  {
    forall l :: l in lines && !lines[l].ordered && !InSomeOrder(orders, l) ==> lines[l].quantity == 1
  }

  /** An active cart is never empty: the views delete it with its last line. */
  ghost predicate CartsNonEmpty(orders: Orders)
  {
    forall o :: o in orders && !orders[o].ordered ==> |orders[o].items| > 0
  }

  ghost predicate LinesPriced(lines: Lines, items: Items)
  {
    forall l :: l in lines ==> lines[l].item in items
  }

  ghost predicate CouponsExist(orders: Orders, coupons: map<Id, Coupon>)
  {
    forall o :: o in orders && orders[o].coupon.Some? ==> orders[o].coupon.value in coupons
  }

  /** A refund refers to an existing, paid order. */
  ghost predicate RefundsOfPaidOrders(refunds: map<Id, Refund>, orders: Orders)
  {
    forall r :: r in refunds ==> refunds[r].order in orders && orders[refunds[r].order].ordered
  }

  /** The one-to-one constraint of Refund.order. */
  ghost predicate OneRefundPerOrder(refunds: map<Id, Refund>)
  {
    forall r1, r2 :: r1 in refunds && r2 in refunds && refunds[r1].order == refunds[r2].order ==> r1 == r2
  }

  predicate HasRefund(refunds: map<Id, Refund>, o: Id)
  {
    exists r :: r in refunds && refunds[r].order == o
  }

  ghost predicate RequestsHaveRefund(orders: Orders, refunds: map<Id, Refund>)
  {
    forall o :: o in orders && orders[o].refundRequested ==> HasRefund(refunds, o)
  }

  /** Reference keys are given out only when an order is paid. */
  ghost predicate KeyedOrdersPaid(orders: Orders)
  {
    forall o :: o in orders && orders[o].refKey.Some? ==> orders[o].ordered
  }

  /** Every stored item carries the slug the pre-save hook derives. */
  ghost predicate SlugsDerived(items: Items)
  {
    forall i :: i in items ==> items[i].slug == Slug(items[i].category, items[i].title)
  }

  ghost predicate Consistent(t: Tables)
  {
    && KeysBelowNext(t)
    && OrderLinesWellFormed(t.orders, t.lines)
    && OneCartPerUser(t.orders)
    && OneOpenLine(t.lines)
    && QuantitiesPositive(t.lines)
    && LooseLinesSingle(t.orders, t.lines)
    && CartsNonEmpty(t.orders)
    && LinesPriced(t.lines, t.items)
    && CouponsExist(t.orders, t.coupons)
    && RefundsOfPaidOrders(t.refunds, t.orders)
    && OneRefundPerOrder(t.refunds)
    && RequestsHaveRefund(t.orders, t.refunds)
    && KeyedOrdersPaid(t.orders)
    && SlugsDerived(t.items)
  }

  /** The empty database. */
  function Empty(): (t: Tables)
    ensures Consistent(t)
  {
    Tables(map[], map[], map[], map[], map[], map[], map[], map[], 0)
  }

  // ---------------------------------------------------------------------------
  // Queries
  // ---------------------------------------------------------------------------

  /** `Order.objects.filter(user=user, ordered=False)`, first row. */
  ghost function ActiveOrder(orders: Orders, user: UserId): (r: Option<Id>)
    ensures r.Some? ==> IsCart(orders, r.value, user)
    ensures r.None? ==> forall o :: !IsCart(orders, o, user)
  {
    if exists o :: IsCart(orders, o, user) then Some(var o :| IsCart(orders, o, user); o) else None
  }

  lemma ActiveOrderIs(orders: Orders, user: UserId, o: Id)
    requires OneCartPerUser(orders) && IsCart(orders, o, user)
    ensures ActiveOrder(orders, user) == Some(o)
  {
  }

  /** Tables that agree on which orders are whose carts give the same active orders. */
  lemma ActiveOrderSame(orders: Orders, orders': Orders)
    requires OneCartPerUser(orders)
    requires forall o, u :: IsCart(orders, o, u) <==> IsCart(orders', o, u)
    ensures forall u :: ActiveOrder(orders', u) == ActiveOrder(orders, u)
  {
    forall u ensures ActiveOrder(orders', u) == ActiveOrder(orders, u) {
      if ActiveOrder(orders, u).Some? {
        ActiveOrderIs(orders', u, ActiveOrder(orders, u).value);
      }
    }
  }

  /** No two items share `slug`: `get_object_or_404(Item, slug=slug)` would
      raise MultipleObjectsReturned otherwise. */
  ghost predicate SlugUnique(items: Items, slug: string)
  {
    forall i1, i2 :: i1 in items && i2 in items && items[i1].slug == slug && items[i2].slug == slug ==> i1 == i2
  }

  /** The item with `slug`, if there is one. */
  ghost function FindItem(items: Items, slug: string): (r: Option<Id>)
    ensures r.Some? ==> r.value in items && items[r.value].slug == slug
    ensures r.None? ==> forall i :: i in items ==> items[i].slug != slug
  {
    if exists i :: i in items && items[i].slug == slug then
      Some(var i :| i in items && items[i].slug == slug; i)
    else
      None
  }

  /** The unordered line of (`user`, `item`), if there is one. */
  ghost function OpenLine(lines: Lines, user: UserId, item: Id): (r: Option<Id>)
    ensures r.Some? ==> IsOpenLine(lines, r.value, user, item)
    ensures r.None? ==> forall l :: !IsOpenLine(lines, l, user, item)
  {
    if exists l :: IsOpenLine(lines, l, user, item) then Some(var l :| IsOpenLine(lines, l, user, item); l) else None
  }

  lemma OpenLineIs(lines: Lines, l: Id, user: UserId, item: Id)
    requires OneOpenLine(lines) && IsOpenLine(lines, l, user, item)
    ensures OpenLine(lines, user, item) == Some(l)
  {
  }

  /** `OrderItem.objects.get_or_create(user=user, item=item, ordered=False)`:
      the existing unordered line, or a fresh one of quantity 1. */
  ghost function GetOrCreateLine(t: Tables, user: UserId, item: Id): (r: (Tables, Id))
    ensures IsOpenLine(r.0.lines, r.1, user, item)
    ensures r.0.orders == t.orders && r.0.items == t.items
  {
    match OpenLine(t.lines, user, item)
    case Some(l) => (t, l)
    case None => (t.(lines := t.lines[t.next := OrderItem(user, item, 1, false)], next := t.next + 1), t.next)
  }

  /** `order.items.filter(item__slug=slug).exists()`. */
  predicate OrderHasSlug(t: Tables, o: Id, slug: string)
    requires o in t.orders
  {
    exists k :: 0 <= k < |t.orders[o].items| && t.orders[o].items[k] in t.lines
      && t.lines[t.orders[o].items[k]].item in t.items
      && t.items[t.lines[t.orders[o].items[k]].item].slug == slug
  }

  /** In a consistent database, the cart lists a line with the item's slug
      exactly when it lists the user's open line for that item. */
  lemma HasSlugIffHasLine(t: Tables, user: UserId, o: Id, slug: string, i: Id, l: Id)
    requires Consistent(t) && SlugUnique(t.items, slug)
    requires IsCart(t.orders, o, user) && FindItem(t.items, slug) == Some(i) && IsOpenLine(t.lines, l, user, i)
    ensures OrderHasSlug(t, o, slug) <==> l in t.orders[o].items
  {
    var ids := t.orders[o].items;
    if OrderHasSlug(t, o, slug) {
      var k :| 0 <= k < |ids| && ids[k] in t.lines && t.lines[ids[k]].item in t.items
        && t.items[t.lines[ids[k]].item].slug == slug;
      assert LineOf(t.lines, ids[k], user, false);
      assert IsOpenLine(t.lines, ids[k], user, i);
    }
    if l in ids {
      var k :| 0 <= k < |ids| && ids[k] == l;
      assert t.items[t.lines[ids[k]].item].slug == slug;
    }
  }

  /** An unordered line can only be listed by its user's active cart. */
  lemma OpenLineOnlyInCart(t: Tables, user: UserId, item: Id, l: Id, o: Id)
    requires Consistent(t) && IsOpenLine(t.lines, l, user, item)
    requires o in t.orders && l in t.orders[o].items
    ensures IsCart(t.orders, o, user)
  {
    var k :| 0 <= k < |t.orders[o].items| && t.orders[o].items[k] == l;
    assert LineOf(t.lines, t.orders[o].items[k], t.orders[o].user, t.orders[o].ordered);
  }

  /** No two coupons share `code`: `Coupon.objects.get(code=code)` would raise
      MultipleObjectsReturned otherwise. */
  ghost predicate CodeUnique(coupons: map<Id, Coupon>, code: string)
  {
    forall c1, c2 :: c1 in coupons && c2 in coupons && coupons[c1].code == code && coupons[c2].code == code ==> c1 == c2
  }

  /** `Coupon.objects.get(code=code)`, with DoesNotExist as None. */
  ghost function CouponByCode(coupons: map<Id, Coupon>, code: string): (r: Option<Id>)
    ensures r.Some? ==> r.value in coupons && coupons[r.value].code == code
    ensures r.None? ==> forall c :: c in coupons ==> coupons[c].code != code
  {
    if exists c :: c in coupons && coupons[c].code == code then
      Some(var c :| c in coupons && coupons[c].code == code; c)
    else
      None
  }

  /** No two orders share the reference key: `Order.objects.get(refrence_key=key)`
      would raise MultipleObjectsReturned otherwise. */
  ghost predicate KeyUnique(orders: Orders, key: string)
  {
    forall o1, o2 :: o1 in orders && o2 in orders && orders[o1].refKey == Some(key) && orders[o2].refKey == Some(key) ==> o1 == o2
  }

  /** `Order.objects.get(refrence_key=key)`, with DoesNotExist as None. */
  ghost function OrderByKey(orders: Orders, key: string): (r: Option<Id>)
    ensures r.Some? ==> r.value in orders && orders[r.value].refKey == Some(key)
    ensures r.None? ==> forall o :: o in orders ==> orders[o].refKey != Some(key)
  {
    if exists o :: o in orders && orders[o].refKey == Some(key) then
      Some(var o :| o in orders && orders[o].refKey == Some(key); o)
    else
      None
  }

  /** `Address.objects.filter(user=user, address_type=kind, default=True)` holds `a`. */
  predicate IsDefaultAddress(addresses: map<Id, Address>, a: Id, user: UserId, kind: AddressType)
  {
    a in addresses && addresses[a].user == user && addresses[a].kind == kind && addresses[a].isDefault
  }

  /** `get_or_create` keeps the database consistent. */
  lemma GetOrCreateLineConsistent(t: Tables, user: UserId, item: Id)
    requires Consistent(t) && item in t.items
    ensures Consistent(GetOrCreateLine(t, user, item).0)
  {
    if OpenLine(t.lines, user, item).None? {
      var lines' := t.lines[t.next := OrderItem(user, item, 1, false)];
      var next' := t.next + 1;
      assert t.next !in t.lines;
      NewLineKeepsLineFacts(t.orders, t.lines, t.items, t.next, user, item);
      RowsReplaced(t, lines', t.orders, next');
      NewLineRows(t, user, item);
    }
  }

  /** A fresh loose line of quantity 1 at an unused key, for a pair that has
      no open line, keeps the facts about lines. */
  lemma NewLineKeepsLineFacts(orders: Orders, lines: Lines, items: Items, l: Id, user: UserId, item: Id)
    requires l !in lines && item in items && forall x :: !IsOpenLine(lines, x, user, item)
    requires OrderLinesWellFormed(orders, lines) && OneOpenLine(lines) && QuantitiesPositive(lines)
    requires LooseLinesSingle(orders, lines) && LinesPriced(lines, items)
    ensures var lines' := lines[l := OrderItem(user, item, 1, false)];
      && OrderLinesWellFormed(orders, lines') && OneOpenLine(lines') && QuantitiesPositive(lines')
      && LooseLinesSingle(orders, lines') && LinesPriced(lines', items)
  {
    var lines' := lines[l := OrderItem(user, item, 1, false)];
    forall o, k | o in orders && 0 <= k < |orders[o].items|
      ensures LineOf(lines', orders[o].items[k], orders[o].user, orders[o].ordered)
    {
      assert LineOf(lines, orders[o].items[k], orders[o].user, orders[o].ordered);
    }
    forall x | x != l && x in lines' ensures lines'[x] == lines[x] && !IsOpenLine(lines', x, user, item) {
      assert !IsOpenLine(lines, x, user, item);
    }
    forall l1, l2, u, i | IsOpenLine(lines', l1, u, i) && IsOpenLine(lines', l2, u, i) && l1 != l && l2 != l
      ensures l1 == l2
    {
      assert IsOpenLine(lines, l1, u, i) && IsOpenLine(lines, l2, u, i);
    }
  }

  lemma NewLineRows(t: Tables, user: UserId, item: Id)
    requires OpenLine(t.lines, user, item).None?
    ensures GetOrCreateLine(t, user, item).0
      == t.(lines := t.lines[t.next := OrderItem(user, item, 1, false)], orders := t.orders, next := t.next + 1)
  {
  }

  // ---------------------------------------------------------------------------
  // Cart contents
  // ---------------------------------------------------------------------------

  /** `ids` with `l` taken out: the many-to-many row deleted with the line. */
  function Without(ids: seq<Id>, l: Id): (r: seq<Id>)
    ensures forall x :: x in r <==> x in ids && x != l
    ensures l !in ids ==> r == ids
    ensures |r| <= |ids|
  {
    if ids == [] then []
    else if ids[0] == l then Without(ids[1..], l)
    else [ids[0]] + Without(ids[1..], l)
  }

  lemma DistinctTail(ids: seq<Id>)
    requires Distinct(ids) && ids != []
    ensures Distinct(ids[1..]) && ids[0] !in ids[1..]
  {
    forall j, k | 0 <= j < k < |ids[1..]| ensures ids[1..][j] != ids[1..][k] {
      assert ids[1..][j] == ids[j + 1] && ids[1..][k] == ids[k + 1];
    }
    forall k | 0 <= k < |ids[1..]| ensures ids[1..][k] != ids[0] {
      assert ids[1..][k] == ids[k + 1];
    }
  }

  lemma {:induction false} WithoutDistinct(ids: seq<Id>, l: Id)
    requires Distinct(ids)
    ensures Distinct(Without(ids, l))
  {
    if ids != [] {
      DistinctTail(ids);
      WithoutDistinct(ids[1..], l);
      if ids[0] != l {
        var rest := Without(ids[1..], l);
        assert ids[0] !in rest;
        var r := [ids[0]] + rest;
        forall j, k | 0 <= j < k < |r| ensures r[j] != r[k] {
          if j == 0 {
            assert r[k] == rest[k - 1];
          } else {
            assert r[j] == rest[j - 1] && r[k] == rest[k - 1];
          }
        }
      }
    }
  }

  /** How many units of `item` the line `id` holds (0 for another item). */
  function Contribution(lines: Lines, id: Id, item: Id): nat
  {
    if id in lines && lines[id].item == item then lines[id].quantity else 0
  }

  /** Units of `item` over the lines `ids`. */
  function Qty(lines: Lines, ids: seq<Id>, item: Id): nat
  {
    if ids == [] then 0 else Contribution(lines, ids[0], item) + Qty(lines, ids[1..], item)
  }

  /** Units of `item` in the user's active cart, 0 without a cart. */
  ghost function CartQuantity(t: Tables, user: UserId, item: Id): nat
  {
    match ActiveOrder(t.orders, user)
    case None => 0
    case Some(o) => Qty(t.lines, t.orders[o].items, item)
  }

  lemma {:induction false} QtyAppend(lines: Lines, ids: seq<Id>, x: Id, item: Id)
    ensures Qty(lines, ids + [x], item) == Qty(lines, ids, item) + Contribution(lines, x, item)
  {
    if ids == [] {
      assert [] + [x] == [x];
      assert Qty(lines, [x], item) == Contribution(lines, x, item) + Qty(lines, [x][1..], item);
    } else {
      assert (ids + [x])[0] == ids[0];
      assert (ids + [x])[1..] == ids[1..] + [x];
      QtyAppend(lines, ids[1..], x, item);
    }
  }

  lemma {:induction false} QtyAgree(lines1: Lines, lines2: Lines, ids: seq<Id>, item: Id)
    requires forall k :: 0 <= k < |ids| ==> Contribution(lines1, ids[k], item) == Contribution(lines2, ids[k], item)
    ensures Qty(lines1, ids, item) == Qty(lines2, ids, item)
  {
    if ids != [] {
      assert Contribution(lines1, ids[0], item) == Contribution(lines2, ids[0], item);
      forall k | 0 <= k < |ids[1..]|
        ensures Contribution(lines1, ids[1..][k], item) == Contribution(lines2, ids[1..][k], item)
      {
        assert ids[1..][k] == ids[k + 1];
      }
      QtyAgree(lines1, lines2, ids[1..], item);
    }
  }

  /** Lines that agree on every listed row give the same units. */
  lemma QtyFrame(lines1: Lines, lines2: Lines, ids: seq<Id>)
    requires forall x :: x in ids ==> (x in lines1 <==> x in lines2) && (x in lines1 ==> lines1[x] == lines2[x])
    ensures forall j :: Qty(lines1, ids, j) == Qty(lines2, ids, j)
  {
    forall j ensures Qty(lines1, ids, j) == Qty(lines2, ids, j) {
      forall k | 0 <= k < |ids| ensures Contribution(lines1, ids[k], j) == Contribution(lines2, ids[k], j) {
        assert ids[k] in ids;
      }
      QtyAgree(lines1, lines2, ids, j);
    }
  }

  lemma {:induction false} QtyWithout(lines: Lines, ids: seq<Id>, x: Id, item: Id)
    requires Distinct(ids) && x in ids
    ensures Qty(lines, ids, item) == Qty(lines, Without(ids, x), item) + Contribution(lines, x, item)
  {
    DistinctTail(ids);
    if ids[0] == x {
      assert Without(ids, x) == ids[1..];
    } else {
      assert x in ids[1..];
      QtyWithout(lines, ids[1..], x, item);
      var w := Without(ids[1..], x);
      assert Without(ids, x) == [ids[0]] + w;
      assert ([ids[0]] + w)[1..] == w;
    }
  }

  /** Replacing one listed line changes the units by the difference of its
      contributions. */
  lemma QtyPoint(lines: Lines, ids: seq<Id>, x: Id, v: OrderItem, item: Id)
    requires Distinct(ids) && x in ids
    ensures Qty(lines[x := v], ids, item) + Contribution(lines, x, item)
         == Qty(lines, ids, item) + Contribution(lines[x := v], x, item)
  {
    var w := Without(ids, x);
    QtyWithout(lines, ids, x, item);
    QtyWithout(lines[x := v], ids, x, item);
    forall k | 0 <= k < |w| ensures Contribution(lines, w[k], item) == Contribution(lines[x := v], w[k], item) {
      assert w[k] in w;
    }
    QtyAgree(lines, lines[x := v], w, item);
  }

  /** When no listed line other than `l` holds `item`, the units come from `l` alone. */
  lemma {:induction false} QtyOnly(lines: Lines, ids: seq<Id>, l: Id, item: Id)
    requires Distinct(ids)
    requires forall k :: 0 <= k < |ids| && ids[k] != l ==> Contribution(lines, ids[k], item) == 0
    ensures Qty(lines, ids, item) == if l in ids then Contribution(lines, l, item) else 0
  {
    if ids != [] {
      DistinctTail(ids);
      forall k | 0 <= k < |ids[1..]| && ids[1..][k] != l ensures Contribution(lines, ids[1..][k], item) == 0 {
        assert ids[1..][k] == ids[k + 1];
      }
      QtyOnly(lines, ids[1..], l, item);
    }
  }

  /** The cart quantity of an item is the quantity of the user's open line for
      it when the cart lists that line, and 0 otherwise. */
  lemma CartQuantityOfLine(t: Tables, user: UserId, item: Id)
    requires Consistent(t)
    ensures CartQuantity(t, user, item) ==
      match (ActiveOrder(t.orders, user), OpenLine(t.lines, user, item))
      case (Some(o), Some(l)) => if l in t.orders[o].items then t.lines[l].quantity else 0
      case _ => 0
  {
    match ActiveOrder(t.orders, user)
    case None =>
    case Some(o) =>
      var ids := t.orders[o].items;
      var l := match OpenLine(t.lines, user, item) case Some(l) => l case None => t.next;
      forall k | 0 <= k < |ids| && ids[k] != l ensures Contribution(t.lines, ids[k], item) == 0 {
        assert LineOf(t.lines, ids[k], user, false);
        if t.lines[ids[k]].item == item {
          assert IsOpenLine(t.lines, ids[k], user, item);
        }
      }
      QtyOnly(t.lines, ids, l, item);
      if OpenLine(t.lines, user, item).None? {
        assert l !in t.lines;
        assert l !in ids;
      }
  }

  /** `get_or_create` changes no cart: a line it creates is listed by no order. */
  lemma GetOrCreateLineKeepsCarts(t: Tables, user: UserId, item: Id)
    requires OrderLinesWellFormed(t.orders, t.lines) && t.next !in t.lines
    ensures GetOrCreateLine(t, user, item).0.orders == t.orders
    ensures forall u, j :: CartQuantity(GetOrCreateLine(t, user, item).0, u, j) == CartQuantity(t, u, j)
  {
    var t1 := GetOrCreateLine(t, user, item).0;
    if OpenLine(t.lines, user, item).None? {
      NewLineRows(t, user, item);
      forall o | o in t.orders ensures forall j :: Qty(t1.lines, t.orders[o].items, j) == Qty(t.lines, t.orders[o].items, j) {
        forall x | x in t.orders[o].items ensures x in t.lines && t1.lines[x] == t.lines[x] {
          var k :| 0 <= k < |t.orders[o].items| && t.orders[o].items[k] == x;
          assert LineOf(t.lines, t.orders[o].items[k], t.orders[o].user, t.orders[o].ordered);
        }
        QtyFrame(t1.lines, t.lines, t.orders[o].items);
      }
    }
  }

  /** A user has an active cart exactly when some item has a positive cart quantity. */
  lemma CartExistsIffNonEmpty(t: Tables, user: UserId)
    requires Consistent(t)
    ensures ActiveOrder(t.orders, user).Some? <==> exists item :: CartQuantity(t, user, item) > 0
  {
    match ActiveOrder(t.orders, user)
    case None =>
    case Some(o) =>
      var ids := t.orders[o].items;
      assert |ids| > 0;
      assert LineOf(t.lines, ids[0], user, false);
      var item := t.lines[ids[0]].item;
      assert Contribution(t.lines, ids[0], item) >= 1;
      assert CartQuantity(t, user, item) > 0;
  }

  // ---------------------------------------------------------------------------
  // Row updates of the cart views
  // ---------------------------------------------------------------------------

  /** `ordered_item.quantity = q; ordered_item.save()`. */
  function SetQuantity(t: Tables, l: Id, q: nat): Tables
    requires l in t.lines
  {
    t.(lines := t.lines[l := t.lines[l].(quantity := q)])
  }

  /** `order.items.add(ordered_item)`. */
  function AttachLine(t: Tables, o: Id, l: Id): Tables
    requires o in t.orders
  {
    t.(orders := t.orders[o := t.orders[o].(items := t.orders[o].items + [l])])
  }

  /** `Order.objects.create(user=user, ordered=False)`: an empty order at a fresh key. */
  function CreateOrder(t: Tables, user: UserId): (r: Tables)
    ensures r.orders == t.orders[t.next := NewOrder(user, [])] && r.next == t.next + 1
  {
    t.(orders := t.orders[t.next := NewOrder(user, [])], next := t.next + 1)
  }

  /** `CreateOrder` followed by `order.items.add(ordered_item)`, as one update. */
  function OpenCart(t: Tables, user: UserId, l: Id): Tables
  {
    t.(orders := t.orders[t.next := NewOrder(user, [l])], next := t.next + 1)
  }

  /** `ordered_item.delete()`: the row goes, and with it every many-to-many
      row that lists it. */
  function DeleteLine(t: Tables, l: Id): Tables
  {
    t.(lines := t.lines - {l},
       orders := map o | o in t.orders :: t.orders[o].(items := Without(t.orders[o].items, l)))
  }

  /** Deleting the line of order `o`, then `if not order.items.exists():
      order.delete()`; the flag says whether the order went. */
  function DropLine(t: Tables, o: Id, l: Id): (r: (Tables, bool))
    requires o in t.orders
    ensures r.0 == t.(lines := t.lines - {l}, orders := r.0.orders)
  {
    var t' := DeleteLine(t, l);
    if t'.orders[o].items == [] then (t'.(orders := t'.orders - {o}), true) else (t', false)
  }

  /** Creating the order and then attaching the line is the one update `OpenCart`. */
  lemma CreateThenAttach(t: Tables, user: UserId, l: Id)
    ensures AttachLine(CreateOrder(t, user), t.next, l) == OpenCart(t, user, l)
  {
    assert [] + [l] == [l];
  }

  /** Whatever quantity a line was saved with before, deleting it leaves the same tables. */
  lemma DeleteForgetsQuantity(t: Tables, l: Id, q: nat)
    requires l in t.lines
    ensures DeleteLine(SetQuantity(t, l, q), l) == DeleteLine(t, l)
  {
    assert t.lines[l := t.lines[l].(quantity := q)] - {l} == t.lines - {l};
  }

  // ---------------------------------------------------------------------------
  // Row updates of the other views
  // ---------------------------------------------------------------------------

  /** `order.save()` after changing fields of the loaded order. */
  function SaveOrder(t: Tables, o: Id, v: Order): Tables
  {
    t.(orders := t.orders[o := v])
  }

  /** `address.save()` of a new Address: it gets the next key. */
  function InsertAddress(t: Tables, a: Address): (r: (Tables, Id))
    ensures r.1 == t.next && r.0.next == t.next + 1
    ensures r.0.addresses == t.addresses[t.next := a] && r.0.orders == t.orders
  {
    (t.(addresses := t.addresses[t.next := a], next := t.next + 1), t.next)
  }

  /** `payment.save()` of a new Payment. */
  function InsertPayment(t: Tables, p: Payment): (r: (Tables, Id))
    ensures r.1 == t.next && r.0.next == t.next + 1
  {
    (t.(payments := t.payments[t.next := p], next := t.next + 1), t.next)
  }

  /** `refund.save()` of a new Refund. */
  function InsertRefund(t: Tables, f: Refund): (r: (Tables, Id))
    ensures r.1 == t.next && r.0.next == t.next + 1
  {
    (t.(refunds := t.refunds[t.next := f], next := t.next + 1), t.next)
  }

  /** `OrderItem.objects.filter(pk__in=ids).update(ordered=True)`. */
  function MarkOrdered(t: Tables, ids: seq<Id>): (r: Tables)
    ensures r == t.(lines := r.lines)
    ensures forall x :: x in r.lines <==> x in t.lines
    ensures forall x :: x in t.lines ==> r.lines[x] == if x in ids then t.lines[x].(ordered := true) else t.lines[x]
  {
    t.(lines := map x | x in t.lines :: if x in ids then t.lines[x].(ordered := true) else t.lines[x])
  }

  /** `order.refund`: the Refund whose one-to-one link points at `o`. */
  ghost function RefundOf(refunds: map<Id, Refund>, o: Id): (r: Id)
    requires HasRefund(refunds, o)
    ensures r in refunds && refunds[r].order == o
  {
    var r :| r in refunds && refunds[r].order == o; r
  }

  /** `orders'` has the rows of `orders`, each with the same user, lines and
      ordered flag: what an update of an order's other fields leaves. */
  ghost predicate SameOrderShape(orders: Orders, orders': Orders)
  {
    && (forall o :: o in orders <==> o in orders')
    && (forall o :: o in orders ==>
          orders'[o].user == orders[o].user && orders'[o].items == orders[o].items && orders'[o].ordered == orders[o].ordered)
  }

  /** Such an update keeps the facts that only read users, lines and flags. */
  lemma OrderShapeKept(orders: Orders, orders': Orders, lines: Lines, refunds: map<Id, Refund>)
    requires SameOrderShape(orders, orders')
    requires OrderLinesWellFormed(orders, lines) && OneCartPerUser(orders) && LooseLinesSingle(orders, lines)
    requires CartsNonEmpty(orders) && RefundsOfPaidOrders(refunds, orders)
    ensures OrderLinesWellFormed(orders', lines) && OneCartPerUser(orders') && LooseLinesSingle(orders', lines)
    ensures CartsNonEmpty(orders') && RefundsOfPaidOrders(refunds, orders')
  {
    forall o1, o2, u | IsCart(orders', o1, u) && IsCart(orders', o2, u) ensures o1 == o2 {
      assert IsCart(orders, o1, u) && IsCart(orders, o2, u);
    }
    forall x | x in lines && InSomeOrder(orders, x) ensures InSomeOrder(orders', x) {
      var p :| p in orders && x in orders[p].items;
      assert p in orders' && x in orders'[p].items;
    }
  }

  /** Replacing the line and order tables, and moving the key counter
      forward, keeps the database consistent once the new tables meet every
      fact about lines and orders. */
  lemma RowsReplaced(t: Tables, lines': Lines, orders': Orders, next': Id)
    requires Consistent(t) && t.next <= next'
    requires OrderLinesWellFormed(orders', lines') && OneCartPerUser(orders') && OneOpenLine(lines')
    requires QuantitiesPositive(lines') && LooseLinesSingle(orders', lines') && CartsNonEmpty(orders')
    requires LinesPriced(lines', t.items) && CouponsExist(orders', t.coupons)
    requires RefundsOfPaidOrders(t.refunds, orders') && RequestsHaveRefund(orders', t.refunds) && KeyedOrdersPaid(orders')
    requires forall k :: k in lines' ==> k < next'
    requires forall k :: k in orders' ==> k < next'
    ensures Consistent(t.(lines := lines', orders := orders', next := next'))
  {
  }

  /** Storing an item row with a derived slug, under its own key or the
      next one, keeps the database consistent. */
  lemma SaveItemConsistent(t: Tables, id: Id, v: Item)
    requires Consistent(t) && (id in t.items || id == t.next)
    requires v.slug == Slug(v.category, v.title)
    ensures var next' := if id == t.next then t.next + 1 else t.next;
      Consistent(t.(items := t.items[id := v], next := next'))
  {
    var next' := if id == t.next then t.next + 1 else t.next;
    var t' := t.(items := t.items[id := v], next := next');
    assert KeysBelowNext(t');
    assert LinesPriced(t'.lines, t'.items);
    assert SlugsDerived(t'.items);
  }

  // ---------------------------------------------------------------------------
  // Order totals (Order.calculate_order_total)
  // ---------------------------------------------------------------------------

  /** Every one of `ids` is a line whose item exists. */
  ghost predicate Priced(t: Tables, ids: seq<Id>)
  {
    forall k :: 0 <= k < |ids| ==> ids[k] in t.lines && t.lines[ids[k]].item in t.items
  }

  /** The price line `l` contributes. */
  function LinePrice(t: Tables, l: Id): int
    requires l in t.lines && t.lines[l].item in t.items
  {
    LineTotal(t.items[t.lines[l].item], t.lines[l].quantity)
  }

  /** The sum of the line prices of `ids`. */
  function LinesTotal(t: Tables, ids: seq<Id>): int
    requires Priced(t, ids)
  {
    if ids == [] then 0 else LinesTotal(t, ids[..|ids| - 1]) + LinePrice(t, ids[|ids| - 1])
  }

  /** The amount a coupon takes off, 0 without one. */
  function CouponAmount(t: Tables, o: Id): int
    requires o in t.orders
    requires t.orders[o].coupon.Some? ==> t.orders[o].coupon.value in t.coupons
  {
    match t.orders[o].coupon
    case None => 0
    case Some(c) => t.coupons[c].amount
  }

  lemma OrderPriced(t: Tables, o: Id)
    requires Consistent(t) && o in t.orders
    ensures Priced(t, t.orders[o].items)
  {
    forall k | 0 <= k < |t.orders[o].items| ensures t.orders[o].items[k] in t.lines {
      assert LineOf(t.lines, t.orders[o].items[k], t.orders[o].user, t.orders[o].ordered);
    }
  }

  /** What `calculate_order_total` returns: the line prices summed, less the
      coupon's flat amount. Nothing bounds it below. */
  ghost function OrderTotal(t: Tables, o: Id): int
    requires Consistent(t) && o in t.orders
  {
    OrderPriced(t, o);
    LinesTotal(t, t.orders[o].items) - CouponAmount(t, o)
  }

  /** An order with no lines and no coupon totals 0. */
  lemma EmptyOrderTotal(t: Tables, o: Id)
    requires Consistent(t) && o in t.orders && t.orders[o].items == [] && t.orders[o].coupon.None?
    ensures OrderTotal(t, o) == 0
  {
  }

  /** The total is not clamped at 0: it is negative exactly when the coupon
      takes off more than the lines add up to. */
  lemma TotalUnclamped(t: Tables, o: Id)
    requires Consistent(t) && o in t.orders
    ensures Priced(t, t.orders[o].items)
    ensures OrderTotal(t, o) < 0 <==> CouponAmount(t, o) > LinesTotal(t, t.orders[o].items)
  {
    OrderPriced(t, o);
  }

  /** Line totals read only the line and item tables. */
  lemma {:induction false} LinesTotalFrame(t: Tables, t': Tables, ids: seq<Id>)
    requires Priced(t, ids) && t'.lines == t.lines && t'.items == t.items
    ensures Priced(t', ids) && LinesTotal(t', ids) == LinesTotal(t, ids)
  {
    if ids != [] {
      LinesTotalFrame(t, t', ids[..|ids| - 1]);
    }
  }

  /** The total of two runs of lines is the sum of their totals: each line
      adds its own price, whatever comes before it. */
  lemma {:induction false} LinesTotalAppend(t: Tables, a: seq<Id>, b: seq<Id>)
    requires Priced(t, a) && Priced(t, b)
    ensures Priced(t, a + b) && LinesTotal(t, a + b) == LinesTotal(t, a) + LinesTotal(t, b)
  {
    if b != [] {
      var b' := b[..|b| - 1];
      assert (a + b)[..|a + b| - 1] == a + b';
      LinesTotalAppend(t, a, b');
    } else {
      assert a + b == a;
    }
  }
}
