/** The five cart views of mysite/views.py: `addItemToCart` and
    `increaseQuantity` (one behaviour, two redirect targets),
    `decreaseQuantity`, and `removeItemFromCart` and `removeItem` (again one
    behaviour). Each is a transition of the tables, proved to keep the
    invariant and described by its effect on the cart quantities, and a
    method on the store proved to perform that transition. */
module Cart {
  import opened Models
  import opened Db
  import opened Store

  /** What the view reports back (its flash message and redirect). */
  datatype CartOutcome =
    | ItemNotFound            // get_object_or_404: no item has the slug
    | NoActiveOrder           // the user has no unordered order
    | NotInCart               // the active order holds no line for the item
    | ItemAdded               // the line was attached to the (possibly new) order
    | QuantityUpdated         // the line's quantity was changed
    | ItemRemoved(cartDeleted: bool)  // the line was deleted; so was the order if it became empty

  // ---------------------------------------------------------------------------
  // The views as transitions
  // ---------------------------------------------------------------------------

  /** `addItemToCart` / `increaseQuantity`. */
  ghost function AddToCart(t: Tables, user: UserId, slug: string): (Tables, CartOutcome)
    requires SlugUnique(t.items, slug)
  {
    match FindItem(t.items, slug)
    case None => (t, ItemNotFound)
    case Some(i) =>
      var (t1, l) := GetOrCreateLine(t, user, i);
      var order := ActiveOrder(t1.orders, user);
      AddListed(t1, user, l, order, order.Some? && OrderHasSlug(t1, order.value, slug))
  }

  /** The rest of `addItemToCart` once the line `l` and the active order, if
      any, are known; `listed` is whether that order has a line for the slug. */
  function AddListed(t: Tables, user: UserId, l: Id, order: Option<Id>, listed: bool): (Tables, CartOutcome)
    requires l in t.lines && (order.Some? ==> order.value in t.orders)
  {
    match order
    case None => (OpenCart(t, user, l), ItemAdded)
    case Some(o) =>
      if listed then (SetQuantity(t, l, t.lines[l].quantity + 1), QuantityUpdated)
      else (AttachLine(t, o, l), ItemAdded)
  }

  /** `decreaseQuantity`. */
  ghost function DecreaseQuantity(t: Tables, user: UserId, slug: string): (Tables, CartOutcome)
    requires SlugUnique(t.items, slug)
  {
    match FindItem(t.items, slug)
    case None => (t, ItemNotFound)
    case Some(i) =>
      var (t1, l) := GetOrCreateLine(t, user, i);
      match ActiveOrder(t1.orders, user)
      case None => (t1, NoActiveOrder)
      case Some(o) => DecreaseListed(t1, o, l, OrderHasSlug(t1, o, slug))
  }

  /** The rest of `decreaseQuantity` once the line `l` and the active order
      `o` are known; `listed` is whether the order has a line for the slug. */
  function DecreaseListed(t: Tables, o: Id, l: Id, listed: bool): (Tables, CartOutcome)
    requires o in t.orders && l in t.lines
  {
    if !listed then (t, NotInCart)
    else if t.lines[l].quantity > 1 then (SetQuantity(t, l, t.lines[l].quantity - 1), QuantityUpdated)
    else var (t', gone) := DropLine(t, o, l); (t', ItemRemoved(gone))
  }

  /** `removeItemFromCart` / `removeItem`. */
  ghost function RemoveFromCart(t: Tables, user: UserId, slug: string): (Tables, CartOutcome)
    requires SlugUnique(t.items, slug)
  {
    match FindItem(t.items, slug)
    case None => (t, ItemNotFound)
    case Some(i) =>
      var (t1, l) := GetOrCreateLine(t, user, i);
      match ActiveOrder(t1.orders, user)
      case None => (t1, NoActiveOrder)
      case Some(o) =>
        if OrderHasSlug(t1, o, slug) then var (t2, gone) := DropLine(t1, o, l); (t2, ItemRemoved(gone))
        else (t1, NotInCart)
  }

  /** The views written out for an item that exists, case by case. */
  lemma AddToCartShape(t: Tables, user: UserId, slug: string, i: Id)
    requires SlugUnique(t.items, slug) && FindItem(t.items, slug) == Some(i)
    ensures var (t1, l) := GetOrCreateLine(t, user, i);
      var order := ActiveOrder(t1.orders, user);
      AddToCart(t, user, slug) == AddListed(t1, user, l, order, order.Some? && OrderHasSlug(t1, order.value, slug))
  {
  }

  lemma DecreaseNoCartShape(t: Tables, user: UserId, slug: string, i: Id)
    requires SlugUnique(t.items, slug) && FindItem(t.items, slug) == Some(i)
    requires ActiveOrder(GetOrCreateLine(t, user, i).0.orders, user).None?
    ensures DecreaseQuantity(t, user, slug) == (GetOrCreateLine(t, user, i).0, NoActiveOrder)
  {
  }

  lemma DecreaseInCartShape(t: Tables, user: UserId, slug: string, i: Id, o: Id)
    requires SlugUnique(t.items, slug) && FindItem(t.items, slug) == Some(i)
    requires ActiveOrder(GetOrCreateLine(t, user, i).0.orders, user) == Some(o)
    ensures var (t1, l) := GetOrCreateLine(t, user, i);
      DecreaseQuantity(t, user, slug) == DecreaseListed(t1, o, l, OrderHasSlug(t1, o, slug))
  {
  }

  lemma RemoveNoCartShape(t: Tables, user: UserId, slug: string, i: Id)
    requires SlugUnique(t.items, slug) && FindItem(t.items, slug) == Some(i)
    requires ActiveOrder(GetOrCreateLine(t, user, i).0.orders, user).None?
    ensures RemoveFromCart(t, user, slug) == (GetOrCreateLine(t, user, i).0, NoActiveOrder)
  {
  }

  lemma RemoveInCartShape(t: Tables, user: UserId, slug: string, i: Id, o: Id)
    requires SlugUnique(t.items, slug) && FindItem(t.items, slug) == Some(i)
    requires ActiveOrder(GetOrCreateLine(t, user, i).0.orders, user) == Some(o)
    ensures var (t1, l) := GetOrCreateLine(t, user, i);
      RemoveFromCart(t, user, slug) ==
        if OrderHasSlug(t1, o, slug) then var (t2, gone) := DropLine(t1, o, l); (t2, ItemRemoved(gone))
        else (t1, NotInCart)
  {
  }

  // ---------------------------------------------------------------------------
  // The row updates keep the invariant
  // ---------------------------------------------------------------------------

  /** `lines'` has the rows of `lines`, each with the same user, item and
      ordered flag. */
  ghost predicate SameLineShape(lines: Lines, lines': Lines)
  {
    && (forall x :: x in lines <==> x in lines')
    && (forall x :: x in lines ==> lines'[x].user == lines[x].user && lines'[x].item == lines[x].item && lines'[x].ordered == lines[x].ordered)
  }

  /** `orders'` has the rows of `orders`, differing at most in their lines. */
  ghost predicate SameOrderFlags(orders: Orders, orders': Orders)
  {
    && (forall o :: o in orders <==> o in orders')
    && (forall o :: o in orders ==> orders'[o] == orders[o].(items := orders'[o].items))
  }

  /** Reshaping the lines keeps the facts about their users, items and flags. */
  lemma LinesReshaped(orders: Orders, lines: Lines, lines': Lines, items: Items)
    requires SameLineShape(lines, lines')
    requires OrderLinesWellFormed(orders, lines) && OneOpenLine(lines) && LinesPriced(lines, items)
    ensures OrderLinesWellFormed(orders, lines') && OneOpenLine(lines') && LinesPriced(lines', items)
  {
    forall o, k | o in orders && 0 <= k < |orders[o].items|
      ensures LineOf(lines', orders[o].items[k], orders[o].user, orders[o].ordered)
    {
      assert LineOf(lines, orders[o].items[k], orders[o].user, orders[o].ordered);
    }
    forall l1, l2, u, i | IsOpenLine(lines', l1, u, i) && IsOpenLine(lines', l2, u, i) ensures l1 == l2 {
      assert IsOpenLine(lines, l1, u, i) && IsOpenLine(lines, l2, u, i);
    }
  }

  /** Changing only the lines of orders keeps the facts about the orders' other columns. */
  lemma OrdersReflagged(orders: Orders, orders': Orders, coupons: map<Id, Coupon>, refunds: map<Id, Refund>)
    requires SameOrderFlags(orders, orders')
    requires OneCartPerUser(orders) && CouponsExist(orders, coupons) && RefundsOfPaidOrders(refunds, orders)
    requires RequestsHaveRefund(orders, refunds) && KeyedOrdersPaid(orders)
    ensures forall o, u :: IsCart(orders, o, u) <==> IsCart(orders', o, u)
    ensures OneCartPerUser(orders') && CouponsExist(orders', coupons) && RefundsOfPaidOrders(refunds, orders')
    ensures RequestsHaveRefund(orders', refunds) && KeyedOrdersPaid(orders')
  {
    assert forall o, u :: IsCart(orders, o, u) <==> IsCart(orders', o, u);
  }

  /** A line listed before is listed after, so no line becomes loose. */
  lemma StillListed(orders: Orders, orders': Orders, lines: Lines)
    requires LooseLinesSingle(orders, lines)
    requires forall x :: x in lines && InSomeOrder(orders, x) ==> InSomeOrder(orders', x)
    ensures LooseLinesSingle(orders', lines)
  {
  }

  lemma SetQuantityConsistent(t: Tables, l: Id, q: nat)
    requires Consistent(t) && l in t.lines && q >= 1
    requires t.lines[l].ordered || InSomeOrder(t.orders, l) || q == 1
    ensures Consistent(SetQuantity(t, l, q))
  {
    var lines' := t.lines[l := t.lines[l].(quantity := q)];
    QuantitySaved(t.orders, t.lines, l, q);
    LinesReshaped(t.orders, t.lines, lines', t.items);
    RowsReplaced(t, lines', t.orders, t.next);
  }

  /** A new positive quantity keeps quantities positive, and loose lines at
      1 when the line is loose. */
  lemma QuantitySaved(orders: Orders, lines: Lines, l: Id, q: nat)
    requires QuantitiesPositive(lines) && LooseLinesSingle(orders, lines) && l in lines && q >= 1
    requires lines[l].ordered || InSomeOrder(orders, l) || q == 1
    ensures QuantitiesPositive(lines[l := lines[l].(quantity := q)])
    ensures LooseLinesSingle(orders, lines[l := lines[l].(quantity := q)])
    ensures SameLineShape(lines, lines[l := lines[l].(quantity := q)])
  {
  }

  lemma AttachKeepsLinesWellFormed(t: Tables, user: UserId, o: Id, l: Id)
    requires OrderLinesWellFormed(t.orders, t.lines) && IsCart(t.orders, o, user)
    requires LineOf(t.lines, l, user, false) && l !in t.orders[o].items
    ensures OrderLinesWellFormed(AttachLine(t, o, l).orders, t.lines)
  {
    var orders' := AttachLine(t, o, l).orders;
    var ids := t.orders[o].items;
    var ids' := ids + [l];
    forall j, k | 0 <= j < k < |ids'| ensures ids'[j] != ids'[k] {
      if k == |ids| {
        assert ids'[j] == ids[j];
        assert ids[j] in ids;
      } else {
        assert ids'[j] == ids[j] && ids'[k] == ids[k];
      }
    }
    forall p, k | p in orders' && 0 <= k < |orders'[p].items|
      ensures LineOf(t.lines, orders'[p].items[k], orders'[p].user, orders'[p].ordered)
    {
      if p != o || k < |ids| {
        assert orders'[p].items[k] == t.orders[p].items[k];
        assert LineOf(t.lines, t.orders[p].items[k], t.orders[p].user, t.orders[p].ordered);
      }
    }
  }

  lemma AttachKeepsListed(t: Tables, o: Id, l: Id)
    requires o in t.orders && CartsNonEmpty(t.orders)
    ensures SameOrderFlags(t.orders, AttachLine(t, o, l).orders)
    ensures forall x :: InSomeOrder(t.orders, x) ==> InSomeOrder(AttachLine(t, o, l).orders, x)
    ensures CartsNonEmpty(AttachLine(t, o, l).orders)
    ensures forall k :: k in AttachLine(t, o, l).orders <==> k in t.orders
  {
    var orders' := AttachLine(t, o, l).orders;
    forall x | InSomeOrder(t.orders, x) ensures InSomeOrder(orders', x) {
      var p :| p in t.orders && x in t.orders[p].items;
      assert x in orders'[p].items;
    }
  }

  lemma AttachLineConsistent(t: Tables, user: UserId, o: Id, l: Id)
    requires Consistent(t) && IsCart(t.orders, o, user)
    requires LineOf(t.lines, l, user, false) && l !in t.orders[o].items
    ensures Consistent(AttachLine(t, o, l))
  {
    var orders' := AttachLine(t, o, l).orders;
    AttachKeepsListed(t, o, l);
    OrdersReflagged(t.orders, orders', t.coupons, t.refunds);
    AttachKeepsLinesWellFormed(t, user, o, l);
    StillListed(t.orders, orders', t.lines);
    RowsReplaced(t, t.lines, orders', t.next);
  }

  /** A fresh order row with every flag at its default keeps the facts about orders. */
  lemma NewOrderKeepsOrderFacts(t: Tables, user: UserId, l: Id)
    requires t.next !in t.orders
    requires CouponsExist(t.orders, t.coupons) && RefundsOfPaidOrders(t.refunds, t.orders)
    requires RequestsHaveRefund(t.orders, t.refunds) && KeyedOrdersPaid(t.orders) && CartsNonEmpty(t.orders)
    ensures var orders' := t.orders[t.next := NewOrder(user, [l])];
      && CouponsExist(orders', t.coupons) && RefundsOfPaidOrders(t.refunds, orders')
      && RequestsHaveRefund(orders', t.refunds) && KeyedOrdersPaid(orders') && CartsNonEmpty(orders')
      && forall x :: InSomeOrder(t.orders, x) ==> InSomeOrder(orders', x)
  {
    var orders' := t.orders[t.next := NewOrder(user, [l])];
    forall x | InSomeOrder(t.orders, x) ensures InSomeOrder(orders', x) {
      var p :| p in t.orders && x in t.orders[p].items;
      assert x in orders'[p].items;
    }
  }

  lemma OpenCartKeepsLinesWellFormed(t: Tables, user: UserId, l: Id)
    requires OrderLinesWellFormed(t.orders, t.lines) && LineOf(t.lines, l, user, false)
    ensures OrderLinesWellFormed(t.orders[t.next := NewOrder(user, [l])], t.lines)
  {
  }

  lemma OpenCartKeepsOneCart(t: Tables, user: UserId, l: Id)
    requires OneCartPerUser(t.orders) && t.next !in t.orders
    requires forall o :: !IsCart(t.orders, o, user)
    ensures OneCartPerUser(t.orders[t.next := NewOrder(user, [l])])
  {
    var orders' := t.orders[t.next := NewOrder(user, [l])];
    forall o1, o2, u | IsCart(orders', o1, u) && IsCart(orders', o2, u) ensures o1 == o2 {
      assert o1 != t.next ==> IsCart(t.orders, o1, u);
      assert o2 != t.next ==> IsCart(t.orders, o2, u);
    }
  }

  lemma OpenCartConsistent(t: Tables, user: UserId, l: Id)
    requires Consistent(t) && ActiveOrder(t.orders, user).None?
    requires LineOf(t.lines, l, user, false)
    ensures Consistent(OpenCart(t, user, l))
  {
    var orders' := t.orders[t.next := NewOrder(user, [l])];
    var next' := t.next + 1;
    OpenCartKeepsOrders(t, user, l);
    RowsReplaced(t, t.lines, orders', next');
  }

  /** The facts about orders hold once the new cart row is added. */
  lemma OpenCartKeepsOrders(t: Tables, user: UserId, l: Id)
    requires forall k :: k in t.orders ==> k < t.next
    requires OrderLinesWellFormed(t.orders, t.lines) && LineOf(t.lines, l, user, false)
    requires OneCartPerUser(t.orders) && forall o :: !IsCart(t.orders, o, user)
    requires LooseLinesSingle(t.orders, t.lines) && CartsNonEmpty(t.orders)
    requires CouponsExist(t.orders, t.coupons) && RefundsOfPaidOrders(t.refunds, t.orders)
    requires RequestsHaveRefund(t.orders, t.refunds) && KeyedOrdersPaid(t.orders)
    ensures var orders' := t.orders[t.next := NewOrder(user, [l])];
      && OrderLinesWellFormed(orders', t.lines) && OneCartPerUser(orders')
      && LooseLinesSingle(orders', t.lines) && CartsNonEmpty(orders')
      && CouponsExist(orders', t.coupons) && RefundsOfPaidOrders(t.refunds, orders')
      && RequestsHaveRefund(orders', t.refunds) && KeyedOrdersPaid(orders')
      && forall k :: k in orders' ==> k < t.next + 1
  {
    var orders' := t.orders[t.next := NewOrder(user, [l])];
    assert t.next !in t.orders;
    OpenCartKeepsLinesWellFormed(t, user, l);
    OpenCartKeepsOneCart(t, user, l);
    NewOrderKeepsOrderFacts(t, user, l);
    StillListed(t.orders, orders', t.lines);
  }

  /** The only order that lists the open line `l` of `user` is the user's cart `o`. */
  lemma OnlyCartListsLine(t: Tables, user: UserId, i: Id, o: Id, l: Id)
    requires Consistent(t) && IsCart(t.orders, o, user) && IsOpenLine(t.lines, l, user, i)
    ensures forall p :: p in t.orders && p != o ==> l !in t.orders[p].items
  {
    forall p | p in t.orders && l in t.orders[p].items ensures p == o {
      OpenLineOnlyInCart(t, user, i, l, p);
    }
  }

  /** Deleting a line that only order `o` lists touches `o` and no other order. */
  lemma DeleteLineShape(t: Tables, o: Id, l: Id)
    requires o in t.orders
    requires forall p :: p in t.orders && p != o ==> l !in t.orders[p].items
    ensures DeleteLine(t, l).orders == t.orders[o := t.orders[o].(items := Without(t.orders[o].items, l))]
  {
    var m := DeleteLine(t, l).orders;
    var m' := t.orders[o := t.orders[o].(items := Without(t.orders[o].items, l))];
    forall p | p in t.orders ensures m[p] == m'[p] {
      if p != o {
        assert l !in t.orders[p].items;
      }
    }
    assert m == m';
  }

  lemma DeleteLineFlags(t: Tables, l: Id)
    ensures SameOrderFlags(t.orders, DeleteLine(t, l).orders)
  {
  }

  lemma DeleteLineKeepsLinesWellFormed(t: Tables, l: Id)
    requires OrderLinesWellFormed(t.orders, t.lines)
    ensures OrderLinesWellFormed(DeleteLine(t, l).orders, DeleteLine(t, l).lines)
  {
    var t1 := DeleteLine(t, l);
    forall p | p in t1.orders ensures Distinct(t1.orders[p].items) {
      WithoutDistinct(t.orders[p].items, l);
    }
    forall p, k | p in t1.orders && 0 <= k < |t1.orders[p].items|
      ensures LineOf(t1.lines, t1.orders[p].items[k], t1.orders[p].user, t1.orders[p].ordered)
    {
      var x := t1.orders[p].items[k];
      assert x in t1.orders[p].items;
      assert x in t.orders[p].items && x != l;
      var m :| 0 <= m < |t.orders[p].items| && t.orders[p].items[m] == x;
      assert LineOf(t.lines, t.orders[p].items[m], t.orders[p].user, t.orders[p].ordered);
    }
  }

  lemma DeleteLineKeepsLineFacts(t: Tables, l: Id)
    requires OneOpenLine(t.lines) && QuantitiesPositive(t.lines) && LinesPriced(t.lines, t.items)
    requires LooseLinesSingle(t.orders, t.lines)
    ensures var t1 := DeleteLine(t, l);
      OneOpenLine(t1.lines) && QuantitiesPositive(t1.lines) && LinesPriced(t1.lines, t1.items)
      && LooseLinesSingle(t1.orders, t1.lines)
  {
    var t1 := DeleteLine(t, l);
    forall l1, l2, u, j | IsOpenLine(t1.lines, l1, u, j) && IsOpenLine(t1.lines, l2, u, j) ensures l1 == l2 {
      assert IsOpenLine(t.lines, l1, u, j) && IsOpenLine(t.lines, l2, u, j);
    }
    forall x | x in t1.lines && InSomeOrder(t.orders, x) ensures InSomeOrder(t1.orders, x) {
      var p :| p in t.orders && x in t.orders[p].items;
      assert x in t1.orders[p].items;
    }
    StillListed(t.orders, t1.orders, t1.lines);
  }

  /** Deleting the open line keeps every part of the invariant except, for
      the cart `o` alone, that it is non-empty. */
  lemma DeleteLineConsistent(t: Tables, user: UserId, i: Id, o: Id, l: Id)
    requires Consistent(t) && IsCart(t.orders, o, user) && IsOpenLine(t.lines, l, user, i)
    ensures var t1 := DeleteLine(t, l);
      && KeysBelowNext(t1) && OrderLinesWellFormed(t1.orders, t1.lines) && OneCartPerUser(t1.orders)
      && OneOpenLine(t1.lines) && QuantitiesPositive(t1.lines) && LooseLinesSingle(t1.orders, t1.lines)
      && LinesPriced(t1.lines, t1.items) && CouponsExist(t1.orders, t1.coupons)
      && RefundsOfPaidOrders(t1.refunds, t1.orders) && OneRefundPerOrder(t1.refunds)
      && RequestsHaveRefund(t1.orders, t1.refunds) && KeyedOrdersPaid(t1.orders) && SlugsDerived(t1.items)
      && (forall p :: p in t1.orders && p != o && !t1.orders[p].ordered ==> |t1.orders[p].items| > 0)
      && t1.orders == t.orders[o := t.orders[o].(items := Without(t.orders[o].items, l))]
  {
    OnlyCartListsLine(t, user, i, o, l);
    DeleteListedLine(t, o, l);
  }

  /** `DeleteLineConsistent` for a line that no order other than `o` lists. */
  lemma DeleteListedLine(t: Tables, o: Id, l: Id)
    requires KeysBelowNext(t) && OrderLinesWellFormed(t.orders, t.lines) && OneCartPerUser(t.orders)
    requires OneOpenLine(t.lines) && QuantitiesPositive(t.lines) && LooseLinesSingle(t.orders, t.lines)
    requires LinesPriced(t.lines, t.items) && CouponsExist(t.orders, t.coupons) && CartsNonEmpty(t.orders)
    requires RefundsOfPaidOrders(t.refunds, t.orders) && OneRefundPerOrder(t.refunds)
    requires RequestsHaveRefund(t.orders, t.refunds) && KeyedOrdersPaid(t.orders) && SlugsDerived(t.items)
    requires o in t.orders && forall p :: p in t.orders && p != o ==> l !in t.orders[p].items
    ensures var t1 := DeleteLine(t, l);
      && KeysBelowNext(t1) && OrderLinesWellFormed(t1.orders, t1.lines) && OneCartPerUser(t1.orders)
      && OneOpenLine(t1.lines) && QuantitiesPositive(t1.lines) && LooseLinesSingle(t1.orders, t1.lines)
      && LinesPriced(t1.lines, t1.items) && CouponsExist(t1.orders, t1.coupons)
      && RefundsOfPaidOrders(t1.refunds, t1.orders) && OneRefundPerOrder(t1.refunds)
      && RequestsHaveRefund(t1.orders, t1.refunds) && KeyedOrdersPaid(t1.orders) && SlugsDerived(t1.items)
      && (forall p :: p in t1.orders && p != o && !t1.orders[p].ordered ==> |t1.orders[p].items| > 0)
      && t1.orders == t.orders[o := t.orders[o].(items := Without(t.orders[o].items, l))]
  {
    var t1 := DeleteLine(t, l);
    DeleteLineShape(t, o, l);
    DeleteLineFlags(t, l);
    OrdersReflagged(t.orders, t1.orders, t.coupons, t.refunds);
    DeleteLineKeepsLinesWellFormed(t, l);
    DeleteLineKeepsLineFacts(t, l);
  }

  /** Removing an unordered order keeps the facts about orders. */
  lemma RemoveCartKeepsOrderFacts(orders: Orders, lines: Lines, coupons: map<Id, Coupon>, refunds: map<Id, Refund>, o: Id)
    requires o in orders && !orders[o].ordered && orders[o].items == []
    requires OrderLinesWellFormed(orders, lines) && OneCartPerUser(orders) && LooseLinesSingle(orders, lines)
    requires CouponsExist(orders, coupons) && RefundsOfPaidOrders(refunds, orders)
    requires RequestsHaveRefund(orders, refunds) && KeyedOrdersPaid(orders)
    requires forall p :: p in orders && p != o && !orders[p].ordered ==> |orders[p].items| > 0
    ensures var orders' := orders - {o};
      && OrderLinesWellFormed(orders', lines) && OneCartPerUser(orders') && LooseLinesSingle(orders', lines)
      && CartsNonEmpty(orders') && CouponsExist(orders', coupons) && RefundsOfPaidOrders(refunds, orders')
      && RequestsHaveRefund(orders', refunds) && KeyedOrdersPaid(orders')
  {
    var orders' := orders - {o};
    forall o1, o2, u | IsCart(orders', o1, u) && IsCart(orders', o2, u) ensures o1 == o2 {
      assert IsCart(orders, o1, u) && IsCart(orders, o2, u);
    }
    forall x | x in lines && !lines[x].ordered && InSomeOrder(orders, x) ensures InSomeOrder(orders', x) {
      var p :| p in orders && x in orders[p].items;
      assert p != o;
      assert p in orders' && x in orders'[p].items;
    }
    forall r | r in refunds ensures refunds[r].order in orders' {
      assert orders[refunds[r].order].ordered;
    }
    forall p | p in orders' && orders'[p].refundRequested ensures HasRefund(refunds, p) {
      assert p in orders;
    }
  }

  lemma DropLineConsistent(t: Tables, user: UserId, i: Id, o: Id, l: Id)
    requires Consistent(t) && IsCart(t.orders, o, user) && IsOpenLine(t.lines, l, user, i)
    ensures Consistent(DropLine(t, o, l).0)
  {
    DeleteLineConsistent(t, user, i, o, l);
    var t1 := DeleteLine(t, l);
    if t1.orders[o].items == [] {
      RemoveCartKeepsOrderFacts(t1.orders, t1.lines, t1.coupons, t1.refunds, o);
    }
  }

  // ---------------------------------------------------------------------------
  // The row updates' effect on cart quantities
  // ---------------------------------------------------------------------------

  /** Every cart quantity other than that of `item` in the cart of `user` is
      the same in `t'` as in `t`. */
  ghost predicate OtherQuantitiesKept(t: Tables, t': Tables, user: UserId, item: Id)
  {
    forall u, j :: (u != user || j != item) ==> CartQuantity(t', u, j) == CartQuantity(t, u, j)
  }

  /** The cart quantity of `item` is the quantity of the user's open line,
      when the cart lists it. */
  lemma QuantityOfListedLine(t: Tables, user: UserId, i: Id, o: Id, l: Id)
    requires Consistent(t) && IsCart(t.orders, o, user) && IsOpenLine(t.lines, l, user, i)
    ensures CartQuantity(t, user, i) == if l in t.orders[o].items then t.lines[l].quantity else 0
  {
    ActiveOrderIs(t.orders, user, o);
    OpenLineIs(t.lines, l, user, i);
    CartQuantityOfLine(t, user, i);
  }

  lemma SetQuantityEffect(t: Tables, user: UserId, i: Id, o: Id, l: Id, q: nat)
    requires Consistent(t) && IsCart(t.orders, o, user) && IsOpenLine(t.lines, l, user, i)
    requires l in t.orders[o].items
    ensures CartQuantity(SetQuantity(t, l, q), user, i) == q
    ensures OtherQuantitiesKept(t, SetQuantity(t, l, q), user, i)
  {
    OnlyCartListsLine(t, user, i, o, l);
    QuantityOfListedLine(t, user, i, o, l);
    assert Distinct(t.orders[o].items);
    ListedQuantitySet(t, user, i, o, l, q);
  }

  /** Saving a new quantity on the one line of the cart that holds `i`. */
  lemma ListedQuantitySet(t: Tables, user: UserId, i: Id, o: Id, l: Id, q: nat)
    requires OneCartPerUser(t.orders) && IsCart(t.orders, o, user) && Distinct(t.orders[o].items)
    requires l in t.orders[o].items && l in t.lines && t.lines[l].item == i
    requires forall p :: p in t.orders && p != o ==> l !in t.orders[p].items
    requires CartQuantity(t, user, i) == t.lines[l].quantity
    ensures CartQuantity(SetQuantity(t, l, q), user, i) == q
    ensures OtherQuantitiesKept(t, SetQuantity(t, l, q), user, i)
  {
    var t' := SetQuantity(t, l, q);
    var v := t'.lines[l];
    ActiveOrderIs(t.orders, user, o);
    QtyPoint(t.lines, t.orders[o].items, l, v, i);
    forall u, j | u != user || j != i ensures CartQuantity(t', u, j) == CartQuantity(t, u, j) {
      match ActiveOrder(t.orders, u)
      case None =>
      case Some(p) =>
        if p == o {
          QtyPoint(t.lines, t.orders[o].items, l, v, j);
        } else {
          QtyFrame(t'.lines, t.lines, t.orders[p].items);
        }
    }
  }

  lemma AttachLineEffect(t: Tables, user: UserId, i: Id, o: Id, l: Id)
    requires OneCartPerUser(t.orders) && IsCart(t.orders, o, user) && IsOpenLine(t.lines, l, user, i)
    ensures CartQuantity(AttachLine(t, o, l), user, i) == CartQuantity(t, user, i) + t.lines[l].quantity
    ensures OtherQuantitiesKept(t, AttachLine(t, o, l), user, i)
  {
    var t' := AttachLine(t, o, l);
    assert forall p, u :: IsCart(t.orders, p, u) <==> IsCart(t'.orders, p, u);
    ActiveOrderSame(t.orders, t'.orders);
    ActiveOrderIs(t.orders, user, o);
    forall j ensures Qty(t.lines, t'.orders[o].items, j) == Qty(t.lines, t.orders[o].items, j) + Contribution(t.lines, l, j) {
      QtyAppend(t.lines, t.orders[o].items, l, j);
    }
  }

  lemma OpenCartEffect(t: Tables, user: UserId, i: Id, l: Id)
    requires OneCartPerUser(t.orders) && t.next !in t.orders
    requires ActiveOrder(t.orders, user).None? && IsOpenLine(t.lines, l, user, i)
    ensures CartQuantity(OpenCart(t, user, l), user, i) == t.lines[l].quantity
    ensures OtherQuantitiesKept(t, OpenCart(t, user, l), user, i)
  {
    var t' := OpenCart(t, user, l);
    OpenCartKeepsOneCart(t, user, l);
    ActiveOrderIs(t'.orders, user, t.next);
    assert t'.orders[t.next].items == [l];
    forall j ensures Qty(t.lines, [l], j) == Contribution(t.lines, l, j) {
      assert Qty(t.lines, [l], j) == Contribution(t.lines, l, j) + Qty(t.lines, [l][1..], j);
      assert [l][1..] == [];
    }
    forall u, j | u != user || j != i ensures CartQuantity(t', u, j) == CartQuantity(t, u, j) {
      if u != user {
        match ActiveOrder(t.orders, u)
        case None =>
          forall p ensures !IsCart(t'.orders, p, u) {
            if p != t.next {
              assert !IsCart(t.orders, p, u);
            }
          }
        case Some(p) =>
          ActiveOrderIs(t'.orders, u, p);
      }
    }
  }

  /** The tables after `DropLine`, written out. */
  lemma DropLineResult(t: Tables, o: Id, l: Id)
    requires o in t.orders && forall p :: p in t.orders && p != o ==> l !in t.orders[p].items
    ensures DropLine(t, o, l) ==
      if Without(t.orders[o].items, l) == [] then (t.(lines := t.lines - {l}, orders := t.orders - {o}), true)
      else (DropFromCart(t, o, l), false)
  {
    DeleteLineShape(t, o, l);
    var m := t.orders[o := t.orders[o].(items := Without(t.orders[o].items, l))];
    assert m - {o} == t.orders - {o};
  }

  /** The tables after deleting line `l` of cart `o` when the cart keeps other lines. */
  function DropFromCart(t: Tables, o: Id, l: Id): Tables
    requires o in t.orders
  {
    t.(lines := t.lines - {l}, orders := t.orders[o := t.orders[o].(items := Without(t.orders[o].items, l))])
  }

  lemma DropFromCartOthers(t: Tables, user: UserId, i: Id, o: Id, l: Id)
    requires OneCartPerUser(t.orders) && IsCart(t.orders, o, user)
    requires l in t.lines && t.lines[l].item == i
    requires forall p :: p in t.orders && p != o ==> l !in t.orders[p].items
    requires Distinct(t.orders[o].items) && l in t.orders[o].items
    ensures forall u :: ActiveOrder(DropFromCart(t, o, l).orders, u) == ActiveOrder(t.orders, u)
    ensures OtherQuantitiesKept(t, DropFromCart(t, o, l), user, i)
  {
    var ids := t.orders[o].items;
    var w := Without(ids, l);
    var t' := DropFromCart(t, o, l);
    assert forall p, u :: IsCart(t.orders, p, u) <==> IsCart(t'.orders, p, u);
    ActiveOrderSame(t.orders, t'.orders);
    forall u, j | u != user || j != i ensures CartQuantity(t', u, j) == CartQuantity(t, u, j) {
      match ActiveOrder(t.orders, u)
      case None =>
      case Some(p) =>
        if p != o {
          QtyFrame(t'.lines, t.lines, t.orders[p].items);
        } else {
          QtyFrame(t'.lines, t.lines, w);
          QtyWithout(t.lines, ids, l, j);
        }
    }
  }

  /** Deleting the line leaves the cart: its quantity for `i` drops to 0. */
  lemma DropKeptCartEffect(t: Tables, user: UserId, i: Id, o: Id, l: Id)
    requires Consistent(t) && IsCart(t.orders, o, user) && IsOpenLine(t.lines, l, user, i)
    requires l in t.orders[o].items
    ensures var t' := DropFromCart(t, o, l);
      CartQuantity(t', user, i) == 0 && OtherQuantitiesKept(t, t', user, i) && ActiveOrder(t'.orders, user) == Some(o)
  {
    var ids := t.orders[o].items;
    var w := Without(ids, l);
    var t' := DropFromCart(t, o, l);
    OnlyCartListsLine(t, user, i, o, l);
    QuantityOfListedLine(t, user, i, o, l);
    ActiveOrderIs(t.orders, user, o);
    DropFromCartOthers(t, user, i, o, l);
    QtyFrame(t'.lines, t.lines, w);
    QtyWithout(t.lines, ids, l, i);
  }

  /** Deleting the cart's only line deletes the cart too. */
  lemma DropGoneCartEffect(t: Tables, user: UserId, i: Id, o: Id, l: Id)
    requires OneCartPerUser(t.orders) && IsCart(t.orders, o, user) && Distinct(t.orders[o].items)
    requires l in t.lines && t.lines[l].item == i
    requires forall p :: p in t.orders && p != o ==> l !in t.orders[p].items
    requires l in t.orders[o].items && Without(t.orders[o].items, l) == []
    ensures var t' := t.(lines := t.lines - {l}, orders := t.orders - {o});
      CartQuantity(t', user, i) == 0 && OtherQuantitiesKept(t, t', user, i) && ActiveOrder(t'.orders, user).None?
  {
    var ids := t.orders[o].items;
    var t' := t.(lines := t.lines - {l}, orders := t.orders - {o});
    ActiveOrderIs(t.orders, user, o);
    assert OneCartPerUser(t'.orders) by {
      assert forall p, u :: IsCart(t'.orders, p, u) ==> IsCart(t.orders, p, u);
    }
    forall p ensures !IsCart(t'.orders, p, user) {
      if IsCart(t'.orders, p, user) {
        assert IsCart(t.orders, p, user);
      }
    }
    forall j ensures Qty(t.lines, ids, j) == Contribution(t.lines, l, j) {
      QtyWithout(t.lines, ids, l, j);
    }
    forall u, j | u != user || j != i ensures CartQuantity(t', u, j) == CartQuantity(t, u, j) {
      if u != user {
        match ActiveOrder(t.orders, u)
        case None =>
          forall p ensures !IsCart(t'.orders, p, u) {
            assert IsCart(t'.orders, p, u) ==> IsCart(t.orders, p, u);
          }
        case Some(p) =>
          assert IsCart(t'.orders, p, u);
          QtyFrame(t'.lines, t.lines, t.orders[p].items);
          ActiveOrderIs(t'.orders, u, p);
      }
    }
  }

  lemma DropLineEffect(t: Tables, user: UserId, i: Id, o: Id, l: Id)
    requires Consistent(t) && IsCart(t.orders, o, user) && IsOpenLine(t.lines, l, user, i)
    requires l in t.orders[o].items
    ensures CartQuantity(DropLine(t, o, l).0, user, i) == 0
    ensures OtherQuantitiesKept(t, DropLine(t, o, l).0, user, i)
    ensures DropLine(t, o, l).1 <==> ActiveOrder(DropLine(t, o, l).0.orders, user).None?
  {
    OnlyCartListsLine(t, user, i, o, l);
    DropLineResult(t, o, l);
    if Without(t.orders[o].items, l) == [] {
      assert Distinct(t.orders[o].items);
      DropGoneCartEffect(t, user, i, o, l);
    } else {
      DropKeptCartEffect(t, user, i, o, l);
    }
  }

  // ---------------------------------------------------------------------------
  // The views keep the invariant
  // ---------------------------------------------------------------------------

  /** A line that only the user's cart could list, and that it does not, is
      loose and so still has quantity 1. */
  lemma UnlistedLineIsSingle(t: Tables, user: UserId, i: Id, l: Id)
    requires Consistent(t) && IsOpenLine(t.lines, l, user, i)
    requires ActiveOrder(t.orders, user).None? || l !in t.orders[ActiveOrder(t.orders, user).value].items
    ensures !InSomeOrder(t.orders, l) && t.lines[l].quantity == 1
  {
    if InSomeOrder(t.orders, l) {
      var p :| p in t.orders && l in t.orders[p].items;
      OpenLineOnlyInCart(t, user, i, l, p);
      ActiveOrderIs(t.orders, user, p);
    }
  }

  lemma AddToCartConsistent(t: Tables, user: UserId, slug: string)
    requires Consistent(t) && SlugUnique(t.items, slug)
    ensures Consistent(AddToCart(t, user, slug).0)
    ensures AddToCart(t, user, slug).0.items == t.items
  {
    match FindItem(t.items, slug)
    case None =>
    case Some(i) =>
      var (t1, l) := GetOrCreateLine(t, user, i);
      GetOrCreateLineConsistent(t, user, i);
      var order := ActiveOrder(t1.orders, user);
      var listed := order.Some? && OrderHasSlug(t1, order.value, slug);
      if order.Some? {
        HasSlugIffHasLine(t1, user, order.value, slug, i, l);
      }
      AddToCartShape(t, user, slug, i);
      AddListedConsistent(t1, user, i, l, order, listed);
  }

  lemma AddListedConsistent(t: Tables, user: UserId, i: Id, l: Id, order: Option<Id>, listed: bool)
    requires Consistent(t) && IsOpenLine(t.lines, l, user, i) && order == ActiveOrder(t.orders, user)
    requires order.Some? ==> (listed <==> l in t.orders[order.value].items)
    ensures Consistent(AddListed(t, user, l, order, listed).0)
    ensures AddListed(t, user, l, order, listed).0.items == t.items
  {
    AddListedKeepsItems(t, user, l, order, listed);
    match order
    case None =>
      OpenCartConsistent(t, user, l);
    case Some(o) =>
      if listed {
        IncrementConsistent(t, user, i, l, o);
      } else {
        AttachLineConsistent(t, user, o, l);
      }
  }

  lemma AddListedKeepsItems(t: Tables, user: UserId, l: Id, order: Option<Id>, listed: bool)
    requires l in t.lines && (order.Some? ==> order.value in t.orders)
    ensures AddListed(t, user, l, order, listed).0.items == t.items
  {
  }

  /** The `+= 1` branch of `AddListed`, for a line the cart already lists. */
  lemma IncrementConsistent(t: Tables, user: UserId, i: Id, l: Id, o: Id)
    requires Consistent(t) && IsOpenLine(t.lines, l, user, i) && ActiveOrder(t.orders, user) == Some(o)
    requires l in t.orders[o].items
    ensures Consistent(AddListed(t, user, l, Some(o), true).0)
  {
    var q := t.lines[l].quantity + 1;
    assert InSomeOrder(t.orders, l);
    SetQuantityConsistent(t, l, q);
    AddListedIncrements(t, user, l, o);
  }

  /** The `+= 1` branch of `AddListed` as the update it makes. */
  lemma AddListedIncrements(t: Tables, user: UserId, l: Id, o: Id)
    requires l in t.lines && o in t.orders
    ensures AddListed(t, user, l, Some(o), true).0 == SetQuantity(t, l, t.lines[l].quantity + 1)
  {
  }

  lemma DecreaseQuantityConsistent(t: Tables, user: UserId, slug: string)
    requires Consistent(t) && SlugUnique(t.items, slug)
    ensures Consistent(DecreaseQuantity(t, user, slug).0)
    ensures DecreaseQuantity(t, user, slug).0.items == t.items
  {
    match FindItem(t.items, slug)
    case None =>
    case Some(i) =>
      var (t1, l) := GetOrCreateLine(t, user, i);
      GetOrCreateLineConsistent(t, user, i);
      match ActiveOrder(t1.orders, user)
      case None =>
        assert DecreaseQuantity(t, user, slug).0 == t1;
      case Some(o) =>
        DecreaseInCartConsistent(t, user, slug, i, o);
  }

  lemma DecreaseInCartConsistent(t: Tables, user: UserId, slug: string, i: Id, o: Id)
    requires Consistent(t) && SlugUnique(t.items, slug) && FindItem(t.items, slug) == Some(i)
    requires ActiveOrder(GetOrCreateLine(t, user, i).0.orders, user) == Some(o)
    ensures Consistent(DecreaseQuantity(t, user, slug).0)
    ensures DecreaseQuantity(t, user, slug).0.items == t.items
  {
    var (t1, l) := GetOrCreateLine(t, user, i);
    GetOrCreateLineConsistent(t, user, i);
    HasSlugIffHasLine(t1, user, o, slug, i, l);
    DecreaseListedConsistent(t1, user, i, o, l, OrderHasSlug(t1, o, slug));
  }

  lemma DecreaseListedConsistent(t: Tables, user: UserId, i: Id, o: Id, l: Id, listed: bool)
    requires Consistent(t) && IsCart(t.orders, o, user) && IsOpenLine(t.lines, l, user, i)
    requires listed ==> l in t.orders[o].items
    ensures Consistent(DecreaseListed(t, o, l, listed).0)
    ensures DecreaseListed(t, o, l, listed).0.items == t.items
  {
    if listed && t.lines[l].quantity > 1 {
      DecrementConsistent(t, o, l);
    } else if listed {
      DecreaseDropConsistent(t, user, i, o, l);
    }
  }

  lemma DecrementConsistent(t: Tables, o: Id, l: Id)
    requires Consistent(t) && o in t.orders && l in t.orders[o].items && l in t.lines
    requires t.lines[l].quantity > 1
    ensures Consistent(DecreaseListed(t, o, l, true).0)
    ensures DecreaseListed(t, o, l, true).0.items == t.items
  {
    assert InSomeOrder(t.orders, l);
    SetQuantityConsistent(t, l, t.lines[l].quantity - 1);
  }

  lemma DecreaseDropConsistent(t: Tables, user: UserId, i: Id, o: Id, l: Id)
    requires Consistent(t) && IsCart(t.orders, o, user) && IsOpenLine(t.lines, l, user, i)
    requires t.lines[l].quantity <= 1
    ensures Consistent(DecreaseListed(t, o, l, true).0)
    ensures DecreaseListed(t, o, l, true).0.items == t.items
  {
    DropLineConsistent(t, user, i, o, l);
  }

  lemma RemoveFromCartConsistent(t: Tables, user: UserId, slug: string)
    requires Consistent(t) && SlugUnique(t.items, slug)
    ensures Consistent(RemoveFromCart(t, user, slug).0)
    ensures RemoveFromCart(t, user, slug).0.items == t.items
  {
    match FindItem(t.items, slug)
    case None =>
    case Some(i) =>
      var (t1, l) := GetOrCreateLine(t, user, i);
      GetOrCreateLineConsistent(t, user, i);
      match ActiveOrder(t1.orders, user)
      case None =>
        assert RemoveFromCart(t, user, slug).0 == t1;
      case Some(o) =>
        if OrderHasSlug(t1, o, slug) {
          assert RemoveFromCart(t, user, slug).0 == DropLine(t1, o, l).0;
          DropLineConsistent(t1, user, i, o, l);
        } else {
          assert RemoveFromCart(t, user, slug).0 == t1;
        }
  }

  // ---------------------------------------------------------------------------
  // What the views do to the cart
  // ---------------------------------------------------------------------------

  /** Adding an item puts exactly one more unit of it in the user's cart and
      changes no other cart quantity, whether the cart, or the line, had to
      be created or not. */
  lemma {:induction false} AddToCartQuantities(t: Tables, user: UserId, slug: string, i: Id)
    requires Consistent(t) && SlugUnique(t.items, slug) && FindItem(t.items, slug) == Some(i)
    ensures CartQuantity(AddToCart(t, user, slug).0, user, i) == CartQuantity(t, user, i) + 1
    ensures OtherQuantitiesKept(t, AddToCart(t, user, slug).0, user, i)
  {
    var (t1, l) := GetOrCreateLine(t, user, i);
    GetOrCreateLineConsistent(t, user, i);
    GetOrCreateLineKeepsCarts(t, user, i);
    var order := ActiveOrder(t1.orders, user);
    var listed := order.Some? && OrderHasSlug(t1, order.value, slug);
    if order.Some? {
      HasSlugIffHasLine(t1, user, order.value, slug, i, l);
    }
    AddListedQuantities(t1, user, i, l, order, listed);
  }

  lemma AddListedQuantities(t: Tables, user: UserId, i: Id, l: Id, order: Option<Id>, listed: bool)
    requires Consistent(t) && IsOpenLine(t.lines, l, user, i) && order == ActiveOrder(t.orders, user)
    requires order.Some? ==> (listed <==> l in t.orders[order.value].items)
    ensures CartQuantity(AddListed(t, user, l, order, listed).0, user, i) == CartQuantity(t, user, i) + 1
    ensures OtherQuantitiesKept(t, AddListed(t, user, l, order, listed).0, user, i)
  {
    match order
    case None =>
      UnlistedLineIsSingle(t, user, i, l);
      assert t.next !in t.orders;
      AddedInNewCart(t, user, i, l, listed);
    case Some(o) =>
      QuantityOfListedLine(t, user, i, o, l);
      if listed {
        OnlyCartListsLine(t, user, i, o, l);
        assert Distinct(t.orders[o].items);
        AddedToListedLine(t, user, i, o, l);
      } else {
        UnlistedLineIsSingle(t, user, i, l);
        AddedAsNewLine(t, user, i, o, l);
      }
  }

  /** The three branches of `AddListed`, each in terms of the update it makes. */
  lemma AddedInNewCart(t: Tables, user: UserId, i: Id, l: Id, listed: bool)
    requires OneCartPerUser(t.orders) && t.next !in t.orders && ActiveOrder(t.orders, user).None?
    requires IsOpenLine(t.lines, l, user, i) && t.lines[l].quantity == 1
    ensures CartQuantity(AddListed(t, user, l, None, listed).0, user, i) == CartQuantity(t, user, i) + 1
    ensures OtherQuantitiesKept(t, AddListed(t, user, l, None, listed).0, user, i)
  {
    OpenCartEffect(t, user, i, l);
  }

  lemma AddedToListedLine(t: Tables, user: UserId, i: Id, o: Id, l: Id)
    requires OneCartPerUser(t.orders) && IsCart(t.orders, o, user) && Distinct(t.orders[o].items)
    requires l in t.orders[o].items && l in t.lines && t.lines[l].item == i
    requires forall p :: p in t.orders && p != o ==> l !in t.orders[p].items
    requires CartQuantity(t, user, i) == t.lines[l].quantity
    ensures CartQuantity(AddListed(t, user, l, Some(o), true).0, user, i) == CartQuantity(t, user, i) + 1
    ensures OtherQuantitiesKept(t, AddListed(t, user, l, Some(o), true).0, user, i)
  {
    var q := t.lines[l].quantity + 1;
    ListedQuantitySet(t, user, i, o, l, q);
  }

  lemma AddedAsNewLine(t: Tables, user: UserId, i: Id, o: Id, l: Id)
    requires OneCartPerUser(t.orders) && IsCart(t.orders, o, user) && IsOpenLine(t.lines, l, user, i)
    requires t.lines[l].quantity == 1
    ensures CartQuantity(AddListed(t, user, l, Some(o), false).0, user, i) == CartQuantity(t, user, i) + 1
    ensures OtherQuantitiesKept(t, AddListed(t, user, l, Some(o), false).0, user, i)
  {
    AttachLineEffect(t, user, i, o, l);
  }

  /** Decreasing takes one unit of the item out of the cart when it holds
      any, and changes no other cart quantity. */
  lemma {:induction false} DecreaseQuantityQuantities(t: Tables, user: UserId, slug: string, i: Id)
    requires Consistent(t) && SlugUnique(t.items, slug) && FindItem(t.items, slug) == Some(i)
    ensures var n := CartQuantity(t, user, i);
      CartQuantity(DecreaseQuantity(t, user, slug).0, user, i) == if n == 0 then 0 else n - 1
    ensures OtherQuantitiesKept(t, DecreaseQuantity(t, user, slug).0, user, i)
  {
    var t1 := GetOrCreateLine(t, user, i).0;
    var t2 := DecreaseQuantity(t, user, slug).0;
    GetOrCreateLineConsistent(t, user, i);
    GetOrCreateLineKeepsCarts(t, user, i);
    var order := ActiveOrder(t1.orders, user);
    if order.None? {
      DecreaseNoCartShape(t, user, slug, i);
    } else {
      DecreaseInCartQuantities(t, user, slug, i, order.value);
    }
    DecreasedAcross(t, t1, t2, user, i);
  }

  /** Cart quantities kept from `t` to `t1`, then one unit less of `i` (if
      any) and all others kept from `t1` to `t2`: the same from `t` to `t2`. */
  lemma DecreasedAcross(t: Tables, t1: Tables, t2: Tables, user: UserId, i: Id)
    requires forall u, j :: CartQuantity(t1, u, j) == CartQuantity(t, u, j)
    requires var n := CartQuantity(t1, user, i);
      CartQuantity(t2, user, i) == if n == 0 then 0 else n - 1
    requires OtherQuantitiesKept(t1, t2, user, i)
    ensures var n := CartQuantity(t, user, i);
      CartQuantity(t2, user, i) == if n == 0 then 0 else n - 1
    ensures OtherQuantitiesKept(t, t2, user, i)
  {
  }

  lemma DecreaseInCartQuantities(t: Tables, user: UserId, slug: string, i: Id, o: Id)
    requires SlugUnique(t.items, slug) && FindItem(t.items, slug) == Some(i)
    requires Consistent(GetOrCreateLine(t, user, i).0)
    requires ActiveOrder(GetOrCreateLine(t, user, i).0.orders, user) == Some(o)
    ensures var t1 := GetOrCreateLine(t, user, i).0;
      var n := CartQuantity(t1, user, i);
      CartQuantity(DecreaseQuantity(t, user, slug).0, user, i) == if n == 0 then 0 else n - 1
    ensures OtherQuantitiesKept(GetOrCreateLine(t, user, i).0, DecreaseQuantity(t, user, slug).0, user, i)
  {
    var (t1, l) := GetOrCreateLine(t, user, i);
    var listed := OrderHasSlug(t1, o, slug);
    HasSlugIffHasLine(t1, user, o, slug, i, l);
    DecreaseListedQuantities(t1, user, i, o, l, listed);
    DecreaseInCartShape(t, user, slug, i, o);
  }

  lemma DecreaseListedQuantities(t: Tables, user: UserId, i: Id, o: Id, l: Id, listed: bool)
    requires Consistent(t) && IsCart(t.orders, o, user) && IsOpenLine(t.lines, l, user, i)
    requires listed <==> l in t.orders[o].items
    ensures var n := CartQuantity(t, user, i);
      CartQuantity(DecreaseListed(t, o, l, listed).0, user, i) == if n == 0 then 0 else n - 1
    ensures OtherQuantitiesKept(t, DecreaseListed(t, o, l, listed).0, user, i)
  {
    QuantityOfListedLine(t, user, i, o, l);
    if !listed {
      UnlistedLeftAlone(t, user, i, o, l);
    } else if t.lines[l].quantity > 1 {
      OnlyCartListsLine(t, user, i, o, l);
      assert Distinct(t.orders[o].items);
      DecrementQuantities(t, user, i, o, l);
    } else {
      DropLineEffect(t, user, i, o, l);
      LastUnitDrops(t, o, l);
    }
  }

  /** The branches of `DecreaseListed`, each in terms of the update it makes. */
  lemma UnlistedLeftAlone(t: Tables, user: UserId, i: Id, o: Id, l: Id)
    requires o in t.orders && l in t.lines
    ensures DecreaseListed(t, o, l, false).0 == t
    ensures OtherQuantitiesKept(t, DecreaseListed(t, o, l, false).0, user, i)
  {
  }

  lemma DecrementQuantities(t: Tables, user: UserId, i: Id, o: Id, l: Id)
    requires OneCartPerUser(t.orders) && IsCart(t.orders, o, user) && Distinct(t.orders[o].items)
    requires l in t.orders[o].items && l in t.lines && t.lines[l].item == i && t.lines[l].quantity > 1
    requires forall p :: p in t.orders && p != o ==> l !in t.orders[p].items
    requires CartQuantity(t, user, i) == t.lines[l].quantity
    ensures CartQuantity(DecreaseListed(t, o, l, true).0, user, i) == CartQuantity(t, user, i) - 1
    ensures OtherQuantitiesKept(t, DecreaseListed(t, o, l, true).0, user, i)
  {
    var q := t.lines[l].quantity - 1;
    ListedQuantitySet(t, user, i, o, l, q);
  }

  lemma LastUnitDrops(t: Tables, o: Id, l: Id)
    requires o in t.orders && l in t.lines && t.lines[l].quantity <= 1
    ensures DecreaseListed(t, o, l, true).0 == DropLine(t, o, l).0
  {
  }

  /** Removing takes every unit of the item out of the cart and changes no
      other cart quantity. */
  lemma {:induction false} RemoveFromCartQuantities(t: Tables, user: UserId, slug: string, i: Id)
    requires Consistent(t) && SlugUnique(t.items, slug) && FindItem(t.items, slug) == Some(i)
    ensures CartQuantity(RemoveFromCart(t, user, slug).0, user, i) == 0
    ensures OtherQuantitiesKept(t, RemoveFromCart(t, user, slug).0, user, i)
  {
    var (t1, l) := GetOrCreateLine(t, user, i);
    GetOrCreateLineConsistent(t, user, i);
    GetOrCreateLineKeepsCarts(t, user, i);
    match ActiveOrder(t1.orders, user)
    case None =>
    case Some(o) =>
      HasSlugIffHasLine(t1, user, o, slug, i, l);
      QuantityOfListedLine(t1, user, i, o, l);
      if OrderHasSlug(t1, o, slug) {
        DropLineEffect(t1, user, i, o, l);
      }
  }

  // ---------------------------------------------------------------------------
  // What the views report, and what a miss leaves behind
  // ---------------------------------------------------------------------------

  /** The quantity of the open line, or 0 when the cart does not list it. */
  lemma OpenLineQuantity(t: Tables, user: UserId, i: Id, l: Id, order: Option<Id>)
    requires Consistent(t) && IsOpenLine(t.lines, l, user, i) && order == ActiveOrder(t.orders, user)
    ensures order.None? ==> CartQuantity(t, user, i) == 0
    ensures order.Some? ==> CartQuantity(t, user, i) == if l in t.orders[order.value].items then t.lines[l].quantity else 0
    ensures t.lines[l].quantity >= 1
  {
    if order.Some? {
      QuantityOfListedLine(t, user, i, order.value, l);
    }
  }

  /** Adding reports an updated quantity exactly when the cart already held
      the item, and otherwise that the item was added. */
  lemma AddToCartOutcome(t: Tables, user: UserId, slug: string)
    requires Consistent(t) && SlugUnique(t.items, slug)
    ensures match FindItem(t.items, slug)
      case None => AddToCart(t, user, slug) == (t, ItemNotFound)
      case Some(i) =>
        && (AddToCart(t, user, slug).1 == QuantityUpdated <==> CartQuantity(t, user, i) > 0)
        && (AddToCart(t, user, slug).1 == ItemAdded <==> CartQuantity(t, user, i) == 0)
  {
    match FindItem(t.items, slug)
    case None =>
    case Some(i) =>
      var (t1, l) := GetOrCreateLine(t, user, i);
      GetOrCreateLineConsistent(t, user, i);
      GetOrCreateLineKeepsCarts(t, user, i);
      var order := ActiveOrder(t1.orders, user);
      var listed := order.Some? && OrderHasSlug(t1, order.value, slug);
      if order.Some? {
        HasSlugIffHasLine(t1, user, order.value, slug, i, l);
      }
      OpenLineQuantity(t1, user, i, l, order);
      AddToCartShape(t, user, slug, i);
  }

  /** Decreasing reports no active order exactly when there is no cart, not in
      cart when the cart holds none of the item, a removal when it held one
      unit (and that the cart went when no cart is left), and an update when
      it held more. */
  lemma DecreaseQuantityOutcome(t: Tables, user: UserId, slug: string)
    requires Consistent(t) && SlugUnique(t.items, slug)
    ensures match FindItem(t.items, slug)
      case None => DecreaseQuantity(t, user, slug) == (t, ItemNotFound)
      case Some(i) =>
        var r := DecreaseQuantity(t, user, slug);
        var n := CartQuantity(t, user, i);
        && (r.1 == NoActiveOrder <==> ActiveOrder(t.orders, user).None?)
        && (r.1 == NotInCart <==> ActiveOrder(t.orders, user).Some? && n == 0)
        && (r.1.ItemRemoved? <==> n == 1)
        && (r.1 == QuantityUpdated <==> n >= 2)
        && (r.1.ItemRemoved? ==> (r.1.cartDeleted <==> ActiveOrder(r.0.orders, user).None?))
  {
    match FindItem(t.items, slug)
    case None =>
    case Some(i) =>
      var (t1, l) := GetOrCreateLine(t, user, i);
      GetOrCreateLineConsistent(t, user, i);
      GetOrCreateLineKeepsCarts(t, user, i);
      var order := ActiveOrder(t1.orders, user);
      OpenLineQuantity(t1, user, i, l, order);
      match order
      case None =>
      case Some(o) =>
        HasSlugIffHasLine(t1, user, o, slug, i, l);
        var listed := OrderHasSlug(t1, o, slug);
        DecreaseInCartShape(t, user, slug, i, o);
        if listed && t1.lines[l].quantity <= 1 {
          DropLineEffect(t1, user, i, o, l);
        }
  }

  /** Removing reports no active order exactly when there is no cart, not in
      cart when the cart holds none of the item, and otherwise the removal,
      saying whether the cart went with it. */
  lemma RemoveFromCartOutcome(t: Tables, user: UserId, slug: string)
    requires Consistent(t) && SlugUnique(t.items, slug)
    ensures match FindItem(t.items, slug)
      case None => RemoveFromCart(t, user, slug) == (t, ItemNotFound)
      case Some(i) =>
        var r := RemoveFromCart(t, user, slug);
        var n := CartQuantity(t, user, i);
        && (r.1 == NoActiveOrder <==> ActiveOrder(t.orders, user).None?)
        && (r.1 == NotInCart <==> ActiveOrder(t.orders, user).Some? && n == 0)
        && (r.1.ItemRemoved? <==> n > 0)
        && (r.1.ItemRemoved? ==> (r.1.cartDeleted <==> ActiveOrder(r.0.orders, user).None?))
  {
    match FindItem(t.items, slug)
    case None =>
    case Some(i) =>
      var (t1, l) := GetOrCreateLine(t, user, i);
      GetOrCreateLineConsistent(t, user, i);
      GetOrCreateLineKeepsCarts(t, user, i);
      var order := ActiveOrder(t1.orders, user);
      OpenLineQuantity(t1, user, i, l, order);
      match order
      case None =>
      case Some(o) =>
        HasSlugIffHasLine(t1, user, o, slug, i, l);
        if OrderHasSlug(t1, o, slug) {
          DropLineEffect(t1, user, i, o, l);
        }
  }

  /** `get_or_create` leaves the orders alone and at most adds one fresh,
      unattached line of quantity 1 at the next key. */
  lemma GetOrCreateLineAddsAtMostLooseLine(t: Tables, user: UserId, i: Id)
    requires Consistent(t)
    ensures var t1 := GetOrCreateLine(t, user, i).0;
      && t1.orders == t.orders && t1.items == t.items
      && (t1 == t || (t.next !in t.lines && !InSomeOrder(t.orders, t.next)
                      && t1 == t.(lines := t.lines[t.next := OrderItem(user, i, 1, false)], next := t.next + 1)))
  {
    if GetOrCreateLine(t, user, i).0 != t {
      forall p | p in t.orders ensures t.next !in t.orders[p].items {
        assert forall x :: x in t.orders[p].items ==> LineOf(t.lines, x, t.orders[p].user, t.orders[p].ordered);
      }
    }
  }

  /** When decreasing or removing misses (no cart, or the item not in it), no
      order changes and no cart quantity changes; the only trace left is the
      line `get_or_create` may have made. */
  lemma MissLeavesCartsAlone(t: Tables, user: UserId, slug: string, i: Id)
    requires Consistent(t) && SlugUnique(t.items, slug) && FindItem(t.items, slug) == Some(i)
    ensures DecreaseQuantity(t, user, slug).1 in {NoActiveOrder, NotInCart} ==>
      DecreaseQuantity(t, user, slug).0 == GetOrCreateLine(t, user, i).0
    ensures RemoveFromCart(t, user, slug).1 in {NoActiveOrder, NotInCart} ==>
      RemoveFromCart(t, user, slug).0 == GetOrCreateLine(t, user, i).0
    ensures forall u, j :: CartQuantity(GetOrCreateLine(t, user, i).0, u, j) == CartQuantity(t, u, j)
  {
    MissShape(t, user, slug, i);
    GetOrCreateLineKeepsCarts(t, user, i);
  }

  lemma MissShape(t: Tables, user: UserId, slug: string, i: Id)
    requires SlugUnique(t.items, slug) && FindItem(t.items, slug) == Some(i)
    ensures DecreaseQuantity(t, user, slug).1 in {NoActiveOrder, NotInCart} ==>
      DecreaseQuantity(t, user, slug).0 == GetOrCreateLine(t, user, i).0
    ensures RemoveFromCart(t, user, slug).1 in {NoActiveOrder, NotInCart} ==>
      RemoveFromCart(t, user, slug).0 == GetOrCreateLine(t, user, i).0
  {
  }

  /** Adding an item and then decreasing it gives back every cart quantity
      the user (and everyone else) had before. */
  lemma AddThenDecrease(t: Tables, user: UserId, slug: string, i: Id)
    requires Consistent(t) && SlugUnique(t.items, slug) && FindItem(t.items, slug) == Some(i)
    ensures var t1 := AddToCart(t, user, slug).0;
      Consistent(t1) && SlugUnique(t1.items, slug) &&
      forall u, j :: CartQuantity(DecreaseQuantity(t1, user, slug).0, u, j) == CartQuantity(t, u, j)
  {
    var t1 := AddToCart(t, user, slug).0;
    AddToCartConsistent(t, user, slug);
    AddToCartQuantities(t, user, slug, i);
    DecreaseQuantityQuantities(t1, user, slug, i);
    var t2 := DecreaseQuantity(t1, user, slug).0;
    UpThenDown(t, t1, t2, user, i);
  }

  lemma UpThenDown(t: Tables, t1: Tables, t2: Tables, user: UserId, i: Id)
    requires CartQuantity(t1, user, i) == CartQuantity(t, user, i) + 1
    requires OtherQuantitiesKept(t, t1, user, i)
    requires var n := CartQuantity(t1, user, i);
      CartQuantity(t2, user, i) == if n == 0 then 0 else n - 1
    requires OtherQuantitiesKept(t1, t2, user, i)
    ensures forall u, j :: CartQuantity(t2, u, j) == CartQuantity(t, u, j)
  {
    forall u, j ensures CartQuantity(t2, u, j) == CartQuantity(t, u, j) {
      if u != user || j != i {
        assert CartQuantity(t2, u, j) == CartQuantity(t1, u, j);
      }
    }
  }

  // ---------------------------------------------------------------------------
  // The views as methods on the store
  // ---------------------------------------------------------------------------

  /** `addItemToCart` (and `increaseQuantity`, which differs only in where it
      redirects). */
  method AddItemToCart(db: Store, user: UserId, slug: string) returns (outcome: CartOutcome)
    requires db.Valid() && SlugUnique(db.items, slug)
    modifies db
    ensures db.Valid()
    ensures (db.Snapshot(), outcome) == AddToCart(old(db.Snapshot()), user, slug)
  {
    ghost var t := db.Snapshot();
    AddToCartConsistent(t, user, slug);
    var found := db.FindItemBySlug(slug);
    if found.None? {
      return ItemNotFound;
    }
    var i := found.value;
    var l := db.GetOrCreateLine(user, i);
    var order := db.FindActiveOrder(user);
    var listed := false;
    if order.Some? {
      listed := db.HasLineWithSlug(order.value, slug);
    }
    outcome := AddLine(db, user, l, order, listed);
  }

  /** The branch of `addItemToCart` taken once the line and the active order
      are known. */
  method AddLine(db: Store, user: UserId, l: Id, order: Option<Id>, listed: bool) returns (outcome: CartOutcome)
    requires l in db.lines && (order.Some? ==> order.value in db.orders)
    modifies db
    ensures (db.Snapshot(), outcome) == AddListed(old(db.Snapshot()), user, l, order, listed)
  {
    if order.Some? {
      if listed {
        db.SetQuantity(l, db.lines[l].quantity + 1);
        outcome := QuantityUpdated;
      } else {
        db.AttachLine(order.value, l);
        outcome := ItemAdded;
      }
    } else {
      CreateThenAttach(db.Snapshot(), user, l);
      var o := db.CreateOrder(user);
      db.AttachLine(o, l);
      outcome := ItemAdded;
    }
  }

  /** `decreaseQuantity`: the quantity is lowered and saved, and a line left
      at zero is deleted, then the order if that emptied it. */
  method DecreaseItemQuantity(db: Store, user: UserId, slug: string) returns (outcome: CartOutcome)
    requires db.Valid() && SlugUnique(db.items, slug)
    modifies db
    ensures db.Valid()
    ensures (db.Snapshot(), outcome) == DecreaseQuantity(old(db.Snapshot()), user, slug)
  {
    ghost var t := db.Snapshot();
    DecreaseQuantityConsistent(t, user, slug);
    var found := db.FindItemBySlug(slug);
    if found.None? {
      return ItemNotFound;
    }
    var i := found.value;
    var l := db.GetOrCreateLine(user, i);
    ghost var t1 := db.Snapshot();
    var order := db.FindActiveOrder(user);
    if order.None? {
      return NoActiveOrder;
    }
    var o := order.value;
    var listed := db.HasLineWithSlug(o, slug);
    assert DecreaseQuantity(t, user, slug) == DecreaseListed(t1, o, l, listed);
    outcome := DecreaseLine(db, o, l, listed);
  }

  /** The branch of `decreaseQuantity` taken once the line and the active
      order are known. */
  method DecreaseLine(db: Store, o: Id, l: Id, listed: bool) returns (outcome: CartOutcome)
    requires o in db.orders && l in db.lines && db.lines[l].quantity >= 1
    modifies db
    ensures (db.Snapshot(), outcome) == DecreaseListed(old(db.Snapshot()), o, l, listed)
  {
    ghost var t := db.Snapshot();
    if !listed {
      return NotInCart;
    }
    var q := db.lines[l].quantity - 1;
    db.SetQuantity(l, q);
    if q == 0 {
      DeleteForgetsQuantity(t, l, q);
      db.DeleteLine(l);
      var empty := db.OrderIsEmpty(o);
      if empty {
        db.DeleteOrder(o);
      }
      assert (db.Snapshot(), empty) == DropLine(t, o, l);
      return ItemRemoved(empty);
    }
    outcome := QuantityUpdated;
  }

  /** `removeItemFromCart` (and `removeItem`, which differs only in its
      messages and redirects). */
  method RemoveItemFromCart(db: Store, user: UserId, slug: string) returns (outcome: CartOutcome)
    requires db.Valid() && SlugUnique(db.items, slug)
    modifies db
    ensures db.Valid()
    ensures (db.Snapshot(), outcome) == RemoveFromCart(old(db.Snapshot()), user, slug)
  {
    ghost var t := db.Snapshot();
    RemoveFromCartConsistent(t, user, slug);
    var found := db.FindItemBySlug(slug);
    if found.None? {
      return ItemNotFound;
    }
    var i := found.value;
    var l := db.GetOrCreateLine(user, i);
    ghost var t1 := db.Snapshot();
    var order := db.FindActiveOrder(user);
    if order.None? {
      return NoActiveOrder;
    }
    var o := order.value;
    var listed := db.HasLineWithSlug(o, slug);
    if !listed {
      return NotInCart;
    }
    db.DeleteLine(l);
    var empty := db.OrderIsEmpty(o);
    if empty {
      db.DeleteOrder(o);
    }
    assert (db.Snapshot(), empty) == DropLine(t1, o, l);
    outcome := ItemRemoved(empty);
  }

  /** `increaseQuantity`: the same transition as `addItemToCart`. */
  method IncreaseQuantity(db: Store, user: UserId, slug: string) returns (outcome: CartOutcome)
    requires db.Valid() && SlugUnique(db.items, slug)
    modifies db
    ensures db.Valid()
    ensures (db.Snapshot(), outcome) == AddToCart(old(db.Snapshot()), user, slug)
  {
    outcome := AddItemToCart(db, user, slug);
  }

  /** `removeItem`: the same transition as `removeItemFromCart`. */
  method RemoveItem(db: Store, user: UserId, slug: string) returns (outcome: CartOutcome)
    requires db.Valid() && SlugUnique(db.items, slug)
    modifies db
    ensures db.Valid()
    ensures (db.Snapshot(), outcome) == RemoveFromCart(old(db.Snapshot()), user, slug)
  {
    outcome := RemoveItemFromCart(db, user, slug);
  }
}
