/** The template filter `cart_item_count` of
    mysite/templatetags/cart_template_tags.py: the badge on the cart icon. */
module CartTags {
  import opened Models
  import opened Db
  import opened Cart

  /** `cart_item_count(user)`: how many lines the user's unordered order
      has, 0 without one. It counts lines, not units. */
  ghost function CartItemCount(t: Tables, user: UserId): nat
  {
    match ActiveOrder(t.orders, user)
    case None => 0
    case Some(o) => |t.orders[o].items|
  }

  /** The badge shows 0 exactly when the user has no cart, that is when no
      item has a positive cart quantity. */
  lemma CountZeroIffNoCart(t: Tables, user: UserId)
    requires Consistent(t)
    ensures CartItemCount(t, user) == 0 <==> ActiveOrder(t.orders, user).None?
    ensures CartItemCount(t, user) == 0 <==> forall item :: CartQuantity(t, user, item) == 0
  {
    CartExistsIffNonEmpty(t, user);
  }

  /** Orders already paid for are never counted. */
  lemma PaidOrdersNotCounted(t: Tables, user: UserId)
    requires forall o :: o in t.orders && t.orders[o].user == user ==> t.orders[o].ordered
    ensures CartItemCount(t, user) == 0
  {
    assert ActiveOrder(t.orders, user).Some? ==> IsCart(t.orders, ActiveOrder(t.orders, user).value, user);
  }

  /** Adding an item raises the count by one when the item was not in the
      cart yet, and leaves it when only the quantity grows. */
  lemma AddToCartCount(t: Tables, user: UserId, slug: string, i: Id)
    requires Consistent(t) && SlugUnique(t.items, slug) && FindItem(t.items, slug) == Some(i)
    ensures CartItemCount(AddToCart(t, user, slug).0, user)
      == CartItemCount(t, user) + if CartQuantity(t, user, i) == 0 then 1 else 0
  {
    var (t1, l) := GetOrCreateLine(t, user, i);
    GetOrCreateLineConsistent(t, user, i);
    GetOrCreateLineKeepsCarts(t, user, i);
    var order := ActiveOrder(t1.orders, user);
    var listed := order.Some? && OrderHasSlug(t1, order.value, slug);
    if order.Some? {
      HasSlugIffHasLine(t1, user, order.value, slug, i, l);
    }
    OpenLineQuantity(t1, user, i, l, order);
    AddToCartShape(t, user, slug, i);
    AddListedCount(t1, user, l, order, listed);
  }

  lemma AddListedCount(t: Tables, user: UserId, l: Id, order: Option<Id>, listed: bool)
    requires Consistent(t) && l in t.lines && order == ActiveOrder(t.orders, user)
    ensures CartItemCount(AddListed(t, user, l, order, listed).0, user)
      == CartItemCount(t, user) + if order.None? || !listed then 1 else 0
  {
    match order
    case None =>
      assert t.next !in t.orders;
      CountInNewCart(t, user, l, listed);
    case Some(o) =>
      if listed {
        CountOfListed(t, user, l, o);
      } else {
        CountOfAttached(t, user, l, o);
      }
  }

  /** The three branches of `AddListed`, each in terms of the update it makes. */
  lemma CountInNewCart(t: Tables, user: UserId, l: Id, listed: bool)
    requires OneCartPerUser(t.orders) && t.next !in t.orders && l in t.lines
    requires ActiveOrder(t.orders, user).None?
    ensures CartItemCount(AddListed(t, user, l, None, listed).0, user) == CartItemCount(t, user) + 1
  {
    var t' := AddListed(t, user, l, None, listed).0;
    OpenCartKeepsOneCart(t, user, l);
    ActiveOrderIs(t'.orders, user, t.next);
  }

  lemma CountOfListed(t: Tables, user: UserId, l: Id, o: Id)
    requires o in t.orders && l in t.lines && ActiveOrder(t.orders, user) == Some(o)
    ensures CartItemCount(AddListed(t, user, l, Some(o), true).0, user) == CartItemCount(t, user)
  {
    assert AddListed(t, user, l, Some(o), true).0.orders == t.orders;
  }

  lemma CountOfAttached(t: Tables, user: UserId, l: Id, o: Id)
    requires OneCartPerUser(t.orders) && l in t.lines && ActiveOrder(t.orders, user) == Some(o)
    ensures CartItemCount(AddListed(t, user, l, Some(o), false).0, user) == CartItemCount(t, user) + 1
  {
    var t' := AddListed(t, user, l, Some(o), false).0;
    assert forall p, u :: IsCart(t.orders, p, u) <==> IsCart(t'.orders, p, u);
    ActiveOrderSame(t.orders, t'.orders);
  }
}
