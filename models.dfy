/** The rows of the storefront's database (mysite/models.py) and the arithmetic
    and slug derivation the models define on them. */
module Models {

  datatype Option<T> = None | Some(value: T)

  /** Primary key of a row. */
  type Id = nat

  /** An authenticated user; the user table itself belongs to the framework. */
  type UserId = nat

  /** A catalog product. `discountPrice` is the nullable discount column. */
  datatype Item = Item(title: string, price: int, discountPrice: Option<int>, category: string, slug: string)

  /** A cart line: `quantity` of one Item for one user. */
  datatype OrderItem = OrderItem(user: UserId, item: Id, quantity: nat, ordered: bool)

  /** An order. `items` is the many-to-many relation to OrderItem, held as a
      sequence without repetitions (its order carries no meaning). */
  datatype Order = Order(
    user: UserId,
    refKey: Option<string>,
    items: seq<Id>,
    ordered: bool,
    shipping: Option<Id>,
    billing: Option<Id>,
    payment: Option<Id>,
    coupon: Option<Id>,
    beingDelivered: bool,
    received: bool,
    refundRequested: bool,
    refundGranted: bool)

  datatype AddressType = Shipping | Billing

  datatype Address = Address(
    user: UserId,
    street: string,
    apartment: string,
    zipcode: string,
    country: string,
    kind: AddressType,
    isDefault: bool)

  datatype Payment = Payment(user: UserId, chargeId: string, amount: int)

  /** A flat-amount coupon. */
  datatype Coupon = Coupon(code: string, amount: int)

  /** A refund request; `order` is the one-to-one link to its Order. */
  datatype Refund = Refund(user: UserId, email: string, reason: string, order: Id, accepted: bool)

  /** The payment-processor customer id and the one-click flag of a user. */
  datatype UserProfile = UserProfile(customerId: Option<string>, oneClick: bool)

  /** A fresh, still unordered order holding `lines`, as `Order.objects.create`
      leaves it (every flag at its column default). */
  function NewOrder(user: UserId, lines: seq<Id>): Order
  {
    Order(user, None, lines, false, None, None, None, None, false, false, false, false)
  }

  // ---------------------------------------------------------------------------
  // Line prices (OrderItem methods)
  // ---------------------------------------------------------------------------

  /** Python's truth test on `discount_price`: both None and 0 are false. */
  predicate HasDiscount(item: Item)
  {
    item.discountPrice.Some? && item.discountPrice.value != 0
  }

  /** The effective unit price: the discount price when it passes the truth
      test, otherwise the list price. */
  function UnitPrice(item: Item): int
  {
    if HasDiscount(item) then item.discountPrice.value else item.price
  }

  /** `calculate_total_price`: list price times quantity. */
  function TotalPrice(item: Item, quantity: nat): int
  {
    item.price * quantity
  }

  /** `calculate_total_discount_price`; on a None discount Python raises a
      TypeError, hence the precondition. */
  function TotalDiscountPrice(item: Item, quantity: nat): int
    requires item.discountPrice.Some?
  {
    item.discountPrice.value * quantity
  }

  /** `calculate_amount_saved`: what the discount saves on the whole line. */
  function AmountSaved(item: Item, quantity: nat): (saved: int)
    requires item.discountPrice.Some?
    ensures saved == (item.price - item.discountPrice.value) * quantity
    ensures item.discountPrice.value <= item.price ==> saved >= 0
  {
    TotalPrice(item, quantity) - TotalDiscountPrice(item, quantity)
  }

  /** `get_order_item_total_price`: the price the line contributes to its order. */
  function LineTotal(item: Item, quantity: nat): (total: int)
    ensures total == UnitPrice(item) * quantity
    ensures !HasDiscount(item) ==> total == TotalPrice(item, quantity)
    ensures HasDiscount(item) ==> total == TotalPrice(item, quantity) - AmountSaved(item, quantity)
  {
    if item.discountPrice.Some? && item.discountPrice.value != 0 then
      TotalDiscountPrice(item, quantity)
    else
      TotalPrice(item, quantity)
  }

  /** A discount price of 0 fails the truth test, so the list price applies. */
  lemma ZeroDiscountIsNoDiscount(item: Item, quantity: nat)
    requires item.discountPrice == Some(0)
    ensures LineTotal(item, quantity) == LineTotal(item.(discountPrice := None), quantity)
    ensures LineTotal(item, quantity) == item.price * quantity
  {
  }

  /** One more unit adds exactly one effective unit price to the line. */
  lemma {:induction false} LineTotalStep(item: Item, quantity: nat)
    ensures LineTotal(item, quantity + 1) == LineTotal(item, quantity) + UnitPrice(item)
  {
    calc {
      LineTotal(item, quantity + 1);
      UnitPrice(item) * (quantity + 1);
      UnitPrice(item) * quantity + UnitPrice(item);
      LineTotal(item, quantity) + UnitPrice(item);
    }
  }

  // ---------------------------------------------------------------------------
  // Slugs (pre_item_create_slug_signal)
  // ---------------------------------------------------------------------------

  /** ASCII lower-casing of one character. */
  function LowerChar(c: char): (d: char)
    ensures 'A' <= c <= 'Z' ==> 'a' <= d <= 'z' && d as int - c as int == 'a' as int - 'A' as int
    ensures !('A' <= c <= 'Z') ==> d == c
  {
    if 'A' <= c <= 'Z' then (c as int - 'A' as int + 'a' as int) as char else c
  }

  /** `str.lower()` on ASCII text. */
  function Lower(s: string): (r: string)
    ensures |r| == |s|
    ensures forall k :: 0 <= k < |s| ==> r[k] == LowerChar(s[k])
  {
    if s == [] then [] else [LowerChar(s[0])] + Lower(s[1..])
  }

  /** The slug of an item: lower-cased category, a hyphen, the title as it is. */
  function Slug(category: string, title: string): (slug: string)
    ensures |slug| == |category| + 1 + |title|
    ensures forall k :: 0 <= k < |category| ==> slug[k] == LowerChar(category[k])
    ensures slug[|category|] == '-'
    ensures slug[|category| + 1..] == title
  {
    Lower(category) + "-" + title
  }

  /** Within one category the slug determines the title, casing included. */
  lemma SlugDeterminesTitle(category: string, title1: string, title2: string)
    requires Slug(category, title1) == Slug(category, title2)
    ensures title1 == title2
  {
    assert title1 == Slug(category, title1)[|category| + 1..];
  }

  /** Categories that differ only in letter case give the same slug. */
  lemma {:induction false} SlugIgnoresCategoryCase(category1: string, category2: string, title: string)
    requires |category1| == |category2|
    requires forall k :: 0 <= k < |category1| ==> LowerChar(category1[k]) == LowerChar(category2[k])
    ensures Slug(category1, title) == Slug(category2, title)
  {
    assert Lower(category1) == Lower(category2);
  }
}
