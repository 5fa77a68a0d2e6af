# Storefront cart, order and refund bookkeeping in Dafny

This project models the bookkeeping core of a small Django storefront. Signed-in
customers put items in a cart. The cart is the customer's one unordered
`Order`, which lists `OrderItem` lines. At checkout the order gets a shipping
and a billing address. Optionally a coupon takes a flat amount off. The card
charge then turns the cart into a paid order that carries a Payment and a
random 20-character reference key. Quoting that key files a refund request,
and staff grant requested refunds with an admin action.

The database is a value `Db.Tables`: one map per table, plus the next free
primary key. The invariant `Db.Consistent` collects what the views rely on:
- every order lists distinct, existing lines of its own user with its own
  ordered flag;
- a user has at most one unordered order, and that order is never empty;
- a (user, item) pair has at most one unordered line;
- a line that no order lists has quantity 1;
- quantities are positive;
- coupons and refunds point at existing rows, and refunds only at paid orders;
- an order has at most one Refund, and a requested refund always has one;
- only paid orders carry a reference key;
- every slug is derived from its item.

Each view is modelled in three layers:
- a function of the tables (`Cart.AddToCart`, `Checkout.Checkout`,
  `Payments.Pay`, `Coupons.ApplyCoupon`, `Refunds.RequestRefund`,
  `Admin.Granted`);
- lemmas about that function: it keeps `Consistent`, what changes, exactly
  when each outcome happens, idempotence, round trips;
- a method on the mutable `Store.Store` object (a class whose fields are the
  tables). The method performs the ORM steps in the source's order and is
  proved to end in exactly the state that the function describes.

Modules:
- `Models`: rows and the `OrderItem` price methods.
- `Db`: tables, invariant, queries and row updates.
- `Store`: the mutable database.
- `Cart`.
- `CartTags`: the template filter.
- `Checkout`.
- `Payments`.
- `Coupons`.
- `Refunds`.
- `Admin`.

Outcomes instead of preconditions:
- Several lookups raise an exception that the view does not catch:
  - `get()` finding two coupons with one code, or two orders with one key;
  - indexing an empty default-address queryset;
  - a Stripe customer call raising outside the `try`;
  - a second Refund on an order, which the one-to-one column refuses.
- Each of these is modelled as an outcome (`ServerError`, `NoDefaultAddress`)
  that leaves the tables as the earlier steps left them. It is not a
  precondition, because the source accepts those requests and fails on them.
- Duplicate slugs lead to the same uncaught `get_object_or_404` failure. They
  are excluded by a precondition (`SlugUnique`) instead.
- Two unordered orders for one user are excluded by the invariant. No
  sequence of these views can create them.

## Model

| member | source | states |
|---|---|---|
| Models.LineTotal | mysite/models.py:84-87 | the line price is the effective unit price times the quantity; with no truthy discount it is `calculate_total_price`, otherwise the list total minus the amount saved |
| Models.AmountSaved | mysite/models.py:78-82 | the amount saved is (price − discount price) × quantity, and it is never negative when the discount price is at most the list price |
| Models.ZeroDiscountIsNoDiscount | mysite/models.py:85 | a discount price of 0 fails Python's truth test: the line costs exactly what it would with no discount, price × quantity |
| Models.LineTotalStep | mysite/models.py:75-87 | one more unit adds exactly one effective unit price to the line |
| Models.Lower | mysite/models.py:160 | the lower-cased category keeps its length; each ASCII capital becomes its lower-case letter and every other character stays (the category choices are ASCII) |
| Models.Slug | mysite/models.py:159-160 | the slug is the lower-cased category, a hyphen, then the title unchanged |
| Models.SlugDeterminesTitle | mysite/models.py:159-160 | within one category two titles with the same slug are equal, casing included |
| Models.SlugIgnoresCategoryCase | mysite/models.py:159-160 | categories that differ only in letter case give the same slug |
| Store.Store.SaveItem | mysite/models.py:159-166 | saving an item (new or existing) stores it with the slug recomputed from category and title, whatever slug it carried; nothing else changes and the invariant holds |
| Db.EmptyOrderTotal | mysite/models.py:109-115 | an order with no lines and no coupon totals 0 |
| Db.TotalUnclamped | mysite/models.py:113-115 | the total is not clamped: it is negative exactly when the coupon amount exceeds the sum of the line prices |
| Db.LinesTotalAppend | mysite/models.py:110-112 | the sum over two runs of lines is the sum of the two sums, so each line adds its own price |
| Db.LinesTotalFrame | mysite/models.py:109-112 | the line sum depends only on the line and item tables |
| Store.Store.CalculateOrderTotal | mysite/models.py:109-115 | the accumulating loop returns the sum of the order's line prices minus the coupon amount (`Db.OrderTotal`) |
| Store.Store.SumLines | mysite/models.py:110-112 | the loop over the order's lines leaves the sum of every line's price in the running total |
| Db.GetOrCreateLine | mysite/views.py:426-430 | the result is the unordered line of (user, item); orders and items are untouched |
| Cart.GetOrCreateLineAddsAtMostLooseLine | mysite/views.py:426-430 | `get_or_create` either changes nothing or adds one fresh line of quantity 1 at the next key, which no order lists |
| Db.GetOrCreateLineConsistent | mysite/views.py:426-430 | `get_or_create` keeps the invariant |
| Db.HasSlugIffHasLine | mysite/views.py:436 | in a consistent database the cart has a line with the item's slug exactly when it lists the user's unordered line for that item |
| Db.CartExistsIffNonEmpty | mysite/views.py:469-470 | a user has a cart exactly when some item has a positive quantity in it, since empty carts are deleted |
| Db.DropLine | mysite/views.py:527-530 | deleting a line removes that row and nothing else from the line table |
| Db.DeleteForgetsQuantity | mysite/views.py:525-528 | saving the decremented quantity before deleting the line leaves the same tables as deleting it outright |
| Db.CreateThenAttach | mysite/views.py:445-450 | creating the order then attaching the line is a single update: a fresh unordered order that lists only that line |
| Cart.AddToCartConsistent | mysite/views.py:424-452 | adding to the cart keeps the invariant |
| Cart.AddToCartQuantities | mysite/views.py:424-452 | adding puts exactly one more unit of the item in the user's cart and changes no other cart quantity, for any user or item, whether the cart or line was new or not |
| Cart.AddToCartOutcome | mysite/views.py:434-452 | the view reports an updated quantity exactly when the cart already held the item, and "added" exactly when it did not; an unknown slug changes nothing |
| CartTags.AddToCartCount | mysite/views.py:436-450 | no second line is created: the line count grows by one when the item was new to the cart and stays when only the quantity grew |
| Cart.AddItemToCart | mysite/views.py:424-452 | the step-by-step view keeps the invariant and ends in exactly the state and outcome of `AddToCart` |
| Cart.IncreaseQuantity | mysite/views.py:481-509 | `increaseQuantity` makes the same transition as `addItemToCart` |
| Cart.DecreaseQuantityConsistent | mysite/views.py:512-539 | decreasing keeps the invariant, including that no empty cart is left |
| Cart.DecreaseQuantityQuantities | mysite/views.py:524-531 | decreasing takes one unit out of a cart that holds the item and changes no other cart quantity |
| Cart.DecreaseQuantityOutcome | mysite/views.py:522-539 | no cart ⇔ "no active order"; item not in cart ⇔ "not in cart"; one unit left ⇔ line removed, with the cart deleted exactly when the user has no cart afterwards; more units ⇔ quantity updated |
| Cart.DecreaseItemQuantity | mysite/views.py:512-539 | the view's decrement, save, delete of a zero line and delete of an emptied order end in the state and outcome of `DecreaseQuantity` |
| Cart.DecreaseLine | mysite/views.py:524-533 | once the order and line are known: an unlisted line changes nothing; otherwise the quantity drops by one, and at zero the line goes and an order left empty goes with it |
| Cart.RemoveFromCartConsistent | mysite/views.py:455-478 | removing keeps the invariant |
| Cart.RemoveFromCartQuantities | mysite/views.py:464-472 | removing takes every unit of the item out of the cart and changes no other cart quantity |
| Cart.RemoveFromCartOutcome | mysite/views.py:464-478 | no cart ⇔ "no active order"; item absent ⇔ "not in cart"; otherwise removed, with the cart deleted exactly when no cart is left |
| Cart.MissLeavesCartsAlone | mysite/views.py:457-478 | when decrease or remove misses, the tables are those after `get_or_create` alone: no order changes, and every cart quantity of every user is as before |
| Cart.AddThenDecrease | mysite/views.py:424-539 | adding an item and then decreasing it gives back every cart quantity of every user |
| Cart.RemoveItemFromCart | mysite/views.py:455-478 | the view's line delete and order delete end in the state and outcome of `RemoveFromCart` |
| Cart.RemoveItem | mysite/views.py:542-566 | `removeItem` makes the same transition as `removeItemFromCart` |
| Store.Store.HasLineWithSlug | mysite/views.py:436 | the scan answers whether the order lists a line whose item has the slug |
| Store.Store.FindActiveOrder | mysite/views.py:431-435 | the lookup returns the user's unordered order, or None when there is none |
| CartTags.CountZeroIffNoCart | mysite/templatetags/cart_template_tags.py:7-12 | the badge shows 0 exactly when the user has no unordered order, that is exactly when no item has a positive cart quantity |
| CartTags.PaidOrdersNotCounted | mysite/templatetags/cart_template_tags.py:8 | a user whose orders are all paid sees 0 |
| Checkout.IsValidForm | mysite/views.py:224-228 | the scan answers false exactly when some entry is the empty string, so true on an empty list |
| Checkout.CheckoutOutcomes | mysite/views.py:115-222 | each outcome and exactly when it happens; "no default address" happens exactly when a default is asked for and the user has no default address of that type; "Failed checkout" happens exactly for an invalid form; the redirect is to "stripe" for option S and "paypal" for P |
| Checkout.EarlyStopsChangeNothing | mysite/views.py:115-155 | no cart, an invalid form, a missing default or an incomplete shipping address leave the database unchanged |
| Checkout.ShippingRecorded | mysite/views.py:122-155 | after shipping succeeds, the order ships to the chosen default or to a new row equal to the entered address; an incomplete billing part afterwards does not undo it |
| Checkout.SameBillingCopies | mysite/views.py:160-169 | with `same_billing_address`, whatever `use_default_billing` says, the order bills to a new row distinct from the shipping row that copies every shipping field, including `default`, with the billing type |
| Checkout.BillingRecorded | mysite/views.py:171-202 | without the copy, the order bills to the chosen default or to a new row equal to the entered billing address |
| Checkout.ShipResult | mysite/views.py:124-152 | a successful shipping part links the order to the default, or to a new row at the next key holding the entered address |
| Checkout.ShipOutcome | mysite/views.py:124-152 | the shipping part goes on exactly when its default exists or its fields are filled, and otherwise reports the missing default or the incomplete address |
| Checkout.BillOutcome | mysite/views.py:160-222 | each billing outcome (incomplete, no default, redirect to Stripe or PayPal, invalid payment option) happens exactly when its case of the form applies |
| Checkout.BillKeepsAddress | mysite/views.py:160-202 | the billing part never rewrites an address row that already existed |
| Checkout.CheckoutWrites | mysite/views.py:115-222 | checkout only adds address rows and changes the cart's two address links; with no cart it changes nothing |
| Checkout.CheckoutConsistent | mysite/views.py:115-222 | checkout keeps the invariant |
| Checkout.CheckoutPost | mysite/views.py:115-222 | the view's sequence of saves ends in exactly the state and outcome of `Checkout` and keeps the invariant |
| Payments.KeyIndex | mysite/views.py:22 | each reference-key character has a position in the alphabet `a-z0-9` |
| Payments.ReferenceKey | mysite/views.py:21-22 | the key has one character per draw, each from `a-z0-9` |
| Payments.KeyShape | mysite/views.py:21-22 | for 20 draws the key has 20 characters, each a lower-case ASCII letter or a digit |
| Payments.KeyDetermined | mysite/views.py:21-22 | the draws can be read back from the key, so different draws give different keys |
| Payments.EveryKeyDrawable | mysite/views.py:21-22 | every string over the alphabet is the key of its own draws (the converse round trip) |
| Payments.SaveCard | mysite/views.py:267-284 | the `if save:` block raises exactly when the card is saved and the customer call raises; otherwise it changes only the profile table, and only for a user with no customer yet, whose profile gets the new customer's id and one-click purchasing |
| Payments.PaidExactly | mysite/views.py:255-326 | the order is paid exactly when there is a cart and a profile, the form is valid, saving the card did not raise and the charge succeeded |
| Payments.ChargeRequestedExactly | mysite/views.py:261-300 | a charge is requested exactly when the view gets past the `if save:` block |
| Payments.ChargeRequested | mysite/views.py:286-300 | the charge is 100 × the order total in "usd"; it is made to the customer id as the save block left it when saving or using the default, and to the card token otherwise |
| Payments.PaymentRecorded | mysite/views.py:267-316 | on success: one new Payment row holding the total and the charge id, whose amount is 1/100 of the charge; every line of the order marked ordered and no other line touched; the order ordered, linked to the payment and keyed with the generated key; no other order changed; the profile changes only as the `if save:` block leaves it (a new customer's id and one-click purchasing), and no other table changes |
| Payments.FailureChargesNothing | mysite/views.py:267-362 | on every failure no Payment is created and orders and lines are unchanged; only a newly created customer may be remembered in the profile |
| Payments.EarlyFailuresChangeNothing | mysite/views.py:256-284 | no cart, no profile, an invalid form or a raising customer call change nothing and charge nothing |
| Payments.PaidEmptiesCart | mysite/views.py:313-316 | after paying, the user has no cart and the cart badge shows 0 |
| Payments.NoCartAfterPaying | mysite/views.py:313-316 | marking the user's only cart ordered leaves the user with no cart at all |
| Payments.PayConsistent | mysite/views.py:255-362 | paying keeps the invariant |
| Payments.PayPost | mysite/views.py:255-362 | the view's steps end in exactly the state, outcome and charge request of `Pay`, and keep the invariant |
| Coupons.CouponOutcomes | mysite/views.py:365-390 | an invalid form returns no response; otherwise no cart ⇔ "no active order"; duplicate codes ⇔ server error; no exact match ⇔ "invalid coupon"; otherwise applied |
| Coupons.CouponReplaced | mysite/views.py:369-378 | on success the cart's coupon is replaced by a coupon with exactly that code, and nothing else changes |
| Coupons.MissesChangeNothing | mysite/views.py:366-383 | every outcome other than success leaves the database unchanged |
| Coupons.ApplyCouponIdempotent | mysite/views.py:369-378 | submitting the same code again leaves the tables exactly as the first submission left them |
| Coupons.ApplyCouponConsistent | mysite/views.py:365-383 | applying a coupon keeps the invariant |
| Coupons.AppliedCouponTotal | mysite/views.py:372-376 | after applying, the cart total is its line sum minus the new coupon's amount, whatever coupon it had |
| Coupons.ApplyCouponPost | mysite/views.py:365-390 | the view ends in exactly the state and outcome of `ApplyCoupon` |
| Store.Store.FindCoupon | mysite/views.py:385-390 | the lookup returns the coupon whose code equals the input exactly, or None |
| Refunds.RefundOutcomes | mysite/views.py:400-420 | an invalid form returns no response; otherwise duplicate keys, or an order that already has a Refund, give a server error; no match ⇔ "invalid key"; otherwise requested |
| Refunds.RefundFiled | mysite/views.py:407-415 | on success exactly one Refund row is added, linking the matching order with the user, email and reason and not accepted, and that order is marked refund-requested; nothing else changes |
| Refunds.ExactlyOneRefund | mysite/views.py:407-415 | on success the order has exactly one Refund |
| Refunds.RejectionsChangeNothing | mysite/views.py:400-420 | every outcome other than success leaves the database unchanged |
| Refunds.SecondRequestRefused | mysite/views.py:407-413 | a second request for the same key is refused and changes nothing more |
| Refunds.RequestRefundConsistent | mysite/views.py:400-420 | filing a refund keeps the invariant |
| Refunds.RequestRefundPost | mysite/views.py:400-420 | the view ends in exactly the state and outcome of `RequestRefund` |
| Store.Store.FindOrderByKey | mysite/views.py:407 | the lookup returns the order whose reference key equals the input, or None |
| Admin.GrantedStep | mysite/admin.py:9-15 | one loop pass on an order not yet visited extends the closed form by that order |
| Admin.GrantedConsistent | mysite/admin.py:7-15 | the action keeps the invariant |
| Admin.RequestedOrdersGranted | mysite/admin.py:10-15 | a selected order with a request ends not requested and granted, and its Refund is accepted |
| Admin.UnrequestedOrdersUntouched | mysite/admin.py:10 | a selected order without a request, and its Refund, are left exactly as they were |
| Admin.UnselectedOrdersUntouched | mysite/admin.py:9 | orders outside the selection, and their Refunds, are never modified |
| Admin.NoSelectedRequestLeft | mysite/admin.py:9-12 | afterwards no selected order has a refund requested |
| Admin.GrantedIdempotent | mysite/admin.py:10-15 | running the action twice on the same selection is the same as running it once |
| Admin.MakeRefundAccepted | mysite/admin.py:7-15 | the loop over the queryset ends in the closed form `Granted` and keeps the invariant |
| Admin.GrantOne | mysite/admin.py:10-15 | the loop body on one order is the single step `AcceptOne` |

## Left out

- Stripe calls (`Customer.create`, `Customer.create_source`, `Charge.create`) are not modelled. Their results are the parameters `customerCall` and `charge` of `Payments.Pay`. The charge request the view would send is returned as data.
- Each `except` branch of the payment view becomes the outcome `ChargeFailed(e)` or `CardDeclined`. The flash message texts are left out.
- `send_mail`, flash messages, redirects and template rendering are I/O. Each view returns an outcome value instead.
- Payments.Pay: a `send_mail` that raises is not modelled. In the source the `except Exception` branch then reports a serious error after the Payment and the order were already saved; the model reports `Paid`.
- The randomness of `create_refrence_key` is a parameter: the 20 draws from the 36-character alphabet.
- Timestamps (`start_date`, `ordered_date`, `Payment.timestamp`) are not stored; nothing in the core reads them.
- The `Payment.amount` float column is not modelled; the model stores the integer total there. Prices, discount prices and coupon amounts are integer columns, so the total and the charge amount `int(total * 100)` are exact integers, as in the source.
- Integer column widths and overflow are not modelled.
- Concurrent requests are not modelled. Two racing requests could create a second cart, or a second unordered line for one item.
- Transactions are not modelled. As in the source, which does not use atomic requests, writes made before a failure stay.
- Only the POST handlers are modelled, plus the filter. The listing, search, detail and summary views and the GET handlers are thin reads and are left out.
- The saved-card display of `PaymentView.get` is left out for the same reason.
- `post_user_profile_create_signal` is left out. It passes the builtin `isinstance` as the user, so it has no coherent behaviour. Profiles are part of the tables as given.
- Form validation is not modelled, except where it decides a branch. `forms.py` is not part of this model. Validity comes in as a parameter (`formValid`; `countriesKnown` for the checkout form). The checkout form's payment option must be S or P.
- Payments.Pay: every field of the payment form is optional, so in the source `form.is_valid()` always holds there and the `InvalidData` outcome cannot happen. The model keeps `formValid` as a parameter all the same.
- Anonymous users are not modelled. The checkout, payment, coupon and refund views are not login-protected, and for an anonymous user their ORM lookups raise; the model's `user` is always a signed-in user id.
- Cart functions require `SlugUnique`. `get_object_or_404` raising MultipleObjectsReturned on duplicate slugs is a precondition, and unlike the coupon and key lookups it is not modelled as an outcome.
- Which of several default addresses `qs[len(qs)-1]` returns depends on database order, so the two picks are parameters of `Checkout.Checkout`. Each pick is required to be a default address of the user and type, or None exactly when the user has none (`Checkout.DefaultPick`).
- Models.Lower: only ASCII capitals are lowered. Python's `str.lower()` also lowers non-ASCII capitals and can lengthen a string. The category choices `Shirt`, `Pant` and `T-Shirt` are ASCII, but `save()` does not enforce the choices, so a non-ASCII category would get a different slug in the source.
- The Django related-object cache in the `same_billing_address` branch is not modelled. The order keeps its shipping link to the original row, as the source's `shipping_address_id` does.
- `Admin.MakeRefundAccepted` requires the queryset to be a list of distinct existing orders.
- `Admin.MakeRefundAccepted` relies on the invariant that every requested refund has its Refund row. Without that row, the reverse one-to-one access would raise.
- The Refund records the requesting user. The model, like the source, does not check that this user owns the order.
- `CartTags.CartItemCount` assumes at most one unordered order per user (the invariant), so `qs[0]` is that order. The filter is a read-only function of the tables.
- The loop `for item in order_items: item.save()` after the bulk update is left out. It reloads the rows after the update and saves them as they are, so it changes nothing.
- An invalid coupon or refund form makes the view return None, which Django turns into a server error. This is the outcome `NoResponse`.
