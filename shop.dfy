/**
 * The cart and checkout routes of the storefront: adding, updating and
 * removing cart lines, and placing an order, which snapshots prices, decrements
 * stock and empties the cart. Each route acts for the logged-in user `uid`.
 *
 * `requested` is the submitted quantity after `request.form.get('quantity', 1,
 * type=int)`, which already falls back to 1 for a missing or non-integer value.
 */
module Shop {
  import opened Wrappers
  import opened Text
  import opened Models
  import opened Forms
  import opened SessionSecurity
  import opened Auth

  datatype CartOutcome = NotFound | Forbidden | OutOfStock | ExceedsStock | Added | Updated | Removed

  /** The quantity `add_to_cart` works with: below 1 becomes 1. */
  function Clamp(requested: int): (q: int)
    ensures q >= 1 && (requested >= 1 ==> q == requested) && (requested < 1 ==> q == 1)
  {
    if requested < 1 then 1 else requested
  }

  /**
   * The decision `add_to_cart` takes for product `p` when the user's cart holds
   * `existing` of it already (`None`: no line).
   */
  function AddDecision(p: Product, existing: Option<int>, requested: int): (r: CartOutcome)
    ensures r == OutOfStock || r == ExceedsStock || r == Added || r == Updated
    ensures r == OutOfStock <==> !IsInStock(p)
    ensures r == Added ==> existing.None? && IsInStock(p) && Clamp(requested) <= p.stock
    ensures r == Updated ==> existing.Some? && IsInStock(p) && existing.value + Clamp(requested) <= p.stock
    ensures r == ExceedsStock ==>
      Clamp(requested) > p.stock || (existing.Some? && existing.value + Clamp(requested) > p.stock)
  {
    if !IsInStock(p) then OutOfStock
    else if Clamp(requested) > p.stock then ExceedsStock
    else if existing.Some? then
      if existing.value + Clamp(requested) > p.stock then ExceedsStock else Updated
    else Added
  }

  predicate IsLine(cart: map<Id, CartItem>, k: Id, uid: Id, pid: Id) {
    k in cart && cart[k].userId == uid && cart[k].productId == pid
  }

  /** `CartItem.query.filter_by(user_id=uid, product_id=pid).first()`, scanning the keys in order. */
  method FindLine(cart: map<Id, CartItem>, next: Id, uid: Id, pid: Id) returns (r: Option<Id>)
    requires KeysIn(cart, next)
    ensures r.Some? ==> IsLine(cart, r.value, uid, pid)
    ensures r.None? ==> forall k :: k in cart ==> !IsLine(cart, k, uid, pid)
  {
    var k := 1;
    while k < next
      invariant 1 <= k <= if next < 1 then 1 else next
      invariant forall j :: j in cart && j < k ==> !IsLine(cart, j, uid, pid)
    {
      if IsLine(cart, k, uid, pid) {
        return Some(k);
      }
      k := k + 1;
    }
    return None;
  }

  /** `CartItem.query.filter_by(user_id=uid).all()`: each of the user's lines once, in key order. */
  method UserLines(cart: map<Id, CartItem>, next: Id, uid: Id) returns (lines: seq<Id>)
    requires KeysIn(cart, next)
    ensures forall k :: k in lines <==> k in cart && cart[k].userId == uid
    ensures forall i, j :: 0 <= i < j < |lines| ==> lines[i] < lines[j]
  {
    lines := [];
    var k := 1;
    while k < next
      invariant 1 <= k <= if next < 1 then 1 else next
      invariant forall j :: j in lines <==> j in cart && j < k && cart[j].userId == uid
      invariant forall i, j :: 0 <= i < j < |lines| ==> lines[i] < lines[j]
      invariant forall i :: 0 <= i < |lines| ==> lines[i] < k
    {
      if k in cart && cart[k].userId == uid {
        lines := lines + [k];
      }
      k := k + 1;
    }
  }

  /** The quantity of the user's line for `pid`, which the unique constraint makes well defined. */
  ghost function LineQuantity(cart: map<Id, CartItem>, uid: Id, pid: Id): Option<int> {
    if exists k :: IsLine(cart, k, uid, pid) then
      var k :| IsLine(cart, k, uid, pid); Some(cart[k].quantity)
    else None
  }

  lemma LineQuantityOf(cart: map<Id, CartItem>, uid: Id, pid: Id, k: Id)
    requires OneLinePerProduct(cart) && IsLine(cart, k, uid, pid)
    ensures LineQuantity(cart, uid, pid) == Some(cart[k].quantity)
  {
  }

  /** `add_to_cart(pid)`. */
  method AddToCart(db: Db, uid: Id, pid: Id, requested: int) returns (outcome: CartOutcome)
    requires db.Valid() && uid in db.users
    modifies db
    ensures db.Valid()
    ensures pid !in old(db.products) ==> outcome == NotFound
    ensures pid in old(db.products) ==>
      outcome == AddDecision(old(db.products)[pid], LineQuantity(old(db.cart), uid, pid), requested)
    ensures outcome == Updated ==>
      exists k :: (&& IsLine(old(db.cart), k, uid, pid)
                   && db.cart == old(db.cart)[k := old(db.cart)[k].(quantity := old(db.cart)[k].quantity + Clamp(requested))])
    ensures outcome == Added ==> db.cart == old(db.cart)[old(db.nextId) := CartItem(uid, pid, Clamp(requested))]
    ensures outcome == Added ==> db.nextId == old(db.nextId) + 1
    ensures outcome == Updated ==> db.nextId == old(db.nextId)
    ensures outcome != Added && outcome != Updated ==> db.cart == old(db.cart) && db.nextId == old(db.nextId)
    ensures db.users == old(db.users) && db.categories == old(db.categories) && db.products == old(db.products)
    ensures db.orders == old(db.orders) && db.orderItems == old(db.orderItems)
  {
    if pid !in db.products {
      return NotFound;
    }
    var p := db.products[pid];
    var line := FindLine(db.cart, db.nextId, uid, pid);
    var existing: Option<int> := None;
    if line.Some? {
      LineQuantityOf(db.cart, uid, pid, line.value);
      existing := Some(db.cart[line.value].quantity);
    }
    outcome := AddDecision(p, existing, requested);
    var q := Clamp(requested);
    if outcome == Updated {
      var k := line.value;
      db.cart := db.cart[k := db.cart[k].(quantity := db.cart[k].quantity + q)];
    } else if outcome == Added {
      var id := db.NewId();
      db.cart := db.cart[id := CartItem(uid, pid, q)];
    }
  }

  /** `update_cart(item_id)`. */
  method UpdateCart(db: Db, uid: Id, itemId: Id, requested: int) returns (outcome: CartOutcome)
    requires db.Valid()
    modifies db
    ensures db.Valid()
    ensures itemId !in old(db.cart) ==> outcome == NotFound
    ensures itemId in old(db.cart) && old(db.cart)[itemId].userId != uid ==> outcome == Forbidden
    ensures itemId in old(db.cart) && old(db.cart)[itemId].userId == uid ==>
      var line := old(db.cart)[itemId];
      && (requested < 1 ==> outcome == Removed && db.cart == old(db.cart) - {itemId})
      && (requested >= 1 && requested > old(db.products)[line.productId].stock ==> outcome == ExceedsStock)
      && (1 <= requested <= old(db.products)[line.productId].stock ==>
            outcome == Updated && db.cart == old(db.cart)[itemId := line.(quantity := requested)])
    ensures outcome != Removed && outcome != Updated ==> db.cart == old(db.cart)
    ensures db.users == old(db.users) && db.categories == old(db.categories) && db.products == old(db.products)
    ensures db.orders == old(db.orders) && db.orderItems == old(db.orderItems) && db.nextId == old(db.nextId)
  {
    if itemId !in db.cart {
      return NotFound;
    }
    var line := db.cart[itemId];
    if line.userId != uid {
      return Forbidden;
    }
    if requested < 1 {
      db.cart := db.cart - {itemId};
      return Removed;
    }
    if requested > db.products[line.productId].stock {
      return ExceedsStock;
    }
    db.cart := db.cart[itemId := line.(quantity := requested)];
    return Updated;
  }

  /** `remove_from_cart(item_id)`. */
  method RemoveFromCart(db: Db, uid: Id, itemId: Id) returns (outcome: CartOutcome)
    requires db.Valid()
    modifies db
    ensures db.Valid()
    ensures itemId !in old(db.cart) ==> outcome == NotFound && db.cart == old(db.cart)
    ensures itemId in old(db.cart) && old(db.cart)[itemId].userId != uid ==> outcome == Forbidden && db.cart == old(db.cart)
    ensures itemId in old(db.cart) && old(db.cart)[itemId].userId == uid ==> outcome == Removed && db.cart == old(db.cart) - {itemId}
    ensures db.users == old(db.users) && db.categories == old(db.categories) && db.products == old(db.products)
    ensures db.orders == old(db.orders) && db.orderItems == old(db.orderItems) && db.nextId == old(db.nextId)
  {
    if itemId !in db.cart {
      return NotFound;
    }
    if db.cart[itemId].userId != uid {
      return Forbidden;
    }
    db.cart := db.cart - {itemId};
    return Removed;
  }

  datatype ViewOutcome = ViewNotLoggedIn | OrderNotFound | ViewForbidden | Shown

  /**
   * `order_detail(order_id)`, behind `@login_required`: `get_or_404` and then
   * the rule that only the order's owner or an admin may see it.
   */
  method OrderDetail(db: Db, s: Session, oid: Id) returns (outcome: ViewOutcome)
    requires db.Valid()
    ensures outcome == ViewNotLoggedIn <==> CurrentUser(s, db.users).None?
    ensures outcome == OrderNotFound <==> CurrentUser(s, db.users).Some? && oid !in db.orders
    ensures var me := CurrentUser(s, db.users);
      me.Some? && !IsAdmin(db.users[me.value]) ==>
        (outcome == Shown <==> oid in db.orders && db.orders[oid].userId == me.value)
    ensures var me := CurrentUser(s, db.users);
      me.Some? && IsAdmin(db.users[me.value]) ==> (outcome == Shown <==> oid in db.orders)
    ensures outcome == ViewForbidden ==>
      var me := CurrentUser(s, db.users).value;
      db.orders[oid].userId != me && !IsAdmin(db.users[me])
  {
    var me := CurrentUser(s, db.users);
    if me.None? {
      return ViewNotLoggedIn;
    }
    if oid !in db.orders {
      return OrderNotFound;
    }
    if db.orders[oid].userId != me.value && !IsAdmin(db.users[me.value]) {
      return ViewForbidden;
    }
    return Shown;
  }

  // ---------------------------------------------------------------------------
  // Checkout

  /** `item.product.is_in_stock() and item.quantity <= item.product.stock`. */
  predicate LineAvailable(cart: map<Id, CartItem>, products: map<Id, Product>, k: Id) {
    && k in cart && cart[k].productId in products
    && IsInStock(products[cart[k].productId]) && cart[k].quantity <= products[cart[k].productId].stock
  }

  /** `ls` lists distinct cart lines of user `uid`. */
  predicate LinesOf(cart: map<Id, CartItem>, ls: seq<Id>, uid: Id) {
    && (forall i :: 0 <= i < |ls| ==> ls[i] in cart && cart[ls[i]].userId == uid)
    && (forall i, j :: 0 <= i < j < |ls| ==> ls[i] != ls[j])
  }

  /** The stock check of `checkout`: the first line that cannot be bought, if any. */
  method FirstUnavailable(cart: map<Id, CartItem>, products: map<Id, Product>, lines: seq<Id>) returns (r: Option<Id>)
    ensures r.None? <==> forall i :: 0 <= i < |lines| ==> LineAvailable(cart, products, lines[i])
    ensures r.Some? ==> exists i :: (&& 0 <= i < |lines| && lines[i] == r.value
                                     && !LineAvailable(cart, products, r.value)
                                     && forall j :: 0 <= j < i ==> LineAvailable(cart, products, lines[j]))
  {
    var i := 0;
    while i < |lines|
      invariant 0 <= i <= |lines|
      invariant forall j :: 0 <= j < i ==> LineAvailable(cart, products, lines[j])
    {
      if !LineAvailable(cart, products, lines[i]) {
        return Some(lines[i]);
      }
      i := i + 1;
    }
    return None;
  }

  /** `CartItem.get_total()`: the line's product price times its quantity. */
  function LineTotal(cart: map<Id, CartItem>, products: map<Id, Product>, k: Id): int
    requires k in cart && cart[k].productId in products
  {
    products[cart[k].productId].price * cart[k].quantity
  }

  predicate InCart(cart: map<Id, CartItem>, ls: seq<Id>) {
    forall i :: 0 <= i < |ls| ==> ls[i] in cart
  }

  predicate LinesIn(cart: map<Id, CartItem>, products: map<Id, Product>, ls: seq<Id>) {
    InCart(cart, ls) && forall i :: 0 <= i < |ls| ==> cart[ls[i]].productId in products
  }

  /** `sum(item.get_total() for item in cart_items)` over the first `n` lines of `ls`. */
  function LinesTotal(cart: map<Id, CartItem>, products: map<Id, Product>, ls: seq<Id>, n: nat): int
    requires n <= |ls| && LinesIn(cart, products, ls)
    decreases n
  {
    if n == 0 then 0 else LinesTotal(cart, products, ls, n - 1) + LineTotal(cart, products, ls[n - 1])
  }

  /** The units of product `pid` held by the first `n` lines of `ls`. */
  function QtyFor(cart: map<Id, CartItem>, ls: seq<Id>, n: nat, pid: Id): int
    requires n <= |ls| && InCart(cart, ls)
    decreases n
  {
    if n == 0 then 0
    else QtyFor(cart, ls, n - 1, pid) + (if cart[ls[n - 1]].productId == pid then cart[ls[n - 1]].quantity else 0)
  }

  /** The products after `cart_item.product.stock -= cart_item.quantity` for the first `n` lines of `ls`, in order. */
  function Decremented(products: map<Id, Product>, cart: map<Id, CartItem>, ls: seq<Id>, n: nat): map<Id, Product>
    requires n <= |ls| && InCart(cart, ls)
    decreases n
  {
    if n == 0 then products
    else
      var before := Decremented(products, cart, ls, n - 1);
      var line := cart[ls[n - 1]];
      if line.productId in before
      then before[line.productId := before[line.productId].(stock := before[line.productId].stock - line.quantity)]
      else before
  }

  /** After the first `n` lines, each product has lost what those lines hold of it, and nothing else changed. */
  lemma {:induction false} DecrementedClosedForm(products: map<Id, Product>, cart: map<Id, CartItem>, ls: seq<Id>, n: nat)
    requires n <= |ls| && InCart(cart, ls)
    ensures var after := Decremented(products, cart, ls, n);
      && after.Keys == products.Keys
      && forall p :: p in products ==> after[p] == products[p].(stock := products[p].stock - QtyFor(cart, ls, n, p))
    decreases n
  {
    if n > 0 {
      DecrementedClosedForm(products, cart, ls, n - 1);
    }
  }

  /** The `OrderItem` `checkout` creates for line `k` of order `oid`, with the price of the moment. */
  function ItemOf(cart: map<Id, CartItem>, products: map<Id, Product>, oid: Id, k: Id): OrderItem
    requires k in cart && cart[k].productId in products
  {
    OrderItem(oid, cart[k].productId, cart[k].quantity, products[cart[k].productId].price)
  }

  /** The `OrderItem`s `checkout` creates for the first `n` lines of `ls`, one per line and in order. */
  function NewItemList(cart: map<Id, CartItem>, products: map<Id, Product>, oid: Id, ls: seq<Id>, n: nat): (items: seq<OrderItem>)
    requires n <= |ls| && LinesIn(cart, products, ls)
    ensures |items| == n
    ensures forall i :: 0 <= i < n ==> items[i] == ItemOf(cart, products, oid, ls[i])
    decreases n
  {
    if n == 0 then [] else NewItemList(cart, products, oid, ls, n - 1) + [ItemOf(cart, products, oid, ls[n - 1])]
  }

  /**
   * The order-items table after `db.session.add(order_item)` for the first `n`
   * lines of `ls`: each new row takes the next autoincrement key after the
   * order's own key `oid`.
   */
  function WithItems(items0: map<Id, OrderItem>, cart: map<Id, CartItem>, products: map<Id, Product>,
                     oid: Id, ls: seq<Id>, n: nat): map<Id, OrderItem>
    requires n <= |ls| && LinesIn(cart, products, ls)
    decreases n
  {
    if n == 0 then items0
    else WithItems(items0, cart, products, oid, ls, n - 1)[oid + n := ItemOf(cart, products, oid, ls[n - 1])]
  }

  /**
   * The rows already there stay, the `i`-th line's item sits under key
   * `oid + 1 + i`, and no other key is added.
   */
  lemma {:induction false} WithItemsClosedForm(items0: map<Id, OrderItem>, cart: map<Id, CartItem>,
                                               products: map<Id, Product>, oid: Id, ls: seq<Id>, n: nat)
    requires n <= |ls| && LinesIn(cart, products, ls)
    requires forall k :: k in items0 ==> k <= oid
    ensures var after := WithItems(items0, cart, products, oid, ls, n);
      && (forall k :: k in after <==> k in items0 || oid < k <= oid + n)
      && (forall k :: k in items0 ==> after[k] == items0[k])
      && (forall i :: 0 <= i < n ==> after[oid + 1 + i] == ItemOf(cart, products, oid, ls[i]))
    decreases n
  {
    if n > 0 {
      WithItemsClosedForm(items0, cart, products, oid, ls, n - 1);
    }
  }

  /** `sum(item.get_total() for item in order.items)`. */
  function ItemsTotal(items: seq<OrderItem>): int
    decreases |items|
  {
    if items == [] then 0 else ItemsTotal(items[..|items| - 1]) + items[|items| - 1].price * items[|items| - 1].quantity
  }

  /** The total stored on the order is the sum of its items' totals. */
  lemma {:induction false} OrderTotalIsItemsTotal(cart: map<Id, CartItem>, products: map<Id, Product>, oid: Id, ls: seq<Id>, n: nat)
    requires n <= |ls| && LinesIn(cart, products, ls)
    ensures LinesTotal(cart, products, ls, n) == ItemsTotal(NewItemList(cart, products, oid, ls, n))
    decreases n
  {
    if n > 0 {
      OrderTotalIsItemsTotal(cart, products, oid, ls, n - 1);
      var items := NewItemList(cart, products, oid, ls, n);
      assert items[..n - 1] == NewItemList(cart, products, oid, ls, n - 1);
    }
  }

  /**
   * With one cart line per (user, product), the first `n` lines of one user
   * hold either nothing of `pid` or exactly the one line's quantity.
   */
  lemma {:induction false} QtyForOneLine(cart: map<Id, CartItem>, ls: seq<Id>, n: nat, uid: Id, pid: Id)
    requires n <= |ls| && OneLinePerProduct(cart) && LinesOf(cart, ls, uid)
    ensures (forall i :: 0 <= i < n ==> cart[ls[i]].productId != pid) ==> QtyFor(cart, ls, n, pid) == 0
    ensures forall i :: 0 <= i < n && cart[ls[i]].productId == pid ==> QtyFor(cart, ls, n, pid) == cart[ls[i]].quantity
    decreases n
  {
    if n > 0 {
      QtyForOneLine(cart, ls, n - 1, uid, pid);
      if cart[ls[n - 1]].productId == pid {
        forall i | 0 <= i < n - 1 ensures cart[ls[i]].productId != pid {
          assert ls[i] != ls[n - 1];
        }
      }
    }
  }

  /**
   * Once every line passed the stock check, decrementing for the first `n`
   * lines leaves no stock negative: each product loses exactly the quantity of
   * the user's line for it, if there is one, and nothing otherwise.
   */
  lemma StockAfterCheckout(products: map<Id, Product>, cart: map<Id, CartItem>, ls: seq<Id>, n: nat, uid: Id)
    requires n <= |ls| && OneLinePerProduct(cart) && LinesOf(cart, ls, uid) && LinesIn(cart, products, ls)
    requires forall i :: 0 <= i < |ls| ==> LineAvailable(cart, products, ls[i])
    requires forall p :: p in products ==> products[p].stock >= 0
    ensures var after := Decremented(products, cart, ls, n);
      && after.Keys == products.Keys
      && (forall p :: p in after ==> after[p].stock >= 0 && after[p] == products[p].(stock := after[p].stock))
      && (forall i :: 0 <= i < n ==>
            after[cart[ls[i]].productId].stock == products[cart[ls[i]].productId].stock - cart[ls[i]].quantity)
  {
    DecrementedClosedForm(products, cart, ls, n);
    forall p | p in products ensures QtyFor(cart, ls, n, p) <= products[p].stock {
      QtyForOneLine(cart, ls, n, uid, p);
      if i :| 0 <= i < n && cart[ls[i]].productId == p {
        assert LineAvailable(cart, products, ls[i]);
      }
    }
    forall i | 0 <= i < n ensures QtyFor(cart, ls, n, cart[ls[i]].productId) == cart[ls[i]].quantity {
      QtyForOneLine(cart, ls, n, uid, cart[ls[i]].productId);
    }
  }

  // ---------------------------------------------------------------------------
  // Payment simulation

  datatype PaymentVerdict = Proceed | MissingCardDetails | Declined | MissingBankAccount

  predicate IsCardMethod(m: string) {
    m == "credit_card" || m == "debit_card"
  }

  /** The card number the simulation declines for insufficient funds. */
  const DeclinedCardNumber: string := "0000000000000000"

  /** `card_number.replace(' ', '')` (an empty number stays empty). */
  function CardDigits(number: string): string {
    ReplaceChar(number, ' ', "")
  }

  /**
   * The payment simulation of `checkout` as written: `not x` treats only the
   * empty string as missing, so whitespace that `Optional()` let through counts
   * as provided.
   */
  function PaymentCheckAsWritten(f: CheckoutData): PaymentVerdict {
    if IsCardMethod(f.paymentMethod) then
      if CardDigits(f.cardNumber) == "" || f.cardExpiry == "" || f.cardCvv == "" then MissingCardDetails
      else if CardDigits(f.cardNumber) == DeclinedCardNumber then Declined
      else Proceed
    else if f.paymentMethod == "bank_transfer" then
      if f.bankAccount == "" then MissingBankAccount else Proceed
    else Proceed
  }

  /** The payment simulation with a blank field (the ones `Optional()` skips) counted as missing. */
  function PaymentCheck(f: CheckoutData): PaymentVerdict {
    if IsCardMethod(f.paymentMethod) then
      if Blank(CardDigits(f.cardNumber)) || Blank(f.cardExpiry) || Blank(f.cardCvv) then MissingCardDetails
      else if CardDigits(f.cardNumber) == DeclinedCardNumber then Declined
      else Proceed
    else if f.paymentMethod == "bank_transfer" then
      if Blank(f.bankAccount) then MissingBankAccount else Proceed
    else Proceed
  }

  /** The `Order` row `checkout` creates: card fields for a card payment, the account for a bank transfer. */
  function PlacedOrder(uid: Id, orderNumber: string, f: CheckoutData, total: int): Order {
    var card := IsCardMethod(f.paymentMethod);
    Order(uid, orderNumber, "pending", total, f.shippingAddress, f.paymentMethod,
          if card then Some(f.cardNumber) else None,
          if card then Some(f.cardExpiry) else None,
          if card then Some(f.cardCvv) else None,
          if f.paymentMethod == "bank_transfer" then Some(f.bankAccount) else None,
          f.notes)
  }

  /** Removing spaces cannot turn a blank card number into a non-blank one. */
  lemma BlankCardDigits(number: string)
    requires Blank(number)
    ensures Blank(CardDigits(number))
  {
    StripEmptyIffAllSpace(number);
    ReplaceKeepsAllSpace(number, ' ', "");
    StripEmptyIffAllSpace(CardDigits(number));
  }

  /**
   * The stored payment details of an order that passed the corrected form and
   * check are well formed: a 16–20 character number of digits and whitespace
   * that is not the declined one, an `MM/YY` expiry and a 3–4 digit CVV for a
   * card payment, a 10–30 character alphanumeric account for a bank transfer,
   * and no payment details of the kind not chosen.
   */
  lemma StoredPaymentDetailsWellFormed(uid: Id, orderNumber: string, f: CheckoutData, total: int)
    requires CheckoutValid(f) && PaymentCheck(f) == Proceed
    ensures var o := PlacedOrder(uid, orderNumber, f, total);
      && (o.cardNumber.Some? <==> IsCardMethod(f.paymentMethod))
      && (o.cardNumber.Some? ==> 16 <= |o.cardNumber.value| <= 20 && CardNumberText(o.cardNumber.value)
                                 && CardDigits(o.cardNumber.value) != DeclinedCardNumber)
      && (o.cardExpiry.Some? ==> ExpiryText(o.cardExpiry.value))
      && (o.cardCvv.Some? ==> CvvText(o.cardCvv.value))
      && (o.bankAccount.Some? <==> f.paymentMethod == "bank_transfer")
      && (o.bankAccount.Some? ==> 10 <= |o.bankAccount.value| <= 30 && AccountText(o.bankAccount.value))
  {
    if IsCardMethod(f.paymentMethod) {
      if Blank(f.cardNumber) {
        BlankCardDigits(f.cardNumber);
      }
      CardNumberRules(f.cardNumber);
      ExpiryRules(f.cardExpiry);
    }
  }

  /** The order that shows the whitespace gap of the check as written. */
  const BlankCardOrder: CheckoutData :=
    CheckoutData("12 Harbour Road, Springfield", "credit_card", "4111111111111111", " ", " ", "", None)

  lemma BlankCardOrderBlankFields()
    ensures Blank(BlankCardOrder.cardExpiry) && Blank(BlankCardOrder.cardCvv) && Blank(BlankCardOrder.bankAccount)
  {
    StripEmptyIffAllSpace(BlankCardOrder.cardExpiry);
    StripEmptyIffAllSpace(BlankCardOrder.cardCvv);
    StripEmptyIffAllSpace(BlankCardOrder.bankAccount);
  }

  lemma BlankCardOrderRequiredFields()
    ensures DataRequired(BlankCardOrder.shippingAddress) && DataRequired(BlankCardOrder.paymentMethod)
  {
    StripEmptyIffAllSpace(BlankCardOrder.shippingAddress);
    assert !IsSpace(BlankCardOrder.shippingAddress[0]);
    StripEmptyIffAllSpace(BlankCardOrder.paymentMethod);
    assert !IsSpace(BlankCardOrder.paymentMethod[0]);
  }

  lemma BlankCardOrderNumber()
    ensures CardNumberField(BlankCardOrder.cardNumber)
    ensures CardDigits(BlankCardOrder.cardNumber) == BlankCardOrder.cardNumber
  {
    assert CardNumberText(BlankCardOrder.cardNumber);
    ReplaceAbsentChar(BlankCardOrder.cardNumber, ' ', "");
  }

  /** As written, `BlankCardOrder` passes the form. */
  lemma BlankCardOrderFormAsWritten()
    ensures CheckoutValidAsWritten(BlankCardOrder)
  {
    BlankCardOrderBlankFields();
    BlankCardOrderRequiredFields();
    BlankCardOrderNumber();
  }

  /** As written, `BlankCardOrder` passes the payment check. */
  lemma BlankCardOrderPaymentAsWritten()
    ensures PaymentCheckAsWritten(BlankCardOrder) == Proceed
  {
    BlankCardOrderNumber();
    AsWrittenCardProceeds(BlankCardOrder);
  }

  /** As written, any card order whose fields are non-empty text, and not the declined number, proceeds. */
  lemma AsWrittenCardProceeds(f: CheckoutData)
    requires IsCardMethod(f.paymentMethod) && f.cardExpiry != "" && f.cardCvv != ""
    requires CardDigits(f.cardNumber) != "" && CardDigits(f.cardNumber)[0] != '0'
    ensures PaymentCheckAsWritten(f) == Proceed
  {
    assert DeclinedCardNumber[0] == '0';
  }

  /** The corrected check asks `BlankCardOrder` for its card details. */
  lemma BlankCardOrderPaymentCorrected()
    ensures PaymentCheck(BlankCardOrder) == MissingCardDetails
  {
    BlankCardOrderBlankFields();
  }

  /**
   * As written, a card order with a blank expiry and CVV passes both the form
   * and the payment check and is stored with them; the corrected check asks for
   * the card details.
   */
  lemma BlankCardDetailsAccepted(uid: Id, orderNumber: string, total: int)
    ensures CheckoutValidAsWritten(BlankCardOrder) && PaymentCheckAsWritten(BlankCardOrder) == Proceed
    ensures var o := PlacedOrder(uid, orderNumber, BlankCardOrder, total);
      o.cardExpiry == Some(" ") && !ExpiryText(" ") && o.cardCvv == Some(" ") && !CvvText(" ")
    ensures PaymentCheck(BlankCardOrder) == MissingCardDetails
  {
    BlankCardOrderFormAsWritten();
    BlankCardOrderPaymentAsWritten();
    BlankCardOrderPaymentCorrected();
  }

  /** The simulated decline: the all-zero card number, with or without spaces, is refused. */
  lemma DeclinedNumberRefused(f: CheckoutData)
    requires IsCardMethod(f.paymentMethod) && !Blank(f.cardExpiry) && !Blank(f.cardCvv)
    requires CardDigits(f.cardNumber) == DeclinedCardNumber
    ensures PaymentCheck(f) == Declined && PaymentCheckAsWritten(f) == Declined
  {
    assert !IsSpace(DeclinedCardNumber[0]);
    StripEmptyIffAllSpace(DeclinedCardNumber);
    if f.cardExpiry == "" { StripEmptyIffAllSpace(f.cardExpiry); }
    if f.cardCvv == "" { StripEmptyIffAllSpace(f.cardCvv); }
  }

  /** A payment method that needs no details always proceeds. */
  lemma CashOnDeliveryProceeds(f: CheckoutData)
    requires f.paymentMethod == "cash_on_delivery"
    ensures PaymentCheck(f) == Proceed && PaymentCheckAsWritten(f) == Proceed
  {
  }

  /** The corrected check refuses at least whatever the one as written refuses. */
  lemma PaymentCheckStricter(f: CheckoutData)
    requires PaymentCheck(f) == Proceed
    ensures PaymentCheckAsWritten(f) == Proceed
  {
    if IsCardMethod(f.paymentMethod) {
      if CardDigits(f.cardNumber) == "" { StripEmptyIffAllSpace(CardDigits(f.cardNumber)); }
      if f.cardExpiry == "" { StripEmptyIffAllSpace(f.cardExpiry); }
      if f.cardCvv == "" { StripEmptyIffAllSpace(f.cardCvv); }
    } else if f.paymentMethod == "bank_transfer" {
      if f.bankAccount == "" { StripEmptyIffAllSpace(f.bankAccount); }
    }
  }

  datatype CheckoutOutcome = EmptyCart | Unavailable(line: Id) | FormShown | Refused(verdict: PaymentVerdict) | Placed(orderId: Id)

  /**
   * What one round of the loop of `checkout` does to the stock: line
   * `lines[i]` lowers its product's stock by its quantity, which leaves it
   * non-negative, and keeps the price.
   */
  lemma StockStep(cart0: map<Id, CartItem>, products0: map<Id, Product>, lines: seq<Id>, i: nat, uid: Id)
    requires i < |lines| && OneLinePerProduct(cart0) && LinesOf(cart0, lines, uid) && LinesIn(cart0, products0, lines)
    requires forall j :: 0 <= j < |lines| ==> LineAvailable(cart0, products0, lines[j])
    requires forall p :: p in products0 ==> products0[p].stock >= 0
    ensures var line := cart0[lines[i]];
      var before := Decremented(products0, cart0, lines, i);
      && line.productId in before && before[line.productId].price == products0[line.productId].price
      && before[line.productId].stock - line.quantity >= 0
      && Decremented(products0, cart0, lines, i + 1)
           == before[line.productId := before[line.productId].(stock := before[line.productId].stock - line.quantity)]
  {
    DecrementedClosedForm(products0, cart0, lines, i);
    StockAfterCheckout(products0, cart0, lines, i + 1, uid);
  }

  /**
   * The state of the loop of `checkout`, from the tables `cart0`, `products0`
   * and `items0` it started with: the order items of the first `added` lines
   * exist and the stock of the first `lowered` lines' products is lowered.
   */
  ghost predicate ItemsAdded(db: Db, oid: Id, lines: seq<Id>, added: nat, lowered: nat,
                             cart0: map<Id, CartItem>, products0: map<Id, Product>, items0: map<Id, OrderItem>)
    reads db
  {
    && added <= |lines| && lowered <= |lines| && LinesIn(cart0, products0, lines)
    && db.Valid() && oid in db.orders && db.nextId == oid + 1 + added && db.cart == cart0
    && db.orderItems == WithItems(items0, cart0, products0, oid, lines, added)
    && db.products == Decremented(products0, cart0, lines, lowered)
  }

  /** The first half of a round of the loop of `checkout`: the order item for `lines[i]`, with the product's current price. */
  method AddItemRow(db: Db, oid: Id, lines: seq<Id>, i: nat,
                    ghost cart0: map<Id, CartItem>, ghost products0: map<Id, Product>, ghost items0: map<Id, OrderItem>)
    requires i < |lines| && ItemsAdded(db, oid, lines, i, i, cart0, products0, items0)
    modifies db
    ensures ItemsAdded(db, oid, lines, i + 1, i, cart0, products0, items0)
    ensures db.users == old(db.users) && db.categories == old(db.categories) && db.orders == old(db.orders)
  {
    var line := db.cart[lines[i]];
    DecrementedClosedForm(products0, cart0, lines, i);
    var item := OrderItem(oid, line.productId, line.quantity, db.products[line.productId].price);
    assert item == ItemOf(cart0, products0, oid, lines[i]);
    var id := db.InsertOrderItem(item);
  }

  /** The second half of a round: the stock of `lines[i]`'s product is lowered by the line's quantity. */
  method LowerStock(db: Db, uid: Id, oid: Id, lines: seq<Id>, i: nat,
                    ghost cart0: map<Id, CartItem>, ghost products0: map<Id, Product>, ghost items0: map<Id, OrderItem>)
    requires i < |lines| && ItemsAdded(db, oid, lines, i + 1, i, cart0, products0, items0)
    requires LinesOf(cart0, lines, uid)
    requires forall j :: 0 <= j < |lines| ==> LineAvailable(cart0, products0, lines[j])
    requires forall p :: p in products0 ==> products0[p].stock >= 0
    modifies db
    ensures ItemsAdded(db, oid, lines, i + 1, i + 1, cart0, products0, items0)
    ensures db.users == old(db.users) && db.categories == old(db.categories) && db.orders == old(db.orders)
  {
    var line := db.cart[lines[i]];
    StockStep(cart0, products0, lines, i, uid);
    db.TakeStock(line.productId, line.quantity);
  }

  /** The loop of `checkout` that creates the order items of order `oid` and decrements stock. */
  method AddOrderItems(db: Db, uid: Id, oid: Id, lines: seq<Id>)
    requires db.Valid() && oid in db.orders && db.nextId == oid + 1
    requires LinesOf(db.cart, lines, uid) && LinesIn(db.cart, db.products, lines)
    requires forall i :: 0 <= i < |lines| ==> LineAvailable(db.cart, db.products, lines[i])
    modifies db
    ensures db.Valid()
    ensures db.orderItems == WithItems(old(db.orderItems), old(db.cart), old(db.products), oid, lines, |lines|)
    ensures db.products == Decremented(old(db.products), old(db.cart), lines, |lines|)
    ensures db.nextId == oid + 1 + |lines|
    ensures db.users == old(db.users) && db.categories == old(db.categories)
    ensures db.cart == old(db.cart) && db.orders == old(db.orders)
  {
    ghost var cart0, products0, items0 := db.cart, db.products, db.orderItems;
    assert forall p :: p in products0 ==> products0[p].stock >= 0;
    var i := 0;
    while i < |lines|
      invariant i <= |lines|
      invariant ItemsAdded(db, oid, lines, i, i, cart0, products0, items0)
      invariant db.users == old(db.users) && db.categories == old(db.categories) && db.orders == old(db.orders)
    {
      AddItemRow(db, oid, lines, i, cart0, products0, items0);
      LowerStock(db, uid, oid, lines, i, cart0, products0, items0);
      i := i + 1;
    }
  }

  /**
   * The part of `checkout` that places the order once the form and the payment
   * check passed: the `Order` row, its items, the stock and the emptied cart.
   */
  method PlaceOrder(db: Db, uid: Id, f: CheckoutData, orderNumber: string, lines: seq<Id>) returns (oid: Id)
    requires db.Valid() && uid in db.users
    requires LinesOf(db.cart, lines, uid) && LinesIn(db.cart, db.products, lines)
    requires forall k :: k in db.cart && db.cart[k].userId == uid ==> k in lines
    requires forall i :: 0 <= i < |lines| ==> LineAvailable(db.cart, db.products, lines[i])
    modifies db
    ensures db.Valid()
    ensures oid == old(db.nextId)
    ensures db.orders == old(db.orders)[oid := PlacedOrder(uid, orderNumber, f, LinesTotal(old(db.cart), old(db.products), lines, |lines|))]
    ensures db.orderItems == WithItems(old(db.orderItems), old(db.cart), old(db.products), oid, lines, |lines|)
    ensures db.products == Decremented(old(db.products), old(db.cart), lines, |lines|)
    ensures db.cart == Where(old(db.cart), (l: CartItem) => l.userId != uid)
    ensures db.users == old(db.users) && db.categories == old(db.categories)
    ensures db.nextId == oid + 1 + |lines|
  {
    var total := LinesTotal(db.cart, db.products, lines, |lines|);
    oid := db.NewId();
    db.orders := db.orders[oid := PlacedOrder(uid, orderNumber, f, total)];
    AddOrderItems(db, uid, oid, lines);
    db.cart := Where(db.cart, (l: CartItem) => l.userId != uid);
  }

  /**
   * `checkout()` for user `uid`: `submitted` is whether the request is a POST
   * and `f` is the submitted form; `orderNumber` is what `generate_order_number`
   * returns. `lines` are the user's cart lines the route read.
   */
  method Checkout(db: Db, uid: Id, f: CheckoutData, submitted: bool, orderNumber: string)
    returns (outcome: CheckoutOutcome, lines: seq<Id>)
    requires db.Valid() && uid in db.users
    modifies db
    ensures db.Valid()
    ensures forall k :: k in lines <==> k in old(db.cart) && old(db.cart)[k].userId == uid
    ensures LinesOf(old(db.cart), lines, uid) && LinesIn(old(db.cart), old(db.products), lines)
    ensures outcome == EmptyCart <==> lines == []
    ensures outcome.Unavailable? ==> outcome.line in lines && !LineAvailable(old(db.cart), old(db.products), outcome.line)
    ensures var available := forall i :: 0 <= i < |lines| ==> LineAvailable(old(db.cart), old(db.products), lines[i]);
      && (outcome.Unavailable? <==> lines != [] && !available)
      && (outcome == FormShown <==> lines != [] && available && !(submitted && CheckoutValidAsWritten(f)))
      && (outcome.Refused? <==> lines != [] && available && submitted && CheckoutValidAsWritten(f) && PaymentCheckAsWritten(f) != Proceed)
      && (outcome.Placed? <==> lines != [] && available && submitted && CheckoutValidAsWritten(f) && PaymentCheckAsWritten(f) == Proceed)
    ensures outcome.Refused? ==> outcome.verdict == PaymentCheckAsWritten(f)
    ensures !outcome.Placed? ==>
      && db.users == old(db.users) && db.categories == old(db.categories) && db.products == old(db.products)
      && db.cart == old(db.cart) && db.orders == old(db.orders) && db.orderItems == old(db.orderItems)
      && db.nextId == old(db.nextId)
    ensures outcome.Placed? ==>
      var oid := outcome.orderId;
      && oid == old(db.nextId)
      && db.orders == old(db.orders)[oid := PlacedOrder(uid, orderNumber, f, LinesTotal(old(db.cart), old(db.products), lines, |lines|))]
      && db.orderItems == WithItems(old(db.orderItems), old(db.cart), old(db.products), oid, lines, |lines|)
      && db.products == Decremented(old(db.products), old(db.cart), lines, |lines|)
      && db.cart == Where(old(db.cart), (l: CartItem) => l.userId != uid)
      && db.users == old(db.users) && db.categories == old(db.categories)
      && db.nextId == oid + 1 + |lines|
  {
    lines := UserLines(db.cart, db.nextId, uid);
    if lines == [] {
      return EmptyCart, lines;
    }
    var missing := FirstUnavailable(db.cart, db.products, lines);
    if missing.Some? {
      return Unavailable(missing.value), lines;
    }
    if !(submitted && CheckoutValidAsWritten(f)) {
      return FormShown, lines;
    }
    var verdict := PaymentCheckAsWritten(f);
    if verdict != Proceed {
      return Refused(verdict), lines;
    }
    var oid := PlaceOrder(db, uid, f, orderNumber, lines);
    outcome := Placed(oid);
  }
}
