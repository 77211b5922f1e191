/**
 * The storefront's tables and the rules attached to them: the entities, the
 * `EncryptedString` column type, the two model predicates, the order status
 * choices, the unique constraints and the delete cascades.
 *
 * Prices and totals are integer cents. The in-memory rows hold what the
 * application sees; for an `EncryptedString` column that is the plaintext,
 * and `BindParam`/`ResultValue` say what crosses to and from the database.
 */
module Models {
  import opened Wrappers
  import opened Text
  import Encryption

  type Id = int

  datatype User = User(
    email: string,
    username: string,
    passwordHash: string,
    firstName: string,
    lastName: string,
    role: string,
    isActive: bool,
    phone: Option<string>,      // EncryptedString
    address: Option<string>,    // EncryptedString
    mfaSecret: Option<string>,  // EncryptedString
    mfaEnabled: bool)

  datatype Category = Category(name: string, slug: string, description: Option<string>)

  datatype Product = Product(
    name: string,
    slug: string,
    description: string,
    price: int,
    stock: int,
    image: Option<string>,
    categoryId: Id,
    isActive: bool)

  datatype CartItem = CartItem(userId: Id, productId: Id, quantity: int)

  datatype Order = Order(
    userId: Id,
    orderNumber: string,
    status: string,
    totalAmount: int,
    shippingAddress: string,     // EncryptedString
    paymentMethod: string,
    cardNumber: Option<string>,  // EncryptedString
    cardExpiry: Option<string>,  // EncryptedString
    cardCvv: Option<string>,     // EncryptedString
    bankAccount: Option<string>, // EncryptedString
    notes: Option<string>)

  /** A purchased line; `price` is the product's price when the order was placed. */
  datatype OrderItem = OrderItem(orderId: Id, productId: Id, quantity: int, price: int)

  /** `User.is_admin()`. */
  predicate IsAdmin(u: User) {
    u.role == "admin"
  }

  /**
   * The users `current_user` can stand for: `user_loader` finds the row, and
   * `UserMixin.is_authenticated` (Flask-Login 0.6 and later) is the row's
   * `is_active`.
   */
  function ActiveIds(users: map<Id, User>): (r: set<Id>)
    ensures forall k :: k in r <==> k in users && users[k].isActive
  {
    set k | k in users && users[k].isActive
  }

  /** `Product.is_in_stock()`. */
  predicate IsInStock(p: Product) {
    p.stock > 0 && p.isActive
  }

  /** `Order.STATUS_CHOICES`. */
  const StatusChoices: seq<string> := ["pending", "processing", "shipped", "delivered", "cancelled"]

  // ---------------------------------------------------------------------------
  // Mapped classes and their columns, as the persistence events see them

  datatype ModelKind = UserModel | CategoryModel | ProductModel | CartItemModel | OrderModel | OrderItemModel | AuditLogModel

  /** `target.__class__.__name__`. */
  function ClassName(m: ModelKind): string {
    match m
    case UserModel => "User"
    case CategoryModel => "Category"
    case ProductModel => "Product"
    case CartItemModel => "CartItem"
    case OrderModel => "Order"
    case OrderItemModel => "OrderItem"
    case AuditLogModel => "AuditLog"
  }

  /** A column value as an attribute of a loaded object. */
  datatype Value = Null | Int(i: int) | Str(s: string) | Flag(b: bool)

  type Column = string
  type Row = map<Column, Value>

  function OptStr(v: Option<string>): Value {
    match v
    case None => Null
    case Some(s) => Str(s)
  }

  /** The column attributes of a `User` object (timestamps left out). */
  function UserRow(id: Id, u: User): Row {
    map[
      "id" := Int(id), "email" := Str(u.email), "username" := Str(u.username),
      "password_hash" := Str(u.passwordHash), "first_name" := Str(u.firstName),
      "last_name" := Str(u.lastName), "role" := Str(u.role), "is_active" := Flag(u.isActive),
      "phone" := OptStr(u.phone), "address" := OptStr(u.address),
      "mfa_secret" := OptStr(u.mfaSecret), "mfa_enabled" := Flag(u.mfaEnabled)]
  }

  /** The column attributes of an `Order` object (timestamps left out). */
  function OrderRow(id: Id, o: Order): Row {
    map[
      "id" := Int(id), "user_id" := Int(o.userId), "order_number" := Str(o.orderNumber),
      "status" := Str(o.status), "total_amount" := Int(o.totalAmount),
      "shipping_address" := Str(o.shippingAddress), "payment_method" := Str(o.paymentMethod),
      "card_number" := OptStr(o.cardNumber), "card_expiry" := OptStr(o.cardExpiry),
      "card_cvv" := OptStr(o.cardCvv), "bank_account" := OptStr(o.bankAccount),
      "notes" := OptStr(o.notes)]
  }

  /** The column attributes of a `Product` object (timestamps left out). */
  function ProductRow(id: Id, p: Product): Row {
    map[
      "id" := Int(id), "name" := Str(p.name), "slug" := Str(p.slug),
      "description" := Str(p.description), "price" := Int(p.price), "stock" := Int(p.stock),
      "image" := OptStr(p.image), "category_id" := Int(p.categoryId), "is_active" := Flag(p.isActive)]
  }

  /** The columns declared `EncryptedString`; `AuditLog.details` is a plain `Text` column. */
  function EncryptedColumns(m: ModelKind): set<Column> {
    match m
    case UserModel => {"phone", "address", "mfa_secret"}
    case OrderModel => {"shipping_address", "card_number", "card_expiry", "card_cvv", "bank_account"}
    case _ => {}
  }

  // ---------------------------------------------------------------------------
  // EncryptedString

  /** `process_bind_param`: what is written to the database for the attribute value `value`. */
  function BindParam(c: Encryption.Cipher, aead: Encryption.Aead, value: Option<string>, nonce: Bytes): (r: Option<string>)
    requires |nonce| == Encryption.NonceLength
    ensures r.None? <==> value.None?
  {
    if value.Some? then Encryption.Encrypt(c, aead, value, nonce) else None
  }

  /** `process_result_value`: the attribute value for the stored text `value`. */
  function ResultValue(c: Encryption.Cipher, aead: Encryption.Aead, value: Option<string>): (r: Option<string>)
    ensures r.None? <==> value.None?
    ensures Encryption.Decrypt(c, aead, value).Some? ==> r == Encryption.Decrypt(c, aead, value)
    ensures value.Some? && Encryption.Decrypt(c, aead, value).None? ==> r == value
  {
    if value.Some? then
      var decrypted := Encryption.Decrypt(c, aead, value);
      if decrypted.Some? then decrypted else value
    else None
  }

  /** Writing then reading a field gives the value back, and what is stored is not that value. */
  lemma WriteThenRead(c: Encryption.Cipher, aead: Encryption.Aead, s: string, nonce: Bytes)
    requires Encryption.Sound(aead) && |nonce| == Encryption.NonceLength
    ensures ResultValue(c, aead, BindParam(c, aead, Some(s), nonce)) == Some(s)
    ensures BindParam(c, aead, Some(s), nonce) != Some(s)
  {
    Encryption.DecryptEncrypt(c, aead, s, nonce);
    Encryption.TokenDiffersFromText(c, aead, s, nonce);
  }

  /** A stored value that does not decrypt (legacy plaintext) is read back as it is. */
  lemma LegacyValueReadsBack(c: Encryption.Cipher, aead: Encryption.Aead, v: string)
    requires Encryption.Decrypt(c, aead, Some(v)).None?
    ensures ResultValue(c, aead, Some(v)) == Some(v)
  {
  }

  /** In particular any stored text of fewer than 28 characters, such as a legacy TOTP secret, reads back unchanged. */
  lemma ShortLegacyValueReadsBack(c: Encryption.Cipher, aead: Encryption.Aead, v: string)
    requires |v| < Encryption.HeaderLength
    ensures ResultValue(c, aead, Some(v)) == Some(v)
  {
    Encryption.ShortTokenRejected(c, aead, v);
  }

  // ---------------------------------------------------------------------------
  // Integrity of the tables

  predicate KeysIn<V>(m: map<Id, V>, next: Id) {
    forall k :: k in m ==> 1 <= k < next
  }

  /** `email` and `username` are `unique=True`. */
  predicate UniqueAccounts(users: map<Id, User>) {
    forall a, b :: a in users && b in users && a != b ==>
      users[a].email != users[b].email && users[a].username != users[b].username
  }

  /** The `unique_user_product` constraint: one cart line per (user, product). */
  predicate OneLinePerProduct(cart: map<Id, CartItem>) {
    forall a, b :: a in cart && b in cart && a != b ==>
      cart[a].userId != cart[b].userId || cart[a].productId != cart[b].productId
  }

  predicate CartRefs(cart: map<Id, CartItem>, users: map<Id, User>, products: map<Id, Product>) {
    forall k :: k in cart ==> cart[k].userId in users && cart[k].productId in products && cart[k].quantity >= 1
  }

  predicate CatalogRefs(products: map<Id, Product>, categories: map<Id, Category>) {
    forall k :: k in products ==> products[k].categoryId in categories && products[k].stock >= 0
  }

  predicate OrderRefs(orders: map<Id, Order>, users: map<Id, User>) {
    forall k :: k in orders ==> orders[k].userId in users
  }

  predicate ItemRefs(items: map<Id, OrderItem>, orders: map<Id, Order>, products: map<Id, Product>) {
    forall k :: k in items ==> items[k].orderId in orders && items[k].productId in products
  }

  /** The rows of `m` whose values satisfy `keep`. */
  function Where<V>(m: map<Id, V>, keep: V -> bool): (r: map<Id, V>)
    ensures forall k :: k in r <==> k in m && keep(m[k])
    ensures forall k :: k in r ==> r[k] == m[k]
  {
    map k | k in m && keep(m[k]) :: m[k]
  }

  /**
   * The database: one map per table from primary key to row, and the next
   * autoincrement key. `Valid` is what the constraints and the cascades keep.
   */
  class Db {
    var users: map<Id, User>
    var categories: map<Id, Category>
    var products: map<Id, Product>
    var cart: map<Id, CartItem>
    var orders: map<Id, Order>
    var orderItems: map<Id, OrderItem>
    var nextId: Id

    ghost predicate Valid()
      reads this
    {
      && nextId >= 1
      && KeysIn(users, nextId) && KeysIn(categories, nextId) && KeysIn(products, nextId)
      && KeysIn(cart, nextId) && KeysIn(orders, nextId) && KeysIn(orderItems, nextId)
      && UniqueAccounts(users)
      && OneLinePerProduct(cart)
      && CartRefs(cart, users, products)
      && CatalogRefs(products, categories)
      && OrderRefs(orders, users)
      && ItemRefs(orderItems, orders, products)
    }

    constructor ()
      ensures Valid()
      ensures users == map[] && categories == map[] && products == map[]
      ensures cart == map[] && orders == map[] && orderItems == map[]
    {
      users, categories, products := map[], map[], map[];
      cart, orders, orderItems := map[], map[], map[];
      nextId := 1;
    }

    /** The key the next inserted row receives. */
    method NewId() returns (id: Id)
      requires Valid()
      modifies this
      ensures Valid()
      ensures id == old(nextId) && nextId == id + 1 && id >= 1
      ensures users == old(users) && categories == old(categories) && products == old(products)
      ensures cart == old(cart) && orders == old(orders) && orderItems == old(orderItems)
    {
      id := nextId;
      nextId := nextId + 1;
    }

    /** `db.session.add(item)` for an order item; it takes the next autoincrement key. */
    method InsertOrderItem(item: OrderItem) returns (id: Id)
      requires Valid() && item.orderId in orders && item.productId in products
      modifies this
      ensures Valid()
      ensures id == old(nextId) && nextId == id + 1
      ensures orderItems == old(orderItems)[id := item]
      ensures users == old(users) && categories == old(categories) && products == old(products)
      ensures cart == old(cart) && orders == old(orders)
    {
      id := nextId;
      nextId := nextId + 1;
      orderItems := orderItems[id := item];
    }

    /** `product.stock -= quantity`; the catalogue keeps no negative stock. */
    method TakeStock(pid: Id, quantity: int)
      requires Valid() && pid in products && products[pid].stock - quantity >= 0
      modifies this
      ensures Valid()
      ensures products == old(products)[pid := old(products)[pid].(stock := old(products)[pid].stock - quantity)]
      ensures users == old(users) && categories == old(categories) && cart == old(cart)
      ensures orders == old(orders) && orderItems == old(orderItems) && nextId == old(nextId)
    {
      products := products[pid := products[pid].(stock := products[pid].stock - quantity)];
    }

    /** `user.mfa_secret = secret; user.mfa_enabled = enabled` and a commit. */
    method SetMfa(uid: Id, secret: Option<string>, enabled: bool)
      requires Valid() && uid in users
      modifies this
      ensures Valid()
      ensures users == old(users)[uid := old(users)[uid].(mfaSecret := secret, mfaEnabled := enabled)]
      ensures categories == old(categories) && products == old(products) && cart == old(cart)
      ensures orders == old(orders) && orderItems == old(orderItems) && nextId == old(nextId)
    {
      users := users[uid := users[uid].(mfaSecret := secret, mfaEnabled := enabled)];
    }

    /** `order.status = status` and a commit. */
    method SetOrderStatus(oid: Id, status: string)
      requires Valid() && oid in orders
      modifies this
      ensures Valid()
      ensures orders == old(orders)[oid := old(orders)[oid].(status := status)]
      ensures users == old(users) && categories == old(categories) && products == old(products)
      ensures cart == old(cart) && orderItems == old(orderItems) && nextId == old(nextId)
    {
      orders := orders[oid := orders[oid].(status := status)];
    }

    /** `db.session.delete(order)`: `Order.items` cascades to its order items. */
    method DeleteOrder(oid: Id)
      requires Valid() && oid in orders
      modifies this
      ensures Valid()
      ensures orders == old(orders) - {oid}
      ensures orderItems == Where(old(orderItems), (i: OrderItem) => i.orderId != oid)
      ensures users == old(users) && categories == old(categories) && products == old(products)
      ensures cart == old(cart) && nextId == old(nextId)
    {
      orderItems := Where(orderItems, (i: OrderItem) => i.orderId != oid);
      orders := orders - {oid};
    }

    /**
     * `db.session.delete(user)`: `User.orders` and `User.cart_items` cascade, and
     * each deleted order takes its order items with it.
     */
    method DeleteUser(uid: Id)
      requires Valid() && uid in users
      modifies this
      ensures Valid()
      ensures users == old(users) - {uid}
      ensures orders == Where(old(orders), (o: Order) => o.userId != uid)
      ensures var kept := orders.Keys; orderItems == Where(old(orderItems), (i: OrderItem) => i.orderId in kept)
      ensures cart == Where(old(cart), (l: CartItem) => l.userId != uid)
      ensures categories == old(categories) && products == old(products) && nextId == old(nextId)
    {
      var keptOrders := Where(orders, (o: Order) => o.userId != uid);
      var keys := keptOrders.Keys;
      orderItems := Where(orderItems, (i: OrderItem) => i.orderId in keys);
      orders := keptOrders;
      cart := Where(cart, (l: CartItem) => l.userId != uid);
      users := users - {uid};
    }

    /** `db.session.delete(product)`: `Product.order_items` and `Product.cart_items` cascade. */
    method DeleteProduct(pid: Id)
      requires Valid() && pid in products
      modifies this
      ensures Valid()
      ensures products == old(products) - {pid}
      ensures orderItems == Where(old(orderItems), (i: OrderItem) => i.productId != pid)
      ensures cart == Where(old(cart), (l: CartItem) => l.productId != pid)
      ensures users == old(users) && categories == old(categories) && orders == old(orders)
      ensures nextId == old(nextId)
    {
      orderItems := Where(orderItems, (i: OrderItem) => i.productId != pid);
      cart := Where(cart, (l: CartItem) => l.productId != pid);
      products := products - {pid};
    }

    /**
     * `db.session.delete(category)`: `Category.products` cascades, and each
     * deleted product takes its order items and cart lines with it.
     */
    method DeleteCategory(cid: Id)
      requires Valid() && cid in categories
      modifies this
      ensures Valid()
      ensures categories == old(categories) - {cid}
      ensures products == Where(old(products), (p: Product) => p.categoryId != cid)
      ensures var kept := products.Keys; orderItems == Where(old(orderItems), (i: OrderItem) => i.productId in kept)
      ensures var kept := products.Keys; cart == Where(old(cart), (l: CartItem) => l.productId in kept)
      ensures users == old(users) && orders == old(orders) && nextId == old(nextId)
    {
      var keptProducts := Where(products, (p: Product) => p.categoryId != cid);
      var keys := keptProducts.Keys;
      orderItems := Where(orderItems, (i: OrderItem) => i.productId in keys);
      cart := Where(cart, (l: CartItem) => l.productId in keys);
      products := keptProducts;
      categories := categories - {cid};
    }
  }
}
