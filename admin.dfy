/**
 * The admin panel's guard and its state-changing routes: deleting users,
 * categories, products and orders, and setting an order's status. The
 * deletions cascade as the relationships declare (see `Models.Db`).
 */
module Admin {
  import opened Wrappers
  import opened Models
  import opened Forms
  import opened SessionSecurity
  import Auth

  datatype Guard = NotLoggedIn | Forbidden | Allowed

  /** `@admin_required`: `@login_required`, then `abort(403)` unless `current_user.is_admin()`. */
  function AdminRequired(current: Option<User>): (g: Guard)
    ensures g == NotLoggedIn <==> current.None?
    ensures g == Allowed <==> current.Some? && current.value.role == "admin"
  {
    if current.None? then NotLoggedIn else if !IsAdmin(current.value) then Forbidden else Allowed
  }

  /** The user `current_user` names, if any. */
  function Acting(db: Db, s: Session): (r: Option<User>)
    reads db, s
    ensures r.Some? <==> Auth.CurrentUser(s, db.users).Some?
    ensures r.Some? ==> r.value == db.users[s.principal.value]
  {
    var me := Auth.CurrentUser(s, db.users);
    if me.Some? then Some(db.users[me.value]) else None
  }

  datatype AdminOutcome = Refused(guard: Guard) | NotFound | SelfDeletion | CategoryInUse | Deleted | StatusUpdated | StatusUnchanged

  /** Whether some product still belongs to category `cid` (`category.products.count() > 0`). */
  predicate HasProducts(products: map<Id, Product>, cid: Id) {
    exists p :: p in products && products[p].categoryId == cid
  }

  /**
   * Deleting a category that no product belongs to takes nothing else with
   * it: the cascade from products to their cart lines and order items is empty.
   */
  lemma EmptyCategoryCascade(products: map<Id, Product>, cart: map<Id, CartItem>, items: map<Id, OrderItem>, cid: Id)
    requires !HasProducts(products, cid)
    requires forall k :: k in cart ==> cart[k].productId in products
    requires forall k :: k in items ==> items[k].productId in products
    ensures Where(products, (p: Product) => p.categoryId != cid) == products
    ensures var kept := products.Keys; Where(cart, (l: CartItem) => l.productId in kept) == cart
    ensures var kept := products.Keys; Where(items, (i: OrderItem) => i.productId in kept) == items
  {
    var kept := products.Keys;
    var keepProduct := (p: Product) => p.categoryId != cid;
    var keepLine := (l: CartItem) => l.productId in kept;
    var keepItem := (i: OrderItem) => i.productId in kept;
    forall k | k in products ensures keepProduct(products[k]) {
      assert !(products[k].categoryId == cid);
    }
    forall k | k in cart ensures keepLine(cart[k]) {
      assert cart[k].productId in products;
    }
    forall k | k in items ensures keepItem(items[k]) {
      assert items[k].productId in products;
    }
    assert Where(products, keepProduct) == products;
    assert Where(cart, keepLine) == cart;
    assert Where(items, keepItem) == items;
  }

  /** `delete_user(user_id)`. */
  method DeleteUserRoute(db: Db, s: Session, uid: Id) returns (outcome: AdminOutcome)
    requires db.Valid()
    modifies db
    ensures db.Valid()
    ensures var g := AdminRequired(old(Acting(db, s)));
      && (g != Allowed <==> outcome == Refused(g))
      && (outcome == NotFound <==> g == Allowed && uid !in old(db.users))
      && (outcome == SelfDeletion <==> g == Allowed && uid in old(db.users) && s.principal == Some(uid))
      && (outcome == Deleted <==> g == Allowed && uid in old(db.users) && s.principal != Some(uid))
    ensures outcome == Deleted ==>
      && db.users == old(db.users) - {uid}
      && db.orders == Where(old(db.orders), (o: Order) => o.userId != uid)
      && db.cart == Where(old(db.cart), (l: CartItem) => l.userId != uid)
      && (var kept := db.orders.Keys; db.orderItems == Where(old(db.orderItems), (i: OrderItem) => i.orderId in kept))
      && db.categories == old(db.categories) && db.products == old(db.products) && db.nextId == old(db.nextId)
    ensures outcome != Deleted ==>
      && db.users == old(db.users) && db.orders == old(db.orders) && db.cart == old(db.cart)
      && db.orderItems == old(db.orderItems) && db.categories == old(db.categories) && db.products == old(db.products)
      && db.nextId == old(db.nextId)
    ensures Auth.CurrentUser(s, old(db.users)).Some? ==> Auth.CurrentUser(s, db.users) == Auth.CurrentUser(s, old(db.users))
  {
    var g := AdminRequired(Acting(db, s));
    if g != Allowed {
      return Refused(g);
    }
    if uid !in db.users {
      return NotFound;
    }
    if s.principal == Some(uid) {
      return SelfDeletion;
    }
    db.DeleteUser(uid);
    return Deleted;
  }

  /** `delete_category(category_id)`. */
  method DeleteCategoryRoute(db: Db, s: Session, cid: Id) returns (outcome: AdminOutcome)
    requires db.Valid()
    modifies db
    ensures db.Valid()
    ensures var g := AdminRequired(old(Acting(db, s)));
      && (g != Allowed <==> outcome == Refused(g))
      && (outcome == NotFound <==> g == Allowed && cid !in old(db.categories))
      && (outcome == CategoryInUse <==> g == Allowed && cid in old(db.categories) && HasProducts(old(db.products), cid))
      && (outcome == Deleted <==> g == Allowed && cid in old(db.categories) && !HasProducts(old(db.products), cid))
    ensures outcome == Deleted ==> db.categories == old(db.categories) - {cid}
    ensures outcome != Deleted ==> db.categories == old(db.categories)
    ensures db.products == old(db.products) && db.cart == old(db.cart) && db.orderItems == old(db.orderItems)
    ensures db.users == old(db.users) && db.orders == old(db.orders) && db.nextId == old(db.nextId)
  {
    var g := AdminRequired(Acting(db, s));
    if g != Allowed {
      return Refused(g);
    }
    if cid !in db.categories {
      return NotFound;
    }
    if exists p :: p in db.products && db.products[p].categoryId == cid {
      return CategoryInUse;
    }
    EmptyCategoryCascade(db.products, db.cart, db.orderItems, cid);
    db.DeleteCategory(cid);
    return Deleted;
  }

  /** `delete_product(product_id)`; removing the image file is not modelled. */
  method DeleteProductRoute(db: Db, s: Session, pid: Id) returns (outcome: AdminOutcome)
    requires db.Valid()
    modifies db
    ensures db.Valid()
    ensures var g := AdminRequired(old(Acting(db, s)));
      && (g != Allowed <==> outcome == Refused(g))
      && (outcome == NotFound <==> g == Allowed && pid !in old(db.products))
      && (outcome == Deleted <==> g == Allowed && pid in old(db.products))
    ensures outcome == Deleted ==>
      && db.products == old(db.products) - {pid}
      && db.orderItems == Where(old(db.orderItems), (i: OrderItem) => i.productId != pid)
      && db.cart == Where(old(db.cart), (l: CartItem) => l.productId != pid)
    ensures outcome != Deleted ==>
      db.products == old(db.products) && db.orderItems == old(db.orderItems) && db.cart == old(db.cart)
    ensures db.users == old(db.users) && db.categories == old(db.categories) && db.orders == old(db.orders)
    ensures db.nextId == old(db.nextId)
  {
    var g := AdminRequired(Acting(db, s));
    if g != Allowed {
      return Refused(g);
    }
    if pid !in db.products {
      return NotFound;
    }
    db.DeleteProduct(pid);
    return Deleted;
  }

  /** `delete_order(order_id)`. */
  method DeleteOrderRoute(db: Db, s: Session, oid: Id) returns (outcome: AdminOutcome)
    requires db.Valid()
    modifies db
    ensures db.Valid()
    ensures var g := AdminRequired(old(Acting(db, s)));
      && (g != Allowed <==> outcome == Refused(g))
      && (outcome == NotFound <==> g == Allowed && oid !in old(db.orders))
      && (outcome == Deleted <==> g == Allowed && oid in old(db.orders))
    ensures outcome == Deleted ==>
      && db.orders == old(db.orders) - {oid}
      && db.orderItems == Where(old(db.orderItems), (i: OrderItem) => i.orderId != oid)
    ensures outcome != Deleted ==> db.orders == old(db.orders) && db.orderItems == old(db.orderItems)
    ensures db.users == old(db.users) && db.categories == old(db.categories) && db.products == old(db.products)
    ensures db.cart == old(db.cart) && db.nextId == old(db.nextId)
  {
    var g := AdminRequired(Acting(db, s));
    if g != Allowed {
      return Refused(g);
    }
    if oid !in db.orders {
      return NotFound;
    }
    db.DeleteOrder(oid);
    return Deleted;
  }

  /** `update_order_status(order_id)`: `submitted` is whether the request is a POST, `status` the chosen value. */
  method UpdateOrderStatus(db: Db, s: Session, oid: Id, submitted: bool, status: string) returns (outcome: AdminOutcome)
    requires db.Valid()
    modifies db
    ensures db.Valid()
    ensures var g := AdminRequired(old(Acting(db, s)));
      && (g != Allowed <==> outcome == Refused(g))
      && (outcome == NotFound <==> g == Allowed && oid !in old(db.orders))
      && (outcome == StatusUpdated <==> g == Allowed && oid in old(db.orders) && submitted && StatusValid(status))
      && (outcome == StatusUnchanged <==> g == Allowed && oid in old(db.orders) && !(submitted && StatusValid(status)))
    ensures outcome == StatusUpdated ==>
      db.orders == old(db.orders)[oid := old(db.orders)[oid].(status := status)] && status in StatusChoices
    ensures outcome != StatusUpdated ==> db.orders == old(db.orders)
    ensures db.users == old(db.users) && db.categories == old(db.categories) && db.products == old(db.products)
    ensures db.cart == old(db.cart) && db.orderItems == old(db.orderItems) && db.nextId == old(db.nextId)
  {
    var g := AdminRequired(Acting(db, s));
    if g != Allowed {
      return Refused(g);
    }
    if oid !in db.orders {
      return NotFound;
    }
    if !(submitted && StatusValid(status)) {
      return StatusUnchanged;
    }
    StatusInChoices(status);
    db.SetOrderStatus(oid, status);
    return StatusUpdated;
  }
}
