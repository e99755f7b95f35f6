/**
 * The recompute hook (apps/orders/signals.py) and the single-row item
 * operations that fire it: adding, changing and deleting one order item,
 * and deleting an order, whose cascade deletes its items.
 */
module Signals {
  import opened Wrappers
  import opened Catalog
  import opened Models

  // ---------------------------------------------------------------------------
  // The hook
  // ---------------------------------------------------------------------------

  /** What the hook does to the database for an item of order `id`. */
  function Hook(s: Db, id: OrderId): (r: Result<Db, DbError>)
    requires Valid(s) && id in OrderIds(s.orders)
  {
    Recompute(s, Find(s.orders, id))
  }

  /**
   * update_order_total_price, the receiver of post_save and post_delete for
   * OrderItem: it recomputes the total of the item's own order.
   */
  method OnItemChanged(db: Database, item: OrderItem) returns (r: Outcome<DbError>)
    requires Valid(db.Snapshot()) && item.order in OrderIds(db.orders)
    modifies db
    ensures var spec := Hook(old(db.Snapshot()), item.order);
      && (spec.Ok? ==> r == Pass && db.Snapshot() == spec.value)
      && (spec.Err? ==> r == Fail(spec.error) && db.Snapshot() == old(db.Snapshot()))
  {
    var order := db.Get(item.order);
    var res := db.UpdateTotalPrice(order);
    r := if res.Ok? then Pass else Fail(res.error);
  }

  /**
   * After the hook, the item's order holds the sum over its current items,
   * every other order's row is unchanged, and so are the items.
   */
  lemma HookTouchesOnlyOwnOrder(s: Db, id: OrderId)
    requires Valid(s) && id in OrderIds(s.orders) && Hook(s, id).Ok?
    ensures var t := Hook(s, id).value;
      && t.items == s.items
      && |t.orders| == |s.orders|
      && (forall k :: 0 <= k < |s.orders| && s.orders[k].id != id ==> t.orders[k] == s.orders[k])
      && OrderIds(t.orders) == OrderIds(s.orders)
      && Find(t.orders, id).totalPrice == OrderTotal(t.items, t.dishes, id)
  {
    var o := Find(s.orders, id);
    RecomputeStoresSum(s, o);
    SaveRowIds(s.orders, o.(totalPrice := OrderTotal(s.items, s.dishes, id)));
  }

  /** The hook clears order `id` from the set of orders whose total may be stale. */
  lemma HookRestoresConsistency(s: Db, id: OrderId, pending: set<OrderId>)
    requires ConsistentOutside(s, pending) && id in OrderIds(s.orders) && Hook(s, id).Ok?
    ensures ConsistentOutside(Hook(s, id).value, pending - {id})
    ensures pending <= {id} ==> Consistent(Hook(s, id).value)
    ensures OrderIds(Hook(s, id).value.orders) == OrderIds(s.orders)
    ensures Hook(s, id).value.items == s.items
    ensures Find(Hook(s, id).value.orders, id).totalPrice == OrderTotal(s.items, s.dishes, id)
  {
    var o := Find(s.orders, id);
    RecomputeRestoresConsistency(s, o, pending);
    SaveRowIds(s.orders, o.(totalPrice := OrderTotal(s.items, s.dishes, id)));
    FindSaved(s.orders, o.(totalPrice := OrderTotal(s.items, s.dishes, id)));
  }

  // ---------------------------------------------------------------------------
  // Item rows addressed by id
  // ---------------------------------------------------------------------------

  /**
   * OrderItem.objects.get(pk=id). This and ReplaceItemRow below follow
   * Find and SaveRow of the order rows: the item table is a sequence of a
   * different row type, and Dafny has no shared interface for "a row with
   * an id" without traits, so the two lookups are written once per table.
   */
  function FindItem(items: seq<OrderItem>, id: ItemId): (x: OrderItem)
    requires id in ItemIds(items)
    ensures x in items && x.id == id
  {
    if items[0].id == id then items[0]
    else
      assert items == [items[0]] + items[1..];
      FindItem(items[1..], id)
  }

  lemma FindItemAt(items: seq<OrderItem>, k: nat)
    requires ItemIdsUnique(items) && k < |items|
    ensures items[k].id in ItemIds(items)
    ensures FindItem(items, items[k].id) == items[k]
  {
    assert items[k] in items;
    var x := FindItem(items, items[k].id);
    var j :| 0 <= j < |items| && items[j] == x;
  }

  /** item.save() on an existing item: its row takes the instance's values (SaveRow for item rows). */
  function ReplaceItemRow(items: seq<OrderItem>, item: OrderItem): (r: seq<OrderItem>)
    ensures |r| == |items|
  {
    seq(|items|, k requires 0 <= k < |items| => if items[k].id == item.id then item else items[k])
  }

  /** The rows left after item.delete(). */
  function RemoveItemRow(items: seq<OrderItem>, id: ItemId): (r: seq<OrderItem>)
    ensures forall x :: x in r <==> x in items && x.id != id
  {
    if items == [] then []
    else
      var n := |items| - 1;
      assert items == items[..n] + [items[n]];
      RemoveItemRow(items[..n], id) + (if items[n].id != id then [items[n]] else [])
  }

  // ---------------------------------------------------------------------------
  // Adding one item
  // ---------------------------------------------------------------------------

  /**
   * OrderItem.objects.create(order=..., dish=..., quantity=...): one new row,
   * then the post_save hook on its order. Inside the caller's transaction,
   * a failing hook undoes the insert.
   */
  function ItemAdded(s: Db, id: OrderId, line: ItemLine): (r: Result<Db, DbError>)
    requires Valid(s) && id in OrderIds(s.orders) && line.dish in s.dishes
  {
    var s1 := BulkCreated(s, id, [line]);
    assert Valid(s1) by { BulkCreatedValid(s, id, [line]); }
    Hook(s1, id)
  }

  /** One line's total is its dish's price times its quantity. */
  lemma SingleLineTotal(line: ItemLine, dishes: map<DishId, Dish>)
    requires line.dish in dishes
    ensures LinesKnown([line], dishes)
    ensures LinesTotal([line], dishes) == dishes[line.dish].price * LineQuantity(line)
  {
    assert [line][..0] == [];
  }

  /** Adding an item keeps every order consistent and adds the item's total to its order. */
  lemma ItemAddedKeepsConsistency(s: Db, id: OrderId, line: ItemLine)
    requires Consistent(s) && id in OrderIds(s.orders) && line.dish in s.dishes
    requires ItemAdded(s, id, line).Ok?
    ensures var t := ItemAdded(s, id, line).value;
      && Consistent(t)
      && |t.items| == |s.items| + 1
      && Find(t.orders, id).totalPrice == Find(s.orders, id).totalPrice + s.dishes[line.dish].price * LineQuantity(line)
  {
    var s1 := BulkCreated(s, id, [line]);
    SingleLineTotal(line, s.dishes);
    BulkCreatedConsistentOutside(s, id, [line]);
    HookRestoresConsistency(s1, id, {id});
    assert Find(s.orders, id) in s.orders;
  }

  // ---------------------------------------------------------------------------
  // Changing one item (admin change form: order, dish and quantity editable)
  // ---------------------------------------------------------------------------

  /**
   * The item change as the hook handles it: the row is updated, then only
   * the order the item now points at is recomputed.
   */
  function ItemChangedAsWritten(s: Db, item: OrderItem): (r: Result<Db, DbError>)
    requires Valid(s) && item.id in ItemIds(s.items) && item.order in OrderIds(s.orders) && item.dish in s.dishes
  {
    var s1 := s.(items := ReplaceItemRow(s.items, item));
    assert Valid(s1) by { ReplaceItemRowValid(s, item); }
    Hook(s1, item.order)
  }

  /**
   * The item change with both orders recomputed: the one the item now
   * points at and, when it moved, the one it left.
   */
  function ItemChanged(s: Db, item: OrderItem): (r: Result<Db, DbError>)
    requires Valid(s) && item.id in ItemIds(s.items) && item.order in OrderIds(s.orders) && item.dish in s.dishes
  {
    var previous := FindItem(s.items, item.id).order;
    var s1 := s.(items := ReplaceItemRow(s.items, item));
    assert Valid(s1) by { ReplaceItemRowValid(s, item); }
    match Hook(s1, item.order)
    case Err(e) => Err(e)
    case Ok(s2) =>
      if previous == item.order then Ok(s2)
      else
        assert Valid(s2) && previous in OrderIds(s2.orders) by {
          RecomputePreservesValid(s1, Find(s1.orders, item.order));
          SaveRowIds(s1.orders, Find(s1.orders, item.order).(totalPrice := OrderTotal(s1.items, s1.dishes, item.order)));
        }
        Hook(s2, previous)
  }

  lemma ReplaceItemRowValid(s: Db, item: OrderItem)
    requires Valid(s) && item.id in ItemIds(s.items) && item.order in OrderIds(s.orders) && item.dish in s.dishes
    ensures Valid(s.(items := ReplaceItemRow(s.items, item)))
    ensures FindItem(s.items, item.id).order in OrderIds(s.orders)
  {
    var r := ReplaceItemRow(s.items, item);
    forall x | x in r ensures x.id < s.nextItemId && x.order in OrderIds(s.orders) && x.dish in s.dishes {
      var k :| 0 <= k < |r| && r[k] == x;
      assert s.items[k] in s.items;
    }
  }

  /**
   * The rows of any order other than the item's old and new one are the
   * same after the change.
   */
  lemma ReplaceItemRowOthers(s: Db, item: OrderItem, other: OrderId)
    requires Valid(s) && item.id in ItemIds(s.items)
    requires other != item.order && other != FindItem(s.items, item.id).order
    ensures ItemsOf(ReplaceItemRow(s.items, item), other) == ItemsOf(s.items, other)
  {
    var r := ReplaceItemRow(s.items, item);
    forall k | 0 <= k < |r| ensures r[k] == s.items[k] || (r[k].order != other && s.items[k].order != other) {
      if s.items[k].id == item.id {
        FindItemAt(s.items, k);
      }
    }
    ItemsOfPointwise(r, s.items, other);
  }

  /** Changing an item can leave stale totals only on its old and its new order. */
  lemma ReplaceItemRowConsistentOutside(s: Db, item: OrderItem)
    requires Consistent(s) && item.id in ItemIds(s.items) && item.order in OrderIds(s.orders) && item.dish in s.dishes
    ensures ConsistentOutside(s.(items := ReplaceItemRow(s.items, item)), {item.order, FindItem(s.items, item.id).order})
  {
    var previous := FindItem(s.items, item.id).order;
    var s1 := s.(items := ReplaceItemRow(s.items, item));
    ReplaceItemRowValid(s, item);
    forall o | o in s1.orders && o.id !in {item.order, previous} ensures o.totalPrice == OrderTotal(s1.items, s1.dishes, o.id) {
      ReplaceItemRowOthers(s, item, o.id);
    }
  }

  /** Recomputing both orders that may be stale, one after the other, makes the database consistent. */
  lemma TwoHooksRestoreConsistency(s: Db, first: OrderId, second: OrderId)
    requires ConsistentOutside(s, {first, second}) && first in OrderIds(s.orders) && second in OrderIds(s.orders)
    requires Hook(s, first).Ok?
    ensures Valid(Hook(s, first).value) && second in OrderIds(Hook(s, first).value.orders)
    ensures Hook(Hook(s, first).value, second).Ok? ==> Consistent(Hook(Hook(s, first).value, second).value)
  {
    HookRestoresConsistency(s, first, {first, second});
    var s2 := Hook(s, first).value;
    assert {first, second} - {first} <= {second};
    if Hook(s2, second).Ok? {
      HookRestoresConsistency(s2, second, {first, second} - {first});
    }
  }

  /** The corrected change keeps every order consistent. */
  lemma ItemChangedKeepsConsistency(s: Db, item: OrderItem)
    requires Consistent(s) && item.id in ItemIds(s.items) && item.order in OrderIds(s.orders) && item.dish in s.dishes
    requires ItemChanged(s, item).Ok?
    ensures Consistent(ItemChanged(s, item).value)
    ensures ItemChanged(s, item).value.items == ReplaceItemRow(s.items, item)
  {
    var previous := FindItem(s.items, item.id).order;
    var s1 := s.(items := ReplaceItemRow(s.items, item));
    ReplaceItemRowValid(s, item);
    ReplaceItemRowConsistentOutside(s, item);
    if previous == item.order {
      HookRestoresConsistency(s1, item.order, {item.order, previous});
    } else {
      TwoHooksRestoreConsistency(s1, item.order, previous);
    }
  }

  /** Two pending orders at one table; order 1 holds one soup at `price`. */
  function MoveExample(price: Cents): Db {
    Db(map[1 := Dish(1, "soup", price)], map[1 := Table(1, 1, 4, "window")],
       [Order(1, 1, Pending, price, 0), Order(2, 1, Pending, 0, 0)],
       [OrderItem(1, 1, 1, 1)], 3, 2)
  }

  /** A one-row list holds the row's own order's items only. */
  lemma SingleItemTotal(x: OrderItem, dishes: map<DishId, Dish>, id: OrderId)
    requires x.dish in dishes
    ensures DishesKnown([x], dishes)
    ensures OrderTotal([x], dishes, id) == if x.order == id then ItemTotal(x, dishes) else 0
  {
    assert [x][..0] == [];
    assert ItemsOf([x], id) == if x.order == id then [x] else [];
    assert Subtotal([x], dishes) == Subtotal([], dishes) + ItemTotal(x, dishes);
  }

  lemma MoveExampleValid(price: Cents)
    requires FitsTotalColumn(price)
    ensures Valid(MoveExample(price))
    ensures 1 in OrderIds(MoveExample(price).orders) && 2 in OrderIds(MoveExample(price).orders) && 1 in ItemIds(MoveExample(price).items)
  {
    var s := MoveExample(price);
    var soup := OrderItem(1, 1, 1, 1);
    assert s.items == [soup];
    assert OrderIdsUnique(s.orders) && ItemIdsUnique(s.items);
    forall o | o in s.orders ensures o.id < s.nextOrderId && o.table in s.tables && FitsTotalColumn(o.totalPrice) {
      assert o == s.orders[0] || o == s.orders[1];
    }
    assert s.orders[0] in s.orders && s.orders[1] in s.orders;
    forall x | x in s.items ensures x.id < s.nextItemId && x.order in OrderIds(s.orders) && x.dish in s.dishes {
      assert x == soup;
    }
    assert soup in s.items;
  }

  lemma MoveExampleConsistent(price: Cents)
    requires FitsTotalColumn(price)
    ensures Consistent(MoveExample(price))
    ensures 1 in OrderIds(MoveExample(price).orders) && 2 in OrderIds(MoveExample(price).orders) && 1 in ItemIds(MoveExample(price).items)
  {
    MoveExampleValid(price);
    var s := MoveExample(price);
    var soup := OrderItem(1, 1, 1, 1);
    assert s.items == [soup];
    SingleItemTotal(soup, s.dishes, 1);
    SingleItemTotal(soup, s.dishes, 2);
    forall o | o in s.orders ensures o.totalPrice == OrderTotal(s.items, s.dishes, o.id) {
      assert o == s.orders[0] || o == s.orders[1];
    }
  }

  /**
   * Moving the soup to order 2: the change as written recomputes order 2
   * only, and order 1 keeps the soup's price with no items left.
   */
  lemma ItemChangedAsWrittenLeavesStaleTotal(price: Cents)
    requires FitsTotalColumn(price) && price != 0
    ensures Consistent(MoveExample(price))
    ensures var moved := OrderItem(1, 2, 1, 1);
      && ItemChangedAsWritten(MoveExample(price), moved).Ok?
      && !Consistent(ItemChangedAsWritten(MoveExample(price), moved).value)
  {
    MoveExampleConsistent(price);
    var s := MoveExample(price);
    var moved := OrderItem(1, 2, 1, 1);
    var s1 := s.(items := ReplaceItemRow(s.items, moved));
    assert s1.items == [moved];
    ReplaceItemRowValid(s, moved);
    SingleItemTotal(moved, s.dishes, 1);
    SingleItemTotal(moved, s.dishes, 2);
    assert ItemChangedAsWritten(s, moved) == Hook(s1, 2);
    HookTouchesOnlyOwnOrder(s1, 2);
    var t := Hook(s1, 2).value;
    assert t.orders[0] == s.orders[0] && t.orders[0] in t.orders;
  }

  /** The corrected change, performed on the database inside one transaction. */
  method ChangeItem(db: Database, item: OrderItem) returns (r: Outcome<DbError>)
    requires Valid(db.Snapshot()) && item.id in ItemIds(db.items) && item.order in OrderIds(db.orders) && item.dish in db.dishes
    modifies db
    ensures var spec := ItemChanged(old(db.Snapshot()), item);
      && (spec.Ok? ==> r == Pass && db.Snapshot() == spec.value)
      && (spec.Err? ==> r == Fail(spec.error) && db.Snapshot() == old(db.Snapshot()))
  {
    var saved := db.Snapshot();
    var previous := FindItem(db.items, item.id).order;
    ReplaceItemRowValid(saved, item);
    db.items := ReplaceItemRow(db.items, item);
    r := OnItemChanged(db, item);
    if r.Fail? {
      db.Restore(saved);
      return;
    }
    if previous != item.order {
      ghost var s1 := saved.(items := ReplaceItemRow(saved.items, item));
      RecomputePreservesValid(s1, Find(s1.orders, item.order));
      SaveRowIds(s1.orders, Find(s1.orders, item.order).(totalPrice := OrderTotal(s1.items, s1.dishes, item.order)));
      r := OnItemChanged(db, OrderItem(item.id, previous, item.dish, item.quantity));
      if r.Fail? {
        db.Restore(saved);
      }
    }
  }

  // ---------------------------------------------------------------------------
  // Deleting one item
  // ---------------------------------------------------------------------------

  /** item.delete(): the row goes, then the post_delete hook recomputes its order. */
  function ItemDeleted(s: Db, id: ItemId): (r: Result<Db, DbError>)
    requires Valid(s) && id in ItemIds(s.items)
  {
    var order := FindItem(s.items, id).order;
    var s1 := s.(items := RemoveItemRow(s.items, id));
    assert Valid(s1) by { RemoveItemRowUnique(s.items, id); }
    Hook(s1, order)
  }

  lemma {:induction false} RemoveItemRowUnique(items: seq<OrderItem>, id: ItemId)
    requires ItemIdsUnique(items)
    ensures ItemIdsUnique(RemoveItemRow(items, id))
  {
    if items != [] {
      var n := |items| - 1;
      RemoveItemRowUnique(items[..n], id);
      var rest := RemoveItemRow(items[..n], id);
      forall i | 0 <= i < |rest| ensures rest[i].id != items[n].id {
        assert rest[i] in rest;
        var j :| 0 <= j < n && items[..n][j] == rest[i];
      }
    }
  }

  /** Removing rows that do not belong to order `other` leaves that order's items as they were. */
  lemma {:induction false} RemoveItemRowOthers(items: seq<OrderItem>, id: ItemId, other: OrderId)
    requires forall x :: x in items && x.id == id ==> x.order != other
    ensures ItemsOf(RemoveItemRow(items, id), other) == ItemsOf(items, other)
  {
    if items != [] {
      var n := |items| - 1;
      var last := items[n];
      assert items == items[..n] + [last];
      RemoveItemRowOthers(items[..n], id, other);
      var kept := if last.id != id then [last] else [];
      ItemsOfAppend(RemoveItemRow(items[..n], id), kept, other);
      ItemsOfAppend(items[..n], [last], other);
    }
  }

  /** Deleting an item keeps every order consistent. */
  lemma ItemDeletedKeepsConsistency(s: Db, id: ItemId)
    requires Consistent(s) && id in ItemIds(s.items) && ItemDeleted(s, id).Ok?
    ensures Consistent(ItemDeleted(s, id).value)
    ensures id !in ItemIds(ItemDeleted(s, id).value.items)
  {
    var order := FindItem(s.items, id).order;
    var s1 := s.(items := RemoveItemRow(s.items, id));
    RemoveItemRowUnique(s.items, id);
    forall o | o in s1.orders && o.id != order ensures o.totalPrice == OrderTotal(s1.items, s1.dishes, o.id) {
      forall x | x in s.items && x.id == id ensures x.order != o.id {
        var k :| 0 <= k < |s.items| && s.items[k] == x;
        FindItemAt(s.items, k);
      }
      RemoveItemRowOthers(s.items, id, o.id);
    }
    assert ConsistentOutside(s1, {order});
    RecomputeRestoresConsistency(s1, Find(s1.orders, order), {order});
  }

  /** item.delete() on the database, inside one transaction. */
  method DeleteItem(db: Database, id: ItemId) returns (r: Outcome<DbError>)
    requires Valid(db.Snapshot()) && id in ItemIds(db.items)
    modifies db
    ensures var spec := ItemDeleted(old(db.Snapshot()), id);
      && (spec.Ok? ==> r == Pass && db.Snapshot() == spec.value)
      && (spec.Err? ==> r == Fail(spec.error) && db.Snapshot() == old(db.Snapshot()))
  {
    var saved := db.Snapshot();
    var item := FindItem(db.items, id);
    RemoveItemRowUnique(db.items, id);
    db.items := RemoveItemRow(db.items, id);
    r := OnItemChanged(db, item);
    if r.Fail? {
      db.Restore(saved);
    }
  }

  // ---------------------------------------------------------------------------
  // Deleting all items of an order
  // ---------------------------------------------------------------------------

  /**
   * order.order_items.all().delete(): the rows go in one batch, then
   * post_delete is sent once per deleted item, and each hook finds no item
   * left and saves the order with total 0. Every hook after the first saves
   * the same row again, so the state is that of a single zeroing save.
   */
  function ItemsCleared(s: Db, id: OrderId): (r: Db)
    requires Valid(s) && id in OrderIds(s.orders)
  {
    var s1 := ItemsDeleted(s, id);
    if ItemsOf(s.items, id) == [] then s1 else Saved(s1, Find(s1.orders, id).(totalPrice := 0))
  }

  /** Clearing keeps the schema's guarantees and leaves order `id` with no items. */
  lemma ItemsClearedValid(s: Db, id: OrderId)
    requires Valid(s) && id in OrderIds(s.orders)
    ensures var t := ItemsCleared(s, id);
      && Valid(t)
      && ItemsOf(t.items, id) == []
      && t.items == ItemsNotOf(s.items, id)
      && OrderIds(t.orders) == OrderIds(s.orders)
      && t.orders == (if ItemsOf(s.items, id) == [] then s.orders else SaveRow(s.orders, Find(s.orders, id).(totalPrice := 0)))
  {
    var s1 := ItemsDeleted(s, id);
    var o := Find(s.orders, id);
    ItemsDeletedValid(s, id);
    assert Find(s1.orders, id) == o;
    RecomputeEmptyOrder(s1, o);
    RecomputePreservesValid(s1, o);
    SaveRowIds(s.orders, o.(totalPrice := 0));
  }

  /**
   * After clearing, order `id` has no items and every other order keeps
   * its items; the database stays consistent, and `id`'s row is unchanged
   * apart from its total, which is 0.
   */
  lemma ItemsClearedConsistent(s: Db, id: OrderId)
    requires Consistent(s) && id in OrderIds(s.orders)
    ensures var t := ItemsCleared(s, id);
      && Consistent(t)
      && ItemsOf(t.items, id) == []
      && t.items == ItemsNotOf(s.items, id)
      && t.orders == SaveRow(s.orders, Find(s.orders, id).(totalPrice := 0))
  {
    var s1 := ItemsDeleted(s, id);
    var o := Find(s.orders, id);
    ItemsDeletedValid(s, id);
    assert Find(s1.orders, id) == o;
    forall p | p in s1.orders && p.id != id ensures p.totalPrice == OrderTotal(s1.items, s1.dishes, p.id) {
      ItemsOfAfterDelete(s.items, id, p.id);
    }
    RecomputeEmptyOrder(s1, o);
    RecomputeRestoresConsistency(s1, o, {id});
    if ItemsOf(s.items, id) == [] {
      assert o.totalPrice == 0;
      assert o.(totalPrice := 0) == o;
      forall k | 0 <= k < |s.orders| ensures s.orders[k] == SaveRow(s.orders, o)[k] {
        if s.orders[k].id == id {
          FindAt(s.orders, k);
        }
      }
    }
  }

  /**
   * Once order `id` has no items, its hook saves the row with total 0, and
   * a second hook saves the same row again.
   */
  lemma HookOnClearedOrder(s1: Db, id: OrderId, before: Db)
    requires Valid(s1) && id in OrderIds(s1.orders) && ItemsOf(s1.items, id) == []
    requires before == s1 || before == Saved(s1, Find(s1.orders, id).(totalPrice := 0))
    ensures Valid(before) && id in OrderIds(before.orders)
    ensures Hook(before, id) == Ok(Saved(s1, Find(s1.orders, id).(totalPrice := 0)))
  {
    var zero := Find(s1.orders, id).(totalPrice := 0);
    RecomputeEmptyOrder(s1, zero);
    if before != s1 {
      RecomputePreservesValid(s1, zero);
      FindSaved(s1.orders, zero);
      SaveRowTwice(s1.orders, zero, zero);
      RecomputeEmptyOrder(before, zero);
    }
  }

  /** The same batch delete and its hooks, performed on the database. */
  method ClearItems(db: Database, id: OrderId)
    requires Valid(db.Snapshot()) && id in OrderIds(db.orders)
    modifies db
    ensures db.Snapshot() == ItemsCleared(old(db.Snapshot()), id)
  {
    ghost var s := db.Snapshot();
    var removed := db.DeleteItemsOf(id);
    ghost var s1 := db.Snapshot();
    ItemsDeletedValid(s, id);
    ghost var zero := Find(s1.orders, id).(totalPrice := 0);
    var k := 0;
    while k < |removed|
      invariant 0 <= k <= |removed|
      invariant db.Snapshot() == if k == 0 then s1 else Saved(s1, zero)
    {
      assert removed[k] in removed;
      HookOnClearedOrder(s1, id, db.Snapshot());
      var outcome := OnItemChanged(db, removed[k]);
      k := k + 1;
    }
  }

  // ---------------------------------------------------------------------------
  // Deleting an order
  // ---------------------------------------------------------------------------

  /**
   * order.delete(): the cascade clears the order's items first (with their
   * hooks), then the order row is deleted.
   */
  method DeleteOrder(db: Database, id: OrderId)
    requires Valid(db.Snapshot()) && id in OrderIds(db.orders)
    modifies db
    ensures db.Snapshot() == OrderDeleted(old(db.Snapshot()), id)
  {
    ghost var s := db.Snapshot();
    ClearItems(db, id);
    ItemsDeletedValid(s, id);
    OrdersNotOfSaved(s.orders, Find(s.orders, id).(totalPrice := 0));
    db.DeleteOrderRow(id);
  }
}
