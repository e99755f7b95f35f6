/**
 * OrderUpdater.update (apps/orders/services/order_updater.py): a partial
 * update of one order. A non-empty item list replaces the order's items
 * wholesale and recomputes its total; every other key that names an
 * attribute of the order is then assigned, and the order is saved, all
 * inside one transaction.
 */
module OrderUpdater {
  import opened Wrappers
  import opened Catalog
  import opened Models
  import opened Signals

  // ---------------------------------------------------------------------------
  // The validated patch
  // ---------------------------------------------------------------------------

  /**
   * One key of the validated data other than `items`, in the order the data
   * holds them. A key that names no attribute of the order is carried by
   * its name alone.
   */
  datatype PatchField =
    | StatusField(status: OrderStatus)
    | TableField(table: TableId)
    | UnknownField(name: string)

  /** The validated data: `items` when the request carried that key, and the other keys. */
  datatype Patch = Patch(items: Option<seq<ItemLine>>, fields: seq<PatchField>)

  /** `if items_data := data.pop('items', None)`: true only for a present, non-empty list. */
  predicate ReplacesItems(patch: Patch) {
    patch.items.Some? && |patch.items.value| > 0
  }

  /** What the serializer has already resolved: every dish and every table the patch names exists. */
  predicate PatchKnown(patch: Patch, s: Db) {
    && (patch.items.Some? ==> LinesKnown(patch.items.value, s.dishes))
    && forall f :: f in patch.fields && f.TableField? ==> f.table in s.tables
  }

  // ---------------------------------------------------------------------------
  // Assigning the remaining keys
  // ---------------------------------------------------------------------------

  /** `if hasattr(order, field): setattr(order, field, value)` for one key. */
  function ApplyField(o: Order, f: PatchField): Order {
    match f
    case StatusField(st) => o.(status := st)
    case TableField(t) => o.(table := t)
    case UnknownField(_) => o
  }

  /** The instance after the loop over the keys, assigned in order. */
  function ApplyFields(o: Order, fields: seq<PatchField>): Order {
    if fields == [] then o
    else
      var n := |fields| - 1;
      ApplyField(ApplyFields(o, fields[..n]), fields[n])
  }

  /** The loop over the remaining keys, on the instance in memory. */
  method AssignFields(order: Order, fields: seq<PatchField>) returns (o: Order)
    ensures o == ApplyFields(order, fields)
  {
    o := order;
    var i := 0;
    while i < |fields|
      invariant 0 <= i <= |fields|
      invariant o == ApplyFields(order, fields[..i])
    {
      assert fields[..i + 1][..i] == fields[..i];
      match fields[i] {
        case StatusField(st) => o := o.(status := st);
        case TableField(t) => o := o.(table := t);
        case UnknownField(_) =>
      }
      i := i + 1;
    }
    assert fields[..i] == fields;
  }

  /** The keys that name an attribute of the order. */
  function KnownFields(fields: seq<PatchField>): (r: seq<PatchField>)
    ensures forall f :: f in r <==> f in fields && !f.UnknownField?
  {
    if fields == [] then []
    else
      var n := |fields| - 1;
      assert fields == fields[..n] + [fields[n]];
      KnownFields(fields[..n]) + (if fields[n].UnknownField? then [] else [fields[n]])
  }

  /** The assignments never touch the id, the total or the creation time. */
  lemma {:induction false} ApplyFieldsKeepsIdentity(o: Order, fields: seq<PatchField>)
    ensures var r := ApplyFields(o, fields);
      r.id == o.id && r.totalPrice == o.totalPrice && r.created == o.created
  {
    if fields != [] {
      ApplyFieldsKeepsIdentity(o, fields[..|fields| - 1]);
    }
  }

  /** The status afterwards is the value of the last status key, or the old status when there is none. */
  lemma {:induction false} ApplyFieldsLastStatusWins(o: Order, fields: seq<PatchField>)
    ensures var r := ApplyFields(o, fields);
      && (forall k :: 0 <= k < |fields| && fields[k].StatusField? && (forall j :: k < j < |fields| ==> !fields[j].StatusField?) ==>
            r.status == fields[k].status)
      && ((forall k :: 0 <= k < |fields| ==> !fields[k].StatusField?) ==> r.status == o.status)
  {
    if fields != [] {
      var n := |fields| - 1;
      var prefix := fields[..n];
      ApplyFieldsLastStatusWins(o, prefix);
      var r := ApplyFields(o, fields);
      assert r == ApplyField(ApplyFields(o, prefix), fields[n]);
      forall k | 0 <= k < |fields| && fields[k].StatusField? && (forall j :: k < j < |fields| ==> !fields[j].StatusField?)
        ensures r.status == fields[k].status
      {
        if k < n {
          assert !fields[n].StatusField?;
          forall j | k < j < n ensures !prefix[j].StatusField? {
            assert prefix[j] == fields[j];
          }
          assert prefix[k] == fields[k];
        }
      }
      if forall k :: 0 <= k < |fields| ==> !fields[k].StatusField? {
        forall k | 0 <= k < n ensures !prefix[k].StatusField? {
          assert prefix[k] == fields[k];
        }
      }
    }
  }

  /** The table afterwards is the value of the last table key, or the old table when there is none. */
  lemma {:induction false} ApplyFieldsLastTableWins(o: Order, fields: seq<PatchField>)
    ensures var r := ApplyFields(o, fields);
      && (forall k :: 0 <= k < |fields| && fields[k].TableField? && (forall j :: k < j < |fields| ==> !fields[j].TableField?) ==>
            r.table == fields[k].table)
      && ((forall k :: 0 <= k < |fields| ==> !fields[k].TableField?) ==> r.table == o.table)
  {
    if fields != [] {
      var n := |fields| - 1;
      var prefix := fields[..n];
      ApplyFieldsLastTableWins(o, prefix);
      var r := ApplyFields(o, fields);
      assert r == ApplyField(ApplyFields(o, prefix), fields[n]);
      forall k | 0 <= k < |fields| && fields[k].TableField? && (forall j :: k < j < |fields| ==> !fields[j].TableField?)
        ensures r.table == fields[k].table
      {
        if k < n {
          assert !fields[n].TableField?;
          forall j | k < j < n ensures !prefix[j].TableField? {
            assert prefix[j] == fields[j];
          }
          assert prefix[k] == fields[k];
        }
      }
      if forall k :: 0 <= k < |fields| ==> !fields[k].TableField? {
        forall k | 0 <= k < n ensures !prefix[k].TableField? {
          assert prefix[k] == fields[k];
        }
      }
    }
  }

  /** Keys that name no attribute are silently ignored: dropping them changes nothing. */
  lemma {:induction false} ApplyFieldsIgnoresUnknown(o: Order, fields: seq<PatchField>)
    ensures ApplyFields(o, KnownFields(fields)) == ApplyFields(o, fields)
  {
    if fields != [] {
      var n := |fields| - 1;
      ApplyFieldsIgnoresUnknown(o, fields[..n]);
      var known := KnownFields(fields[..n]);
      assert fields == fields[..n] + [fields[n]];
      if fields[n].UnknownField? {
        assert KnownFields(fields) == known + [];
        assert known + [] == known;
      } else {
        assert KnownFields(fields) == known + [fields[n]];
        assert (known + [fields[n]])[..|known|] == known;
      }
    }
  }

  // ---------------------------------------------------------------------------
  // The update as a transition
  // ---------------------------------------------------------------------------

  /**
   * The whole of update on the instance of order `id`: with a non-empty
   * item list, clear the order's items (their hooks zero the total), bulk
   * create the new ones, and recompute the instance's total, which fails
   * when it does not fit; then assign the other keys and save the instance.
   * A failure rolls the whole transaction back.
   */
  function UpdateOrder(s: Db, id: OrderId, patch: Patch): (r: Result<Db, DbError>)
    requires Valid(s) && id in OrderIds(s.orders) && PatchKnown(patch, s)
  {
    var o := Find(s.orders, id);
    if ReplacesItems(patch) then
      var lines := patch.items.value;
      var s1 := ItemsCleared(s, id);
      var s2 := BulkCreated(s1, id, lines);
      assert Valid(s2) by {
        ItemsClearedValid(s, id);
        BulkCreatedValid(s1, id, lines);
      }
      match Recompute(s2, o)
      case Err(e) => Err(e)
      case Ok(s3) => Ok(Saved(s3, ApplyFields(o.(totalPrice := OrderTotal(s2.items, s2.dishes, id)), patch.fields)))
    else
      Ok(Saved(s, ApplyFields(o, patch.fields)))
  }

  /** The order's total after the update: the new lines' sum when they replace the items. */
  function NewTotal(s: Db, id: OrderId, patch: Patch): Cents
    requires id in OrderIds(s.orders) && PatchKnown(patch, s)
  {
    if ReplacesItems(patch) then LinesTotal(patch.items.value, s.dishes) else Find(s.orders, id).totalPrice
  }

  /** The row order `id` ends up with. */
  function UpdatedRow(s: Db, id: OrderId, patch: Patch): Order
    requires id in OrderIds(s.orders) && PatchKnown(patch, s)
  {
    ApplyFields(Find(s.orders, id).(totalPrice := NewTotal(s, id, patch)), patch.fields)
  }

  /**
   * update fails only when new items are given whose total does not fit
   * the column. Otherwise only order `id`'s row changes, to the patched
   * row; the order's items become exactly the new lines when they are
   * given, and stay exactly as they were when they are not.
   */
  lemma UpdateOrderRows(s: Db, id: OrderId, patch: Patch)
    requires Valid(s) && id in OrderIds(s.orders) && PatchKnown(patch, s)
    ensures var r := UpdateOrder(s, id, patch);
      && (r.Ok? <==> !ReplacesItems(patch) || FitsTotalColumn(LinesTotal(patch.items.value, s.dishes)))
      && (r.Ok? ==> r.value.orders == SaveRow(s.orders, UpdatedRow(s, id, patch)))
      && (r.Ok? && ReplacesItems(patch) ==>
            r.value.items == ItemsNotOf(s.items, id) + MakeItems(id, patch.items.value, s.nextItemId))
      && (r.Ok? && !ReplacesItems(patch) ==> r.value.items == s.items)
      && (r.Ok? ==> r.value.dishes == s.dishes && r.value.tables == s.tables
                    && r.value.nextOrderId == s.nextOrderId)
  {
    if ReplacesItems(patch) {
      UpdateReplacingRows(s, id, patch);
    }
  }

  /** The replacing branch of update, step by step. */
  lemma UpdateReplacingRows(s: Db, id: OrderId, patch: Patch)
    requires Valid(s) && id in OrderIds(s.orders) && PatchKnown(patch, s) && ReplacesItems(patch)
    ensures var r := UpdateOrder(s, id, patch);
      && (r.Ok? <==> FitsTotalColumn(LinesTotal(patch.items.value, s.dishes)))
      && (r.Ok? ==> r.value.orders == SaveRow(s.orders, UpdatedRow(s, id, patch)))
      && (r.Ok? ==> r.value.items == ItemsNotOf(s.items, id) + MakeItems(id, patch.items.value, s.nextItemId))
  {
    var o := Find(s.orders, id);
    var lines := patch.items.value;
    var s1 := ItemsCleared(s, id);
    ItemsClearedValid(s, id);
    BulkCreatedOnEmpty(s1, id, lines);
    var s2 := BulkCreated(s1, id, lines);
    var counted := o.(totalPrice := LinesTotal(lines, s.dishes));
    var row := UpdatedRow(s, id, patch);
    assert row == ApplyFields(counted, patch.fields);
    ApplyFieldsKeepsIdentity(counted, patch.fields);
    assert UpdateOrder(s, id, patch) ==
      if FitsTotalColumn(LinesTotal(lines, s.dishes)) then Ok(s2.(orders := SaveRow(SaveRow(s1.orders, counted), row)))
      else Err(NumericOverflow);
    SaveRowTwice(s1.orders, counted, row);
    if ItemsOf(s.items, id) != [] {
      SaveRowTwice(s.orders, o.(totalPrice := 0), row);
    }
  }

  /**
   * Clearing the order's items and bulk-creating the new ones leaves only
   * that order's total stale, gives it the new lines' sum, and keeps the
   * items of every other order.
   */
  lemma ReplacedItemsConsistentOutside(s: Db, id: OrderId, lines: seq<ItemLine>)
    requires Consistent(s) && id in OrderIds(s.orders) && LinesKnown(lines, s.dishes)
    ensures var s2 := BulkCreated(ItemsCleared(s, id), id, lines);
      && ConsistentOutside(s2, {id})
      && OrderIds(s2.orders) == OrderIds(s.orders) && |s2.orders| == |s.orders|
      && OrderTotal(s2.items, s2.dishes, id) == LinesTotal(lines, s.dishes)
      && ItemsOf(s2.items, id) == MakeItems(id, lines, s.nextItemId)
      && (forall other :: other != id ==> ItemsOf(s2.items, other) == ItemsOf(s.items, other))
  {
    var s1 := ItemsCleared(s, id);
    var made := MakeItems(id, lines, s.nextItemId);
    ItemsClearedConsistent(s, id);
    ItemsClearedValid(s, id);
    BulkCreatedOnEmpty(s1, id, lines);
    BulkCreatedConsistentOutside(s1, id, lines);
    MakeItemsMatchLines(id, lines, s.nextItemId);
    forall other | other != id ensures ItemsOf(s1.items + made, other) == ItemsOf(s.items, other) {
      ItemsOfAfterDelete(s.items, id, other);
      ItemsOfAppend(s1.items, made, other);
    }
  }

  /** The patched row keeps the id and has a table that exists. */
  lemma UpdatedRowWellFormed(s: Db, id: OrderId, patch: Patch)
    requires Valid(s) && id in OrderIds(s.orders) && PatchKnown(patch, s)
    ensures UpdatedRow(s, id, patch).id == id
    ensures UpdatedRow(s, id, patch).totalPrice == NewTotal(s, id, patch)
    ensures UpdatedRow(s, id, patch).table in s.tables
  {
    var o := Find(s.orders, id).(totalPrice := NewTotal(s, id, patch));
    ApplyFieldsKeepsIdentity(o, patch.fields);
    ApplyFieldsLastTableWins(o, patch.fields);
    if exists k :: 0 <= k < |patch.fields| && patch.fields[k].TableField? {
      var k := LastTableKey(patch.fields);
      assert patch.fields[k] in patch.fields;
    }
  }

  /**
   * A successful update keeps every order's total equal to the sum over its
   * items, keeps the order count, and leaves the items of every other order
   * as they were.
   */
  lemma UpdateOrderKeepsConsistency(s: Db, id: OrderId, patch: Patch)
    requires Consistent(s) && id in OrderIds(s.orders) && PatchKnown(patch, s)
    requires UpdateOrder(s, id, patch).Ok?
    ensures var t := UpdateOrder(s, id, patch).value;
      && Consistent(t)
      && |t.orders| == |s.orders|
      && (ReplacesItems(patch) ==> ItemsOf(t.items, id) == MakeItems(id, patch.items.value, s.nextItemId))
      && (forall other :: other != id ==> ItemsOf(t.items, other) == ItemsOf(s.items, other))
  {
    var row := UpdatedRow(s, id, patch);
    UpdatedRowWellFormed(s, id, patch);
    UpdateOrderRows(s, id, patch);
    if ReplacesItems(patch) {
      var lines := patch.items.value;
      ItemsClearedValid(s, id);
      var s2 := BulkCreated(ItemsCleared(s, id), id, lines);
      ReplacedItemsConsistentOutside(s, id, lines);
      var o := Find(s.orders, id);
      var counted := o.(totalPrice := LinesTotal(lines, s.dishes));
      SaveRowTwice(s2.orders, counted, row);
      assert UpdateOrder(s, id, patch).value == Saved(s2, row);
      SavedKeepsConsistency(s2, row);
    } else {
      SavedKeepsConsistency(s, row);
    }
  }

  /** The position of the last table key in a patch that has one. */
  function LastTableKey(fields: seq<PatchField>): (k: nat)
    requires exists k :: 0 <= k < |fields| && fields[k].TableField?
    ensures k < |fields| && fields[k].TableField?
    ensures forall j :: k < j < |fields| ==> !fields[j].TableField?
  {
    var n := |fields| - 1;
    if fields[n].TableField? then n
    else
      var j :| 0 <= j < |fields| && fields[j].TableField?;
      assert j < n && fields[..n][j] == fields[j];
      LastTableKey(fields[..n])
  }

  /**
   * The partial update the API tests send, {'status': 'ready'}: setting the status
   * to ready keeps the order count and leaves the order ready, with its
   * items and total untouched.
   */
  lemma PatchStatusReady(s: Db, id: OrderId)
    requires Consistent(s) && id in OrderIds(s.orders)
    ensures var patch := Patch(None, [StatusField(Ready)]);
      && UpdateOrder(s, id, patch).Ok?
      && |UpdateOrder(s, id, patch).value.orders| == |s.orders|
      && UpdateOrder(s, id, patch).value.items == s.items
      && id in OrderIds(UpdateOrder(s, id, patch).value.orders)
      && Find(UpdateOrder(s, id, patch).value.orders, id) == Find(s.orders, id).(status := Ready)
  {
    var patch := Patch(None, [StatusField(Ready)]);
    var row := Find(s.orders, id).(status := Ready);
    assert ApplyFields(Find(s.orders, id), patch.fields) == row by {
      assert patch.fields[..0] == [];
    }
    FindSaved(s.orders, row);
  }

  // ---------------------------------------------------------------------------
  // The update on the database
  // ---------------------------------------------------------------------------

  /** OrderUpdater.update on the instance of order `id`; returns the saved instance. */
  method Update(db: Database, id: OrderId, patch: Patch) returns (r: Result<Order, DbError>)
    requires Valid(db.Snapshot()) && id in OrderIds(db.orders) && PatchKnown(patch, db.Snapshot())
    modifies db
    ensures var spec := UpdateOrder(old(db.Snapshot()), id, patch);
      && (spec.Ok? ==> db.Snapshot() == spec.value)
      && (spec.Ok? ==> r.Ok? && r.value == UpdatedRow(old(db.Snapshot()), id, patch))
      && (spec.Err? ==> r == Err(spec.error) && db.Snapshot() == old(db.Snapshot()))
  {
    var saved := db.Snapshot();
    var order := db.Get(id);
    UpdateOrderRows(saved, id, patch);
    if patch.items.Some? && |patch.items.value| > 0 {
      var lines := patch.items.value;
      ClearItems(db, id);
      ItemsClearedValid(saved, id);
      BulkCreatedOnEmpty(db.Snapshot(), id, lines);
      db.BulkCreate(id, lines);
      var recomputed := db.UpdateTotalPrice(order);
      if recomputed.Err? {
        db.Restore(saved);
        r := Err(recomputed.error);
        return;
      }
      order := recomputed.value;
    }
    order := AssignFields(order, patch.fields);
    db.Save(order);
    r := Ok(order);
  }
}
