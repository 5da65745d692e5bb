/** The local SQLite store as an object: the orders table is its state, and
    each public operation is a method proved against the specification
    functions of DbSync and DbQuery. */
module Database {
  import opened PyJson
  import opened Tally
  import opened DbRecord
  import opened DbSync
  import opened DbQuery
  import opened Tables

  /** A failed executemany(INSERT ...) stays failed whatever rows follow. */
  lemma {:induction false} InsertsStayFailed(s: Store, ins: seq<(int, Row)>, j: nat)
    requires j <= |ins| && ApplyInserts(s, ins[..j]) == None
    ensures ApplyInserts(s, ins) == None
    decreases |ins| - j
  {
    if j < |ins| {
      assert ins[..j + 1][..j] == ins[..j];
      InsertsStayFailed(s, ins, j + 1);
    } else {
      assert ins[..j] == ins;
    }
  }

  /** The product totals of one order's line_items column, item by item,
      up to the first item that raises. */
  method CountLineItems(tp: Counter, column: Blob) returns (r: Counter)
    ensures r == AddLineItems(tp, column)
  {
    r := tp;
    if column.Corrupt? {
      return;
    }
    var items := GetLoopItems(column.value);
    if items.Err? {
      return;
    }
    var j := 0;
    while j < |items.value|
      invariant 0 <= j <= |items.value|
      invariant AddItems(tp, items.value) == AddItems(r, items.value[j..])
    {
      var item := items.value[j];
      assert items.value[j..][0] == item && items.value[j..][1..] == items.value[j + 1..];
      if !item.JObj? {
        return;
      }
      var name := Get(item.fields, "name", JStr("Sconosciuto"));
      if !Hashable(name) {
        return;
      }
      var quantity := NumKey(Get(item.fields, "quantity", JInt(0)));
      if quantity.None? {
        r := Touch(r, name);
        return;
      }
      r := Bump(r, name, quantity.value);
      j := j + 1;
    }
  }

  /** The loop of sync_multiple_orders over the fingerprinted and projected
      payloads: each is queued as an insert or an update, or skipped.
      planned is false when a projection raised, or when the loop queued a
      row the executemany calls reject (an id that is null or not an int, a
      cell the driver cannot bind). */
  method PlanWrites(existing: map<int, Digest>, ps: seq<Prepared>)
    returns (planned: bool, toInsert: seq<(int, Row)>, toUpdate: seq<(int, Row)>)
    ensures planned <==> PlanBatch(existing, ps).Some?
    ensures planned ==> PlanBatch(existing, ps).value == Plan(toInsert, toUpdate)
  {
    toInsert, toUpdate := [], [];
    // set once a row is queued that the executemany calls will reject
    var rejected := false;
    var i := 0;
    while i < |ps|
      invariant 0 <= i <= |ps|
      invariant rejected ==> PlanBatch(existing, ps[..i]) == None
      invariant !rejected ==> PlanBatch(existing, ps[..i]) == Some(Plan(toInsert, toUpdate))
    {
      var p := ps[i];
      assert ps[..i + 1][..i] == ps[..i];
      if p.row.Err? {
        PlanFails(existing, ps, i);
        return false, [], [];
      }
      if !p.id.JInt? {
        rejected := true;
      } else if p.id.i !in existing {
        if Bindable(p.row.value) {
          toInsert := toInsert + [(p.id.i, p.row.value)];
        } else {
          rejected := true;
        }
      } else if existing[p.id.i] != p.hash {
        if Bindable(p.row.value) {
          toUpdate := toUpdate + [(p.id.i, p.row.value)];
        } else {
          rejected := true;
        }
      }
      i := i + 1;
    }
    assert ps[..|ps|] == ps;
    planned := !rejected;
  }

  /** executemany(INSERT ...) inside the transaction: the rows one by one,
      None once a key is already present (UNIQUE). */
  method ExecuteInserts(s: Store, ins: seq<(int, Row)>) returns (r: Option<Store>)
    ensures r == ApplyInserts(s, ins)
  {
    var staged := s;
    var j := 0;
    while j < |ins|
      invariant 0 <= j <= |ins|
      invariant ApplyInserts(s, ins[..j]) == Some(staged)
    {
      assert ins[..j + 1][..j] == ins[..j];
      if ins[j].0 in staged {
        InsertsStayFailed(s, ins, j + 1);
        return None;
      }
      staged := staged[ins[j].0 := ins[j].1];
      j := j + 1;
    }
    assert ins[..j] == ins;
    r := Some(staged);
  }

  /** executemany(UPDATE ... WHERE woo_id = ?): each row replaces the one
      under its key, if there is one. */
  method ExecuteUpdates(s: Store, ups: seq<(int, Row)>) returns (r: Store)
    ensures r == ApplyUpdates(s, ups)
  {
    r := s;
    var j := 0;
    while j < |ups|
      invariant 0 <= j <= |ups|
      invariant r == ApplyUpdates(s, ups[..j])
    {
      assert ups[..j + 1][..j] == ups[..j];
      if ups[j].0 in r {
        r := r[ups[j].0 := ups[j].1];
      }
      j := j + 1;
    }
    assert ups[..j] == ups;
  }

  /** The loop of get_orders over the fetched rows: each row with its JSON
      columns decoded, in fetch order. */
  method DecodeRows(rows: seq<Row>) returns (views: seq<OrderView>)
    ensures |views| == |rows|
    ensures forall i :: 0 <= i < |rows| ==> views[i] == Decode(rows[i])
  {
    views := [];
    var i := 0;
    while i < |rows|
      invariant 0 <= i <= |rows|
      invariant |views| == i
      invariant forall m :: 0 <= m < i ==> views[m] == Decode(rows[m])
    {
      views := views + [Decode(rows[i])];
      i := i + 1;
    }
  }

  class DatabaseManager {
    /** The orders table. */
    var orders: Store
    /** The fingerprint function. */
    const hasher: Hasher

    ghost predicate Valid()
      reads this
    {
      ValidStore(orders)
    }

    /** Opens the database; CREATE TABLE IF NOT EXISTS keeps the rows an
        existing file already holds. */
    constructor (h: Hasher, stored: Store)
      requires ValidStore(stored)
      ensures Valid()
      ensures orders == stored && hasher == h
    {
      orders := stored;
      hasher := h;
    }

    /** sync_multiple_orders: the new table and the returned counts are
        those of the batch specification (all writes of a committed call,
        nothing and (0, 0) for a failed one). */
    method SyncMultipleOrders(batch: seq<Dict>) returns (inserted: nat, updated: nat)
      requires Valid()
      modifies this
      ensures Valid()
      ensures (orders, (inserted, updated)) == SyncSpec(old(orders), batch, hasher)
    {
      SyncValid(orders, batch, hasher);
      var existing := Snapshot(orders);
      var prepared := PrepareAll(batch, hasher);
      var planned, toInsert, toUpdate := PlanWrites(existing, prepared);
      if !planned {
        return 0, 0;
      }
      var staged := ExecuteInserts(orders, toInsert);
      if staged.None? {
        return 0, 0;
      }
      var written := ExecuteUpdates(staged.value, toUpdate);
      orders := written;
      inserted, updated := |toInsert|, |toUpdate|;
    }

    /** sync_order: a batch of one, its counts dropped. */
    method SyncOrder(order: Dict)
      requires Valid()
      modifies this
      ensures Valid()
      ensures orders == SyncSpec(old(orders), [order], hasher).0
    {
      var _, _ := SyncMultipleOrders([order]);
    }

    /** get_orders: the decoded rows that pass the filters, newest first,
        each once, cut to the limit; a passing row is left out only by the
        limit, and then it is no newer than any row returned. */
    method GetOrders(filters: Filters) returns (views: seq<OrderView>, ghost keys: seq<int>)
      ensures |views| == |keys|
      ensures forall i :: 0 <= i < |keys| ==> keys[i] in orders && views[i] == Decode(orders[keys[i]])
      ensures forall k :: k in keys ==> k in orders && Matches(orders[k], filters)
      ensures forall k :: multiset(keys)[k] <= 1
      ensures NewestFirst(orders, keys)
      ensures filters.limit > 0 ==> |keys| <= filters.limit
      ensures forall k :: k in orders && Matches(orders[k], filters) && k !in keys ==>
        && filters.limit > 0 && |keys| == filters.limit
        && forall t :: t in keys ==> SqlLe(orders[k].dateCreated, orders[t].dateCreated)
    {
      var f := filters;
      var found := Scan(orders, r => Matches(r, f));
      var selected := OrderAndLimit(orders, found, filters.limit);
      keys := selected;
      forall k | k in orders && Matches(orders[k], filters) && k !in keys
        ensures filters.limit > 0 && |keys| == filters.limit
        ensures forall t :: t in keys ==> SqlLe(orders[k].dateCreated, orders[t].dateCreated)
      {
        LimitDropsOnlyOlder(orders, found, filters.limit, k);
      }
      forall k | k in keys
        ensures k in orders && Matches(orders[k], filters)
      {
        assert k in multiset(found);
      }
      views := DecodeRows(RowsAt(orders, selected));
    }

    /** get_order_stats: the statistics of the rows in the window (all rows
        for days <= 0, else those dated at or after the cutoff that
        `days` before now gives), in the order the scan fetched them.
        None stands for the {} returned when the loop raises. */
    method GetOrderStats(days: int, cutoff: string) returns (stats: Option<Stats>, ghost keys: seq<int>)
      ensures forall k :: k in keys <==> k in orders && InWindow(orders[k], days, cutoff)
      ensures forall k :: multiset(keys)[k] <= 1
      ensures forall i :: 0 <= i < |keys| ==> keys[i] in orders
      ensures stats == StatsOf(RowsAt(orders, keys))
    {
      var d, c := days, cutoff;
      var fetched := Scan(orders, r => InWindow(r, d, c));
      keys := fetched;
      var rows := RowsAt(orders, fetched);
      if rows == [] {
        stats := Some(Stats(0, 0.0, [], [], []));
        return;
      }
      var revenue := Revenue(rows);
      var acc := Acc([], [], []);
      var i := 0;
      while i < |rows|
        invariant 0 <= i <= |rows|
        invariant StatsFold(rows[..i]) == Some(acc)
      {
        var r := rows[i];
        assert rows[..i + 1][..i] == rows[..i];
        if Breaks(r) {
          StatsFoldFails(rows);
          stats := None;
          return;
        }
        var byStatus := Bump(acc.byStatus, r.status, 1.0);
        var byDate := acc.byDate;
        if Truthy(r.dateCreated) {
          byDate := Bump(byDate, JStr(Day(r.dateCreated.s)), 1.0);
        }
        var products := CountLineItems(acc.products, r.lineItems);
        acc := Acc(byStatus, byDate, products);
        i := i + 1;
      }
      assert rows[..i] == rows;
      stats := Some(Stats(|rows|, revenue, acc.byStatus, acc.byDate, Top(acc.products, 5)));
    }
  }
}
