/** The remote (Supabase) variant of the order sync: its own six-field
    fingerprint, its own projection of a payload, a per-order insert, update
    or skip against the remote orders table, the customer upsert that
    follows it, and the remote statistics. */
module Supabase {
  import opened PyJson
  import opened Tally
  import opened Tables
  import DbRecord

  // ---------------------------------------------------------------- fingerprint

  /** The six fields the remote fingerprint covers, in the order the loop
      visits them. */
  const TrackedFields: seq<string> := ["status", "total", "date_modified", "line_items", "shipping_lines", "payment_method"]

  predicate Tracked(f: string) {
    f in TrackedFields
  }

  /** The map that is hashed: the tracked fields the payload has, and no
      entry at all for one it lacks. */
  function HashData(order: Dict): (c: DbRecord.Canon)
    ensures forall f :: f in c <==> Tracked(f) && f in order
  {
    map f | f in order && Tracked(f) :: order[f]
  }

  function RemoteHash(h: DbRecord.Hasher, order: Dict): DbRecord.Digest {
    h(HashData(order))
  }

  /** Payloads that agree on which tracked fields they have and on their
      values get the same fingerprint, whatever else they hold. */
  lemma HashOnlyTracked(h: DbRecord.Hasher, a: Dict, b: Dict)
    requires forall f :: Tracked(f) ==> (f in a <==> f in b) && (f in a ==> a[f] == b[f])
    ensures RemoteHash(h, a) == RemoteHash(h, b)
  {
    assert HashData(a) == HashData(b);
  }

  /** With an injective hasher, changing the value of a tracked field, or
      adding or removing one, changes the fingerprint. */
  lemma HashSensitive(h: DbRecord.Hasher, a: Dict, b: Dict, f: string)
    requires DbRecord.Injective(h) && Tracked(f)
    requires (f in a) != (f in b) || (f in a && f in b && a[f] != b[f])
    ensures RemoteHash(h, a) != RemoteHash(h, b)
  {
    if f in a && f in b {
      assert HashData(a)[f] != HashData(b)[f];
    } else if f in a {
      assert f in HashData(a) && f !in HashData(b);
    } else {
      assert f !in HashData(a) && f in HashData(b);
    }
  }

  /** A new status gives a new fingerprint. */
  lemma StatusChangesHash(h: DbRecord.Hasher, order: Dict, status: Json)
    requires DbRecord.Injective(h)
    requires "status" in order && order["status"] != status
    ensures RemoteHash(h, order) != RemoteHash(h, order["status" := status])
  {
    HashSensitive(h, order, order["status" := status], "status");
  }

  /** The two fingerprints are different functions: with an injective
      hasher they agree on a payload exactly when it has all four of the
      local fields and neither shipping_lines nor payment_method (the local
      one hashes a missing field as null, the remote one leaves it out). */
  lemma FingerprintsAgree(h: DbRecord.Hasher, order: Dict)
    requires DbRecord.Injective(h)
    ensures DbRecord.OrderHash(h, order) == RemoteHash(h, order) <==>
      && "status" in order && "total" in order && "date_modified" in order && "line_items" in order
      && "shipping_lines" !in order && "payment_method" !in order
  {
    var l := DbRecord.HashData(order);
    var r := HashData(order);
    assert Tracked("shipping_lines") && Tracked("payment_method");
    if "status" in order && "total" in order && "date_modified" in order && "line_items" in order
      && "shipping_lines" !in order && "payment_method" !in order {
      assert l == r;
    }
  }

  // ---------------------------------------------------------------- record

  /** The record sent to the orders table.  Unlike the local row, the JSON
      columns hold the values themselves, and updatedAt is set only by an
      update (an insert leaves it to the table). */
  datatype OrderRecord = OrderRecord(
    wooId: Json,
    orderNumber: Json,
    status: Json,
    currency: Json,
    total: real,
    totalTax: real,
    shippingTotal: real,
    customerId: Json,
    customerEmail: Json,
    customerName: string,
    billingData: Json,
    shippingData: Json,
    lineItems: Json,
    shippingLines: Json,
    paymentMethod: Json,
    paymentMethodTitle: Json,
    dateCreated: Json,
    dateModified: Json,
    dateCompleted: Json,
    rawData: Json,
    hashSignature: DbRecord.Digest,
    updatedAt: Option<string>)

  /** The projection, failing where Python raises: no id (KeyError), a total
      float() rejects, or a billing value that is not a dict (its .get
      raises; a present null is not replaced by {} here). */
  function ExtractOrderData(order: Dict, hash: DbRecord.Digest): Result<OrderRecord> {
    var billing := Get(order, "billing", JObj(map[]));
    var shipping := Get(order, "shipping", JObj(map[]));
    if "id" !in order then Err(KeyError)
    else
      var total :- ToFloat(Get(order, "total", JInt(0)));
      var totalTax :- ToFloat(Get(order, "total_tax", JInt(0)));
      var shippingTotal :- ToFloat(Get(order, "shipping_total", JInt(0)));
      if !billing.JObj? then Err(AttributeError)
      else
        var b := billing.fields;
        Ok(OrderRecord(
          wooId := order["id"],
          orderNumber := Get(order, "number", JStr("")),
          status := Get(order, "status", JStr("")),
          currency := Get(order, "currency", JStr("EUR")),
          total := total,
          totalTax := totalTax,
          shippingTotal := shippingTotal,
          customerId := Get(order, "customer_id", JNull),
          customerEmail := Get(b, "email", JStr("")),
          customerName := DbRecord.FullName(Get(b, "first_name", JStr("")), Get(b, "last_name", JStr(""))),
          billingData := billing,
          shippingData := shipping,
          lineItems := Get(order, "line_items", JArr([])),
          shippingLines := Get(order, "shipping_lines", JArr([])),
          paymentMethod := Get(order, "payment_method", JStr("")),
          paymentMethodTitle := Get(order, "payment_method_title", JStr("")),
          dateCreated := Get(order, "date_created", JNull),
          dateModified := Get(order, "date_modified", JNull),
          dateCompleted := Get(order, "date_completed", JNull),
          rawData := JObj(order),
          hashSignature := hash,
          updatedAt := None))
  }

  /** The projection fails exactly when the id is missing, a total is not a
      number float() accepts, or billing is present but not a dict. */
  lemma ExtractSucceeds(order: Dict, hash: DbRecord.Digest)
    ensures ExtractOrderData(order, hash).Ok? <==>
      && "id" in order
      && ToFloat(Get(order, "total", JInt(0))).Ok?
      && ToFloat(Get(order, "total_tax", JInt(0))).Ok?
      && ToFloat(Get(order, "shipping_total", JInt(0))).Ok?
      && Get(order, "billing", JObj(map[])).JObj?
  {
  }

  /** The record carries the payload's id, number and billing email, the
      given fingerprint and the whole payload; missing fields take their
      defaults: '' for the text fields, 'EUR' for the currency, 0 for the
      totals, [] for the item lists, null for the dates. */
  lemma ExtractDefaults(order: Dict, hash: DbRecord.Digest)
    requires ExtractOrderData(order, hash).Ok?
    ensures var r := ExtractOrderData(order, hash).value;
      && r.wooId == order["id"]
      && r.orderNumber == Get(order, "number", JStr(""))
      && r.customerEmail == Get(Get(order, "billing", JObj(map[])).fields, "email", JStr(""))
      && r.customerName == DbRecord.FullName(Get(Get(order, "billing", JObj(map[])).fields, "first_name", JStr("")),
           Get(Get(order, "billing", JObj(map[])).fields, "last_name", JStr("")))
      && r.hashSignature == hash
      && r.rawData == JObj(order)
      && r.updatedAt.None?
      && ("status" !in order ==> r.status == JStr(""))
      && ("currency" !in order ==> r.currency == JStr("EUR"))
      && ("payment_method" !in order ==> r.paymentMethod == JStr(""))
      && ("payment_method_title" !in order ==> r.paymentMethodTitle == JStr(""))
      && ("total" !in order ==> r.total == 0.0)
      && ("total_tax" !in order ==> r.totalTax == 0.0)
      && ("shipping_total" !in order ==> r.shippingTotal == 0.0)
      && ("line_items" !in order ==> r.lineItems == JArr([]))
      && ("shipping_lines" !in order ==> r.shippingLines == JArr([]))
      && ("date_created" !in order ==> r.dateCreated == JNull)
  {
  }

  /** The worked example: order 123, number ORD-123, billing for Mario
      Rossi, no totals. */
  lemma ExtractExample(order: Dict)
    requires order == map["id" := JInt(123), "number" := JStr("ORD-123"),
        "billing" := JObj(map["email" := JStr("test@example.com"), "first_name" := JStr("Mario"), "last_name" := JStr("Rossi")])]
    ensures var r := ExtractOrderData(order, "test_hash");
      && r.Ok?
      && r.value.wooId == JInt(123)
      && r.value.orderNumber == JStr("ORD-123")
      && r.value.customerEmail == JStr("test@example.com")
      && r.value.customerName == "Mario" + " " + "Rossi"
      && r.value.hashSignature == "test_hash"
      && r.value.total == 0.0
  {
    var b := map["email" := JStr("test@example.com"), "first_name" := JStr("Mario"), "last_name" := JStr("Rossi")];
    assert Get(order, "billing", JObj(map[])) == JObj(b);
    assert "total" !in order && "total_tax" !in order && "shipping_total" !in order;
    ExtractSucceeds(order, "test_hash");
    ExtractDefaults(order, "test_hash");
    assert Get(order, "number", JStr("")) == JStr("ORD-123");
    assert Get(b, "email", JStr("")) == JStr("test@example.com");
    assert Get(b, "first_name", JStr("")) == JStr("Mario");
    assert Get(b, "last_name", JStr("")) == JStr("Rossi");
    MarioRossi();
  }

  lemma MarioRossi()
    ensures DbRecord.FullName(JStr("Mario"), JStr("Rossi")) == "Mario" + " " + "Rossi"
  {
    var first, last := "Mario", "Rossi";
    assert first[0] == 'M' && first[|first| - 1] == 'o' && last[0] == 'R' && last[|last| - 1] == 'i';
    assert !IsSpace('M') && !IsSpace('o') && !IsSpace('R') && !IsSpace('i');
    DbRecord.FullNameJoins(first, last);
  }

  // ---------------------------------------------------------------- writes

  type Orders = map<Json, OrderRecord>

  /** Every record sits under its own id. */
  predicate KeyedById(orders: Orders) {
    forall k :: k in orders ==> orders[k].wooId == k
  }

  /** The write sync_order makes for a projected record: insert it when no
      record has its id, replace the stored one, stamped with `now`, when
      the stored fingerprint differs, and nothing otherwise. */
  function WriteOrder(orders: Orders, rec: OrderRecord, now: string): Orders {
    if rec.wooId !in orders then orders[rec.wooId := rec]
    else if orders[rec.wooId].hashSignature != rec.hashSignature then orders[rec.wooId := rec.(updatedAt := Some(now))]
    else orders
  }

  /** After the write the id holds a record with the new fingerprint: the
      new record itself when it was absent, the new record stamped with
      `now` when it changed, the untouched stored record otherwise; no other
      id is touched and the table stays keyed by id. */
  lemma WriteOrderEffect(orders: Orders, rec: OrderRecord, now: string)
    requires KeyedById(orders)
    ensures var r := WriteOrder(orders, rec, now);
      && r.Keys == orders.Keys + {rec.wooId}
      && r[rec.wooId].hashSignature == rec.hashSignature
      && (rec.wooId !in orders ==> r[rec.wooId] == rec)
      && (rec.wooId in orders && orders[rec.wooId].hashSignature != rec.hashSignature ==>
            r[rec.wooId] == rec.(updatedAt := Some(now)))
      && (rec.wooId in orders && orders[rec.wooId].hashSignature == rec.hashSignature ==> r == orders)
      && (forall k :: k in orders && k != rec.wooId ==> r[k] == orders[k])
      && KeyedById(r)
  {
  }

  /** Writing the same record again writes nothing. */
  lemma WriteOrderIdempotent(orders: Orders, rec: OrderRecord, now: string, later: string)
    ensures WriteOrder(WriteOrder(orders, rec, now), rec, later) == WriteOrder(orders, rec, now)
  {
  }

  // ---------------------------------------------------------------- customers

  datatype Customer = Customer(
    wooId: Json,
    email: Json,
    firstName: Json,
    lastName: Json,
    phone: Json,
    billingData: Json,
    shippingData: Json,
    updatedAt: string)

  type Customers = map<Json, Customer>

  /** The customer record of a payload, or None when the upsert is skipped:
      no truthy customer_id, a billing value that is not a dict (its .get
      raises and the error is swallowed), or no truthy billing email. */
  function CustomerRecord(order: Dict, now: string): Option<Customer> {
    var billing := Get(order, "billing", JObj(map[]));
    var customerId := Get(order, "customer_id", JNull);
    if !Truthy(customerId) then None
    else if !billing.JObj? then None
    else if !Truthy(Get(billing.fields, "email", JNull)) then None
    else
      var b := billing.fields;
      Some(Customer(customerId, Get(b, "email", JNull), Get(b, "first_name", JStr("")),
        Get(b, "last_name", JStr("")), Get(b, "phone", JStr("")), billing,
        Get(order, "shipping", JObj(map[])), now))
  }

  /** update when a customer with that woo_id exists, insert otherwise. */
  function UpsertCustomer(customers: Customers, order: Dict, now: string): Customers {
    match CustomerRecord(order, now)
    case None => customers
    case Some(c) => customers[c.wooId := c]
  }

  /** Every customer sits under its own id. */
  predicate CustomersKeyedById(customers: Customers) {
    forall k :: k in customers ==> customers[k].wooId == k
  }

  /** The upsert happens exactly when the payload has a truthy customer_id,
      a billing dict and a truthy email in it; it then stores, under that
      customer id, the billing email and names, and touches no other
      customer. */
  lemma UpsertEffect(customers: Customers, order: Dict, now: string)
    ensures var billing := Get(order, "billing", JObj(map[]));
      var cid := Get(order, "customer_id", JNull);
      var r := UpsertCustomer(customers, order, now);
      && (CustomerRecord(order, now).Some? <==>
            Truthy(cid) && billing.JObj? && Truthy(Get(billing.fields, "email", JNull)))
      && (CustomerRecord(order, now).None? ==> r == customers)
      && (CustomerRecord(order, now).Some? ==>
            && r.Keys == customers.Keys + {cid}
            && r[cid].wooId == cid
            && r[cid].email == billing.fields["email"]
            && r[cid].firstName == Get(billing.fields, "first_name", JStr(""))
            && r[cid].lastName == Get(billing.fields, "last_name", JStr(""))
            && r[cid].updatedAt == now
            && forall k :: k in customers && k != cid ==> r[k] == customers[k])
  {
  }

  // ---------------------------------------------------------------- statistics

  /** `.gte('date_created', date_from)`: a null date never passes. */
  predicate InWindow(r: OrderRecord, dateFrom: string) {
    r.dateCreated.JStr? && LexLe(dateFrom, r.dateCreated.s)
  }

  datatype RemoteStats = RemoteStats(totalOrders: nat, totalRevenue: real, byStatus: Counter, byDate: Counter, periodDays: int)

  /** A row the loop raises on: an unhashable status, or a date that cannot
      be sliced. */
  predicate Breaks(r: OrderRecord) {
    !Hashable(r.status) || !r.dateCreated.JStr?
  }

  function Day(s: string): string {
    if |s| <= 10 then s else s[..10]
  }

  /** The two counters after the loop, None once it raises. */
  function StatsFold(rows: seq<OrderRecord>): Option<(Counter, Counter)> {
    if rows == [] then Some(([], []))
    else
      match StatsFold(rows[..|rows| - 1])
      case None => None
      case Some(acc) =>
        var r := rows[|rows| - 1];
        if Breaks(r) then None
        else Some((Bump(acc.0, r.status, 1.0), Bump(acc.1, JStr(Day(r.dateCreated.s)), 1.0)))
  }

  /** sum(float(order['total']) for order in rows) */
  function Revenue(rows: seq<OrderRecord>): real {
    if rows == [] then 0.0 else Revenue(rows[..|rows| - 1]) + rows[|rows| - 1].total
  }

  /** get_order_stats over the fetched rows; None stands for {}: no rows,
      or the loop raised. */
  function StatsOf(rows: seq<OrderRecord>, days: int): Option<RemoteStats> {
    if rows == [] then None
    else
      match StatsFold(rows)
      case None => None
      case Some(acc) => Some(RemoteStats(|rows|, Revenue(rows), acc.0, acc.1, days))
  }

  function CountStatus(rows: seq<OrderRecord>, k: Json): nat {
    if rows == [] then 0
    else CountStatus(rows[..|rows| - 1], k) + (if SameKey(rows[|rows| - 1].status, k) then 1 else 0)
  }

  function CountDay(rows: seq<OrderRecord>, d: string): nat {
    if rows == [] then 0
    else
      var r := rows[|rows| - 1];
      CountDay(rows[..|rows| - 1], d) + (if r.dateCreated.JStr? && Day(r.dateCreated.s) == d then 1 else 0)
  }

  /** No row up to the end breaks the loop. */
  predicate Clean(rows: seq<OrderRecord>) {
    rows == [] || (Clean(rows[..|rows| - 1]) && !Breaks(rows[|rows| - 1]))
  }

  lemma {:induction false} CleanAll(rows: seq<OrderRecord>)
    ensures Clean(rows) <==> forall i :: 0 <= i < |rows| ==> !Breaks(rows[i])
    decreases |rows|
  {
    if rows != [] {
      var pre := rows[..|rows| - 1];
      CleanAll(pre);
      assert forall i :: 0 <= i < |pre| ==> pre[i] == rows[i];
    }
  }

  lemma {:induction false} StatsFoldClean(rows: seq<OrderRecord>)
    ensures StatsFold(rows).Some? <==> Clean(rows)
    decreases |rows|
  {
    if rows != [] {
      StatsFoldClean(rows[..|rows| - 1]);
    }
  }

  lemma StatsFoldFails(rows: seq<OrderRecord>)
    ensures StatsFold(rows).None? <==> exists i :: 0 <= i < |rows| && Breaks(rows[i])
  {
    StatsFoldClean(rows);
    CleanAll(rows);
  }

  lemma {:induction false} StatsFoldCounts(rows: seq<OrderRecord>)
    requires StatsFold(rows).Some?
    ensures var acc := StatsFold(rows).value;
      && (forall k :: Value(acc.0, k) == CountStatus(rows, k) as real)
      && (forall d :: Value(acc.1, JStr(d)) == CountDay(rows, d) as real)
      && Total(acc.0) == |rows| as real
      && Total(acc.1) == |rows| as real
      && Distinct(acc.0) && Distinct(acc.1)
    decreases |rows|
  {
    if rows != [] {
      var pre := rows[..|rows| - 1];
      var r := rows[|rows| - 1];
      StatsFoldCounts(pre);
      var acc := StatsFold(pre).value;
      var key := JStr(Day(r.dateCreated.s));
      BumpValue(acc.0, r.status, 1.0);
      BumpTotal(acc.0, r.status, 1.0);
      BumpDistinct(acc.0, r.status, 1.0);
      BumpValue(acc.1, key, 1.0);
      BumpTotal(acc.1, key, 1.0);
      BumpDistinct(acc.1, key, 1.0);
      forall k
        ensures Value(Bump(acc.0, r.status, 1.0), k) == CountStatus(rows, k) as real
      {
        if SameKey(r.status, k) {
          ValueSameKey(acc.0, r.status, k);
          ValueSameKey(Bump(acc.0, r.status, 1.0), r.status, k);
        } else {
          SameKeyEquivalence(k, r.status, k);
        }
      }
      forall d
        ensures Value(Bump(acc.1, key, 1.0), JStr(d)) == CountDay(rows, d) as real
      {
        if d != Day(r.dateCreated.s) {
          assert !SameKey(JStr(d), key);
        }
      }
    }
  }

  /** The remote statistics: {} for no rows and exactly when some row
      breaks the loop; otherwise total_orders is the row count and the sum
      of the per-status counts, every row counts once per day, and the
      per-status and per-day counts are those of the rows. */
  lemma StatsProperties(rows: seq<OrderRecord>, days: int)
    ensures StatsOf(rows, days).None? <==> rows == [] || exists i :: 0 <= i < |rows| && Breaks(rows[i])
    ensures StatsOf(rows, days).Some? ==>
      var st := StatsOf(rows, days).value;
      && st.totalOrders == |rows|
      && st.periodDays == days
      && Total(st.byStatus) == |rows| as real
      && Total(st.byDate) == |rows| as real
      && (forall k :: Value(st.byStatus, k) == CountStatus(rows, k) as real)
      && (forall d :: Value(st.byDate, JStr(d)) == CountDay(rows, d) as real)
  {
    StatsFoldFails(rows);
    if rows != [] && StatsFold(rows).Some? {
      StatsFoldCounts(rows);
    }
  }

  /** On the rows the date filter of the query lets through every date is a
      string, so the statistics are {} only for no rows or an unhashable
      status. */
  lemma WindowStatsFail(rows: seq<OrderRecord>, dateFrom: string, days: int)
    requires forall i :: 0 <= i < |rows| ==> InWindow(rows[i], dateFrom)
    ensures StatsOf(rows, days).None? <==> rows == [] || exists i :: 0 <= i < |rows| && !Hashable(rows[i].status)
  {
    StatsProperties(rows, days);
  }

  // ---------------------------------------------------------------- the manager

  class SupabaseManager {
    /** Whether initialize reached the remote database. */
    var connected: bool
    /** The remote orders table, keyed by woo_id. */
    var orders: Orders
    /** The remote customers table, keyed by woo_id. */
    var customers: Customers
    /** The fingerprint function. */
    const hasher: DbRecord.Hasher

    /** Both tables hold every record under its own woo_id, as the upserts
        by woo_id keep them. */
    predicate Valid()
      reads this
    {
      KeyedById(orders) && CustomersKeyedById(customers)
    }

    /** A manager after construction and initialize: `reachable` is whether
        the connection test succeeded, the maps are the remote tables. */
    constructor (h: DbRecord.Hasher, reachable: bool, remoteOrders: Orders, remoteCustomers: Customers)
      requires KeyedById(remoteOrders) && CustomersKeyedById(remoteCustomers)
      ensures Valid()
      ensures connected == reachable && orders == remoteOrders && customers == remoteCustomers && hasher == h
    {
      connected := reachable;
      orders := remoteOrders;
      customers := remoteCustomers;
      hasher := h;
    }

    /** _calculate_order_hash: the loop over the tracked fields builds the
        map of those the payload has. */
    method CalculateOrderHash(order: Dict) returns (digest: DbRecord.Digest)
      ensures digest == RemoteHash(hasher, order)
    {
      var hashData: DbRecord.Canon := map[];
      var i := 0;
      while i < |TrackedFields|
        invariant 0 <= i <= |TrackedFields|
        invariant forall f :: f in hashData <==> f in TrackedFields[..i] && f in order
        invariant forall f :: f in hashData ==> hashData[f] == order[f]
      {
        var field := TrackedFields[i];
        assert TrackedFields[..i + 1] == TrackedFields[..i] + [field];
        if field in order {
          hashData := hashData[field := order[field]];
        }
        i := i + 1;
      }
      assert TrackedFields[..i] == TrackedFields;
      assert hashData == HashData(order);
      digest := hasher(hashData);
    }

    /** sync_order: false without a connection or when the projection
        raises, with neither table touched; otherwise true, the orders table
        after the insert, update or skip for the record, and the customers
        table after the upsert. */
    method SyncOrder(order: Dict, now: string) returns (ok: bool)
      requires Valid()
      modifies this
      ensures Valid()
      ensures connected == old(connected)
      ensures ok <==> old(connected) && ExtractOrderData(order, RemoteHash(hasher, order)).Ok?
      ensures !ok ==> orders == old(orders) && customers == old(customers)
      ensures ok ==> orders == WriteOrder(old(orders), ExtractOrderData(order, RemoteHash(hasher, order)).value, now)
      ensures ok ==> customers == UpsertCustomer(old(customers), order, now)
    {
      if !connected {
        return false;
      }
      var hash := CalculateOrderHash(order);
      var record := ExtractOrderData(order, hash);
      if record.Err? {
        return false;
      }
      var id := record.value.wooId;
      if id in orders {
        if orders[id].hashSignature != hash {
          orders := orders[id := record.value.(updatedAt := Some(now))];
        }
      } else {
        orders := orders[id := record.value];
      }
      WriteOrderEffect(old(orders), record.value, now);
      if Truthy(Get(order, "customer_id", JNull)) {
        SyncCustomerFromOrder(order, now);
      }
      ok := true;
    }

    /** _sync_customer_from_order: the upsert, or nothing when it is skipped. */
    method SyncCustomerFromOrder(order: Dict, now: string)
      requires Valid()
      modifies this
      ensures Valid()
      ensures customers == UpsertCustomer(old(customers), order, now)
      ensures orders == old(orders) && connected == old(connected)
    {
      var billing := Get(order, "billing", JObj(map[]));
      var customerId := Get(order, "customer_id", JNull);
      if !Truthy(customerId) {
        return;
      }
      if !billing.JObj? || !Truthy(Get(billing.fields, "email", JNull)) {
        return;
      }
      var b := billing.fields;
      var record := Customer(customerId, Get(b, "email", JNull), Get(b, "first_name", JStr("")),
        Get(b, "last_name", JStr("")), Get(b, "phone", JStr("")), billing,
        Get(order, "shipping", JObj(map[])), now);
      // The update of an existing row and the insert of a new one store the
      // same record under the id.
      customers := customers[customerId := record];
    }

    /** get_order_stats: {} without a connection; otherwise the statistics
        of the rows dated at or after dateFrom (now minus `days`), in the
        order the query returned them. */
    method GetOrderStats(days: int, dateFrom: string) returns (stats: Option<RemoteStats>, ghost keys: seq<Json>)
      ensures !connected ==> stats.None?
      ensures forall k :: k in keys <==> k in orders && InWindow(orders[k], dateFrom)
      ensures forall k :: multiset(keys)[k] <= 1
      ensures forall i :: 0 <= i < |keys| ==> keys[i] in orders
      ensures connected ==> stats == StatsOf(RowsAt(orders, keys), days)
    {
      var from := dateFrom;
      var fetched := Scan(orders, r => InWindow(r, from));
      keys := fetched;
      if !connected {
        stats := None;
        return;
      }
      var rows := RowsAt(orders, fetched);
      if rows == [] {
        stats := None;
        return;
      }
      var revenue := Revenue(rows);
      var byStatus: Counter := [];
      var byDate: Counter := [];
      var i := 0;
      while i < |rows|
        invariant 0 <= i <= |rows|
        invariant StatsFold(rows[..i]) == Some((byStatus, byDate))
      {
        var r := rows[i];
        assert rows[..i + 1][..i] == rows[..i];
        if Breaks(r) {
          StatsFoldFails(rows);
          stats := None;
          return;
        }
        byStatus := Bump(byStatus, r.status, 1.0);
        byDate := Bump(byDate, JStr(Day(r.dateCreated.s)), 1.0);
        i := i + 1;
      }
      assert rows[..i] == rows;
      stats := Some(RemoteStats(|rows|, revenue, byStatus, byDate, days));
    }
  }
}
