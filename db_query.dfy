/** The read side of the local store: the filters of the order list, the
    order SQLite sorts date_created in, the decoding of the JSON columns,
    and the statistics over the selected rows. */
module DbQuery {
  import opened PyJson
  import opened Tally
  import opened DbRecord
  import opened DbSync

  // ---------------------------------------------------------------- filters

  /** The filters dict of the order list; an empty search term or status and
      a zero limit are the falsy values that switch a filter off. */
  datatype Filters = Filters(searchTerm: string, status: string, limit: int)

  /** The text LIKE compares a bound cell by: a string as it is, an integer
      (a bound bool being 1 or 0) in decimal, a REAL as SQLite's "%!.15g"
      renders it, here exactly for integral values below 10**15; None for
      NULL, and for the REAL values not rendered here. */
  function LikeText(cell: Json): Option<string> {
    match cell
    case JStr(s) => Some(s)
    case JBool(b) => Some(if b then "1" else "0")
    case JInt(i) => Some(IntStr(i))
    case JFloat(r) =>
      if r == r.Floor as real && -1000000000000000.0 < r < 1000000000000000.0
      then Some(IntStr(r.Floor) + ".0") else None
    case _ => None
  }

  /** `cell LIKE '%term%'`: an ASCII case-insensitive substring test on the
      cell's text; NULL never matches. */
  predicate LikeCell(cell: Json, term: string) {
    LikeText(cell).Some? && Contains(Lower(LikeText(cell).value), Lower(term))
  }

  /** A numeric order number is searched as its decimal text: an order
      stored with number 123 is found by the search term "12". */
  lemma NumericNumberFound(r: Row)
    requires r.orderNumber == JInt(123)
    ensures Matches(r, Filters("12", "", 0))
  {
    assert IntStr(123) == "123";
    assert OccursAt(Lower("123"), Lower("12"), 0);
  }

  /** (order_number LIKE ? OR customer_name LIKE ? OR customer_email LIKE ?) */
  predicate MatchesSearch(r: Row, term: string) {
    LikeCell(r.orderNumber, term) || LikeCell(JStr(r.customerName), term) || LikeCell(r.customerEmail, term)
  }

  /** The WHERE clause: each filter that is set must hold. */
  predicate Matches(r: Row, f: Filters) {
    && (f.searchTerm != "" ==> MatchesSearch(r, f.searchTerm))
    && (f.status != "" ==> r.status == JStr(f.status))
  }

  /** LIMIT n: a positive n keeps at most n rows, a negative one keeps all,
      and 0 means no LIMIT clause at all. */
  function LimitCount(limit: int, n: nat): (m: nat)
    ensures m <= n
    ensures limit > 0 ==> m == if limit < n then limit else n
    ensures limit <= 0 ==> m == n
  {
    if limit > 0 && limit < n then limit else n
  }

  // ---------------------------------------------------------------- ORDER BY

  /** SQLite's storage classes in ascending sort order: NULL, then numbers,
      then text. */
  function SqlRank(j: Json): nat {
    match j
    case JNull => 0
    case JBool(_) => 1
    case JInt(_) => 1
    case JFloat(_) => 1
    case JStr(_) => 2
    case _ => 3
  }

  /** a sorts no later than b in ascending order. */
  predicate SqlLe(a: Json, b: Json) {
    if SqlRank(a) != SqlRank(b) then SqlRank(a) < SqlRank(b)
    else if SqlRank(a) == 1 then NumKey(a).value <= NumKey(b).value
    else if SqlRank(a) == 2 then LexLe(a.s, b.s)
    else true
  }

  lemma SqlLeTotal(a: Json, b: Json)
    ensures SqlLe(a, b) || SqlLe(b, a)
  {
    if SqlRank(a) == SqlRank(b) == 2 {
      LexLeTotal(a.s, b.s);
    }
  }

  lemma SqlLeTrans(a: Json, b: Json, c: Json)
    requires SqlLe(a, b) && SqlLe(b, c)
    ensures SqlLe(a, c)
  {
    if SqlRank(a) == SqlRank(b) == SqlRank(c) == 2 {
      LexLeTrans(a.s, b.s, c.s);
    }
  }

  /** ORDER BY date_created DESC holds for a list of stored keys. */
  predicate NewestFirst(store: Store, keys: seq<int>)
    requires forall i :: 0 <= i < |keys| ==> keys[i] in store
  {
    forall i, j :: 0 <= i < j < |keys| ==> SqlLe(store[keys[j]].dateCreated, store[keys[i]].dateCreated)
  }

  /** Places k after every key whose row is at least as new. */
  function InsertByDate(store: Store, keys: seq<int>, k: int): (r: seq<int>)
    requires k in store && forall i :: 0 <= i < |keys| ==> keys[i] in store
    ensures |r| == |keys| + 1
    ensures multiset(r) == multiset(keys) + multiset{k}
    ensures forall i :: 0 <= i < |r| ==> r[i] in store
  {
    if keys == [] then [k]
    else if SqlLe(store[k].dateCreated, store[keys[0]].dateCreated) then
      assert keys == [keys[0]] + keys[1..];
      [keys[0]] + InsertByDate(store, keys[1..], k)
    else
      [k] + keys
  }

  lemma {:induction false} InsertByDateSorted(store: Store, keys: seq<int>, k: int)
    requires k in store && forall i :: 0 <= i < |keys| ==> keys[i] in store
    requires NewestFirst(store, keys)
    ensures NewestFirst(store, InsertByDate(store, keys, k))
    decreases |keys|
  {
    if keys != [] {
      var d := store[k].dateCreated;
      var d0 := store[keys[0]].dateCreated;
      var r := InsertByDate(store, keys, k);
      if SqlLe(d, d0) {
        var rest := InsertByDate(store, keys[1..], k);
        InsertByDateSorted(store, keys[1..], k);
        assert keys == [keys[0]] + keys[1..];
        forall j | 0 <= j < |rest|
          ensures SqlLe(store[rest[j]].dateCreated, d0)
        {
          assert rest[j] in multiset(rest);
          if rest[j] != k {
            assert rest[j] in multiset(keys[1..]);
            var m :| 0 <= m < |keys[1..]| && keys[1..][m] == rest[j];
            assert keys[m + 1] == rest[j];
          }
        }
        assert r == [keys[0]] + rest;
      } else {
        SqlLeTotal(d, d0);
        forall j | 0 < j < |r|
          ensures SqlLe(store[r[j]].dateCreated, d)
        {
          assert r[j] == keys[j - 1];
          if j - 1 > 0 {
            SqlLeTrans(store[keys[j - 1]].dateCreated, d0, d);
          }
        }
      }
    }
  }

  /** The keys ordered newest first (ties keep their scan order). */
  function SortByDate(store: Store, keys: seq<int>): (r: seq<int>)
    requires forall i :: 0 <= i < |keys| ==> keys[i] in store
    ensures |r| == |keys| && multiset(r) == multiset(keys)
    ensures forall i :: 0 <= i < |r| ==> r[i] in store
    ensures NewestFirst(store, r)
  {
    if keys == [] then []
    else
      var pre := keys[..|keys| - 1];
      assert keys == pre + [keys[|keys| - 1]];
      var p := SortByDate(store, pre);
      InsertByDateSorted(store, p, keys[|keys| - 1]);
      InsertByDate(store, p, keys[|keys| - 1])
  }

  /** ORDER BY date_created DESC LIMIT limit over the keys of the matching
      rows: as many keys as the limit allows, all from the input, newest
      first. */
  function OrderAndLimit(store: Store, keys: seq<int>, limit: int): (r: seq<int>)
    requires forall i :: 0 <= i < |keys| ==> keys[i] in store
    ensures |r| == LimitCount(limit, |keys|)
    ensures forall i :: 0 <= i < |r| ==> r[i] in store
    ensures multiset(r) <= multiset(keys)
    ensures NewestFirst(store, r)
  {
    var sorted := SortByDate(store, keys);
    var n := LimitCount(limit, |keys|);
    assert sorted == sorted[..n] + sorted[n..];
    assert multiset(sorted) == multiset(sorted[..n]) + multiset(sorted[n..]);
    sorted[..n]
  }

  /** A key the limit drops is no newer than any key it keeps, and is only
      dropped when the limit is set and reached. */
  lemma LimitDropsOnlyOlder(store: Store, keys: seq<int>, limit: int, k: int)
    requires forall i :: 0 <= i < |keys| ==> keys[i] in store
    requires k in keys && k !in OrderAndLimit(store, keys, limit)
    ensures limit > 0 && |OrderAndLimit(store, keys, limit)| == limit
    ensures forall t :: t in OrderAndLimit(store, keys, limit) ==> SqlLe(store[k].dateCreated, store[t].dateCreated)
  {
    var sorted := SortByDate(store, keys);
    var n := LimitCount(limit, |keys|);
    var r := sorted[..n];
    assert r == OrderAndLimit(store, keys, limit);
    assert k in multiset(sorted);
    var b :| 0 <= b < |sorted| && sorted[b] == k;
    forall t | t in r
      ensures SqlLe(store[k].dateCreated, store[t].dateCreated)
    {
      var a :| 0 <= a < n && r[a] == t;
      assert sorted[a] == t;
    }
  }

  // ---------------------------------------------------------------- decoding

  /** One row as get_orders hands it out, with its four JSON columns decoded. */
  datatype OrderView = OrderView(row: Row, billing: Json, shipping: Json, lineItems: Json, raw: Json)

  /** `if order.get(field): try json.loads except: {}`: an empty text stays
      as it is, text json.loads rejects becomes {}. */
  function DecodeColumn(b: Blob): Json {
    match b
    case Dumped(v) => v
    case Corrupt(t) => if t == "" then JStr("") else JObj(map[])
  }

  function Decode(r: Row): OrderView {
    OrderView(r, DecodeColumn(r.billingData), DecodeColumn(r.shippingData),
      DecodeColumn(r.lineItems), DecodeColumn(r.rawData))
  }

  /** A row written by the sync reads back the payload it came from: the raw
      data is the payload itself, billing and shipping are the payload's
      (null or empty read as {}), the line items are the payload's or []. */
  lemma DecodeSynced(order: Dict, hash: Digest)
    requires ExtractOrderData(order, hash).Ok?
    ensures var v := Decode(ExtractOrderData(order, hash).value);
      && v.raw == JObj(order)
      && v.billing == OrEmpty(Get(order, "billing", JObj(map[])))
      && v.shipping == OrEmpty(Get(order, "shipping", JObj(map[])))
      && v.lineItems == Get(order, "line_items", JArr([]))
  {
  }

  // ---------------------------------------------------------------- statistics

  /** `WHERE date_created >= ?` against a text cutoff: NULL compares to
      nothing and numbers sort before any text, so only text dates at or
      after the cutoff pass. */
  predicate OnOrAfter(r: Row, cutoff: string) {
    r.dateCreated.JStr? && LexLe(cutoff, r.dateCreated.s)
  }

  /** The row passes the statistics query's WHERE clause. */
  predicate InWindow(r: Row, days: int, cutoff: string) {
    days > 0 ==> OnOrAfter(r, cutoff)
  }

  datatype Stats = Stats(totalOrders: nat, totalRevenue: real, byStatus: Counter, byDate: Counter, topProducts: Counter)

  /** The three counters the loop fills. */
  datatype Acc = Acc(byStatus: Counter, byDate: Counter, products: Counter)

  /** `date_created[:10]` */
  function Day(s: string): string {
    if |s| <= 10 then s else s[..10]
  }

  /** A row the loop raises on: an unhashable status, or a truthy date that
      cannot be sliced. */
  predicate Breaks(r: Row) {
    !Hashable(r.status) || (Truthy(r.dateCreated) && !r.dateCreated.JStr?)
  }

  /** The items of one order, added to the product totals until one raises
      (then the bare try/except drops the rest): an item that is not a dict
      has no .get, an unhashable name cannot be a key, and a quantity that
      is not a number cannot be added, although the defaultdict read has
      already inserted the name with 0. */
  function AddItems(tp: Counter, items: seq<Json>): Counter
    decreases |items|
  {
    if items == [] then tp
    else if !items[0].JObj? then tp
    else
      var name := Get(items[0].fields, "name", JStr("Sconosciuto"));
      if !Hashable(name) then tp
      else
        match NumKey(Get(items[0].fields, "quantity", JInt(0)))
        case None => Touch(tp, name)
        case Some(q) => AddItems(Bump(tp, name, q), items[1..])
  }

  /** json.loads(line_items) and the loop over it; a column json.loads
      rejects, or a value that cannot be iterated as items, adds nothing. */
  function AddLineItems(tp: Counter, b: Blob): Counter {
    match b
    case Corrupt(_) => tp
    case Dumped(v) =>
      match GetLoopItems(v)
      case Err(_) => tp
      case Ok(items) => AddItems(tp, items)
  }

  /** One turn of the loop. */
  function Step(acc: Acc, r: Row): Option<Acc> {
    if Breaks(r) then None
    else
      var bd := if Truthy(r.dateCreated) then Bump(acc.byDate, JStr(Day(r.dateCreated.s)), 1.0) else acc.byDate;
      Some(Acc(Bump(acc.byStatus, r.status, 1.0), bd, AddLineItems(acc.products, r.lineItems)))
  }

  /** The loop over the fetched rows, in fetch order. */
  function StatsFold(rows: seq<Row>): Option<Acc> {
    if rows == [] then Some(Acc([], [], []))
    else
      match StatsFold(rows[..|rows| - 1])
      case None => None
      case Some(acc) => Step(acc, rows[|rows| - 1])
  }

  /** sum(o['total'] for o in rows if o['total'] is not None) */
  function Revenue(rows: seq<Row>): real {
    if rows == [] then 0.0
    else Revenue(rows[..|rows| - 1]) + (if rows[|rows| - 1].total.Some? then rows[|rows| - 1].total.value else 0.0)
  }

  /** get_order_stats over the fetched rows; None stands for the {} returned
      when the loop raises. */
  function StatsOf(rows: seq<Row>): Option<Stats> {
    if rows == [] then Some(Stats(0, 0.0, [], [], []))
    else
      match StatsFold(rows)
      case None => None
      case Some(acc) => Some(Stats(|rows|, Revenue(rows), acc.byStatus, acc.byDate, Top(acc.products, 5)))
  }

  /** How many rows have a status Python treats as the key k. */
  function CountStatus(rows: seq<Row>, k: Json): nat {
    if rows == [] then 0
    else CountStatus(rows[..|rows| - 1], k) + (if SameKey(rows[|rows| - 1].status, k) then 1 else 0)
  }

  /** How many rows have a non-empty date whose first ten characters are d. */
  function CountDay(rows: seq<Row>, d: string): nat {
    if rows == [] then 0
    else
      var r := rows[|rows| - 1];
      CountDay(rows[..|rows| - 1], d) + (if r.dateCreated.JStr? && r.dateCreated.s != [] && Day(r.dateCreated.s) == d then 1 else 0)
  }

  /** How many rows have a non-empty date. */
  function CountDated(rows: seq<Row>): nat {
    if rows == [] then 0
    else CountDated(rows[..|rows| - 1]) + (if Truthy(rows[|rows| - 1].dateCreated) then 1 else 0)
  }

  /** Whether the counting loop gets through this line item: it is a dict
      whose name can be a dict key and whose quantity is a number. */
  predicate ItemCounts(item: Json) {
    && item.JObj?
    && Hashable(Get(item.fields, "name", JStr("Sconosciuto")))
    && NumKey(Get(item.fields, "quantity", JInt(0))).Some?
  }

  /** How many line items the loop counts before one stops it. */
  function CountedPrefix(items: seq<Json>): (n: nat)
    ensures n <= |items|
    ensures forall i :: 0 <= i < n ==> ItemCounts(items[i])
    ensures n < |items| ==> !ItemCounts(items[n])
    decreases |items|
  {
    if items == [] || !ItemCounts(items[0]) then 0
    else
      var n := CountedPrefix(items[1..]);
      assert forall i :: 1 <= i < n + 1 ==> items[i] == items[1..][i - 1];
      n + 1
  }

  /** The sum of the quantities of the items named k (a missing name being
      'Sconosciuto'); items the loop cannot count contribute nothing. */
  function ItemsQty(items: seq<Json>, k: Json): real {
    if items == [] then 0.0
    else
      var it := items[|items| - 1];
      ItemsQty(items[..|items| - 1], k)
        + (if ItemCounts(it) && SameKey(Get(it.fields, "name", JStr("Sconosciuto")), k)
           then NumKey(Get(it.fields, "quantity", JInt(0))).value else 0.0)
  }

  /** The quantity of product k in one order's line items, as far as the
      loop gets through them. */
  function LineItemsQty(b: Blob, k: Json): real {
    match b
    case Corrupt(_) => 0.0
    case Dumped(v) =>
      match GetLoopItems(v)
      case Err(_) => 0.0
      case Ok(items) => ItemsQty(items[..CountedPrefix(items)], k)
  }

  /** The quantity of product k over all rows. */
  function SumQty(rows: seq<Row>, k: Json): real {
    if rows == [] then 0.0
    else SumQty(rows[..|rows| - 1], k) + LineItemsQty(rows[|rows| - 1].lineItems, k)
  }

  /** The loop raises exactly when some row breaks it. */
  lemma {:induction false} StatsFoldFails(rows: seq<Row>)
    ensures StatsFold(rows).None? <==> exists i :: 0 <= i < |rows| && Breaks(rows[i])
    decreases |rows|
  {
    if rows != [] {
      var pre := rows[..|rows| - 1];
      StatsFoldFails(pre);
      if exists i :: 0 <= i < |pre| && Breaks(pre[i]) {
        var i :| 0 <= i < |pre| && Breaks(pre[i]);
        assert rows[i] == pre[i];
      }
      if exists i :: 0 <= i < |rows| && Breaks(rows[i]) {
        var i :| 0 <= i < |rows| && Breaks(rows[i]);
        if i < |pre| {
          assert pre[i] == rows[i];
        }
      }
    }
  }

  /** Counting the last row's status extends the per-status counts of the
      rows before it to all the rows. */
  lemma StatusCountStep(byStatus: Counter, rows: seq<Row>)
    requires rows != []
    requires forall k :: Value(byStatus, k) == CountStatus(rows[..|rows| - 1], k) as real
    requires Total(byStatus) == (|rows| - 1) as real && Distinct(byStatus)
    ensures var b := Bump(byStatus, rows[|rows| - 1].status, 1.0);
      && (forall k :: Value(b, k) == CountStatus(rows, k) as real)
      && Total(b) == |rows| as real && Distinct(b)
  {
    var st := rows[|rows| - 1].status;
    BumpValue(byStatus, st, 1.0);
    BumpTotal(byStatus, st, 1.0);
    BumpDistinct(byStatus, st, 1.0);
    forall k
      ensures Value(Bump(byStatus, st, 1.0), k) == CountStatus(rows, k) as real
    {
      if SameKey(st, k) {
        ValueSameKey(byStatus, st, k);
        ValueSameKey(Bump(byStatus, st, 1.0), st, k);
      } else {
        SameKeyEquivalence(k, st, k);
      }
    }
  }

  /** Counting the last row's day, when it has a date, extends the per-day
      counts of the rows before it to all the rows. */
  lemma DayCountStep(byDate: Counter, rows: seq<Row>)
    requires rows != [] && Truthy(rows[|rows| - 1].dateCreated)
    requires !Breaks(rows[|rows| - 1])
    requires forall d :: Value(byDate, JStr(d)) == CountDay(rows[..|rows| - 1], d) as real
    requires Total(byDate) == CountDated(rows[..|rows| - 1]) as real && Distinct(byDate)
    ensures var key := JStr(Day(rows[|rows| - 1].dateCreated.s));
      var b := Bump(byDate, key, 1.0);
      && (forall d :: Value(b, JStr(d)) == CountDay(rows, d) as real)
      && Total(b) == CountDated(rows) as real && Distinct(b)
  {
    var r := rows[|rows| - 1];
    var key := JStr(Day(r.dateCreated.s));
    BumpValue(byDate, key, 1.0);
    BumpTotal(byDate, key, 1.0);
    BumpDistinct(byDate, key, 1.0);
    forall d
      ensures Value(Bump(byDate, key, 1.0), JStr(d)) == CountDay(rows, d) as real
    {
      if d != Day(r.dateCreated.s) {
        assert !SameKey(JStr(d), key);
      }
    }
  }

  /** The counters hold, whatever order the rows were fetched in, the
      number of rows per status and per day; the per-status counts add up
      to the number of rows, the per-day counts to the number of dated rows;
      no key occurs twice. */
  lemma {:induction false} StatsFoldCounts(rows: seq<Row>)
    requires StatsFold(rows).Some?
    ensures var acc := StatsFold(rows).value;
      && (forall k :: Value(acc.byStatus, k) == CountStatus(rows, k) as real)
      && (forall d :: Value(acc.byDate, JStr(d)) == CountDay(rows, d) as real)
      && Total(acc.byStatus) == |rows| as real
      && Total(acc.byDate) == CountDated(rows) as real
      && Distinct(acc.byStatus) && Distinct(acc.byDate) && Distinct(acc.products)
    decreases |rows|
  {
    if rows != [] {
      var pre := rows[..|rows| - 1];
      var r := rows[|rows| - 1];
      StatsFoldCounts(pre);
      var acc := StatsFold(pre).value;
      StatusCountStep(acc.byStatus, rows);
      if Truthy(r.dateCreated) {
        DayCountStep(acc.byDate, rows);
      }
      AddLineItemsDistinct(acc.products, r.lineItems);
    }
  }

  lemma {:induction false} AddItemsDistinct(tp: Counter, items: seq<Json>)
    requires Distinct(tp)
    ensures Distinct(AddItems(tp, items))
    decreases |items|
  {
    if items != [] && items[0].JObj? {
      var name := Get(items[0].fields, "name", JStr("Sconosciuto"));
      if Hashable(name) {
        BumpDistinct(tp, name, 0.0);
        match NumKey(Get(items[0].fields, "quantity", JInt(0)))
        case None =>
        case Some(q) =>
          BumpDistinct(tp, name, q);
          AddItemsDistinct(Bump(tp, name, q), items[1..]);
      }
    }
  }

  lemma AddLineItemsDistinct(tp: Counter, b: Blob)
    requires Distinct(tp)
    ensures Distinct(AddLineItems(tp, b))
  {
    if b.Dumped? && GetLoopItems(b.value).Ok? {
      AddItemsDistinct(tp, GetLoopItems(b.value).value);
    }
  }

  /** Counting an item first adds its quantity to the sum of the rest. */
  lemma {:induction false} ItemsQtyCons(x: Json, rest: seq<Json>, k: Json)
    ensures ItemsQty([x] + rest, k) == ItemsQty([x], k) + ItemsQty(rest, k)
    decreases |rest|
  {
    if rest != [] {
      var xs := [x] + rest;
      assert xs[..|xs| - 1] == [x] + rest[..|rest| - 1];
      assert xs[|xs| - 1] == rest[|rest| - 1];
      ItemsQtyCons(x, rest[..|rest| - 1], k);
    }
  }

  /** The loop over one order's line items adds to every product exactly the
      quantities of the items it gets through that carry that name. */
  lemma {:induction false} AddItemsValue(tp: Counter, items: seq<Json>, k: Json)
    ensures Value(AddItems(tp, items), k) == Value(tp, k) + ItemsQty(items[..CountedPrefix(items)], k)
    decreases |items|
  {
    if items == [] {
    } else if !ItemCounts(items[0]) {
      assert items[..CountedPrefix(items)] == [];
      if items[0].JObj? && Hashable(Get(items[0].fields, "name", JStr("Sconosciuto"))) {
        TouchKeepsValues(tp, Get(items[0].fields, "name", JStr("Sconosciuto")));
      }
    } else {
      var it := items[0];
      var name := Get(it.fields, "name", JStr("Sconosciuto"));
      var q := NumKey(Get(it.fields, "quantity", JInt(0))).value;
      AddItemsValue(Bump(tp, name, q), items[1..], k);
      BumpValueAt(tp, name, q, k);
      CountedHead(items, k);
    }
  }

  /** What a bump of `name` by q does to the value read under k. */
  lemma BumpValueAt(tp: Counter, name: Json, q: real, k: Json)
    ensures Value(Bump(tp, name, q), k) == Value(tp, k) + (if SameKey(name, k) then q else 0.0)
  {
    BumpValue(tp, name, q);
    if SameKey(name, k) {
      ValueSameKey(tp, name, k);
      ValueSameKey(Bump(tp, name, q), name, k);
    } else {
      SameKeyEquivalence(k, name, k);
    }
  }

  /** A counted first item adds its quantity, when named k, to what the
      loop counts in the rest. */
  lemma CountedHead(items: seq<Json>, k: Json)
    requires items != [] && ItemCounts(items[0])
    ensures var it := items[0];
      ItemsQty(items[..CountedPrefix(items)], k) ==
        (if SameKey(Get(it.fields, "name", JStr("Sconosciuto")), k)
         then NumKey(Get(it.fields, "quantity", JInt(0))).value else 0.0)
        + ItemsQty(items[1..][..CountedPrefix(items[1..])], k)
  {
    var it := items[0];
    var rest := items[1..];
    var n := CountedPrefix(rest);
    assert items[..CountedPrefix(items)] == [it] + rest[..n];
    ItemsQtyCons(it, rest[..n], k);
    assert [it][..0] == [];
  }

  /** The same for one row's stored line items. */
  lemma AddLineItemsValue(tp: Counter, b: Blob, k: Json)
    ensures Value(AddLineItems(tp, b), k) == Value(tp, k) + LineItemsQty(b, k)
  {
    if b.Dumped? && GetLoopItems(b.value).Ok? {
      AddItemsValue(tp, GetLoopItems(b.value).value, k);
    }
  }

  /** top_products holds, for every product name, the total quantity ordered
      under that name over all rows, however the rows are ordered into the
      loop. */
  lemma {:induction false} ProductTotals(rows: seq<Row>)
    requires StatsFold(rows).Some?
    ensures forall k :: Value(StatsFold(rows).value.products, k) == SumQty(rows, k)
    decreases |rows|
  {
    if rows != [] {
      var pre := rows[..|rows| - 1];
      ProductTotals(pre);
      forall k
        ensures Value(StatsFold(rows).value.products, k) == SumQty(rows, k)
      {
        AddLineItemsValue(StatsFold(pre).value.products, rows[|rows| - 1].lineItems, k);
      }
    }
  }

  /** The statistics: zero everything for no rows; otherwise {} exactly when
      some row breaks the loop, and else total_orders is the row count and
      the sum of the per-status counts, the per-status and per-day counts
      are those of the rows, and top_products holds at most five distinct
      products, largest first, none left out larger than one kept. */
  lemma StatsProperties(rows: seq<Row>)
    ensures rows == [] ==> StatsOf(rows) == Some(Stats(0, 0.0, [], [], []))
    ensures StatsOf(rows).None? <==> exists i :: 0 <= i < |rows| && Breaks(rows[i])
    ensures StatsOf(rows).Some? ==>
      var st := StatsOf(rows).value;
      && st.totalOrders == |rows|
      && Total(st.byStatus) == |rows| as real
      && Total(st.byDate) == CountDated(rows) as real
      && (forall k :: Value(st.byStatus, k) == CountStatus(rows, k) as real)
      && (forall d :: Value(st.byDate, JStr(d)) == CountDay(rows, d) as real)
      && |st.topProducts| <= 5
      && SortedDesc(st.topProducts)
  {
    StatsFoldFails(rows);
    if rows != [] && StatsFold(rows).Some? {
      StatsFoldCounts(rows);
      TopLargest(StatsFold(rows).value.products, 5);
    }
  }

  /** The product ranking keeps, of all products counted, the largest, and
      each product it keeps comes with the total quantity ordered under its
      name. */
  lemma TopProductsLargest(rows: seq<Row>)
    requires rows != [] && StatsFold(rows).Some?
    ensures var acc := StatsFold(rows).value;
      var top := StatsOf(rows).value.topProducts;
      && multiset(top) <= multiset(acc.products)
      && (forall e, t :: e in acc.products && e !in top && t in top ==> e.1 <= t.1)
      && (forall e :: e in top ==> e.1 == SumQty(rows, e.0))
  {
    var products := StatsFold(rows).value.products;
    var top := StatsOf(rows).value.topProducts;
    TopLargest(products, 5);
    StatsFoldCounts(rows);
    ProductTotals(rows);
    forall e | e in top
      ensures e.1 == SumQty(rows, e.0)
    {
      assert e in multiset(top);
      assert e in multiset(products);
      var i :| 0 <= i < |products| && products[i] == e;
      ValueOfEntry(products, i);
    }
  }

  lemma {:induction false} RevenueAppend(a: seq<Row>, b: seq<Row>)
    ensures Revenue(a + b) == Revenue(a) + Revenue(b)
    decreases |b|
  {
    if b == [] {
      assert a + b == a;
    } else {
      assert (a + b)[..|a + b| - 1] == a + b[..|b| - 1];
      RevenueAppend(a, b[..|b| - 1]);
    }
  }

  /** A row without a total adds nothing to the revenue, wherever it sits. */
  lemma RevenueSkipsNull(a: seq<Row>, r: Row, b: seq<Row>)
    requires r.total.None?
    ensures Revenue(a + [r] + b) == Revenue(a + b)
  {
    RevenueAppend(a + [r], b);
    RevenueAppend(a, b);
    assert (a + [r])[..|a + [r]| - 1] == a;
  }
}
