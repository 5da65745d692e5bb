/** One order as the local SQLite store keeps it: the fingerprint that
    detects changes, the flat row projected from a WooCommerce payload, and
    what the SQLite driver accepts as bound parameters. */
module DbRecord {
  import opened PyJson

  // ---------------------------------------------------------------- fingerprint

  /** A hex digest. */
  type Digest = string

  /** The dict that is serialised with sorted keys before hashing; since the
      keys are sorted, it is a map and the order of insertion is immaterial. */
  type Canon = map<string, Json>

  /** md5(json.dumps(canon, sort_keys=True)).hexdigest(), left uninterpreted. */
  type Hasher = Canon -> Digest

  /** A hasher that never maps two different canonical maps to one digest. */
  ghost predicate Injective(h: Hasher) {
    forall a: Canon, b: Canon :: a != b ==> h(a) != h(b)
  }

  /** The four fields the local fingerprint covers. */
  predicate Significant(f: string) {
    f == "status" || f == "total" || f == "date_modified" || f == "line_items"
  }

  /** {k: order.get(k) for k in the four fields}: every field is present,
      a missing one as null. */
  function HashData(order: Dict): (c: Canon)
    ensures forall f :: f in c <==> Significant(f)
  {
    map f | f in {"status", "total", "date_modified", "line_items"} :: Get(order, f, JNull)
  }

  function OrderHash(h: Hasher, order: Dict): Digest {
    h(HashData(order))
  }

  /** Two payloads that agree on the four fields (a missing field counting as
      null) get the same fingerprint, whatever else they hold. */
  lemma HashOnlySignificant(h: Hasher, a: Dict, b: Dict)
    requires forall f :: Significant(f) ==> Get(a, f, JNull) == Get(b, f, JNull)
    ensures OrderHash(h, a) == OrderHash(h, b)
  {
    assert HashData(a) == HashData(b);
  }

  /** A missing significant field hashes exactly like an explicit null. */
  lemma HashMissingIsNull(h: Hasher, order: Dict, f: string)
    requires Significant(f) && f !in order
    ensures OrderHash(h, order) == OrderHash(h, order[f := JNull])
  {
    HashOnlySignificant(h, order, order[f := JNull]);
  }

  /** With an injective hasher, any change to one of the four fields changes
      the fingerprint. */
  lemma HashSensitive(h: Hasher, a: Dict, b: Dict, f: string)
    requires Injective(h)
    requires Significant(f) && Get(a, f, JNull) != Get(b, f, JNull)
    ensures OrderHash(h, a) != OrderHash(h, b)
  {
    assert HashData(a)[f] != HashData(b)[f];
  }

  // ---------------------------------------------------------------- row

  /** The contents of a TEXT column written with json.dumps: either the text
      of a JSON document whose value is `value`, or text json.loads rejects. */
  datatype Blob = Dumped(value: Json) | Corrupt(text: string)

  /** One row of the orders table (the AUTOINCREMENT surrogate id aside).
      Cells hold the Python value that was bound to them. */
  datatype Row = Row(
    wooId: Json,
    orderNumber: Json,
    status: Json,
    currency: Json,
    total: Option<real>,
    totalTax: Option<real>,
    shippingTotal: Option<real>,
    customerId: Json,
    customerEmail: Json,
    customerName: string,
    billingData: Blob,
    shippingData: Blob,
    lineItems: Blob,
    shippingLines: Blob,
    paymentMethod: Json,
    paymentMethodTitle: Json,
    dateCreated: Json,
    dateModified: Json,
    dateCompleted: Json,
    rawData: Blob,
    hashSignature: Digest)

  /** `value or {}` */
  function OrEmpty(j: Json): Json {
    if Truthy(j) then j else JObj(map[])
  }

  /** f"{first} {last}".strip() */
  function FullName(first: Json, last: Json): string {
    Strip(Str(first) + " " + Str(last))
  }

  /** The projection of a payload onto the row, with its defaults.  It fails
      where Python raises: a total that float() rejects, or a billing value
      that is truthy but not a dict (it has no .get). */
  function ExtractOrderData(order: Dict, hash: Digest): Result<Row> {
    var billing := OrEmpty(Get(order, "billing", JObj(map[])));
    var total :- ToFloat(Get(order, "total", JInt(0)));
    var totalTax :- ToFloat(Get(order, "total_tax", JInt(0)));
    var shippingTotal :- ToFloat(Get(order, "shipping_total", JInt(0)));
    if !billing.JObj? then Err(AttributeError)
    else
      var b := billing.fields;
      Ok(Row(
        wooId := Get(order, "id", JNull),
        orderNumber := Get(order, "number", JStr("")),
        status := Get(order, "status", JStr("")),
        currency := Get(order, "currency", JStr("EUR")),
        total := Some(total),
        totalTax := Some(totalTax),
        shippingTotal := Some(shippingTotal),
        customerId := Get(order, "customer_id", JNull),
        customerEmail := Get(b, "email", JStr("")),
        customerName := FullName(Get(b, "first_name", JStr("")), Get(b, "last_name", JStr(""))),
        billingData := Dumped(billing),
        shippingData := Dumped(OrEmpty(Get(order, "shipping", JObj(map[])))),
        lineItems := Dumped(Get(order, "line_items", JArr([]))),
        shippingLines := Dumped(Get(order, "shipping_lines", JArr([]))),
        paymentMethod := Get(order, "payment_method", JStr("")),
        paymentMethodTitle := Get(order, "payment_method_title", JStr("")),
        dateCreated := Get(order, "date_created", JNull),
        dateModified := Get(order, "date_modified", JNull),
        dateCompleted := Get(order, "date_completed", JNull),
        rawData := Dumped(JObj(order)),
        hashSignature := hash))
  }

  /** A billing value the projection accepts: falsy (read as {}) or a dict. */
  predicate BillingUsable(order: Dict) {
    var b := Get(order, "billing", JObj(map[]));
    !Truthy(b) || b.JObj?
  }

  /** The projection fails exactly when a total is not a number float()
      accepts or the billing value is unusable. */
  lemma ExtractSucceeds(order: Dict, hash: Digest)
    ensures ExtractOrderData(order, hash).Ok? <==>
      && ToFloat(Get(order, "total", JInt(0))).Ok?
      && ToFloat(Get(order, "total_tax", JInt(0))).Ok?
      && ToFloat(Get(order, "shipping_total", JInt(0))).Ok?
      && BillingUsable(order)
  {
  }

  /** The projected row carries the payload's id, the given fingerprint, and
      the whole payload; missing fields take their defaults: '' for the
      number, status and payment fields, 'EUR' for the currency, 0 for the
      totals, {} for a missing, null or empty billing and for shipping, [] for the item lists, null for
      the dates. */
  lemma ExtractDefaults(order: Dict, hash: Digest)
    requires ExtractOrderData(order, hash).Ok?
    ensures var r := ExtractOrderData(order, hash).value;
      && r.wooId == Get(order, "id", JNull)
      && r.hashSignature == hash
      && r.rawData == Dumped(JObj(order))
      && ("number" !in order ==> r.orderNumber == JStr(""))
      && ("status" !in order ==> r.status == JStr(""))
      && ("currency" !in order ==> r.currency == JStr("EUR"))
      && ("payment_method" !in order ==> r.paymentMethod == JStr(""))
      && ("payment_method_title" !in order ==> r.paymentMethodTitle == JStr(""))
      && ("total" !in order ==> r.total == Some(0.0))
      && ("total_tax" !in order ==> r.totalTax == Some(0.0))
      && ("shipping_total" !in order ==> r.shippingTotal == Some(0.0))
      && (!Truthy(Get(order, "billing", JObj(map[]))) ==> r.billingData == Dumped(JObj(map[])) && r.customerEmail == JStr("") && r.customerName == "")
      && ("shipping" !in order ==> r.shippingData == Dumped(JObj(map[])))
      && ("line_items" !in order ==> r.lineItems == Dumped(JArr([])))
      && ("shipping_lines" !in order ==> r.shippingLines == Dumped(JArr([])))
      && ("date_created" !in order ==> r.dateCreated == JNull)
  {
    var billing := Get(order, "billing", JObj(map[]));
    if !Truthy(billing) {
      assert OrEmpty(billing) == JObj(map[]);
      EmptyName();
    }
  }

  /** Two empty names join to the empty name. */
  lemma EmptyName()
    ensures FullName(JStr(""), JStr("")) == ""
  {
    assert Str(JStr("")) + " " + Str(JStr("")) == " ";
    assert TrimStart(" ") == "";
  }

  /** A field the payload has is copied as it is: the id, number, status,
      currency, customer id, payment fields and dates; the item lists and a
      dict shipping block are stored as their JSON; a number given for a
      total is that total; a dict billing block is stored whole, and its
      email and plain-text names give the customer's email and name. */
  lemma ExtractFields(order: Dict, hash: Digest)
    requires ExtractOrderData(order, hash).Ok?
    ensures var r := ExtractOrderData(order, hash).value;
      && ("id" in order ==> r.wooId == order["id"])
      && ("number" in order ==> r.orderNumber == order["number"])
      && ("status" in order ==> r.status == order["status"])
      && ("currency" in order ==> r.currency == order["currency"])
      && ("customer_id" in order ==> r.customerId == order["customer_id"])
      && ("payment_method" in order ==> r.paymentMethod == order["payment_method"])
      && ("payment_method_title" in order ==> r.paymentMethodTitle == order["payment_method_title"])
      && ("date_created" in order ==> r.dateCreated == order["date_created"])
      && ("date_modified" in order ==> r.dateModified == order["date_modified"])
      && ("date_completed" in order ==> r.dateCompleted == order["date_completed"])
      && ("line_items" in order ==> r.lineItems == Dumped(order["line_items"]))
      && ("shipping_lines" in order ==> r.shippingLines == Dumped(order["shipping_lines"]))
      && ("shipping" in order && order["shipping"].JObj? ==> r.shippingData == Dumped(order["shipping"]))
      && ("total" in order && order["total"].JInt? ==> r.total == Some(order["total"].i as real))
      && ("total" in order && order["total"].JFloat? ==> r.total == Some(order["total"].r))
      && ("billing" in order && order["billing"].JObj? ==> BillingCopied(order, r))
      && r.hashSignature == hash
  {
    ProjectedColumns(order, hash);
    if "billing" in order && order["billing"].JObj? {
      BillingFields(order, ExtractOrderData(order, hash).value);
    }
  }

  /** The columns of the projected row, read off its definition. */
  lemma ProjectedColumns(order: Dict, hash: Digest)
    requires ExtractOrderData(order, hash).Ok?
    ensures var r := ExtractOrderData(order, hash).value;
      var billing := OrEmpty(Get(order, "billing", JObj(map[])));
      && billing.JObj?
      && r.wooId == Get(order, "id", JNull)
      && r.orderNumber == Get(order, "number", JStr(""))
      && r.status == Get(order, "status", JStr(""))
      && r.currency == Get(order, "currency", JStr("EUR"))
      && r.total == Some(ToFloat(Get(order, "total", JInt(0))).value)
      && r.customerId == Get(order, "customer_id", JNull)
      && r.customerEmail == Get(billing.fields, "email", JStr(""))
      && r.customerName == FullName(Get(billing.fields, "first_name", JStr("")), Get(billing.fields, "last_name", JStr("")))
      && r.billingData == Dumped(billing)
      && r.shippingData == Dumped(OrEmpty(Get(order, "shipping", JObj(map[]))))
      && r.lineItems == Dumped(Get(order, "line_items", JArr([])))
      && r.shippingLines == Dumped(Get(order, "shipping_lines", JArr([])))
      && r.paymentMethod == Get(order, "payment_method", JStr(""))
      && r.paymentMethodTitle == Get(order, "payment_method_title", JStr(""))
      && r.dateCreated == Get(order, "date_created", JNull)
      && r.dateModified == Get(order, "date_modified", JNull)
      && r.dateCompleted == Get(order, "date_completed", JNull)
      && r.hashSignature == hash
  {
  }

  /** A dict billing block is stored whole, and its email and plain-text
      names give the customer's email and name. */
  predicate BillingCopied(order: Dict, r: Row)
    requires "billing" in order && order["billing"].JObj?
  {
    var b := order["billing"].fields;
    && r.billingData == Dumped(order["billing"])
    && ("email" in b ==> r.customerEmail == b["email"])
    && ("first_name" in b && b["first_name"].JStr? && "last_name" in b && b["last_name"].JStr? ==>
          r.customerName == Strip(b["first_name"].s + " " + b["last_name"].s))
  }

  lemma BillingFields(order: Dict, r: Row)
    requires "billing" in order && order["billing"].JObj?
    requires var billing := OrEmpty(order["billing"]);
      && billing.JObj?
      && r.billingData == Dumped(billing)
      && r.customerEmail == Get(billing.fields, "email", JStr(""))
      && r.customerName == FullName(Get(billing.fields, "first_name", JStr("")), Get(billing.fields, "last_name", JStr("")))
    ensures BillingCopied(order, r)
  {
    assert OrEmpty(order["billing"]) == order["billing"];
  }

  /** The customer name joins two plain names with one space; a name with
      only a first part is that part alone. */
  lemma FullNameJoins(first: string, last: string)
    requires first != [] && !IsSpace(first[0]) && !IsSpace(first[|first| - 1])
    ensures last != [] && !IsSpace(last[0]) && !IsSpace(last[|last| - 1]) ==>
      FullName(JStr(first), JStr(last)) == first + " " + last
    ensures FullName(JStr(first), JStr("")) == first
  {
    if last != [] && !IsSpace(last[0]) && !IsSpace(last[|last| - 1]) {
      BothNames(first, last);
    }
    FirstNameOnly(first);
  }

  lemma BothNames(first: string, last: string)
    requires first != [] && !IsSpace(first[0])
    requires last != [] && !IsSpace(last[|last| - 1])
    ensures FullName(JStr(first), JStr(last)) == first + " " + last
  {
    var s := first + " " + last;
    assert s[0] == first[0] && s[|s| - 1] == last[|last| - 1];
    StripKeeps(s);
  }

  lemma FirstNameOnly(first: string)
    requires first != [] && !IsSpace(first[0]) && !IsSpace(first[|first| - 1])
    ensures FullName(JStr(first), JStr("")) == first
  {
    var t := first + " ";
    assert Str(JStr(first)) + " " + Str(JStr("")) == t;
    assert t[0] == first[0];
    assert TrimStart(t) == t;
    assert t[..|t| - 1] == first;
    assert TrimEnd(first) == first;
    assert TrimEnd(t) == first;
  }

  // ---------------------------------------------------------------- binding

  const MinInt64: int := -0x8000_0000_0000_0000
  const MaxInt64: int := 0x7FFF_FFFF_FFFF_FFFF

  /** A Python value the sqlite3 driver binds: None, bool, str, float, or an
      int within 64 bits (a wider one raises OverflowError, a list or dict
      cannot be bound at all). */
  predicate BindableCell(j: Json) {
    match j
    case JInt(i) => MinInt64 <= i <= MaxInt64
    case JArr(_) => false
    case JObj(_) => false
    case _ => true
  }

  /** Every parameter of the row's INSERT or UPDATE can be bound. */
  predicate Bindable(r: Row) {
    && BindableCell(r.wooId) && BindableCell(r.orderNumber) && BindableCell(r.status)
    && BindableCell(r.currency) && BindableCell(r.customerId) && BindableCell(r.customerEmail)
    && BindableCell(r.paymentMethod) && BindableCell(r.paymentMethodTitle)
    && BindableCell(r.dateCreated) && BindableCell(r.dateModified) && BindableCell(r.dateCompleted)
  }
}
