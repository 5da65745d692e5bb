/** The CSV export: the traveler data found in an order's raw payload, and
    the flattening of the orders get_orders returns into one row per
    traveler, or one row with blank traveler fields. */
module Export {
  import opened PyJson
  import opened DbQuery
  import Database

  /** The outcome handed to on_export_complete. */
  datatype ExportResult = ExportResult(success: bool, fileName: string, filePath: string, totalRecords: nat, errorMessage: string)

  /** ExportResult(success=False, error_message=msg): the other fields keep
      their defaults. */
  function Failure(msg: string): ExportResult {
    ExportResult(false, "", "", 0, msg)
  }

  const NoOrdersMessage: string := "Nessun ordine trovato con i filtri specificati."
  const ErrorPrefix: string := "Errore durante l'export CSV: "

  // ---------------------------------------------------------------- travelers

  /** The five meta_data key names that may hold the traveler data. */
  const TravelerKeys: seq<string> := ["dati_viaggiatori", "_dati_viaggiatori", "traveler_data", "_traveler_data", "_viaggiatori_data"]

  /** `item.get('key', '').lower() in possible_keys`, failing as Python
      does on an item that is not a dict or a key that is not a string. */
  function IsTravelerItem(item: Json): Result<bool> {
    if !item.JObj? then Err(AttributeError)
    else
      var key := Get(item.fields, "key", JStr(""));
      if !key.JStr? then Err(AttributeError)
      else Ok(Lower(key.s) in TravelerKeys)
  }

  /** json.loads(value.replace('\\"', '"')) for a string value, the value
      itself otherwise; None where json.loads raises. */
  function Parsed(value: Json, decode: string -> Option<Json>): Option<Json> {
    if value.JStr? then decode(Unescape(value.s)) else Some(value)
  }

  /** [{'Info': str(value)}] */
  function InfoEntry(value: Json): seq<Json> {
    [JObj(map["Info" := JStr(Str(value))])]
  }

  /** What one meta_data item contributes: an error, None to keep looking,
      or the traveler list the search returns. */
  function ItemOutcome(item: Json, decode: string -> Option<Json>): Result<Option<seq<Json>>> {
    var candidate :- IsTravelerItem(item);
    if !candidate then Ok(None)
    else
      var value := Get(item.fields, "value", JNull);
      if !Truthy(value) then Ok(None)
      else match Parsed(value, decode)
        case None => Ok(Some(InfoEntry(value)))
        case Some(data) =>
          if data.JArr? then Ok(Some(data.items))
          else if data.JObj? then Ok(Some([data]))
          else Ok(None)
  }

  /** The loop over meta_data: the first decisive item wins. */
  function SearchTravelers(items: seq<Json>, decode: string -> Option<Json>): Result<seq<Json>> {
    if items == [] then Ok([])
    else
      var outcome :- ItemOutcome(items[0], decode);
      match outcome
      case Some(travelers) => Ok(travelers)
      case None => SearchTravelers(items[1..], decode)
  }

  /** _extract_traveler_data on the decoded raw_data column. */
  function ExtractTravelerData(raw: Json, decode: string -> Option<Json>): Result<seq<Json>> {
    if !raw.JObj? then Err(AttributeError)
    else
      var items :- GetLoopItems(Get(raw.fields, "meta_data", JArr([])));
      SearchTravelers(items, decode)
  }

  /** Each kind of meta_data item: one with another key, or with a falsy
      value, is passed over; a list is returned as it is, a dict wrapped in
      a list, text json.loads rejects as the Info entry; parsed text that is
      neither list nor dict is passed over. */
  lemma ItemOutcomeCases(item: map<string, Json>, decode: string -> Option<Json>)
    requires "key" in item && item["key"].JStr?
    ensures var value := Get(item, "value", JNull);
      var r := ItemOutcome(JObj(item), decode);
      && (Lower(item["key"].s) !in TravelerKeys ==> r == Ok(None))
      && (Lower(item["key"].s) in TravelerKeys ==>
            && (!Truthy(value) ==> r == Ok(None))
            && (Truthy(value) && value.JArr? ==> r == Ok(Some(value.items)))
            && (Truthy(value) && value.JObj? ==> r == Ok(Some([value])))
            && (value.JStr? && value.s != [] && decode(Unescape(value.s)).None? ==>
                  r == Ok(Some([JObj(map["Info" := value])])))
            && (value.JStr? && value.s != [] && decode(Unescape(value.s)).Some? ==>
                  var data := decode(Unescape(value.s)).value;
                  r == (if data.JArr? then Ok(Some(data.items)) else if data.JObj? then Ok(Some([data])) else Ok(None))))
  {
  }

  /** The search stops at the first item that is not passed over: the
      result is that item's list (or its error), or [] when every item is
      passed over. */
  lemma {:induction false} SearchFindsFirst(items: seq<Json>, decode: string -> Option<Json>) returns (i: nat)
    ensures i <= |items|
    ensures forall j :: 0 <= j < i ==> ItemOutcome(items[j], decode) == Ok(None)
    ensures i == |items| ==> SearchTravelers(items, decode) == Ok([])
    ensures i < |items| ==> ItemOutcome(items[i], decode) != Ok(None)
    ensures i < |items| && ItemOutcome(items[i], decode).Err? ==>
      SearchTravelers(items, decode) == Err(ItemOutcome(items[i], decode).error)
    ensures i < |items| && ItemOutcome(items[i], decode).Ok? ==>
      SearchTravelers(items, decode) == Ok(ItemOutcome(items[i], decode).value.value)
    decreases |items|
  {
    if items == [] {
      return 0;
    }
    var outcome := ItemOutcome(items[0], decode);
    if outcome != Ok(None) {
      return 0;
    }
    var k := SearchFindsFirst(items[1..], decode);
    i := k + 1;
    forall j | 0 <= j < i
      ensures ItemOutcome(items[j], decode) == Ok(None)
    {
      if j > 0 {
        assert items[j] == items[1..][j - 1];
      }
    }
  }

  /** A raw payload with no traveler item gives []. */
  lemma NoTravelerItems(raw: map<string, Json>, decode: string -> Option<Json>)
    requires "meta_data" !in raw
    ensures ExtractTravelerData(JObj(raw), decode) == Ok([])
  {
  }

  // ---------------------------------------------------------------- products

  /** f"{item.get('name', 'N/A')} (x{item.get('quantity', 0)})" */
  function Label(item: map<string, Json>): string {
    Str(Get(item, "name", JStr("N/A"))) + " (x" + Str(Get(item, "quantity", JInt(0))) + ")"
  }

  /** The labels of the line items, AttributeError at the first one that is
      not a dict. */
  function Labels(items: seq<Json>): Result<seq<string>> {
    if items == [] then Ok([])
    else if !items[0].JObj? then Err(AttributeError)
    else
      var rest :- Labels(items[1..]);
      Ok([Label(items[0].fields)] + rest)
  }

  /** '; '.join(parts) */
  function Join(parts: seq<string>): string {
    if parts == [] then ""
    else if |parts| == 1 then parts[0]
    else parts[0] + "; " + Join(parts[1..])
  }

  /** The labels exist exactly when every item is a dict, one per item in
      order. */
  lemma {:induction false} LabelsSpec(items: seq<Json>)
    ensures Labels(items).Ok? <==> forall i :: 0 <= i < |items| ==> items[i].JObj?
    ensures Labels(items).Ok? ==>
      && |Labels(items).value| == |items|
      && forall i :: 0 <= i < |items| ==> Labels(items).value[i] == Label(items[i].fields)
    decreases |items|
  {
    if items != [] {
      LabelsSpec(items[1..]);
      assert forall i :: 1 <= i < |items| ==> items[i] == items[1..][i - 1];
    }
  }

  /** A label with the defaults, and one for a named item. */
  lemma LabelExamples(name: string)
    ensures Label(map[]) == "N/A (x0)"
    ensures Label(map["name" := JStr(name), "quantity" := JInt(2)]) == name + " (x2)"
  {
    assert IntStr(0) == "0";
    assert IntStr(2) == "2";
  }

  /** The join puts exactly one separator between consecutive parts. */
  lemma JoinAppend(parts: seq<string>, last: string)
    requires parts != []
    ensures Join(parts + [last]) == Join(parts) + "; " + last
    decreases |parts|
  {
    if |parts| == 1 {
      assert parts + [last] == [parts[0], last];
    } else {
      assert (parts + [last])[1..] == parts[1..] + [last];
      JoinAppend(parts[1..], last);
    }
  }

  // ---------------------------------------------------------------- rows

  /** One CSV row, its columns in the order of the header. */
  datatype CsvRow = CsvRow(
    orderId: Json,
    orderNumber: Json,
    orderDate: Json,
    customer: Json,
    customerEmail: Json,
    status: Json,
    total: Json,
    travelerName: Json,
    travelerSurname: Json,
    travelerEmail: Json,
    travelerPhone: Json,
    travelerDeparture: Json,
    products: Json,
    paymentMethod: Json)

  /** The common columns of an order's rows, with blank traveler fields. */
  function CommonInfo(v: OrderView, products: string): CsvRow {
    var r := v.row;
    CsvRow(r.wooId, r.orderNumber, r.dateCreated, JStr(r.customerName), r.customerEmail, r.status,
      if r.total.Some? then JFloat(r.total.value) else JNull,
      JStr(""), JStr(""), JStr(""), JStr(""), JStr(""), JStr(products), r.paymentMethodTitle)
  }

  /** common_info.copy() updated with one traveler's fields. */
  function TravelerRow(common: CsvRow, t: map<string, Json>): CsvRow {
    common.(
      travelerName := Get(t, "nome", JStr("")),
      travelerSurname := Get(t, "cognome", JStr("")),
      travelerEmail := Get(t, "email", JStr("")),
      travelerPhone := Get(t, "telefono", JStr("")),
      travelerDeparture := Get(t, "partenza", JStr("")))
  }

  /** The line_items the export iterates: a string is parsed once more; the
      empty string is never a JSON document. */
  function LineItems(v: OrderView, decode: string -> Option<Json>): Result<Json> {
    if v.lineItems.JStr? then
      if v.lineItems.s == "" then Err(DecodeError)
      else match decode(v.lineItems.s)
      case None => Err(DecodeError)
      case Some(j) => Ok(j)
    else Ok(v.lineItems)
  }

  /** The 'Prodotti' column of an order. */
  function Products(v: OrderView, decode: string -> Option<Json>): Result<string> {
    var lineItems :- LineItems(v, decode);
    var items :- GetLoopItems(lineItems);
    var labels :- Labels(items);
    Ok(Join(labels))
  }

  /** One row per traveler, AttributeError at the first that is not a dict. */
  function TravelerRows(common: CsvRow, travelers: seq<Json>): Result<seq<CsvRow>> {
    if travelers == [] then Ok([])
    else
      var front :- TravelerRows(common, travelers[..|travelers| - 1]);
      var t := travelers[|travelers| - 1];
      if !t.JObj? then Err(AttributeError) else Ok(front + [TravelerRow(common, t.fields)])
  }

  /** The rows of one order. */
  function OrderRows(v: OrderView, decode: string -> Option<Json>): Result<seq<CsvRow>> {
    var products :- Products(v, decode);
    var common := CommonInfo(v, products);
    var travelers :- ExtractTravelerData(v.raw, decode);
    if travelers == [] then Ok([common]) else TravelerRows(common, travelers)
  }

  /** The rows of all orders in order, or the first error raised. */
  function ExportRows(views: seq<OrderView>, decode: string -> Option<Json>): Result<seq<CsvRow>> {
    if views == [] then Ok([])
    else
      var front :- ExportRows(views[..|views| - 1], decode);
      var last :- OrderRows(views[|views| - 1], decode);
      Ok(front + last)
  }

  /** The traveler rows: one per traveler, in order, each the common
      columns with that traveler's fields. */
  lemma {:induction false} TravelerRowsSpec(common: CsvRow, travelers: seq<Json>)
    ensures TravelerRows(common, travelers).Ok? <==> forall i :: 0 <= i < |travelers| ==> travelers[i].JObj?
    ensures TravelerRows(common, travelers).Err? ==> TravelerRows(common, travelers).error == AttributeError
    ensures TravelerRows(common, travelers).Ok? ==>
      var rows := TravelerRows(common, travelers).value;
      && |rows| == |travelers|
      && forall i :: 0 <= i < |travelers| ==> rows[i] == TravelerRow(common, travelers[i].fields)
    decreases |travelers|
  {
    if travelers != [] {
      var front := travelers[..|travelers| - 1];
      TravelerRowsSpec(common, front);
      assert forall i :: 0 <= i < |front| ==> front[i] == travelers[i];
    }
  }

  /** An order yields one row per traveler, or one row with blank traveler
      fields when it has none; every row carries the order's columns. */
  lemma OrderRowsCount(v: OrderView, decode: string -> Option<Json>)
    requires OrderRows(v, decode).Ok?
    ensures var travelers := ExtractTravelerData(v.raw, decode).value;
      var rows := OrderRows(v, decode).value;
      var common := CommonInfo(v, Products(v, decode).value);
      && ExtractTravelerData(v.raw, decode).Ok? && Products(v, decode).Ok?
      && |rows| == (if travelers == [] then 1 else |travelers|)
      && (travelers == [] ==> rows == [common])
      && (forall i :: 0 <= i < |travelers| ==> travelers[i].JObj? && rows[i] == TravelerRow(common, travelers[i].fields))
  {
    var travelers := ExtractTravelerData(v.raw, decode).value;
    if travelers != [] {
      TravelerRowsSpec(CommonInfo(v, Products(v, decode).value), travelers);
    }
  }

  /** Rows are never lost or invented: the export holds the rows of each
      order back to back, so its size is the sum of theirs. */
  lemma {:induction false} ExportRowsAppend(views: seq<OrderView>, v: OrderView, decode: string -> Option<Json>)
    requires ExportRows(views, decode).Ok? && OrderRows(v, decode).Ok?
    ensures ExportRows(views + [v], decode) == Ok(ExportRows(views, decode).value + OrderRows(v, decode).value)
    ensures |ExportRows(views + [v], decode).value| == |ExportRows(views, decode).value| + |OrderRows(v, decode).value|
  {
    assert (views + [v])[..|views|] == views;
  }

  /** Every exported order gives at least one row. */
  lemma {:induction false} ExportRowsAtLeastOrders(views: seq<OrderView>, decode: string -> Option<Json>)
    requires ExportRows(views, decode).Ok?
    ensures |ExportRows(views, decode).value| >= |views|
    decreases |views|
  {
    if views != [] {
      var v := views[|views| - 1];
      ExportRowsAtLeastOrders(views[..|views| - 1], decode);
      OrderRowsCount(v, decode);
    }
  }

  // ---------------------------------------------------------------- the manager

  /** os.path.join(directory, name) for a relative name. */
  function JoinPath(directory: string, name: string): string {
    if directory == [] || directory[|directory| - 1] == '/' then directory + name else directory + "/" + name
  }

  /** The outcome of an export over the orders get_orders returned:
      failure when there are none, failure with the error's text when
      building the rows raises, success with the file's name and path and
      the number of rows otherwise. */
  function ExportOutcome(views: seq<OrderView>, decode: string -> Option<Json>, describe: PyError -> string,
    directory: string, timestamp: string): ExportResult
  {
    if views == [] then Failure(NoOrdersMessage)
    else
      match ExportRows(views, decode)
      case Err(e) => Failure(ErrorPrefix + describe(e))
      case Ok(rows) =>
        var name := "export_dettaglio_viaggiatori_" + timestamp + ".csv";
        ExportResult(true, name, JoinPath(directory, name), |rows|, "")
  }

  /** A successful export reports exactly the rows built, at least one per
      order, and no message; a failed one has no file and no rows, and its
      message is the no-orders text or the error prefix with the error's text. */
  lemma ExportOutcomeSpec(views: seq<OrderView>, decode: string -> Option<Json>, describe: PyError -> string,
    directory: string, timestamp: string)
    ensures var r := ExportOutcome(views, decode, describe, directory, timestamp);
      && (r.success <==> views != [] && ExportRows(views, decode).Ok?)
      && (r.success ==> r.totalRecords == |ExportRows(views, decode).value|)
      && (r.success ==> r.totalRecords >= |views| > 0 && r.errorMessage == "" && r.fileName != "")
      && (!r.success ==> r.fileName == "" && r.filePath == "" && r.totalRecords == 0)
      && (views == [] ==> r.errorMessage == NoOrdersMessage)
      && (views != [] && ExportRows(views, decode).Err? ==>
            r.errorMessage == ErrorPrefix + describe(ExportRows(views, decode).error))
  {
    if views != [] && ExportRows(views, decode).Ok? {
      ExportRowsAtLeastOrders(views, decode);
    }
  }

  class ExportManager {
    /** The local store the orders are read from. */
    const database: Database.DatabaseManager
    /** config.exports_dir */
    const exportsDir: string
    /** json.loads on free text. */
    const decode: string -> Option<Json>
    /** The text of an exception, as the f-string renders it. */
    const describe: PyError -> string

    constructor (db: Database.DatabaseManager, directory: string, dec: string -> Option<Json>, desc: PyError -> string)
      ensures database == db && exportsDir == directory && decode == dec && describe == desc
    {
      database := db;
      exportsDir := directory;
      decode := dec;
      describe := desc;
    }

    /** The loop of export_orders_csv: rows_to_write grows by one row per
        traveler, or one blank-traveler row, per order. */
    method BuildRows(views: seq<OrderView>) returns (r: Result<seq<CsvRow>>)
      ensures r == ExportRows(views, decode)
    {
      var rowsToWrite: seq<CsvRow> := [];
      var i := 0;
      while i < |views|
        invariant 0 <= i <= |views|
        invariant ExportRows(views[..i], decode) == Ok(rowsToWrite)
      {
        var v := views[i];
        assert views[..i + 1][..i] == views[..i] && views[..i + 1][i] == v;
        var products := Products(v, decode);
        if products.Err? {
          ExportRowsStayFailed(views, i + 1);
          return Err(products.error);
        }
        var common := CommonInfo(v, products.value);
        var travelers := ExtractTravelerData(v.raw, decode);
        if travelers.Err? {
          ExportRowsStayFailed(views, i + 1);
          return Err(travelers.error);
        }
        if travelers.value == [] {
          rowsToWrite := rowsToWrite + [common];
        } else {
          var mine := AppendTravelers(common, travelers.value);
          if mine.Err? {
            ExportRowsStayFailed(views, i + 1);
            return Err(mine.error);
          }
          rowsToWrite := rowsToWrite + mine.value;
        }
        i := i + 1;
      }
      assert views[..i] == views;
      r := Ok(rowsToWrite);
    }

    /** The inner loop: one copy of the common row per traveler. */
    method AppendTravelers(common: CsvRow, travelers: seq<Json>) returns (r: Result<seq<CsvRow>>)
      ensures r == TravelerRows(common, travelers)
    {
      var rows: seq<CsvRow> := [];
      var j := 0;
      while j < |travelers|
        invariant 0 <= j <= |travelers|
        invariant TravelerRows(common, travelers[..j]) == Ok(rows)
      {
        assert travelers[..j + 1][..j] == travelers[..j];
        var t := travelers[j];
        if !t.JObj? {
          TravelerRowsSpec(common, travelers);
          return Err(AttributeError);
        }
        rows := rows + [TravelerRow(common, t.fields)];
        j := j + 1;
      }
      assert travelers[..j] == travelers;
      r := Ok(rows);
    }

    /** Once a prefix of the orders fails, the export fails with that error. */
    lemma {:induction false} ExportRowsStayFailed(views: seq<OrderView>, j: nat)
      requires j <= |views| && ExportRows(views[..j], decode).Err?
      ensures ExportRows(views, decode) == ExportRows(views[..j], decode)
      decreases |views| - j
    {
      if j < |views| {
        assert views[..j + 1][..j] == views[..j];
        ExportRowsStayFailed(views, j + 1);
      } else {
        assert views[..j] == views;
      }
    }

    /** export_orders_csv: the orders get_orders returns for the filters
        (Filters("", "", 0) when none are given), turned into the result
        passed to on_export_complete. Each matching order is exported once,
        newest first; only a positive limit leaves matching orders out, and
        then only orders no newer than every one exported; with no filters
        every stored order is exported. */
    method ExportOrdersCsv(filters: Filters, timestamp: string) returns (result: ExportResult, ghost views: seq<OrderView>, ghost keys: seq<int>)
      ensures |views| == |keys|
      ensures forall i :: 0 <= i < |keys| ==> keys[i] in database.orders && views[i] == Decode(database.orders[keys[i]])
      ensures forall k :: k in keys ==> Matches(database.orders[k], filters)
      ensures forall k :: multiset(keys)[k] <= 1
      ensures NewestFirst(database.orders, keys)
      ensures filters.limit > 0 ==> |keys| <= filters.limit
      ensures forall k :: k in database.orders && Matches(database.orders[k], filters) && k !in keys ==>
        && filters.limit > 0 && |keys| == filters.limit
        && forall t :: t in keys ==> SqlLe(database.orders[k].dateCreated, database.orders[t].dateCreated)
      ensures filters == Filters("", "", 0) ==> forall k :: k in database.orders ==> k in keys
      ensures result == ExportOutcome(views, decode, describe, exportsDir, timestamp)
    {
      var orders, selected := database.GetOrders(filters);
      views, keys := orders, selected;
      if orders == [] {
        result := Failure(NoOrdersMessage);
        return;
      }
      var rows := BuildRows(orders);
      if rows.Err? {
        result := Failure(ErrorPrefix + describe(rows.error));
        return;
      }
      var fileName := "export_dettaglio_viaggiatori_" + timestamp + ".csv";
      var filePath := JoinPath(exportsDir, fileName);
      result := ExportResult(true, fileName, filePath, |rows.value|, "");
    }
  }
}
