# Order-sync core of the Gitemania order manager, in Dafny

This project models the reconciliation and query core of a desktop tool
that mirrors WooCommerce orders into a local SQLite database and, in a
second variant, into a remote Supabase database, and proves properties of
that model.

- **Local store** (`database_manager.py`):
  - Each incoming order payload gets a fingerprint over four fields.
  - It is projected into a flat row with defaults.
  - It is compared with a snapshot of the stored fingerprints and sorted into insert, update or nothing.
  - All writes of a batch happen in one transaction that commits completely or not at all.
  - On the read side, `get_orders` filters, sorts newest first, limits and decodes the JSON columns.
  - `get_order_stats` counts orders per status and per day, sums the revenue and ranks the five best-selling products.
  - Modules: `DbRecord` (fingerprint, row, projection), `DbSync` (the batch specification), `DbQuery` (filters, ordering, decoding, statistics), and `Database`, whose class `DatabaseManager` holds the orders table and whose methods are proved against those specifications.
- **Remote store** (`supabase_manager.py`):
  - It has its own six-field fingerprint, its own projection and a per-order insert/update/skip.
  - It also has a customer upsert and its own statistics.
  - This is module `Supabase`, with class `SupabaseManager`.
- **CSV export** (`export_manager.py`):
  - Traveler data is searched for in the order's `meta_data` under five key names.
  - Each order is flattened into one CSV row per traveler, or one row with blank traveler fields.
  - The export yields an `ExportResult`.
  - This is module `Export`, with class `ExportManager`.
- **Order detail window** (`gui_components.py`): its own traveler search, which passes over empty results, and the split of a traveler's fields into the five named ones and the rest. This is module `Gui`.
- **Settings** (`config.py`): the section/key map with `get`, `set` and the default branch of `get_encrypted`. This is module `Settings`, with class `Config`.
- **Python and SQLite values**:
  - `PyJson` models JSON values and the Python built-ins the core relies on: truthiness, `dict.get`, `str.strip`, `str.lower`, `str.replace`, `str()` and `float()`.
  - `Tally` models Python dicts used as counters (insertion order, Python key equality, the top-five cut).
  - `Tables` models a table scan.

Abstractions:
- **Hashing.** MD5 over `json.dumps(..., sort_keys=True)` is an uninterpreted function from the canonical field map to a digest. Each manager holds it as a constant. Where a property needs it, injectivity is a hypothesis of the lemma.
- **Decoding.** `json.loads` on free text (traveler values, `line_items` strings in the export) is a parameter `string -> Option<Json>`.
- **Stored JSON columns.** A column is a `Blob`: the value `json.dumps` wrote, or text `json.loads` rejects.
- **Clock and filesystem values.** The clock (`now`, the statistics cutoff, the export timestamp) and the exports directory are parameters.
- **Exception text.** The text of an exception, as an f-string renders it, is a parameter `PyError -> string`.

Where the prose description of the system and the code differ, the model follows the code:
- The remote projection reads `billing` with `order_data.get('billing', {})` and no `or {}`. A payload whose billing is present but null therefore raises there, which makes `sync_order` return False. The local projection reads such a billing as `{}`.
- The remote statistics slice `order['date_created'][:10]` without checking the date, while the local statistics skip rows without a date. The remote query's `.gte('date_created', date_from)` filter already drops rows whose date is null, so the slice could raise only on rows handed to the loop directly. Over the rows the query returns, `{}` comes only from no rows or an unhashable status (`Supabase.WindowStatsFail`).
- The remote fingerprint leaves a missing field out of the hashed map, while the local one hashes it as null. `Supabase.FingerprintsAgree` states exactly when the two agree.

## Model

| member | source | states |
|---|---|---|
| DbRecord.HashData | database_manager.py:67-69 | the hashed map has exactly the four fields status, total, date_modified and line_items |
| DbRecord.HashOnlySignificant | database_manager.py:67-69 | two payloads that agree on the four fields, a missing field counting as null, get the same fingerprint whatever else they hold |
| DbRecord.HashMissingIsNull | database_manager.py:69 | a missing significant field hashes exactly like an explicit null |
| DbRecord.HashSensitive | database_manager.py:67-69 | with an injective hasher, any change to one of the four fields changes the fingerprint |
| DbRecord.ExtractSucceeds | database_manager.py:71-72 | the projection fails exactly when a total is not a number float() accepts or billing is truthy but not a dict |
| DbRecord.ExtractFields | database_manager.py:72 | a field the payload has reaches the row unchanged: id, number, status, currency, customer id, payment fields and dates as given, the item lists and a dict shipping block as their JSON, a numeric total as that number, a dict billing block whole with its email as the customer email and its text names joined and stripped as the customer name |
| DbRecord.ExtractDefaults | database_manager.py:72 | the row keeps the payload's id, the fingerprint and the whole payload; number, status and payment fields default to '', currency to 'EUR', totals to 0, billing and shipping to {}, item lists to [], dates to null; a falsy billing gives an empty email and name |
| DbRecord.FullNameJoins | database_manager.py:72 | the customer name is first + " " + last for two plain names, and the first name alone when the last is empty |
| DbSync.Snapshot | database_manager.py:47-48 | the snapshot has exactly the stored woo_ids as keys |
| DbSync.Prepare | database_manager.py:50-52 | each payload's id, fingerprint and projected row, the row carrying that id and fingerprint |
| DbSync.PrepareAll | database_manager.py:49-51 | one prepared payload per payload, in batch order |
| DbSync.Decide | database_manager.py:52-56 | an id missing from the snapshot is an insert, a stored id with a different fingerprint an update, an equal fingerprint a skip; a write is only decided for an int id, a projection that succeeded and a bindable row |
| DbSync.PlanShape | database_manager.py:49-56 | a loop that completes met no failing payload and built exactly the reference insert and update lists, in batch order |
| DbSync.PlanAllSkip | database_manager.py:49-56 | when every payload is unchanged, both lists are empty |
| DbSync.PlanFails | database_manager.py:49-56 | a failing payload anywhere in the batch fails the whole loop |
| DbSync.WritesFrom | database_manager.py:53-56 | every queued entry is the decision of some payload of the batch |
| DbSync.WritesHas | database_manager.py:53-56 | every payload decided as an insert or update has its entry in the matching list |
| DbSync.WritesTwice | database_manager.py:53-54 | two payloads inserting one key give two entries for that key in the insert list |
| DbSync.PutKeys | database_manager.py:58-60 | after the writes the table holds the old keys plus the written ones |
| DbSync.InsertsResult | database_manager.py:58 | executemany(INSERT) succeeds exactly when its keys are pairwise distinct and not yet stored (UNIQUE), and then adds exactly its rows |
| DbSync.UpdatesResult | database_manager.py:60 | updates of stored keys overwrite the rows under those keys |
| DbSync.PutConcat | database_manager.py:58-60 | writing two lists of rows one after the other equals writing them as one list |
| DbSync.PutAbsent | database_manager.py:60 | a key that no write names keeps its row, or stays absent |
| DbSync.PutOnly | database_manager.py:60 | a key whose writes all carry one row ends up holding that row |
| DbSync.PutValid | database_manager.py:24 | writing bindable rows under their own woo_id keeps every row under its own woo_id |
| DbSync.SyncOne | database_manager.py:38-39 | sync_order of one payload inserts or updates exactly that payload's row and counts it; an unchanged or failing payload changes nothing |
| DbSync.SyncResult | database_manager.py:57-65 | a committed call writes all inserts and then all updates and returns their counts; otherwise the table is unchanged and (0, 0) is returned |
| DbSync.AllWritesFrom | database_manager.py:53-60 | every write of a call is some payload's insert or update under that payload's id |
| DbSync.FailingAborts | database_manager.py:63-65 | one failing payload rolls back the whole batch and returns (0, 0) |
| DbSync.BadTotalAborts | database_manager.py:72 | a payload whose total float() rejects rolls back the whole batch |
| DbSync.MissingIdAborts | database_manager.py:24 | a payload with no id, or a null one, violates NOT NULL and rolls back the whole batch |
| DbSync.DuplicateNewIdAborts | database_manager.py:24 | two payloads with the same new id violate UNIQUE: nothing is written and (0, 0) is returned |
| DbSync.Untouched | database_manager.py:55-60 | a row the batch does not name, or names only with its stored fingerprint, is left exactly as it was |
| DbSync.CommittedHashes | database_manager.py:47-62 | after a committed call with distinct ids, every payload's id holds a row with that payload's fingerprint |
| DbSync.SyncIdempotent | database_manager.py:47-62 | a second call with the same batch, after a committed one with distinct ids, returns (0, 0) and changes nothing |
| DbSync.SyncGrowth | database_manager.py:62 | a committed call grows the table by exactly the insert count it returns |
| DbSync.FreshGrowth | database_manager.py:58 | inserting fresh keys adds one row per insert |
| DbSync.SyncValid | database_manager.py:24 | every call keeps each row under its own woo_id with bindable cells |
| Database.InsertsStayFailed | database_manager.py:58 | once a prefix of the inserts fails, the whole executemany fails |
| Database.PlanWrites | database_manager.py:49-56 | the loop queues exactly the plan of the batch specification, or reports the failure that aborts it |
| Database.ExecuteInserts | database_manager.py:58 | the row-by-row inserts give the inserts specification |
| Database.ExecuteUpdates | database_manager.py:60 | the row-by-row updates give the updates specification |
| Database.DatabaseManager.constructor | database_manager.py:13-16 | a new manager starts from the rows the database file already holds |
| Database.DatabaseManager.SyncMultipleOrders | database_manager.py:41-65 | the new table and the returned counts are those of the batch specification; the table stays valid |
| Database.DatabaseManager.SyncOrder | database_manager.py:38-39 | the new table is that of a batch of one payload |
| DbQuery.LimitCount | database_manager.py:86 | a positive limit keeps min(limit, n) rows; zero or a negative limit keeps all |
| DbQuery.SqlLeTotal | database_manager.py:85 | SQLite's ordering of date_created values is total |
| DbQuery.SqlLeTrans | database_manager.py:85 | SQLite's ordering of date_created values is transitive |
| DbQuery.InsertByDate | database_manager.py:85 | placing one more key keeps all keys and adds exactly that one |
| DbQuery.InsertByDateSorted | database_manager.py:85 | placing a key in a newest-first list keeps it newest first |
| DbQuery.SortByDate | database_manager.py:85 | ORDER BY date_created DESC is a permutation of the keys, newest first |
| DbQuery.OrderAndLimit | database_manager.py:85-86 | ORDER BY plus LIMIT keeps as many keys as the limit allows, all from the input, each once, newest first |
| DbQuery.LimitDropsOnlyOlder | database_manager.py:85-86 | a matching row is left out only when the limit is set and reached, and then it is no newer than any row kept |
| DbQuery.DecodeSynced | database_manager.py:92-98 | a synced row decodes back to the payload: raw data, billing and shipping (null or empty read as {}), line items |
| Database.DecodeRows | database_manager.py:90-99 | one decoded view per fetched row, in fetch order |
| Database.DatabaseManager.GetOrders | database_manager.py:74-102 | the decoded rows that match every set filter (a search term is looked for in the text SQLite gives each searched cell, numbers included), each once, newest first, at most limit; a matching row is left out only by a reached limit and is then no newer than any row returned |
| DbQuery.NumericNumberFound | database_manager.py:80-81 | an order stored with the number 123 matches the search term "12": LIKE reads a numeric cell as its decimal text |
| DbQuery.StatsFoldFails | database_manager.py:123-127 | the counting loop raises exactly when some row has an unhashable status or a truthy date that cannot be sliced |
| DbQuery.StatsFoldCounts | database_manager.py:123-132 | the per-status and per-day counters hold, whatever the fetch order, the number of rows per status and per day; their sums are the row count and the dated-row count; no key occurs twice |
| DbQuery.StatsProperties | database_manager.py:117-134 | no rows give zero statistics; {} exactly when the loop raises; otherwise total_orders is the row count and the sum of the per-status counts, and top_products has at most five entries in non-increasing order |
| DbQuery.TopProductsLargest | database_manager.py:128-133 | the five products kept come from the product totals, none left out sold more than one kept, and each kept product carries the total quantity ordered under its name over all rows |
| DbQuery.RevenueAppend | database_manager.py:119 | the revenue of two row lists together is the sum of their revenues |
| DbQuery.RevenueSkipsNull | database_manager.py:119 | a row with a null total adds nothing to the revenue, wherever it sits |
| DbQuery.AddLineItemsDistinct | database_manager.py:128-132 | adding one order's line items never makes a product name occur twice |
| Database.CountLineItems | database_manager.py:128-132 | the item loop gives the product totals of the specification, up to the first item that raises |
| DbQuery.CountedPrefix | database_manager.py:130-132 | the loop gets through exactly the leading items that are dicts with a hashable name and a numeric quantity, and stops at the first that is not |
| DbQuery.AddItemsValue | database_manager.py:130-132 | the item loop adds to every product name exactly the summed quantities of the items it gets through that carry that name (or 'Sconosciuto' when unnamed); a name it only touches keeps its value |
| DbQuery.AddLineItemsValue | database_manager.py:128-132 | the same for one stored line_items value: a value that does not decode or cannot be iterated adds nothing |
| DbQuery.ProductTotals | database_manager.py:122-132 | after the loop, top_products holds for every name the total quantity ordered under it over all rows |
| Tables.Scan | database_manager.py:115-116 | the fetched keys are exactly those whose rows pass the WHERE clause, each once |
| Tables.RowsAt | database_manager.py:116 | the fetched rows are those of the fetched keys, in order |
| Database.DatabaseManager.GetOrderStats | database_manager.py:104-137 | the statistics of exactly the rows in the date window, each once, in fetch order |
| Tally.SameKeyEquivalence | database_manager.py:124 | Python's dict key equality is reflexive, symmetric and transitive |
| Tally.ValueSameKey | database_manager.py:124 | keys Python treats as equal look up the same count |
| Tally.Bump | database_manager.py:124 | d[k] += n keeps every key in its place and appends a new key with n |
| Tally.BumpValue | database_manager.py:124 | after d[k] += n, k's count grew by n and every other key's count is unchanged |
| Tally.BumpDistinct | database_manager.py:124 | d[k] += n never makes a key occur twice |
| Tally.BumpTotal | database_manager.py:124 | d[k] += n grows the sum of the counts by exactly n |
| Tally.TouchKeepsValues | database_manager.py:131 | reading a defaultdict inserts the key and changes no count |
| Tally.Insert | database_manager.py:133 | placing one entry keeps all entries and adds that one |
| Tally.InsertSorted | database_manager.py:133 | placing an entry keeps a list in non-increasing order |
| Tally.SortDesc | database_manager.py:133 | sorted(..., reverse=True) is a permutation in non-increasing order of value |
| Tally.SortStable | database_manager.py:133 | the sort is stable: the entries of any one value come out in their dict order, which decides which tied products make the top five |
| Tally.TopLargest | database_manager.py:133 | the cut keeps min(n, size) entries, all from the dict, in non-increasing order, and none left out is larger than one kept |
| PyJson.TrimStart | database_manager.py:72 | lstrip drops exactly the leading whitespace |
| PyJson.TrimEnd | database_manager.py:72 | rstrip drops exactly the trailing whitespace |
| PyJson.Strip | database_manager.py:72 | strip returns a slice that neither starts nor ends with whitespace, with only whitespace cut off on either side |
| PyJson.StripKeeps | database_manager.py:72 | a string that neither starts nor ends with whitespace is its own strip |
| PyJson.NatStrParse | database_manager.py:72 | float() of the text of a natural number is that number |
| PyJson.ParseFloatPlain | database_manager.py:72 | float() of a string with no surrounding whitespace and no sign parses it as an unsigned number |
| PyJson.Lower | export_manager.py:36 | lower() maps each character and keeps the length |
| PyJson.Unescape | export_manager.py:41 | replace('\\"', '"') never lengthens the text |
| PyJson.UnescapeWithoutBackslash | export_manager.py:41 | text without backslashes is left unchanged |
| PyJson.LexLeTotal | supabase_manager.py:287 | code-point order of strings is total |
| PyJson.LexLeTrans | supabase_manager.py:287 | code-point order of strings is transitive |
| Supabase.HashData | supabase_manager.py:186-189 | the hashed map has exactly the tracked fields that the payload has |
| Supabase.HashOnlyTracked | supabase_manager.py:178-192 | payloads that agree on which tracked fields they have, and on their values, get the same fingerprint |
| Supabase.HashSensitive | supabase_manager.py:178-192 | with an injective hasher, adding, removing or changing a tracked field changes the fingerprint |
| Supabase.StatusChangesHash | test_suite.py:126-146 | a new status gives a new fingerprint |
| Supabase.FingerprintsAgree | supabase_manager.py:181-189 | the local and remote fingerprints agree exactly when the payload has all four local fields and neither shipping_lines nor payment_method |
| Supabase.SupabaseManager.CalculateOrderHash | supabase_manager.py:178-192 | the loop over the tracked fields computes the fingerprint of the specification |
| Supabase.ExtractSucceeds | supabase_manager.py:194-221 | the projection fails exactly when the id is missing, a total is not a number float() accepts, or billing is present but not a dict |
| Supabase.ExtractDefaults | supabase_manager.py:199-220 | the record keeps the payload's id, number, billing email and name, the fingerprint and the whole payload; text fields default to '', currency to 'EUR', totals to 0, item lists to [], dates to null |
| Supabase.ExtractExample | test_suite.py:148-171 | order 123 with number ORD-123 and billing for Mario Rossi projects to woo_id 123, ORD-123, test@example.com, "Mario Rossi" and the given hash |
| Supabase.WriteOrderEffect | supabase_manager.py:154-166 | an absent id is inserted, a changed fingerprint replaces the record stamped with updated_at, an equal one writes nothing; no other id is touched |
| Supabase.WriteOrderIdempotent | supabase_manager.py:154-166 | writing the same record again writes nothing |
| Supabase.UpsertEffect | supabase_manager.py:223-252 | the upsert happens exactly when customer_id, a billing dict and its email are truthy; it then stores the email and names under the customer id and touches no other customer |
| Supabase.SupabaseManager.constructor | supabase_manager.py:22-47 | a manager holds the connection outcome and the two remote tables, each record under its own woo_id |
| Supabase.SupabaseManager.SyncOrder | supabase_manager.py:140-176 | False without a connection or when the projection raises, with no table touched; otherwise True, the order written and the customer upserted; both tables stay keyed by woo_id |
| Supabase.SupabaseManager.SyncCustomerFromOrder | supabase_manager.py:223-252 | the customers table after the upsert, still keyed by woo_id; the orders table unchanged |
| Supabase.StatsFoldFails | supabase_manager.py:302-309 | the loop raises exactly when some row has an unhashable status or a date that cannot be sliced |
| Supabase.StatsFoldCounts | supabase_manager.py:302-309 | the counters hold the number of rows per status and per day, each summing to the row count, no key twice |
| Supabase.StatsProperties | supabase_manager.py:289-315 | {} for no rows and exactly when the loop raises; otherwise total_orders is the row count and the sum of the per-status counts, and period_days is days |
| Supabase.WindowStatsFail | supabase_manager.py:287-311 | over the rows the date filter returns, {} comes only from no rows or an unhashable status, never from the date slice |
| Supabase.SupabaseManager.GetOrderStats | supabase_manager.py:279-315 | {} without a connection; otherwise the statistics of exactly the rows dated at or after date_from |
| Export.ItemOutcomeCases | export_manager.py:35-45 | an item with another key or a falsy value is passed over; a list is returned as it is, a dict wrapped in a list, undecodable text as the Info entry, parsed text that is neither list nor dict passed over |
| Export.SearchFindsFirst | export_manager.py:35-46 | the search returns the outcome of the first item that is not passed over, or [] when every item is |
| Export.NoTravelerItems | export_manager.py:33-46 | a payload without meta_data gives [] |
| Export.LabelsSpec | export_manager.py:90 | labels exist exactly when every line item is a dict, one per item in order |
| Export.LabelExamples | export_manager.py:90 | an empty item is labelled "N/A (x0)" and a named one "name (x2)" |
| Export.JoinAppend | export_manager.py:90 | the join puts exactly one "; " between consecutive labels |
| Export.TravelerRowsSpec | export_manager.py:94-97 | one row per traveler, in order, each the common columns with the five traveler columns set from the traveler's nome, cognome, email, telefono and partenza ('' when absent); AttributeError when a traveler is not a dict |
| Export.OrderRowsCount | export_manager.py:93-101 | an order yields one row per traveler, or exactly one row with blank traveler fields |
| Export.ExportRowsAppend | export_manager.py:87-101 | the export holds the rows of each order back to back, so its size is the sum of theirs |
| Export.ExportRowsAtLeastOrders | export_manager.py:87-101 | every order gives at least one row |
| Export.ExportOutcomeSpec | export_manager.py:75-115 | success exactly when there are orders and no row raises, with total_records the number of rows; no orders give the no-orders message; an error gives the error prefix with its text |
| Export.ExportManager.constructor | export_manager.py:23-26 | the manager holds the database, the exports directory and the decoder |
| Export.ExportManager.BuildRows | export_manager.py:86-101 | the loop builds exactly the rows of the export specification, or its first error |
| Export.ExportManager.AppendTravelers | export_manager.py:94-97 | the inner loop builds exactly the traveler rows of the specification |
| Export.ExportManager.ExportRowsStayFailed | export_manager.py:112-115 | once a prefix of the orders raises, the export fails with that error |
| Export.ExportManager.ExportOrdersCsv | export_manager.py:63-115 | the result is the outcome of the specification over the orders get_orders returns for the filters: each matching order once, newest first; a positive limit is the only reason a matching order is left out, and then it is no newer than any exported; with no filters every stored order is exported |
| Gui.ProcessValueNonEmpty | gui_components.py:173-181 | process_value never yields an empty list, and yields nothing for a falsy value |
| Gui.SearchListFindsFirst | gui_components.py:184-191 | the search returns the list of the first item that yields one, and [] exactly when every item is passed over |
| Gui.ItemOutcomesAgree | gui_components.py:173-189 | an item the export passes over is passed over here; errors are the same; a list other than [] and [{}] is the same |
| Gui.SearchesAgree | gui_components.py:184-191 | the two searches agree unless the export's returns [] or [{}] |
| Gui.ExtractionsAgree | gui_components.py:165-191 | the two extractions agree unless the export's returns [] or [{}] |
| Gui.SearchesDiffer | gui_components.py:177-189 | text that parses to an empty list ends the export's search with [], while this search goes on to a later item |
| Gui.ExtraFieldsPartition | gui_components.py:158 | the extra fields are exactly the fields other than nome, cognome, email, telefono and partenza, with their values; with the named ones they make up the whole traveler |
| Settings.AssignEffect | config.py:45-47 | set fails exactly when the section exists and is not a dict; otherwise it creates a missing section, sets the key, and leaves every other section and key as it was |
| Settings.GetAfterSet | test_suite.py:45-54 | after set(s, k, v), get(s, k) returns v for any default |
| Settings.SetLeavesOthers | config.py:43-47 | set leaves what get returns for every other key and section unchanged |
| Settings.LookupDefaults | config.py:44 | get returns the default when the section or key is missing, and the whole section, or the default, when no key is given |
| Settings.EncryptedDefault | config.py:50-52 | an empty or missing stored value gives the default and is never decrypted |
| Settings.DefaultValues | config.py:20-23 | a fresh configuration has empty connection settings, a 60-second interval, 100 orders per page and first_run set |
| Settings.Config.constructor | config.py:35-40 | the settings are the stored file's, or the defaults when there is none |
| Settings.Config.Set | config.py:45-47 | the new settings are those of the assignment; a failed assignment raises TypeError and changes nothing |

## Left out

- Threading: the locks only serialise calls, so every call is modelled as running alone.
- Storage engines: SQL text, SQLite type affinity and the AUTOINCREMENT surrogate id are not modelled. A cell holds the Python value bound to it; LIKE still reads a numeric cell by its text (`DbQuery.LikeText`). Both stores are maps keyed by `woo_id`.
- LIKE: it is modelled as an ASCII case-insensitive substring test on the cell's text. Wildcard characters inside a search term and non-ASCII case folding are not modelled.
- DbQuery.LikeCell: a REAL cell is searched by its text only when its value is integral and below 10**15 in magnitude, where SQLite's "%!.15g" rendering is the integer followed by ".0". The model does not render any other REAL value, so such a cell never matches a search.
- Ids: an id that is a bool, float or string fails the batch in the model. SQLite could coerce some of these to an integer key.
- Remote table constraints: the constraints of the remote `CREATE TABLE` statements are not modelled. The code never executes those statements, so the remote tables are plain maps. The remote date filter `.gte('date_created', date_from)` is modelled as code-point string order (`Supabase.InWindow`), not as the TIMESTAMP comparison the declared column type gives; the two agree for ISO-8601 texts of the same layout.
- `get_orders` on the remote store, `backup_data`, `log_export`, `test_connection`, `initialize` and `_ensure_tables` are outside the modelled core.
- Hashing: MD5 and the byte format of `json.dumps` are an uninterpreted function.
- `float()`: it is modelled for decimal text with an optional exponent. `inf`, `nan` and underscores in digits are not accepted. `float()` of the text of a negative int is not proved to give that int.
- `str()`: it is exact for None, booleans, ints, strings, integral floats below 10**16 and empty containers. Other floats, lists and dicts get a fixed stand-in. Three texts are therefore exact only for those values: the Info entry of the traveler search, `customer_name`, which an f-string builds from the billing names (database_manager.py:72, supabase_manager.py:209), and the `Prodotti` labels, whose quantity may be a float such as 1.5 (export_manager.py:90).
- Counters: they hold reals, so the difference between an int and a float sum is not kept. Revenue is a real sum.
- Clock: `datetime.now()` and the formatting of the cutoff and the export timestamp are parameters.
- Fetch order: the scan hands out the selected rows in an unspecified order. The statistics are proved for every order; the ones that depend on the order (the dict order of counters, ties in the top five) are stated over the order given.
- Network failures: a failing remote call is not modelled; the remote store is always reachable once connected. `updated_at` on insert is left to the remote table.
- Exception messages: they are abstracted by a parameter that turns an error into text.
- File I/O: writing the CSV file, loading and saving the configuration file, Fernet encryption and decryption (only the branch that returns the default is modelled), the scheduler, the WooCommerce client and all UI code are not modelled.
- Settings defaults: `default_config.copy()` is shallow, so a later `set` also changes the default dict's sections. The model keeps the defaults as a constant. A configuration file whose top level is not a dict is not modelled.
- Supabase.ExtractExample: the worked example leaves out the test's total of '100.00' and states a total of 0, because parsing a literal decimal inside this example is too costly to prove. `float('100.00')` is covered by `ParseFloat`, but the example does not state it.
- Gui.ExtractionsAgree: the two traveler searches are proved to agree only when the export's result is neither [] nor [{}]. Where it is one of those two, they really do differ, as `Gui.SearchesDiffer` shows.
- PyJson.Lower: it folds A-Z only. This decides membership among the five traveler key names exactly for ASCII keys; non-ASCII case mappings are not modelled.
