/** The order detail window's own traveler search, which differs from the
    export's by passing over empty results, and the split of a traveler's
    fields into the named ones and the others. */
module Gui {
  import opened PyJson
  import Export

  /** process_value: None for a falsy value and for parsed data that is an
      empty or non-container value; a non-empty list as it is, a non-empty
      dict wrapped in a list, text json.loads rejects as the Info entry. */
  function ProcessValue(value: Json, decode: string -> Option<Json>): Option<seq<Json>> {
    if !Truthy(value) then None
    else match Export.Parsed(value, decode)
      case None => Some(Export.InfoEntry(value))
      case Some(data) =>
        if data.JArr? && data.items != [] then Some(data.items)
        else if data.JObj? && data.fields != map[] then Some([data])
        else None
  }

  /** What one meta_data item contributes to the search. */
  function ItemOutcome(item: Json, decode: string -> Option<Json>): Result<Option<seq<Json>>> {
    var candidate :- Export.IsTravelerItem(item);
    if !candidate then Ok(None)
    else Ok(ProcessValue(Get(item.fields, "value", JNull), decode))
  }

  function SearchList(items: seq<Json>, decode: string -> Option<Json>): Result<seq<Json>> {
    if items == [] then Ok([])
    else
      var outcome :- ItemOutcome(items[0], decode);
      match outcome
      case Some(travelers) => Ok(travelers)
      case None => SearchList(items[1..], decode)
  }

  /** _extract_traveler_data_as_list on the decoded raw_data. */
  function ExtractTravelerDataAsList(raw: Json, decode: string -> Option<Json>): Result<seq<Json>> {
    if !raw.JObj? then Err(AttributeError)
    else
      var items :- GetLoopItems(Get(raw.fields, "meta_data", JArr([])));
      SearchList(items, decode)
  }

  /** Whatever an item yields is non-empty. */
  lemma ProcessValueNonEmpty(value: Json, decode: string -> Option<Json>)
    ensures ProcessValue(value, decode).Some? ==> ProcessValue(value, decode).value != []
    ensures !Truthy(value) ==> ProcessValue(value, decode).None?
  {
  }

  /** The search returns the list of the first item that yields one, and []
      exactly when every item is passed over. */
  lemma {:induction false} SearchListFindsFirst(items: seq<Json>, decode: string -> Option<Json>) returns (i: nat)
    ensures i <= |items|
    ensures forall j :: 0 <= j < i ==> ItemOutcome(items[j], decode) == Ok(None)
    ensures i == |items| <==> SearchList(items, decode) == Ok([])
    ensures i < |items| && ItemOutcome(items[i], decode).Err? ==>
      SearchList(items, decode) == Err(ItemOutcome(items[i], decode).error)
    ensures i < |items| && ItemOutcome(items[i], decode).Ok? ==>
      ItemOutcome(items[i], decode).value.Some? &&
      SearchList(items, decode) == Ok(ItemOutcome(items[i], decode).value.value)
    decreases |items|
  {
    if items == [] {
      return 0;
    }
    var outcome := ItemOutcome(items[0], decode);
    if outcome != Ok(None) {
      if outcome.Ok? {
        ProcessValueNonEmpty(Get(items[0].fields, "value", JNull), decode);
      }
      return 0;
    }
    var k := SearchListFindsFirst(items[1..], decode);
    i := k + 1;
    forall j | 0 <= j < i
      ensures ItemOutcome(items[j], decode) == Ok(None)
    {
      if j > 0 {
        assert items[j] == items[1..][j - 1];
      }
    }
  }

  /** An item the export's search passes over is passed over here too; one
      that gives the export a list other than [] and [{}] gives the same
      list here; the errors are the same. */
  lemma ItemOutcomesAgree(item: Json, decode: string -> Option<Json>)
    ensures Export.ItemOutcome(item, decode) == Ok(None) ==> ItemOutcome(item, decode) == Ok(None)
    ensures Export.ItemOutcome(item, decode).Err? ==> ItemOutcome(item, decode) == Export.ItemOutcome(item, decode)
    ensures Export.ItemOutcome(item, decode).Ok? && Export.ItemOutcome(item, decode).value.Some? ==>
      var ts := Export.ItemOutcome(item, decode).value.value;
      ts != [] && ts != [JObj(map[])] ==> ItemOutcome(item, decode) == Export.ItemOutcome(item, decode)
  {
  }

  /** The two searches agree whenever the export's raises or finds
      travelers other than [] and [{}]; they can differ only where the
      export returns one of those two. */
  lemma {:induction false} SearchesAgree(items: seq<Json>, decode: string -> Option<Json>)
    ensures Export.SearchTravelers(items, decode).Err? ==> SearchList(items, decode) == Export.SearchTravelers(items, decode)
    ensures Export.SearchTravelers(items, decode).Ok? ==>
      var ts := Export.SearchTravelers(items, decode).value;
      ts != [] && ts != [JObj(map[])] ==> SearchList(items, decode) == Export.SearchTravelers(items, decode)
    decreases |items|
  {
    if items != [] {
      ItemOutcomesAgree(items[0], decode);
      SearchesAgree(items[1..], decode);
    }
  }

  lemma ExtractionsAgree(raw: Json, decode: string -> Option<Json>)
    ensures Export.ExtractTravelerData(raw, decode).Err? ==>
      ExtractTravelerDataAsList(raw, decode) == Export.ExtractTravelerData(raw, decode)
    ensures Export.ExtractTravelerData(raw, decode).Ok? ==>
      var ts := Export.ExtractTravelerData(raw, decode).value;
      ts != [] && ts != [JObj(map[])] ==> ExtractTravelerDataAsList(raw, decode) == Export.ExtractTravelerData(raw, decode)
  {
    if raw.JObj? {
      var items := GetLoopItems(Get(raw.fields, "meta_data", JArr([])));
      if items.Ok? {
        SearchesAgree(items.value, decode);
      }
    }
  }

  /** Where they differ: text that parses to an empty list ends the
      export's search with [], while this search goes on to a later item. */
  lemma SearchesDiffer(key: string, text: string, later: seq<Json>, decode: string -> Option<Json>)
    requires Lower(key) in Export.TravelerKeys
    requires text != [] && decode(Unescape(text)) == Some(JArr([])) && later != []
    ensures var items := [JObj(map["key" := JStr(key), "value" := JStr(text)]),
                          JObj(map["key" := JStr(key), "value" := JArr(later)])];
      && Export.SearchTravelers(items, decode) == Ok([])
      && SearchList(items, decode) == Ok(later)
  {
    var first := map["key" := JStr(key), "value" := JStr(text)];
    var second := map["key" := JStr(key), "value" := JArr(later)];
    var items := [JObj(first), JObj(second)];
    assert Get(first, "key", JStr("")) == JStr(key) && Get(first, "value", JNull) == JStr(text);
    assert Get(second, "key", JStr("")) == JStr(key) && Get(second, "value", JNull) == JArr(later);
    assert Export.ItemOutcome(items[0], decode) == Ok(Some([]));
    assert ItemOutcome(items[0], decode) == Ok(None);
    assert ItemOutcome(items[1], decode) == Ok(Some(later));
    assert items[1..] == [JObj(second)];
  }

  // ---------------------------------------------------------------- traveler fields

  /** The fields the window shows under their own labels. */
  const NamedFields: set<string> := {"nome", "cognome", "email", "telefono", "partenza"}

  /** altri_dati: the traveler's remaining fields. */
  function ExtraFields(traveler: map<string, Json>): map<string, Json>
  {
    map k | k in traveler && k !in NamedFields :: traveler[k]
  }

  /** The extra fields are exactly the traveler's fields other than the five
      named ones, with their values; with the named ones they make up the
      whole traveler. */
  lemma ExtraFieldsPartition(traveler: map<string, Json>)
    ensures forall k :: k in ExtraFields(traveler) <==> k in traveler && k !in NamedFields
    ensures forall k :: k in ExtraFields(traveler) ==> ExtraFields(traveler)[k] == traveler[k]
    ensures ExtraFields(traveler) + (map k | k in traveler && k in NamedFields :: traveler[k]) == traveler
  {
    var named := map k | k in traveler && k in NamedFields :: traveler[k];
    assert ExtraFields(traveler) + named == traveler;
  }
}
