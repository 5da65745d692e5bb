/** What every table read of the core has in common: a scan that hands out
    the keys of the rows a WHERE clause accepts. */
module Tables {

  /** The table scan of a SELECT with a WHERE clause: every key whose row
      passes, each once, in whatever order the scan meets them. */
  method Scan<K(==), V>(table: map<K, V>, pass: V -> bool) returns (keys: seq<K>)
    ensures forall k :: k in keys <==> k in table && pass(table[k])
    ensures forall i :: 0 <= i < |keys| ==> keys[i] in table
    ensures forall k :: multiset(keys)[k] <= 1
  {
    keys := [];
    var rest := table.Keys;
    while rest != {}
      invariant rest <= table.Keys
      invariant forall k :: k in keys <==> k in table && k !in rest && pass(table[k])
      invariant forall i :: 0 <= i < |keys| ==> keys[i] in table
      invariant forall k :: multiset(keys)[k] <= 1
      decreases |rest|
    {
      if forall y :: y !in rest {
        assert false;
      }
      var k :| k in rest;
      if pass(table[k]) {
        keys := keys + [k];
      }
      rest := rest - {k};
    }
  }

  /** The rows of the given keys, in that order. */
  function RowsAt<K, V>(table: map<K, V>, keys: seq<K>): (rows: seq<V>)
    requires forall i :: 0 <= i < |keys| ==> keys[i] in table
    ensures |rows| == |keys|
    ensures forall i :: 0 <= i < |keys| ==> rows[i] == table[keys[i]]
  {
    seq(|keys|, i requires 0 <= i < |keys| => table[keys[i]])
  }
}
