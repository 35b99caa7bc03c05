/**
 * Mapping the language model's parsed JSON answer onto ticket-information
 * fields. The parsed object is a map from its keys to their values (`null`
 * among them); a key the object lacks is `undefined`. The result is the
 * partial record, keyed by state key.
 */
module ExtractionMapper {
  import opened Wrappers
  import opened HearingItems

  /** The loop as a fold: each item whose lookup key is present writes its state key. */
  function MapFold<V>(parsed: map<string, V>, items: seq<HearingItemDefinition>): map<string, V> {
    if items == [] then map[]
    else
      var it := items[|items| - 1];
      var m := MapFold(parsed, items[..|items| - 1]);
      if LookupKey(it) in parsed then m[it.field.stateKey := parsed[LookupKey(it)]] else m
  }

  /** `mapJsonToTicketInfo`. */
  method MapJsonToTicketInfo<V>(parsed: map<string, V>, items: seq<HearingItemDefinition>) returns (result: map<string, V>)
    ensures result == MapFold(parsed, items)
  {
    result := map[];
    for i := 0 to |items|
      invariant result == MapFold(parsed, items[..i])
    {
      var it := items[i];
      assert items[..i + 1][..i] == items[..i];
      var key := LookupKey(it);
      if key in parsed {
        result := result[it.field.stateKey := parsed[key]];
      }
    }
    assert items[..|items|] == items;
  }

  /** Item `i` is the last one that writes state key `k`. */
  predicate LastWriter<V>(parsed: map<string, V>, items: seq<HearingItemDefinition>, k: string, i: int) {
    0 <= i < |items| && items[i].field.stateKey == k && LookupKey(items[i]) in parsed
    && forall j :: i < j < |items| && items[j].field.stateKey == k ==> LookupKey(items[j]) !in parsed
  }

  /**
   * A state key is in the result exactly when some item with that key finds
   * its lookup key in the parsed object, and then it holds the value the
   * last such item found: nothing else leaks in, and later items win.
   */
  lemma {:induction false} MapFoldContent<V>(parsed: map<string, V>, items: seq<HearingItemDefinition>, k: string)
    ensures k in MapFold(parsed, items) <==>
      exists i :: 0 <= i < |items| && items[i].field.stateKey == k && LookupKey(items[i]) in parsed
    ensures k in MapFold(parsed, items) ==>
      exists i :: LastWriter(parsed, items, k, i) && MapFold(parsed, items)[k] == parsed[LookupKey(items[i])]
  {
    if items != [] {
      var n := |items| - 1;
      var u := items[..n];
      var it := items[n];
      MapFoldContent(parsed, u, k);
      assert forall i :: 0 <= i < n ==> u[i] == items[i];
      if it.field.stateKey == k && LookupKey(it) in parsed {
        assert LastWriter(parsed, items, k, n);
      } else if k in MapFold(parsed, u) {
        var i :| LastWriter(parsed, u, k, i) && MapFold(parsed, u)[k] == parsed[LookupKey(u[i])];
        assert LastWriter(parsed, items, k, i);
      }
    }
  }

  /**
   * Over the hearing table, whose llmKeys are its state keys, the result is
   * the parsed object cut down to the table's keys.
   */
  lemma {:induction false} MapOverHearingTable<V>(parsed: map<string, V>, k: string)
    ensures k in MapFold(parsed, HearingItems.HearingItems) <==>
      k in parsed && exists i :: 0 <= i < |HearingItems.HearingItems| && HearingItems.HearingItems[i].field.stateKey == k
    ensures k in MapFold(parsed, HearingItems.HearingItems) ==> MapFold(parsed, HearingItems.HearingItems)[k] == parsed[k]
  {
    HearingTable();
    MapFoldContent(parsed, HearingItems.HearingItems, k);
    if k in MapFold(parsed, HearingItems.HearingItems) {
      var i :| LastWriter(parsed, HearingItems.HearingItems, k, i) && MapFold(parsed, HearingItems.HearingItems)[k] == parsed[LookupKey(HearingItems.HearingItems[i])];
      assert LookupKey(HearingItems.HearingItems[i]) == k;
    }
  }
}
