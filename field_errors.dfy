/**
 * The server's validation errors, a `Record<string, string[]>`. The record is kept as the list of
 * its own properties in the order `Object.entries` enumerates them, because the error banner
 * renders them in that order.
 */
module FieldErrors {
  import opened Wrappers

  datatype ErrorEntry = ErrorEntry(key: string, messages: seq<string>)

  type ErrorRecord = seq<ErrorEntry>

  /** The keys of a JavaScript object are distinct. */
  predicate WellFormed(r: ErrorRecord)
  {
    forall i, j :: 0 <= i < j < |r| ==> r[i].key != r[j].key
  }

  /** `r[key]`: the messages under `key`, or None when the property is absent. */
  function Lookup(r: ErrorRecord, key: string): (m: Option<seq<string>>)
    ensures m.Some? <==> exists i :: 0 <= i < |r| && r[i].key == key
    ensures m.Some? ==> exists i :: 0 <= i < |r| && r[i].key == key && r[i].messages == m.value
  {
    if r == [] then None
    else if r[0].key == key then Some(r[0].messages)
    else
      var rest := Lookup(r[1..], key);
      assert forall i :: 0 <= i < |r| - 1 ==> r[1..][i] == r[i + 1];
      rest
  }

  /** In a well-formed record every entry is what a lookup of its key returns. */
  lemma {:induction false} LookupEntry(r: ErrorRecord, i: int)
    requires WellFormed(r) && 0 <= i < |r|
    ensures Lookup(r, r[i].key) == Some(r[i].messages)
  {
    if i > 0 {
      assert r[0].key != r[i].key;
      assert WellFormed(r[1..]) by {
        forall a, b | 0 <= a < b < |r| - 1 ensures r[1..][a].key != r[1..][b].key {
          assert r[a + 1].key != r[b + 1].key;
        }
      }
      LookupEntry(r[1..], i - 1);
    }
  }
}
