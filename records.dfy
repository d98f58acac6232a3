/**
 * What the handlers over stored JSON records share: a filter on one string
 * field, and the newest-first sort on a timestamp field,
 * `(a, b) => new Date(b.key).getTime() - new Date(a.key).getTime()`.
 */
module Records {
  import opened Json
  import opened Sorting

  /** `r => r.key === value` */
  function FieldTest(key: string, value: string): Object -> bool
  {
    r => FieldIs(r, key, Str(value))
  }

  /** The sort key that puts later timestamps first. */
  function Recency(key: string): Object -> int
  {
    r => -(DateOf(r, key) as int)
  }

  /** The records sorted newest first on `key`; records with equal stamps keep their order. */
  function NewestFirst(s: seq<Object>, key: string): (r: seq<Object>)
    ensures multiset(r) == multiset(s)
    ensures forall i, j :: 0 <= i < j < |r| ==> DateOf(r[i], key) >= DateOf(r[j], key)
  {
    var sorted := SortBy(s, Recency(key));
    assert forall i, j :: 0 <= i < j < |sorted| ==> Recency(key)(sorted[i]) <= Recency(key)(sorted[j]);
    sorted
  }

  /** Sorting records that are already newest first changes nothing. */
  lemma NewestFirstIdempotent(s: seq<Object>, key: string)
    ensures NewestFirst(NewestFirst(s, key), key) == NewestFirst(s, key)
  {
    SortByIdempotent(s, Recency(key));
  }
}
