/** What the list queries share: `ORDER BY` a timestamp column, then
    `OFFSET skip LIMIT limit`. The database's sort is modelled by an insertion
    sort over the set of matching ids; rows with equal keys may come out in any
    order, as they may from the database. */
module Paging {
  import opened Base

  /** A sort key. `Null` is a NULL column, which SQLite orders before every
      value in an ascending sort. */
  datatype SortKey = Null | At(t: int)

  /** Ascending order on keys, NULLs first. */
  predicate KeyLe(a: SortKey, b: SortKey) {
    a.Null? || (b.At? && a.t <= b.t)
  }

  /** The key of an optional timestamp column under `ORDER BY ... ASC`. */
  function Ascending(t: Option<Time>): SortKey {
    if t.None? then Null else At(t.value)
  }

  /** The key of a non-null timestamp column under `ORDER BY ... DESC`. */
  function Descending(t: Time): SortKey {
    At(-t)
  }

  predicate Distinct(s: seq<Id>) {
    forall i, j :: 0 <= i < j < |s| ==> s[i] != s[j]
  }

  /** `s` lists every id of `ids` exactly once. */
  ghost predicate Enumerates(s: seq<Id>, ids: set<Id>) {
    Distinct(s) && forall x :: x in s <==> x in ids
  }

  predicate SortedBy(s: seq<Id>, key: map<Id, SortKey>) {
    (forall i :: 0 <= i < |s| ==> s[i] in key) &&
    forall i, j :: 0 <= i < j < |s| ==> KeyLe(key[s[i]], key[s[j]])
  }

  /** An enumeration is exactly as long as the set it enumerates. */
  lemma {:induction false} EnumerationSize(s: seq<Id>, ids: set<Id>)
    requires Enumerates(s, ids)
    ensures |s| == |ids|
  {
    if s != [] {
      var rest := ids - {s[0]};
      assert Enumerates(s[1..], rest) by {
        forall x ensures x in s[1..] <==> x in rest {
          if x in s[1..] {
            var k :| 1 <= k < |s| && s[k] == x;
            assert s[0] != s[k];
          }
          if x in rest {
            assert x in s;
            var k :| 0 <= k < |s| && s[k] == x;
            assert k != 0;
            assert s[1..][k - 1] == x;
          }
        }
      }
      EnumerationSize(s[1..], rest);
    }
  }

  /** The rows `OFFSET skip LIMIT limit` keeps of an ordered result: the
      `limit` rows that follow the first `skip`, or fewer at the end. */
  function Page(s: seq<Id>, skip: nat, limit: nat): (r: seq<Id>)
    ensures |r| == if skip >= |s| then 0 else if |s| - skip < limit then |s| - skip else limit
    ensures forall i :: 0 <= i < |r| ==> r[i] == s[skip + i]
  {
    if skip >= |s| then []
    else if |s| - skip < limit then s[skip..]
    else s[skip..skip + limit]
  }

  /** A page of a sorted enumeration is itself sorted, has no duplicates and
      holds only members of the enumerated set. */
  lemma PageOfSorted(s: seq<Id>, ids: set<Id>, key: map<Id, SortKey>, skip: nat, limit: nat)
    requires Enumerates(s, ids) && SortedBy(s, key)
    ensures Distinct(Page(s, skip, limit)) && SortedBy(Page(s, skip, limit), key)
    ensures forall x :: x in Page(s, skip, limit) ==> x in ids
    ensures |Page(s, skip, limit)| <= limit
  {
    var r := Page(s, skip, limit);
    forall x | x in r ensures x in ids {
      var k :| 0 <= k < |r| && r[k] == x;
      assert s[skip + k] == x;
    }
  }

  /** Inserts `x` into the sorted `s` after every element whose key is not
      greater than its own. */
  method Insert(s: seq<Id>, x: Id, key: map<Id, SortKey>) returns (r: seq<Id>)
    requires x in key && x !in s
    requires Distinct(s) && SortedBy(s, key)
    ensures Distinct(r) && SortedBy(r, key)
    ensures forall y :: y in r <==> y in s || y == x
  {
    var i := 0;
    while i < |s| && KeyLe(key[s[i]], key[x])
      invariant 0 <= i <= |s|
      invariant forall k :: 0 <= k < i ==> KeyLe(key[s[k]], key[x])
    {
      i := i + 1;
    }
    r := s[..i] + [x] + s[i..];
    assert forall k :: 0 <= k < i ==> r[k] == s[k];
    assert r[i] == x;
    assert forall k :: i < k < |r| ==> r[k] == s[k - 1];
    forall k | i < k < |r| ensures KeyLe(key[x], key[r[k]]) {
      assert KeyLe(key[s[i]], key[s[k - 1]]) || k - 1 == i;
    }
  }

  /** Lists the ids of `ids` in ascending order of their keys. */
  method SortIds(ids: set<Id>, key: map<Id, SortKey>) returns (s: seq<Id>)
    requires ids <= key.Keys
    ensures Enumerates(s, ids) && SortedBy(s, key)
  {
    s := [];
    var rest := ids;
    while rest != {}
      invariant rest <= ids
      invariant Enumerates(s, ids - rest) && SortedBy(s, key)
      decreases |rest|
    {
      var x :| x in rest;
      s := Insert(s, x, key);
      rest := rest - {x};
    }
  }
}
