/** The array operations the store is built from, over a table held as a
    sequence of records: `find`, `findIndex`, `filter`, `Math.max` over the
    ids, and replacing the first record with a given id. `key` extracts the
    record's id. */
module Table {
  import opened Types

  /** `s.findIndex(p)`: the first position whose record satisfies `p`, or
      None where JavaScript's `findIndex` gives -1. */
  function FindIndex<T>(s: seq<T>, p: T -> bool): (r: Option<nat>)
    ensures r.Some? ==> r.value < |s| && p(s[r.value])
    ensures r.Some? ==> forall j :: 0 <= j < r.value ==> !p(s[j])
    ensures r.None? <==> forall j :: 0 <= j < |s| ==> !p(s[j])
  {
    if |s| == 0 then None
    else if p(s[0]) then Some(0)
    else
      match FindIndex(s[1..], p)
      case None => None
      case Some(k) => Some(k + 1)
  }

  /** `s.find(p)`: the first record satisfying `p`. */
  function FindFirst<T>(s: seq<T>, p: T -> bool): (r: Option<T>)
    ensures r.Some? <==> exists i :: 0 <= i < |s| && p(s[i])
    ensures r.Some? ==> p(r.value) && r.value in s
    ensures r.Some? ==> exists i :: 0 <= i < |s| && s[i] == r.value && forall j :: 0 <= j < i ==> !p(s[j])
  {
    match FindIndex(s, p)
    case None => None
    case Some(i) => Some(s[i])
  }

  /** Position of the first record with the given id. */
  function IndexOfKey<T>(s: seq<T>, key: T -> int, id: int): (r: Option<nat>)
    ensures r.Some? ==> r.value < |s| && key(s[r.value]) == id
    ensures r.Some? ==> forall j :: 0 <= j < r.value ==> key(s[j]) != id
    ensures r.None? <==> forall j :: 0 <= j < |s| ==> key(s[j]) != id
  {
    FindIndex(s, x => key(x) == id)
  }

  /** The first record with the given id. */
  function FindByKey<T>(s: seq<T>, key: T -> int, id: int): (r: Option<T>)
    ensures r.Some? <==> exists i :: 0 <= i < |s| && key(s[i]) == id
    ensures r.Some? ==> key(r.value) == id && r.value in s
    ensures r.Some? ==> exists i :: 0 <= i < |s| && s[i] == r.value && forall j :: 0 <= j < i ==> key(s[j]) != id
  {
    FindFirst(s, x => key(x) == id)
  }

  /** `s.filter(p)`: the records satisfying `p`, in their original order. */
  function Filter<T>(s: seq<T>, p: T -> bool): (r: seq<T>)
    ensures forall i :: 0 <= i < |r| ==> r[i] in s && p(r[i])
    ensures forall i :: 0 <= i < |s| && p(s[i]) ==> s[i] in r
    ensures |r| <= |s|
    ensures (forall i :: 0 <= i < |s| ==> p(s[i])) ==> r == s
    ensures (forall i :: 0 <= i < |s| ==> !p(s[i])) ==> r == []
  {
    if |s| == 0 then []
    else if p(s[0]) then [s[0]] + Filter(s[1..], p)
    else Filter(s[1..], p)
  }

  /** Filtering distributes over concatenation: the surviving records keep
      their relative order. */
  lemma {:induction false} FilterConcat<T>(a: seq<T>, b: seq<T>, p: T -> bool)
    ensures Filter(a + b, p) == Filter(a, p) + Filter(b, p)
  {
    if |a| == 0 {
      assert a + b == b;
    } else {
      assert (a + b)[0] == a[0];
      assert (a + b)[1..] == a[1..] + b;
      FilterConcat(a[1..], b, p);
    }
  }

  /** Filtering twice by the same predicate is filtering once. */
  lemma {:induction false} FilterIdempotent<T>(s: seq<T>, p: T -> bool)
    ensures Filter(Filter(s, p), p) == Filter(s, p)
  {
    if |s| > 0 {
      FilterIdempotent(s[1..], p);
      if p(s[0]) {
        assert ([s[0]] + Filter(s[1..], p))[1..] == Filter(s[1..], p);
      }
    }
  }

  /** `s.filter(x => x.id !== id)`: every record with that id removed, the rest
      kept in order; a no-op when the id is absent. */
  function RemoveKey<T>(s: seq<T>, key: T -> int, id: int): (r: seq<T>)
    ensures forall i :: 0 <= i < |r| ==> r[i] in s && key(r[i]) != id
    ensures forall i :: 0 <= i < |s| && key(s[i]) != id ==> s[i] in r
    ensures (forall i :: 0 <= i < |s| ==> key(s[i]) != id) ==> r == s
    ensures |r| <= |s|
  {
    Filter(s, x => key(x) != id)
  }

  /** Removal distributes over concatenation (order is kept). */
  lemma RemoveKeyConcat<T>(a: seq<T>, b: seq<T>, key: T -> int, id: int)
    ensures RemoveKey(a + b, key, id) == RemoveKey(a, key, id) + RemoveKey(b, key, id)
  {
    FilterConcat(a, b, x => key(x) != id);
  }

  /** Appending a record whose id is fresh and then removing that id gives
      back the table as it was. */
  lemma AppendThenRemove<T>(s: seq<T>, x: T, key: T -> int)
    requires forall i :: 0 <= i < |s| ==> key(s[i]) < key(x)
    ensures RemoveKey(s + [x], key, key(x)) == s
  {
    RemoveKeyConcat(s, [x], key, key(x));
  }

  /** `Math.max(...s.map(key))` over a non-empty table. */
  function MaxKey<T>(s: seq<T>, key: T -> int): (m: int)
    requires |s| > 0
    ensures forall i :: 0 <= i < |s| ==> key(s[i]) <= m
    ensures exists i :: 0 <= i < |s| && key(s[i]) == m
  {
    if |s| == 1 then key(s[0])
    else
      var rest := MaxKey(s[1..], key);
      if key(s[0]) >= rest then key(s[0]) else rest
  }

  /** The id `Math.max(...s.map(key)) + 1` that users and professionals get:
      above every stored id, and one more than the largest. */
  function NextKey<T>(s: seq<T>, key: T -> int): (n: int)
    requires |s| > 0
    ensures forall i :: 0 <= i < |s| ==> key(s[i]) < n
    ensures exists i :: 0 <= i < |s| && key(s[i]) == n - 1
  {
    MaxKey(s, key) + 1
  }

  /** The id `Math.max(...s.map(key), 0) + 1` that appointments get: above
      every stored id, at least 1, and exactly 1 on an empty table. */
  function NextKeyFromZero<T>(s: seq<T>, key: T -> int): (n: int)
    ensures n >= 1
    ensures forall i :: 0 <= i < |s| ==> key(s[i]) < n
    ensures |s| == 0 ==> n == 1
    ensures n == 1 || exists i :: 0 <= i < |s| && key(s[i]) == n - 1
  {
    MaxKeyOrZero(s, key) + 1
  }

  /** `Math.max(...s.map(key), 0)`: defined on the empty table too. */
  function MaxKeyOrZero<T>(s: seq<T>, key: T -> int): (m: int)
    ensures m >= 0
    ensures forall i :: 0 <= i < |s| ==> key(s[i]) <= m
    ensures m == 0 || exists i :: 0 <= i < |s| && key(s[i]) == m
  {
    if |s| == 0 then 0
    else
      var k := MaxKey(s, key);
      if k >= 0 then k else 0
  }

  /** The key (an id, an email, a document number) is pairwise distinct. */
  ghost predicate UniqueKeys<T, K>(s: seq<T>, key: T -> K)
  {
    forall i, j :: 0 <= i < j < |s| ==> key(s[i]) != key(s[j])
  }

  /** `s[k] = f(s[k])` for the first position k whose record has the given
      id: only that slot changes, and nothing changes when the id is absent. */
  function UpdateFirst<T>(s: seq<T>, key: T -> int, id: int, f: T -> T): (r: seq<T>)
    ensures |r| == |s|
    ensures forall i :: 0 <= i < |s| && key(s[i]) != id ==> r[i] == s[i]
    ensures (forall i :: 0 <= i < |s| ==> key(s[i]) != id) ==> r == s
    ensures forall i :: 0 <= i < |s| && key(s[i]) == id ==>
              exists k :: 0 <= k <= i && r[k] == f(s[k]) && key(s[k]) == id &&
                forall j :: 0 <= j < |s| && j != k ==> r[j] == s[j]
  {
    match IndexOfKey(s, key, id)
    case None => s
    case Some(k) => s[k := f(s[k])]
  }

  /** Replacing the slot of an id keeps the ids unique when the new record
      keeps the id. */
  lemma UpdateFirstKeepsUnique<T>(s: seq<T>, key: T -> int, id: int, f: T -> T)
    requires UniqueKeys(s, key)
    requires forall x :: key(f(x)) == key(x)
    ensures UniqueKeys(UpdateFirst(s, key, id, f), key)
  {
    var r := UpdateFirst(s, key, id, f);
    forall i, j | 0 <= i < j < |r| ensures key(r[i]) != key(r[j]) {
      assert key(r[i]) == key(s[i]) && key(r[j]) == key(s[j]);
    }
  }

  /** Filtering keeps the ids unique. */
  lemma {:induction false} FilterKeepsUnique<T, K>(s: seq<T>, key: T -> K, p: T -> bool)
    requires UniqueKeys(s, key)
    ensures UniqueKeys(Filter(s, p), key)
  {
    if |s| > 0 {
      var tail := Filter(s[1..], p);
      FilterKeepsUnique(s[1..], key, p);
      if p(s[0]) {
        var r := [s[0]] + tail;
        forall i, j | 0 <= i < j < |r| ensures key(r[i]) != key(r[j]) {
          if i == 0 {
            assert r[j] == tail[j - 1];
            var m :| 0 <= m < |s[1..]| && s[1..][m] == tail[j - 1];
            assert s[m + 1] == r[j];
          } else {
            assert r[i] == tail[i - 1] && r[j] == tail[j - 1];
          }
        }
      }
    }
  }

  /** Removing records keeps the ids unique. */
  lemma RemoveKeyKeepsUnique<T>(s: seq<T>, key: T -> int, id: int)
    requires UniqueKeys(s, key)
    ensures UniqueKeys(RemoveKey(s, key, id), key)
  {
    FilterKeepsUnique(s, key, x => key(x) != id);
  }

  /** Appending a record whose id exceeds every stored id keeps ids unique. */
  lemma AppendFreshKeepsUnique<T>(s: seq<T>, x: T, key: T -> int)
    requires UniqueKeys(s, key)
    requires forall i :: 0 <= i < |s| ==> key(s[i]) < key(x)
    ensures UniqueKeys(s + [x], key)
  {
  }
}
