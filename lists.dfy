/**
 * Generic list helpers standing for the Swift standard-library calls the
 * core makes: `sorted(by: { $0.id < $1.id })`, `first(where:)`,
 * `removeAll(where:)`, `filter` and `map(\.id)`. Each is given over a key
 * function so that it serves the three look-up types (statuses, locations,
 * categories) alike.
 */
module Lists {
  import opened Wrappers

  ghost predicate SortedBy<T>(s: seq<T>, key: T -> int) {
    forall i, j :: 0 <= i < j < |s| ==> key(s[i]) <= key(s[j])
  }

  ghost predicate Distinct<T>(s: seq<T>) {
    forall i, j :: 0 <= i < j < |s| ==> s[i] != s[j]
  }

  /** The keys of a list are pairwise distinct. */
  ghost predicate DistinctKeys<T>(s: seq<T>, key: T -> int) {
    forall i, j :: 0 <= i < j < |s| ==> key(s[i]) != key(s[j])
  }

  /** Inserts `x` before the first element whose key is not smaller (stable). */
  function InsertBy<T>(x: T, s: seq<T>, key: T -> int): (r: seq<T>)
    ensures multiset(r) == multiset(s) + multiset{x}
    decreases |s|
  {
    if s == [] || key(x) <= key(s[0]) then [x] + s
    else
      assert s == [s[0]] + s[1..];
      [s[0]] + InsertBy(x, s[1..], key)
  }

  /** Inserting into a list ordered by key keeps it ordered. */
  lemma {:induction false} InsertBySorted<T>(x: T, s: seq<T>, key: T -> int)
    requires SortedBy(s, key)
    ensures SortedBy(InsertBy(x, s, key), key)
    decreases |s|
  {
    if s != [] && key(x) > key(s[0]) {
      var tail := s[1..];
      assert SortedBy(tail, key);
      InsertBySorted(x, tail, key);
      var rest := InsertBy(x, tail, key);
      forall j | 0 <= j < |rest| ensures key(s[0]) <= key(rest[j]) {
        assert rest[j] in multiset(rest);
        if rest[j] != x {
          assert rest[j] in multiset(tail);
          var k :| 0 <= k < |tail| && tail[k] == rest[j];
          assert s[k + 1] == rest[j];
        }
      }
      assert InsertBy(x, s, key) == [s[0]] + rest;
    }
  }

  /**
   * `s.sorted(by: { key($0) < key($1) })`, written as a stable insertion sort.
   * Swift does not document its sort as stable; the properties proved
   * below (ordered by key, same elements) hold of every sort.
   */
  function SortBy<T>(s: seq<T>, key: T -> int): (r: seq<T>)
    ensures SortedBy(r, key)
    ensures multiset(r) == multiset(s)
  {
    if s == [] then []
    else
      assert s == [s[0]] + s[1..];
      var rest := SortBy(s[1..], key);
      InsertBySorted(s[0], rest, key);
      InsertBy(s[0], rest, key)
  }

  /** `s.first(where: { key($0) == id })`. */
  function FirstWith<T>(s: seq<T>, key: T -> int, id: int): (r: Option<T>)
    ensures r.None? <==> forall i :: 0 <= i < |s| ==> key(s[i]) != id
    ensures r.Some? ==> r.value in s && key(r.value) == id
    ensures r.Some? ==> exists i :: 0 <= i < |s| && s[i] == r.value && key(s[i]) == id &&
                                    forall j :: 0 <= j < i ==> key(s[j]) != id
  {
    if s == [] then None
    else if key(s[0]) == id then Some(s[0])
    else
      var r := FirstWith(s[1..], key, id);
      assert r.Some? ==> exists i :: 0 <= i < |s| && s[i] == r.value && key(s[i]) == id &&
                                      forall j :: 0 <= j < i ==> key(s[j]) != id by {
        if r.Some? {
          var i :| 0 <= i < |s[1..]| && s[1..][i] == r.value && key(s[1..][i]) == id &&
                   forall j :: 0 <= j < i ==> key(s[1..][j]) != id;
          assert s[i + 1] == r.value && forall j :: 0 <= j < i + 1 ==> key(s[j]) != id;
        }
      }
      r
  }

  /** `s.contains(where: { key($0) == id })`. */
  predicate HasKey<T>(s: seq<T>, key: T -> int, id: int) {
    exists i :: 0 <= i < |s| && key(s[i]) == id
  }

  /** When keys are distinct, looking up the key of an element finds that element. */
  lemma {:induction false} FirstWithFindsMember<T>(s: seq<T>, key: T -> int, x: T)
    requires DistinctKeys(s, key) && x in s
    ensures FirstWith(s, key, key(x)) == Some(x)
  {
    if s[0] != x {
      assert x in s[1..];
      assert DistinctKeys(s[1..], key);
      FirstWithFindsMember(s[1..], key, x);
    }
  }

  /** `s.removeAll(where: { $0 == x })`. */
  function RemoveAll<T(==,!new)>(s: seq<T>, x: T): (r: seq<T>)
    ensures forall y :: y in r <==> y in s && y != x
    ensures |r| <= |s|
  {
    if s == [] then []
    else if s[0] == x then RemoveAll(s[1..], x)
    else [s[0]] + RemoveAll(s[1..], x)
  }

  /** Removing elements keeps a duplicate-free list duplicate-free. */
  lemma {:induction false} RemoveAllDistinct<T(!new)>(s: seq<T>, x: T)
    requires Distinct(s)
    ensures Distinct(RemoveAll(s, x))
  {
    if s != [] {
      assert Distinct(s[1..]);
      RemoveAllDistinct(s[1..], x);
      assert s[0] !in s[1..];
    }
  }

  /** Removing an element that is absent changes nothing. */
  lemma {:induction false} RemoveAllAbsent<T(!new)>(s: seq<T>, x: T)
    requires x !in s
    ensures RemoveAll(s, x) == s
  {
    if s != [] {
      assert x !in s[1..];
      RemoveAllAbsent(s[1..], x);
      assert s == [s[0]] + s[1..];
    }
  }

  /** `s.filter { element in ids }`, on keys: the elements whose key is in `ids`, in the order of `s`. */
  function KeepKeys<T(!new)>(s: seq<T>, key: T -> int, ids: seq<int>): (r: seq<T>)
    ensures forall y :: y in r <==> y in s && key(y) in ids
    ensures |r| <= |s|
  {
    if s == [] then []
    else
      assert s == [s[0]] + s[1..];
      if key(s[0]) in ids then [s[0]] + KeepKeys(s[1..], key, ids)
      else KeepKeys(s[1..], key, ids)
  }

  /** One step of the filter: the head is kept exactly when its key is selected. */
  lemma KeepKeysCons<T(!new)>(x: T, s: seq<T>, key: T -> int, ids: seq<int>)
    ensures KeepKeys([x] + s, key, ids) == (if key(x) in ids then [x] else []) + KeepKeys(s, key, ids)
  {
  }

  /** The filter keeps each selected element as often as `s` holds it, and no other. */
  lemma {:induction false} KeepKeysCounts<T(!new)>(s: seq<T>, key: T -> int, ids: seq<int>)
    ensures forall y :: multiset(KeepKeys(s, key, ids))[y] == if key(y) in ids then multiset(s)[y] else 0
  {
    if s != [] {
      var x, rest := s[0], s[1..];
      assert s == [x] + rest;
      KeepKeysCons(x, rest, key, ids);
      KeepKeysCounts(rest, key, ids);
      var h := if key(x) in ids then [x] else [];
      assert multiset(KeepKeys(s, key, ids)) == multiset(h) + multiset(KeepKeys(rest, key, ids));
      assert multiset(s) == multiset{x} + multiset(rest);
    }
  }

  /** Filtering a concatenation filters each part: the kept elements stay in their order, repeats included. */
  lemma {:induction false} KeepKeysAppend<T(!new)>(s: seq<T>, t: seq<T>, key: T -> int, ids: seq<int>)
    ensures KeepKeys(s + t, key, ids) == KeepKeys(s, key, ids) + KeepKeys(t, key, ids)
  {
    if s != [] {
      var x, rest := s[0], s[1..];
      assert s == [x] + rest && s + t == [x] + (rest + t);
      KeepKeysAppend(rest, t, key, ids);
      KeepKeysCons(x, rest + t, key, ids);
      KeepKeysCons(x, rest, key, ids);
      var h := if key(x) in ids then [x] else [];
      assert h + (KeepKeys(rest, key, ids) + KeepKeys(t, key, ids)) == (h + KeepKeys(rest, key, ids)) + KeepKeys(t, key, ids);
    } else {
      assert s + t == t;
    }
  }

  /** Keeping every key of `s` keeps `s` whole and in order. */
  lemma {:induction false} KeepAllKeys<T(!new)>(s: seq<T>, key: T -> int, ids: seq<int>)
    requires forall i :: 0 <= i < |s| ==> key(s[i]) in ids
    ensures KeepKeys(s, key, ids) == s
  {
    if s != [] {
      KeepAllKeys(s[1..], key, ids);
      assert s == [s[0]] + s[1..];
    }
  }

  /** `s.map(key)`. */
  function Keys<T>(s: seq<T>, key: T -> int): seq<int> {
    seq(|s|, i requires 0 <= i < |s| => key(s[i]))
  }

  /** The keys of a concatenation are the keys of each part, in order; so `map` keeps the order of the list. */
  lemma KeysAppend<T>(s: seq<T>, t: seq<T>, key: T -> int)
    ensures Keys(s + t, key) == Keys(s, key) + Keys(t, key)
    ensures |Keys(s, key)| == |s|
  {
  }

  /** Removing from a concatenation removes from each part. */
  lemma {:induction false} RemoveAllAppend<T(!new)>(s: seq<T>, t: seq<T>, x: T)
    ensures RemoveAll(s + t, x) == RemoveAll(s, x) + RemoveAll(t, x)
  {
    if s != [] {
      assert (s + t)[1..] == s[1..] + t;
      RemoveAllAppend(s[1..], t, x);
    } else {
      assert s + t == t;
    }
  }

  /**
   * `data.append(sentinel); data.sorted(by: { key($0) < key($1) })`: the
   * list with the sentinel added, ordered by key.
   */
  function WithSentinel<T(!new)>(data: seq<T>, sentinel: T, key: T -> int): (r: seq<T>)
    ensures SortedBy(r, key)
    ensures multiset(r) == multiset(data) + multiset{sentinel}
    ensures |r| == |data| + 1 && sentinel in r
    ensures forall x :: x in r <==> x == sentinel || x in data
  {
    var r := SortBy(data + [sentinel], key);
    assert multiset(data + [sentinel]) == multiset(data) + multiset{sentinel};
    assert |multiset(r)| == |r|;
    assert sentinel in multiset(r);
    assert forall x :: x in r <==> x in multiset(r);
    assert forall x :: x in data <==> x in multiset(data);
    r
  }
}
