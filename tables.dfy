/**
 * What the two services do with their in-memory dictionaries: read the entry
 * under one key, take the largest key to mint the next one, and keep the
 * values that pass a comprehension filter, in insertion order.
 *
 * Both dictionaries are keyed by the record's own `id`, so a store is a
 * sequence of records in insertion order whose ids are pairwise distinct.
 */
module Tables {
  import opened Wrappers

  predicate KeysDistinct(ids: seq<int>) {
    forall i, j :: 0 <= i < j < |ids| ==> ids[i] != ids[j]
  }

  /** The keys of a store, in insertion order; `key` reads a record's id. */
  function KeysOf<T>(s: seq<T>, key: T -> int): (ids: seq<int>)
    ensures |ids| == |s|
    ensures forall i :: 0 <= i < |s| ==> ids[i] == key(s[i])
  {
    seq(|s|, i requires 0 <= i < |s| => key(s[i]))
  }

  /** `db.get(id)`: the record stored under `id`, if any. */
  function Find<T(==)>(s: seq<T>, key: T -> int, id: int): (r: Option<T>)
    ensures r.Some? <==> id in KeysOf(s, key)
    ensures r.Some? ==> r.value in s && key(r.value) == id
  {
    if s == [] then None
    else if key(s[0]) == id then Some(s[0])
    else
      assert KeysOf(s, key) == [key(s[0])] + KeysOf(s[1..], key);
      Find(s[1..], key, id)
  }

  /** Inserting a record under a fresh key makes it retrievable and leaves every other lookup as it was. */
  lemma {:induction false} FindAfterAppend<T>(s: seq<T>, key: T -> int, x: T, id: int)
    requires key(x) !in KeysOf(s, key)
    ensures KeysOf(s + [x], key) == KeysOf(s, key) + [key(x)]
    ensures Find(s + [x], key, id) == if id == key(x) then Some(x) else Find(s, key, id)
  {
    if s != [] {
      assert (s + [x])[1..] == s[1..] + [x];
      assert KeysOf(s, key) == [key(s[0])] + KeysOf(s[1..], key);
      if key(s[0]) != id {
        FindAfterAppend(s[1..], key, x, id);
      }
    }
  }

  /** Python `max(keys)` of a non-empty key collection. */
  function MaxKey(ids: seq<int>): (m: int)
    requires |ids| > 0
    ensures m in ids
    ensures forall k :: k in ids ==> k <= m
  {
    if |ids| == 1 then ids[0]
    else
      var rest := MaxKey(ids[1..]);
      assert ids == [ids[0]] + ids[1..];
      if ids[0] >= rest then ids[0] else rest
  }

  /** `max(db.keys()) + 1 if db else 1`: the id a create handler assigns. */
  function NextKey(ids: seq<int>): (k: int)
    ensures ids == [] ==> k == 1
    ensures ids != [] ==> k - 1 in ids
    ensures forall j :: j in ids ==> j < k
  {
    if ids == [] then 1 else MaxKey(ids) + 1
  }

  /** Appending a key larger than every present key keeps the keys distinct. */
  lemma AppendFreshKey(ids: seq<int>, k: int)
    requires KeysDistinct(ids)
    requires forall j :: j in ids ==> j < k
    ensures KeysDistinct(ids + [k])
  {
    assert forall i :: 0 <= i < |ids| ==> ids[i] in ids;
  }

  /** `r` keeps some of the elements of `s`, in the order `s` has them. */
  ghost predicate Subsequence<T>(r: seq<T>, s: seq<T>) {
    if r == [] then true
    else if s == [] then false
    else (r[0] == s[0] && Subsequence(r[1..], s[1..])) || Subsequence(r, s[1..])
  }

  lemma {:induction false} SubsequenceReflexive<T>(s: seq<T>)
    ensures Subsequence(s, s)
  {
    if s != [] {
      SubsequenceReflexive(s[1..]);
    }
  }

  lemma {:induction false} SubsequenceTransitive<T>(a: seq<T>, b: seq<T>, c: seq<T>)
    requires Subsequence(a, b) && Subsequence(b, c)
    ensures Subsequence(a, c)
    decreases |c|
  {
    if a != [] {
      assert b != [] && c != [];
      if b[0] == c[0] && Subsequence(b[1..], c[1..]) {
        if a[0] == b[0] && Subsequence(a[1..], b[1..]) {
          SubsequenceTransitive(a[1..], b[1..], c[1..]);
        } else {
          SubsequenceTransitive(a, b[1..], c[1..]);
        }
      } else {
        SubsequenceTransitive(a, b, c[1..]);
      }
    }
  }

  /** `[x for x in s if keep(x)]`: each kept value as often as `s` has it, in the order of `s`. */
  function Filter<T(==,!new)>(s: seq<T>, keep: T -> bool): (r: seq<T>)
    ensures |r| <= |s|
    ensures forall x :: multiset(r)[x] == if keep(x) then multiset(s)[x] else 0
    ensures forall x :: x in r <==> x in s && keep(x)
    ensures Subsequence(r, s)
  {
    if s == [] then []
    else
      var rest := Filter(s[1..], keep);
      assert s == [s[0]] + s[1..];
      if keep(s[0]) then
        assert ([s[0]] + rest)[1..] == rest;
        [s[0]] + rest
      else rest
  }
}
