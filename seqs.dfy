/**
 * The array primitives the application leans on — `findIndex`, `filter`,
 * `splice(i, 1)` and the insertion-ordered `new Set(...)` — as functions on
 * sequences, each with the property callers rely on.
 */
module Seqs {

  /** `findIndex` with an equality test: the first position holding `x`, or -1. */
  function IndexOf<T(==)>(s: seq<T>, x: T): (i: int)
    ensures -1 <= i < |s|
    ensures i == -1 <==> x !in s
    ensures 0 <= i ==> s[i] == x && x !in s[..i]
  {
    if |s| == 0 then -1
    else if s[0] == x then 0
    else
      var j := IndexOf(s[1..], x);
      assert s[1..][..j + 1] == s[1..j + 2] by { assert j + 2 <= |s| || j == -1; }
      if j == -1 then -1 else j + 1
  }

  /** `splice(i, 1)`: the sequence without its element at `i`. */
  function RemoveAt<T>(s: seq<T>, i: nat): (r: seq<T>)
    requires i < |s|
    ensures |r| == |s| - 1
    ensures forall k :: 0 <= k < i ==> r[k] == s[k]
    ensures forall k :: i <= k < |r| ==> r[k] == s[k + 1]
  {
    s[..i] + s[i + 1..]
  }

  /** `r` is an order-preserving sub-sequence of `s`. */
  ghost predicate Sublist<T>(r: seq<T>, s: seq<T>)
    decreases |s|
  {
    r == [] || (s != [] && ((r[0] == s[0] && Sublist(r[1..], s[1..])) || Sublist(r, s[1..])))
  }

  /** `filter`: the elements of `s` that `keep` accepts, in their original order. */
  function Filter<T>(s: seq<T>, keep: T -> bool): (r: seq<T>)
    ensures |r| <= |s|
    ensures forall k :: 0 <= k < |r| ==> keep(r[k])
    ensures forall k :: 0 <= k < |r| ==> r[k] in s
    ensures forall k :: 0 <= k < |s| && keep(s[k]) ==> s[k] in r
    ensures Sublist(r, s)
  {
    if s == [] then []
    else if keep(s[0]) then [s[0]] + Filter(s[1..], keep)
    else Filter(s[1..], keep)
  }

  /** `filter` keeps every copy of an accepted value and none of a rejected one. */
  lemma {:induction false} FilterCounts<T>(s: seq<T>, keep: T -> bool, x: T)
    ensures multiset(Filter(s, keep))[x] == if keep(x) then multiset(s)[x] else 0
  {
    if s != [] {
      FilterCounts(s[1..], keep, x);
      assert s == [s[0]] + s[1..];
      assert multiset(s) == multiset([s[0]]) + multiset(s[1..]);
      if keep(s[0]) {
        assert multiset(Filter(s, keep)) == multiset([s[0]]) + multiset(Filter(s[1..], keep));
      }
    }
  }

  /** When every element is accepted, `filter` returns its input. */
  lemma {:induction false} FilterKeepsAll<T>(s: seq<T>, keep: T -> bool)
    requires forall k :: 0 <= k < |s| ==> keep(s[k])
    ensures Filter(s, keep) == s
  {
    if s != [] {
      FilterKeepsAll(s[1..], keep);
    }
  }

  /** When exactly one element is rejected, `filter` removes just that element, as `splice(i, 1)` would. */
  lemma {:induction false} FilterDropsOne<T>(s: seq<T>, keep: T -> bool, i: nat)
    requires i < |s| && !keep(s[i])
    requires forall k :: 0 <= k < |s| && k != i ==> keep(s[k])
    ensures Filter(s, keep) == RemoveAt(s, i)
  {
    if i == 0 {
      FilterKeepsAll(s[1..], keep);
      assert s[1..] == RemoveAt(s, 0);
    } else {
      FilterDropsOne(s[1..], keep, i - 1);
      assert keep(s[0]);
      assert Filter(s, keep) == [s[0]] + Filter(s[1..], keep);
      RemoveAtCons(s, i);
    }
  }

  lemma RemoveAtCons<T>(s: seq<T>, i: nat)
    requires 0 < i < |s|
    ensures RemoveAt(s, i) == [s[0]] + RemoveAt(s[1..], i - 1)
  {
    assert s[..i] == [s[0]] + s[1..][..i - 1];
    assert s[i + 1..] == s[1..][i..];
  }

  /** Two tests that agree on every element filter alike. */
  lemma {:induction false} FilterAgrees<T>(s: seq<T>, f: T -> bool, g: T -> bool)
    requires forall k :: 0 <= k < |s| ==> f(s[k]) == g(s[k])
    ensures Filter(s, f) == Filter(s, g)
  {
    if s != [] {
      FilterAgrees(s[1..], f, g);
    }
  }

  ghost predicate NoDuplicates<T>(s: seq<T>) {
    forall i, j :: 0 <= i < j < |s| ==> s[i] != s[j]
  }

  lemma IndexOfInPrefix<T>(s: seq<T>, n: nat, x: T)
    requires n <= |s| && x in s[..n]
    ensures IndexOf(s, x) == IndexOf(s[..n], x)
  {
    var i := IndexOf(s[..n], x);
    assert s[..n][..i] == s[..i];
  }

  /** The distinct elements of `s`, as `[...new Set(s)]` lists them: each element once. */
  function Dedup<T(==)>(s: seq<T>): (r: seq<T>)
    ensures NoDuplicates(r)
    ensures forall k :: 0 <= k < |r| ==> r[k] in s
    ensures forall k :: 0 <= k < |s| ==> s[k] in r
  {
    if s == [] then []
    else
      var d := Dedup(s[..|s| - 1]);
      assert forall k :: 0 <= k < |s| - 1 ==> s[k] in s[..|s| - 1];
      if s[|s| - 1] in d then d else d + [s[|s| - 1]]
  }

  /** A set iterates in insertion order, so the distinct elements come in order of first appearance. */
  lemma {:induction false} DedupKeepsFirstAppearanceOrder<T>(s: seq<T>)
    ensures forall i, j :: 0 <= i < j < |Dedup(s)| ==> IndexOf(s, Dedup(s)[i]) < IndexOf(s, Dedup(s)[j])
  {
    if s != [] {
      var init := s[..|s| - 1];
      var d := Dedup(init);
      DedupKeepsFirstAppearanceOrder(init);
      forall k | 0 <= k < |d| ensures IndexOf(s, d[k]) == IndexOf(init, d[k]) {
        IndexOfInPrefix(s, |s| - 1, d[k]);
      }
      if s[|s| - 1] !in d {
        assert s[|s| - 1] !in init;
        assert IndexOf(s, s[|s| - 1]) == |s| - 1;
      }
    }
  }

  /** `map`: `f` applied to every element, in order. */
  function MapSeq<T, U>(s: seq<T>, f: T -> U): (r: seq<U>)
    ensures |r| == |s|
    ensures forall k :: 0 <= k < |s| ==> r[k] == f(s[k])
  {
    seq(|s|, k requires 0 <= k < |s| => f(s[k]))
  }

  /** Projecting commutes with appending an element. */
  lemma MapSeqAppend<T, U>(s: seq<T>, f: T -> U, x: T)
    ensures MapSeq(s + [x], f) == MapSeq(s, f) + [f(x)]
  {
    assert MapSeq(s + [x], f) == MapSeq(s, f) + [f(x)];
  }

  /** Projecting commutes with overwriting one position. */
  lemma MapSeqUpdate<T, U>(s: seq<T>, f: T -> U, i: nat, x: T)
    requires i < |s|
    ensures MapSeq(s[i := x], f) == MapSeq(s, f)[i := f(x)]
  {
  }

  /** Projecting commutes with removing one position. */
  lemma MapSeqRemove<T, U>(s: seq<T>, f: T -> U, i: nat)
    requires i < |s|
    ensures MapSeq(RemoveAt(s, i), f) == RemoveAt(MapSeq(s, f), i)
  {
  }

  /** Appending an absent value keeps the values distinct. */
  lemma AppendKeepsNoDuplicates<T>(s: seq<T>, x: T)
    requires NoDuplicates(s) && x !in s
    ensures NoDuplicates(s + [x])
  {
  }

  /** Overwriting a position with its own value or with an absent one keeps the values distinct. */
  lemma UpdateKeepsNoDuplicates<T>(s: seq<T>, i: nat, x: T)
    requires NoDuplicates(s) && i < |s| && (x == s[i] || x !in s)
    ensures NoDuplicates(s[i := x])
  {
    var t := s[i := x];
    forall a, b | 0 <= a < b < |t| ensures t[a] != t[b] {
      if a != i && b != i {
      } else if x != s[i] {
        assert s[a] in s && s[b] in s;
      }
    }
  }

  /** Removing a position keeps the values distinct, and a value that occurred once no longer occurs. */
  lemma RemoveKeepsNoDuplicates<T>(s: seq<T>, i: nat)
    requires NoDuplicates(s) && i < |s|
    ensures NoDuplicates(RemoveAt(s, i))
    ensures s[i] !in RemoveAt(s, i)
  {
    var r := RemoveAt(s, i);
    forall a, b | 0 <= a < b < |r| ensures r[a] != r[b] {
      var a' := if a < i then a else a + 1;
      var b' := if b < i then b else b + 1;
      assert r[a] == s[a'] && r[b] == s[b'];
    }
    forall k | 0 <= k < |r| ensures r[k] != s[i] {
      var k' := if k < i then k else k + 1;
      assert r[k] == s[k'];
    }
  }

  /** Removing a position keeps every value that position did not hold. */
  lemma RemoveAtKeepsOthers<T>(s: seq<T>, i: nat, x: T)
    requires i < |s| && x in s && x != s[i]
    ensures x in RemoveAt(s, i)
  {
    var j :| 0 <= j < |s| && s[j] == x;
    if j < i {
      assert RemoveAt(s, i)[j] == x;
    } else {
      assert RemoveAt(s, i)[j - 1] == x;
    }
  }

  /** In a sequence without duplicates, `findIndex` of the value at `i` is `i`. */
  lemma IndexOfDistinct<T>(s: seq<T>, i: nat)
    requires NoDuplicates(s) && i < |s|
    ensures IndexOf(s, s[i]) == i
  {
  }

  /**
   * `const i = list.findIndex(e => e.id === x.id); if (i !== -1) list[i] = x`:
   * the first element with the key of `x` becomes `x`; every other position,
   * and the sequence of keys, stay as they were.
   */
  function ReplaceFirst<T>(s: seq<T>, key: T -> string, x: T): (r: seq<T>)
    ensures |r| == |s|
    ensures MapSeq(r, key) == MapSeq(s, key)
    ensures key(x) !in MapSeq(s, key) ==> r == s
    ensures key(x) in MapSeq(s, key) ==>
              var i := IndexOf(MapSeq(s, key), key(x));
              r[i] == x && forall k :: 0 <= k < |s| && k != i ==> r[k] == s[k]
  {
    var i := IndexOf(MapSeq(s, key), key(x));
    if i == -1 then s
    else
      MapSeqUpdate(s, key, i, x);
      assert MapSeq(s, key)[i := key(x)] == MapSeq(s, key);
      s[i := x]
  }

  /** When keys are distinct, replacing by key is overwriting the position that holds the key. */
  lemma ReplaceFirstIsUpdate<T>(s: seq<T>, key: T -> string, i: nat, x: T)
    requires NoDuplicates(MapSeq(s, key)) && i < |s| && key(x) == key(s[i])
    ensures ReplaceFirst(s, key, x) == s[i := x]
  {
    IndexOfDistinct(MapSeq(s, key), i);
  }

  /** The predicate `e => e.id !== id` over a key. */
  function KeyDiffers<T>(key: T -> string, id: string): T -> bool {
    x => key(x) != id
  }

  /** Filtering by a differing key leaves no element with that key, and keeps every other one. */
  lemma FilterRemovesKey<T>(s: seq<T>, key: T -> string, id: string)
    ensures id !in MapSeq(Filter(s, KeyDiffers(key, id)), key)
    ensures forall k :: 0 <= k < |s| && key(s[k]) != id ==> s[k] in Filter(s, KeyDiffers(key, id))
  {
    var r := Filter(s, KeyDiffers(key, id));
    forall k | 0 <= k < |r| ensures MapSeq(r, key)[k] != id {
      assert KeyDiffers(key, id)(r[k]);
    }
    forall k | 0 <= k < |s| && key(s[k]) != id ensures s[k] in r {
      assert KeyDiffers(key, id)(s[k]);
    }
  }

  /**
   * When keys are distinct, filtering out the key of position `i` removes
   * exactly that position, as `splice(i, 1)` does.
   */
  lemma FilterByKeyIsRemoveAt<T>(s: seq<T>, key: T -> string, i: nat)
    requires NoDuplicates(MapSeq(s, key)) && i < |s|
    ensures Filter(s, KeyDiffers(key, key(s[i]))) == RemoveAt(s, i)
  {
    var keep := KeyDiffers(key, key(s[i]));
    forall k | 0 <= k < |s| && k != i ensures keep(s[k]) {
      assert MapSeq(s, key)[k] != MapSeq(s, key)[i];
    }
    FilterDropsOne(s, keep, i);
  }
}
