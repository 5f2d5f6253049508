/** The array operations the application chains over lists: `filter`, `slice(0, n)`,
    `lastIndexOf`, `reduce` to a sum, `Array.from(new Set(...))`, and the stable `sort` of a
    comparator `(a, b) => key(a) - key(b)`. */
module Seqs {
  import opened Wrappers

  predicate Distinct<T(==)>(s: seq<T>) {
    forall i, j :: 0 <= i < j < |s| ==> s[i] != s[j]
  }

  function Filter<T>(s: seq<T>, p: T -> bool): (r: seq<T>)
    ensures |r| <= |s|
    ensures forall i :: 0 <= i < |r| ==> p(r[i])
  {
    if s == [] then []
    else (if p(s[0]) then [s[0]] else []) + Filter(s[1..], p)
  }

  lemma {:induction false} FilterMembership<T>(s: seq<T>, p: T -> bool, x: T)
    ensures x in Filter(s, p) <==> x in s && p(x)
  {
    if s != [] {
      FilterMembership(s[1..], p, x);
    }
  }

  lemma {:induction false} FilterConcat<T>(a: seq<T>, b: seq<T>, p: T -> bool)
    ensures Filter(a + b, p) == Filter(a, p) + Filter(b, p)
  {
    if a == [] {
      assert a + b == b;
    } else {
      assert (a + b)[1..] == a[1..] + b;
      FilterConcat(a[1..], b, p);
    }
  }

  /** `filter(Boolean)` over a list of optional values: the present values, in order. */
  function Somes<T>(s: seq<Option<T>>): (r: seq<T>)
    ensures |r| <= |s|
  {
    if s == [] then []
    else (if s[0].Some? then [s[0].value] else []) + Somes(s[1..])
  }

  lemma {:induction false} SomesMembership<T>(s: seq<Option<T>>, x: T)
    ensures x in Somes(s) <==> Some(x) in s
  {
    if s != [] {
      SomesMembership(s[1..], x);
      assert s == [s[0]] + s[1..];
    }
  }

  predicate IsSome<T>(o: Option<T>) { o.Some? }

  lemma {:induction false} SomesCount<T>(s: seq<Option<T>>)
    ensures |Somes(s)| == |Filter(s, IsSome)|
  {
    if s != [] {
      SomesCount(s[1..]);
    }
  }

  /** Two lists of equal length whose elements pass their filters at the same positions keep
      equally many elements. */
  lemma {:induction false} FilterCountPointwise<A, B>(a: seq<A>, p: A -> bool, b: seq<B>, q: B -> bool)
    requires |a| == |b|
    requires forall i :: 0 <= i < |a| ==> (p(a[i]) <==> q(b[i]))
    ensures |Filter(a, p)| == |Filter(b, q)|
  {
    if a != [] {
      FilterCountPointwise(a[1..], p, b[1..], q);
    }
  }

  /** `map(f)`. */
  function Map<A, B>(s: seq<A>, f: A -> B): (r: seq<B>)
    ensures |r| == |s|
  {
    if s == [] then [] else [f(s[0])] + Map(s[1..], f)
  }

  lemma {:induction false} MapAt<A, B>(s: seq<A>, f: A -> B, j: nat)
    requires j < |s|
    ensures Map(s, f)[j] == f(s[j])
  {
    if j > 0 {
      MapAt(s[1..], f, j - 1);
    }
  }

  lemma {:induction false} MapConcat<A, B>(a: seq<A>, b: seq<A>, f: A -> B)
    ensures Map(a + b, f) == Map(a, f) + Map(b, f)
  {
    if a == [] {
      assert a + b == b;
    } else {
      assert (a + b)[1..] == a[1..] + b;
      MapConcat(a[1..], b, f);
    }
  }

  /** A slice grown by one element. */
  lemma SliceSnoc<T>(s: seq<T>, i: nat, j: nat)
    requires i <= j < |s|
    ensures s[i..j + 1] == s[i..j] + [s[j]]
  {
  }

  lemma AppendAssoc<T>(a: seq<T>, b: seq<T>, c: seq<T>)
    ensures a + (b + c) == (a + b) + c
  {
  }

  /** The pieces written one after the other. */
  function Flatten<T>(ss: seq<seq<T>>): seq<T> {
    if ss == [] then [] else ss[0] + Flatten(ss[1..])
  }

  lemma {:induction false} FlattenConcat<T>(a: seq<seq<T>>, b: seq<seq<T>>)
    ensures Flatten(a + b) == Flatten(a) + Flatten(b)
  {
    if a == [] {
      assert a + b == b;
    } else {
      assert (a + b)[1..] == a[1..] + b;
      FlattenConcat(a[1..], b);
    }
  }

  /** Writing the pieces of `f` over a list one more element long appends that element's piece. */
  lemma FlattenMapSnoc<A, B>(s: seq<A>, x: A, f: A -> seq<B>)
    ensures Flatten(Map(s + [x], f)) == Flatten(Map(s, f)) + f(x)
  {
    MapConcat(s, [x], f);
    FlattenConcat(Map(s, f), Map([x], f));
    assert Flatten(Map([x], f)) == f(x) + [];
  }

  lemma FilterIdempotent<T>(s: seq<T>, p: T -> bool)
    ensures Filter(Filter(s, p), p) == Filter(s, p)
  {
    FilterAll(Filter(s, p), p);
  }

  /** Filtering a list whose every element passes keeps it as it is. */
  lemma {:induction false} FilterAll<T>(s: seq<T>, p: T -> bool)
    requires forall i :: 0 <= i < |s| ==> p(s[i])
    ensures Filter(s, p) == s
  {
    if s != [] {
      FilterAll(s[1..], p);
      assert s == [s[0]] + s[1..];
    }
  }

  /** `list.filter(e => e.id !== id)`. */
  function RemoveById<T>(s: seq<T>, idOf: T -> string, id: string): (r: seq<T>)
    ensures |r| <= |s|
  {
    if s == [] then [] else (if idOf(s[0]) == id then [] else [s[0]]) + RemoveById(s[1..], idOf, id)
  }

  /** A delete keeps exactly the elements with another id. */
  lemma {:induction false} RemoveByIdMembership<T>(s: seq<T>, idOf: T -> string, id: string, x: T)
    ensures x in RemoveById(s, idOf, id) <==> x in s && idOf(x) != id
  {
    if s != [] {
      RemoveByIdMembership(s[1..], idOf, id, x);
      assert s == [s[0]] + s[1..];
    }
  }

  /** A delete works element by element, so the survivors keep their order. */
  lemma {:induction false} RemoveByIdConcat<T>(a: seq<T>, b: seq<T>, idOf: T -> string, id: string)
    ensures RemoveById(a + b, idOf, id) == RemoveById(a, idOf, id) + RemoveById(b, idOf, id)
  {
    if a == [] {
      assert a + b == b;
    } else {
      assert (a + b)[1..] == a[1..] + b;
      RemoveByIdConcat(a[1..], b, idOf, id);
    }
  }

  /** Deleting an id that is not in the list changes nothing. */
  lemma {:induction false} RemoveByIdAbsent<T>(s: seq<T>, idOf: T -> string, id: string)
    requires forall i :: 0 <= i < |s| ==> idOf(s[i]) != id
    ensures RemoveById(s, idOf, id) == s
  {
    if s != [] {
      RemoveByIdAbsent(s[1..], idOf, id);
    }
  }

  /** `slice(0, n)`. */
  function Take<T>(s: seq<T>, n: nat): (r: seq<T>)
    ensures |r| == if n < |s| then n else |s|
    ensures r == s[..|r|]
  {
    if n < |s| then s[..n] else s
  }

  /** Updating a position of the list updates the same position of its prefix, if it has it. */
  lemma TakeUpdate<T>(s: seq<T>, n: nat, i: nat, x: T)
    requires i < |s|
    ensures Take(s[i := x], n) == if i < n then Take(s, n)[i := x] else Take(s, n)
  {
  }

  /** A list padded with copies of `blank` up to `minRows` entries: max(minRows, n) entries,
      the rows first and in order, then blanks. */
  function PadRows<T>(rows: seq<T>, blank: T, minRows: nat): (r: seq<T>)
    ensures |r| == if |rows| < minRows then minRows else |rows|
    ensures r[..|rows|] == rows
    ensures forall j :: |rows| <= j < |r| ==> r[j] == blank
  {
    rows + seq(if |rows| < minRows then minRows - |rows| else 0, _ => blank)
  }

  /** `lastIndexOf`: the greatest index at which `x` occurs, -1 when it does not occur. */
  function LastIndex<T(==)>(s: seq<T>, x: T): (k: int)
    ensures -1 <= k < |s|
    ensures k >= 0 ==> s[k] == x
    ensures k < 0 <==> x !in s
    ensures forall j :: k < j < |s| ==> s[j] != x
  {
    if s == [] then -1
    else if s[|s| - 1] == x then |s| - 1
    else
      assert s == s[..|s| - 1] + [s[|s| - 1]];
      LastIndex(s[..|s| - 1], x)
  }

  /** `reduce((sum, x) => sum + f(x), 0)`. */
  function SumBy<T>(s: seq<T>, f: T -> real): real {
    if s == [] then 0.0 else f(s[0]) + SumBy(s[1..], f)
  }

  lemma {:induction false} SumByConcat<T>(a: seq<T>, b: seq<T>, f: T -> real)
    ensures SumBy(a + b, f) == SumBy(a, f) + SumBy(b, f)
  {
    if a == [] {
      assert a + b == b;
    } else {
      assert (a + b)[1..] == a[1..] + b;
      SumByConcat(a[1..], b, f);
    }
  }

  /** `Array.from(new Set(s))`: each value once, in order of first occurrence. */
  function Dedup<T(==,!new)>(s: seq<T>): (r: seq<T>)
    ensures Distinct(r)
    ensures forall x :: x in r <==> x in s
  {
    if s == [] then []
    else
      var d := Dedup(s[..|s| - 1]);
      assert forall x :: x in s <==> x in s[..|s| - 1] || x == s[|s| - 1];
      if s[|s| - 1] in d then d else d + [s[|s| - 1]]
  }

  /** Appending a value adds it to the unique values only when it is new. */
  lemma DedupSnoc<T(!new)>(s: seq<T>, x: T)
    ensures Dedup(s + [x]) == if x in Dedup(s) then Dedup(s) else Dedup(s) + [x]
  {
    assert (s + [x])[..|s + [x]| - 1] == s;
  }

  /** The least index at which `x` occurs in `s`. */
  function FirstIndex<T(==)>(s: seq<T>, x: T): (k: nat)
    requires x in s
    ensures k < |s| && s[k] == x && x !in s[..k]
  {
    if s[0] == x then 0 else 1 + FirstIndex(s[1..], x)
  }

  /** Dedup lists the values in increasing order of their first occurrence in the input. */
  lemma {:induction false} DedupFirstOccurrenceOrder<T(!new)>(s: seq<T>, i: nat, j: nat)
    requires i < j < |Dedup(s)|
    ensures Dedup(s)[i] in s && Dedup(s)[j] in s
    ensures FirstIndex(s, Dedup(s)[i]) < FirstIndex(s, Dedup(s)[j])
  {
    var d := Dedup(s);
    var init := s[..|s| - 1];
    var last := s[|s| - 1];
    var di := Dedup(init);
    assert d[i] in s && d[j] in s;
    if last in di || j < |di| {
      assert d[i] == di[i] && di[i] in init;
      assert d[j] == di[j] && di[j] in init;
      DedupFirstOccurrenceOrder(init, i, j);
      FirstIndexPrefix(s, init, d[i]);
      FirstIndexPrefix(s, init, d[j]);
    } else {
      assert d[j] == last && last !in init;
      assert d[i] == di[i] && di[i] in init;
      FirstIndexPrefix(s, init, d[i]);
      assert FirstIndex(s, last) == |s| - 1;
    }
  }

  lemma {:induction false} FirstIndexPrefix<T>(s: seq<T>, init: seq<T>, x: T)
    requires |init| <= |s| && init == s[..|init|] && x in init
    ensures x in s && FirstIndex(s, x) == FirstIndex(init, x)
  {
    assert s[FirstIndex(init, x)] == x;
    if s[0] != x {
      assert init[0] == s[0];
      FirstIndexPrefix(s[1..], init[1..], x);
    }
  }

  /** JavaScript's stable sort of `(a, b) => key(a) - key(b)`: `x` goes before the first
      element whose key is not smaller, so equal keys keep their input order. */
  function Insert<T>(x: T, t: seq<T>, key: T -> real): (r: seq<T>)
    ensures multiset(r) == multiset(t) + multiset{x}
    ensures |r| == |t| + 1
  {
    if t == [] || key(x) <= key(t[0]) then [x] + t
    else
      assert t == [t[0]] + t[1..];
      [t[0]] + Insert(x, t[1..], key)
  }

  function SortBy<T>(s: seq<T>, key: T -> real): (r: seq<T>)
    ensures multiset(r) == multiset(s)
    ensures |r| == |s|
  {
    if s == [] then []
    else
      assert s == [s[0]] + s[1..];
      Insert(s[0], SortBy(s[1..], key), key)
  }

  predicate SortedBy<T>(s: seq<T>, key: T -> real) {
    forall i, j :: 0 <= i < j < |s| ==> key(s[i]) <= key(s[j])
  }

  lemma {:induction false} InsertSorted<T>(x: T, t: seq<T>, key: T -> real)
    requires SortedBy(t, key)
    ensures SortedBy(Insert(x, t, key), key)
    ensures forall i :: 0 <= i < |Insert(x, t, key)| ==> Insert(x, t, key)[i] == x || Insert(x, t, key)[i] in t
  {
    if t != [] && key(x) > key(t[0]) {
      InsertSorted(x, t[1..], key);
      var rest := Insert(x, t[1..], key);
      forall i | 0 <= i < |rest| ensures key(t[0]) <= key(rest[i]) {
        if rest[i] != x {
          assert rest[i] in t[1..];
        }
      }
    }
  }

  /** The sort yields a non-decreasing order of keys and a permutation of its input. */
  lemma {:induction false} SortBySorted<T>(s: seq<T>, key: T -> real)
    ensures SortedBy(SortBy(s, key), key)
    ensures multiset(SortBy(s, key)) == multiset(s)
  {
    if s != [] {
      SortBySorted(s[1..], key);
      InsertSorted(s[0], SortBy(s[1..], key), key);
    }
  }

  lemma {:induction false} InsertSum<T>(x: T, t: seq<T>, key: T -> real, f: T -> real)
    ensures SumBy(Insert(x, t, key), f) == f(x) + SumBy(t, f)
  {
    if t != [] && key(x) > key(t[0]) {
      InsertSum(x, t[1..], key, f);
      assert Insert(x, t, key)[1..] == Insert(x, t[1..], key);
    } else {
      assert ([x] + t)[1..] == t;
    }
  }

  /** Sorting does not change a sum over the list. */
  lemma {:induction false} SortBySum<T>(s: seq<T>, key: T -> real, f: T -> real)
    ensures SumBy(SortBy(s, key), f) == SumBy(s, f)
  {
    if s != [] {
      SortBySum(s[1..], key, f);
      InsertSum(s[0], SortBy(s[1..], key), key, f);
    }
  }

  /** The elements of `s` whose key is `c`, in their order in `s`. */
  function WithKey<T>(s: seq<T>, key: T -> real, c: real): seq<T> {
    if s == [] then []
    else (if key(s[0]) == c then [s[0]] else []) + WithKey(s[1..], key, c)
  }

  lemma {:induction false} InsertWithKey<T>(x: T, t: seq<T>, key: T -> real, c: real)
    ensures WithKey(Insert(x, t, key), key, c) == (if key(x) == c then [x] else []) + WithKey(t, key, c)
  {
    var r := Insert(x, t, key);
    if t != [] && key(x) > key(t[0]) {
      var rest := Insert(x, t[1..], key);
      assert r[0] == t[0] && r[1..] == rest;
      InsertWithKey(x, t[1..], key, c);
      assert WithKey(r, key, c) == (if key(t[0]) == c then [t[0]] else []) + WithKey(rest, key, c);
      assert WithKey(t, key, c) == (if key(t[0]) == c then [t[0]] else []) + WithKey(t[1..], key, c);
    } else {
      assert r[0] == x && r[1..] == t;
    }
  }

  /** The sort is stable: for every key, the elements with that key come out in the order they
      went in. */
  lemma {:induction false} SortByStable<T>(s: seq<T>, key: T -> real, c: real)
    ensures WithKey(SortBy(s, key), key, c) == WithKey(s, key, c)
  {
    if s != [] {
      SortByStable(s[1..], key, c);
      InsertWithKey(s[0], SortBy(s[1..], key), key, c);
    }
  }

  /** The first `n` of a sorted list are sorted and come from the list. */
  lemma TakeSortBy<T>(s: seq<T>, key: T -> real, n: nat)
    ensures var t := Take(SortBy(s, key), n);
      |t| == (if n < |s| then n else |s|) && SortedBy(t, key) && multiset(t) <= multiset(s)
  {
    var sorted := SortBy(s, key);
    SortBySorted(s, key);
    SortedPrefix(sorted, |Take(sorted, n)|, key);
  }

  /** A prefix of a sorted list is sorted and is part of the list. */
  lemma SortedPrefix<T>(u: seq<T>, k: nat, key: T -> real)
    requires SortedBy(u, key) && k <= |u|
    ensures SortedBy(u[..k], key) && multiset(u[..k]) <= multiset(u)
  {
    assert u == u[..k] + u[k..];
  }

  /** No element left out of the first `n` of a sorted list has a smaller key than one taken. */
  lemma TakeSortByLeftOut<T>(s: seq<T>, key: T -> real, n: nat, x: T, y: T)
    requires x in s && x !in Take(SortBy(s, key), n) && y in Take(SortBy(s, key), n)
    ensures key(y) <= key(x)
  {
    var sorted := SortBy(s, key);
    SortBySorted(s, key);
    var t := Take(sorted, n);
    assert x in multiset(sorted);
    var j :| 0 <= j < |sorted| && sorted[j] == x;
    var i :| 0 <= i < |t| && t[i] == y;
    assert sorted[i] == y;
  }
}
