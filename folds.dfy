/** The folds the program spells with `reduce`, `filter`, `new Set`, `sort` and
    `skip/limit`: sums over a sequence, per-key sums and counts, the distinct keys
    in order of first occurrence, a stable descending sort and pagination. */
module Folds {
  import opened Common

  /** `s.reduce((sum, x) => sum + f(x), 0)` (exact, so the order of addition is immaterial). */
  function Sum<T>(s: seq<T>, f: T -> real): real
  {
    if s == [] then 0.0 else f(s[0]) + Sum(s[1..], f)
  }

  lemma {:induction false} SumAppend<T>(a: seq<T>, b: seq<T>, f: T -> real)
    ensures Sum(a + b, f) == Sum(a, f) + Sum(b, f)
  {
    if a == [] {
      assert a + b == b;
    } else {
      assert (a + b)[0] == a[0];
      assert (a + b)[1..] == a[1..] + b;
      SumAppend(a[1..], b, f);
      assert Sum(a + b, f) == f(a[0]) + Sum(a[1..] + b, f);
    }
  }

  lemma {:induction false} SumNonNeg<T>(s: seq<T>, f: T -> real)
    requires forall i :: 0 <= i < |s| ==> f(s[i]) >= 0.0
    ensures Sum(s, f) >= 0.0
  {
    if s != [] {
      SumNonNeg(s[1..], f);
    }
  }

  /** Two sequences whose elements agree under `f` position by position have the same sum. */
  lemma {:induction false} SumPointwise<T, U>(s: seq<T>, f: T -> real, t: seq<U>, g: U -> real)
    requires |s| == |t|
    requires forall i :: 0 <= i < |s| ==> f(s[i]) == g(t[i])
    ensures Sum(s, f) == Sum(t, g)
  {
    if s != [] {
      SumPointwise(s[1..], f, t[1..], g);
    }
  }

  // ---------------------------------------------------------------------------
  // Per-key sums and counts (the bodies of `$group` and of the `acc[key]` folds)

  function SumWhere<T, K(==)>(s: seq<T>, key: T -> K, k: K, f: T -> real): real
  {
    if s == [] then 0.0
    else (if key(s[0]) == k then f(s[0]) else 0.0) + SumWhere(s[1..], key, k, f)
  }

  function CountWhere<T, K(==)>(s: seq<T>, key: T -> K, k: K): nat
  {
    if s == [] then 0
    else (if key(s[0]) == k then 1 else 0) + CountWhere(s[1..], key, k)
  }

  lemma {:induction false} CountWhereBound<T, K>(s: seq<T>, key: T -> K, k: K)
    ensures CountWhere(s, key, k) <= |s|
    ensures CountWhere(s, key, k) > 0 <==> exists i :: 0 <= i < |s| && key(s[i]) == k
  {
    if s != [] {
      CountWhereBound(s[1..], key, k);
      if CountWhere(s[1..], key, k) > 0 {
        var i :| 0 <= i < |s[1..]| && key(s[1..][i]) == k;
        assert key(s[i + 1]) == k;
      }
      if key(s[0]) != k && exists i :: 0 <= i < |s| && key(s[i]) == k {
        var i :| 0 <= i < |s| && key(s[i]) == k;
        assert key(s[1..][i - 1]) == k;
      }
    }
  }

  function KeysOf<T, K>(s: seq<T>, key: T -> K): (r: seq<K>)
    ensures |r| == |s| && forall i :: 0 <= i < |s| ==> r[i] == key(s[i])
  {
    seq(|s|, i requires 0 <= i < |s| => key(s[i]))
  }

  predicate NoDup<K(==)>(ks: seq<K>) {
    forall i, j :: 0 <= i < j < |ks| ==> ks[i] != ks[j]
  }

  /** Distinct elements in order of first occurrence, extending `acc`. */
  function DistinctFrom<K(==,!new)>(s: seq<K>, acc: seq<K>): (r: seq<K>)
    requires NoDup(acc)
    ensures NoDup(r)
    ensures |acc| <= |r| && r[..|acc|] == acc
    ensures forall k :: k in r <==> k in acc || k in s
  {
    if s == [] then acc
    else DistinctFrom(s[1..], if s[0] in acc then acc else acc + [s[0]])
  }

  /** `[...new Set(s)]`: the distinct elements of `s`, each once, in order of first occurrence. */
  function Distinct<K(==,!new)>(s: seq<K>): (r: seq<K>)
    ensures NoDup(r)
    ensures forall k :: k in r <==> k in s
  {
    DistinctFrom(s, [])
  }

  lemma {:induction false} DistinctLength<K(!new)>(s: seq<K>)
    ensures |Distinct(s)| <= |s|
  {
    DistinctFromLength(s, []);
  }

  lemma {:induction false} DistinctFromLength<K(!new)>(s: seq<K>, acc: seq<K>)
    requires NoDup(acc)
    ensures |DistinctFrom(s, acc)| <= |acc| + |s|
  {
    if s != [] {
      DistinctFromLength(s[1..], if s[0] in acc then acc else acc + [s[0]]);
    }
  }

  /** `x` occurs in `s` before the first occurrence of `y` (so `x != y`). */
  ghost predicate SeenBefore<K>(s: seq<K>, x: K, y: K) {
    exists a :: 0 <= a < |s| && s[a] == x && forall b :: 0 <= b <= a ==> s[b] != y
  }

  /** The first element is seen before anything else. */
  lemma SeenAtHead<K>(s: seq<K>, y: K)
    requires s != [] && s[0] != y
    ensures SeenBefore(s, s[0], y)
  {
    assert forall b :: 0 <= b <= 0 ==> s[b] != y;
  }

  /** An occurrence order one element back is kept when that element is not `y`. */
  lemma SeenBeforeCons<K>(s: seq<K>, x: K, y: K)
    requires s != [] && s[0] != y && SeenBefore(s[1..], x, y)
    ensures SeenBefore(s, x, y)
  {
    var a :| 0 <= a < |s[1..]| && s[1..][a] == x && forall b :: 0 <= b <= a ==> s[1..][b] != y;
    forall b | 0 <= b <= a + 1 ensures s[b] != y {
      if b > 0 {
        assert s[b] == s[1..][b - 1];
      }
    }
  }

  /** The keys `DistinctFrom` adds to `acc` come in order of first occurrence in `s`. */
  lemma {:induction false} DistinctFromOrder<K(!new)>(s: seq<K>, acc: seq<K>)
    requires NoDup(acc)
    ensures forall p, q :: |acc| <= p < q < |DistinctFrom(s, acc)| ==>
      SeenBefore(s, DistinctFrom(s, acc)[p], DistinctFrom(s, acc)[q])
  {
    if s != [] {
      var x := s[0];
      var acc' := if x in acc then acc else acc + [x];
      var r := DistinctFrom(s, acc);
      assert r == DistinctFrom(s[1..], acc');
      DistinctFromOrder(s[1..], acc');
      var kx: nat;
      if x in acc {
        kx :| kx < |acc| && acc[kx] == x;
      } else {
        kx := |acc|;
        assert acc' == acc + [x] && acc'[kx] == x;
      }
      assert kx <= |acc| && kx < |acc'| && r[kx] == acc'[kx] == x;
      forall p, q | |acc| <= p < q < |r| ensures SeenBefore(s, r[p], r[q]) {
        assert kx < q;
        assert x != r[q];
        if p < |acc'| {
          assert r[p] == acc'[p] == x;
          SeenAtHead(s, r[q]);
        } else {
          SeenBeforeCons(s, r[p], r[q]);
        }
      }
    }
  }

  /** `Distinct` lists the keys in order of first occurrence. */
  lemma DistinctOrder<K(!new)>(s: seq<K>)
    ensures forall p, q :: 0 <= p < q < |Distinct(s)| ==> SeenBefore(s, Distinct(s)[p], Distinct(s)[q])
  {
    var none: seq<K> := [];
    DistinctFromOrder(s, none);
    var r := DistinctFrom(s, none);
    assert Distinct(s) == r && |none| == 0;
    forall p, q | 0 <= p < q < |r| ensures SeenBefore(s, r[p], r[q]) {
      assert |none| <= p < q < |r|;
    }
  }

  /** The sum of `f` over each key's group, for the keys in `ks` in turn. */
  function SumGroups<T, K(==)>(ks: seq<K>, s: seq<T>, key: T -> K, f: T -> real): real
  {
    if ks == [] then 0.0 else SumWhere(s, key, ks[0], f) + SumGroups(ks[1..], s, key, f)
  }

  function CountGroups<T, K(==)>(ks: seq<K>, s: seq<T>, key: T -> K): nat
  {
    if ks == [] then 0 else CountWhere(s, key, ks[0]) + CountGroups(ks[1..], s, key)
  }

  lemma {:induction false} SumGroupsEmpty<T, K>(ks: seq<K>, s: seq<T>, key: T -> K, f: T -> real)
    requires s == []
    ensures SumGroups(ks, s, key, f) == 0.0
    ensures CountGroups(ks, s, key) == 0
  {
    if ks != [] {
      SumGroupsEmpty(ks[1..], s, key, f);
    }
  }

  lemma {:induction false} SumGroupsCons<T, K>(ks: seq<K>, s: seq<T>, key: T -> K, f: T -> real)
    requires s != [] && NoDup(ks)
    ensures SumGroups(ks, s, key, f)
         == SumGroups(ks, s[1..], key, f) + (if key(s[0]) in ks then f(s[0]) else 0.0)
    ensures CountGroups(ks, s, key)
         == CountGroups(ks, s[1..], key) + (if key(s[0]) in ks then 1 else 0)
  {
    if ks != [] {
      assert NoDup(ks[1..]) by {
        forall i, j | 0 <= i < j < |ks[1..]| ensures ks[1..][i] != ks[1..][j] {
          assert ks[1..][i] == ks[i + 1] && ks[1..][j] == ks[j + 1];
        }
      }
      SumGroupsCons(ks[1..], s, key, f);
      assert key(s[0]) == ks[0] ==> key(s[0]) !in ks[1..];
      assert key(s[0]) in ks <==> key(s[0]) == ks[0] || key(s[0]) in ks[1..] by {
        assert ks == [ks[0]] + ks[1..];
      }
    }
  }

  /** Grouping by key and adding up the groups gives back the plain sum and count,
      provided every key occurs exactly once in `ks`. */
  lemma {:induction false} GroupsPartition<T, K>(ks: seq<K>, s: seq<T>, key: T -> K, f: T -> real)
    requires NoDup(ks)
    requires forall i :: 0 <= i < |s| ==> key(s[i]) in ks
    ensures SumGroups(ks, s, key, f) == Sum(s, f)
    ensures CountGroups(ks, s, key) == |s|
  {
    if s == [] {
      SumGroupsEmpty(ks, s, key, f);
    } else {
      SumGroupsCons(ks, s, key, f);
      assert key(s[0]) in ks;
      forall i | 0 <= i < |s[1..]| ensures key(s[1..][i]) in ks {
        assert s[1..][i] == s[i + 1];
      }
      GroupsPartition(ks, s[1..], key, f);
    }
  }

  // ---------------------------------------------------------------------------
  // Descending sort by a numeric key (`sort((a, b) => key(b) - key(a))`, stable)

  predicate SortedDesc<T>(s: seq<T>, key: T -> real) {
    forall i, j :: 0 <= i < j < |s| ==> key(s[i]) >= key(s[j])
  }

  function InsertDesc<T>(x: T, s: seq<T>, key: T -> real): (r: seq<T>)
    ensures multiset(r) == multiset(s) + multiset{x}
    ensures |r| == |s| + 1
    ensures r[0] == x || (s != [] && r[0] == s[0])
  {
    if s == [] || key(s[0]) <= key(x) then [x] + s
    else
      var rest := InsertDesc(x, s[1..], key);
      assert multiset(s) == multiset{s[0]} + multiset(s[1..]) by {
        assert s == [s[0]] + s[1..];
      }
      var r := [s[0]] + rest;
      assert multiset(r) == multiset{s[0]} + multiset(rest);
      r
  }

  /** Inserting into a descending sequence keeps it descending. */
  lemma {:induction false} InsertDescSorted<T>(x: T, s: seq<T>, key: T -> real)
    requires SortedDesc(s, key)
    ensures SortedDesc(InsertDesc(x, s, key), key)
  {
    if s == [] || key(s[0]) <= key(x) {
      HeadOnSorted(x, s, key);
    } else {
      SortedTail(s, key);
      InsertDescSorted(x, s[1..], key);
      HeadOnSorted(s[0], InsertDesc(x, s[1..], key), key);
    }
  }

  lemma SortedTail<T>(s: seq<T>, key: T -> real)
    requires SortedDesc(s, key) && s != []
    ensures SortedDesc(s[1..], key)
    ensures |s| > 1 ==> key(s[1]) <= key(s[0])
  {
    forall i, j | 0 <= i < j < |s[1..]| ensures key(s[1..][i]) >= key(s[1..][j]) {
      assert s[1..][i] == s[i + 1] && s[1..][j] == s[j + 1];
    }
  }

  /** A value no smaller than the head of a descending sequence may go in front of it. */
  lemma HeadOnSorted<T>(h: T, s: seq<T>, key: T -> real)
    requires SortedDesc(s, key)
    requires s != [] ==> key(s[0]) <= key(h)
    ensures SortedDesc([h] + s, key)
  {
    var r := [h] + s;
    forall i, j | 0 <= i < j < |r| ensures key(r[i]) >= key(r[j]) {
      if i == 0 && j > 1 {
        assert key(s[0]) >= key(s[j - 1]);
      }
    }
  }

  function SortDesc<T>(s: seq<T>, key: T -> real): (r: seq<T>)
    ensures SortedDesc(r, key)
    ensures multiset(r) == multiset(s)
    ensures |r| == |s|
  {
    if s == [] then []
    else
      assert s == [s[0]] + s[1..];
      InsertDescSorted(s[0], SortDesc(s[1..], key), key);
      InsertDesc(s[0], SortDesc(s[1..], key), key)
  }

  /** The first element after sorting is an element of the input, and none is larger. */
  lemma SortedHeadIsLargest<T>(s: seq<T>, key: T -> real)
    requires s != []
    ensures exists j :: 0 <= j < |s| && s[j] == SortDesc(s, key)[0]
    ensures forall i :: 0 <= i < |s| ==> key(s[i]) <= key(SortDesc(s, key)[0])
  {
    var r := SortDesc(s, key);
    assert r[0] in multiset(s);
    assert r[0] in s;
    forall i | 0 <= i < |s| ensures key(s[i]) <= key(r[0]) {
      assert s[i] in multiset(r);
      assert s[i] in r;
      var k :| 0 <= k < |r| && r[k] == s[i];
      if k > 0 {
        assert key(r[0]) >= key(r[k]);
      }
    }
  }

  // ---------------------------------------------------------------------------
  // Pagination: `.skip((page - 1) * limit).limit(limit)` and `Math.ceil(total / limit)`

  function Page<T>(s: seq<T>, page: nat, limit: nat): (r: seq<T>)
    requires page >= 1 && limit >= 1
    ensures |r| <= limit
    ensures (page - 1) * limit < |s| <==> r != []
    ensures r == [] || (page - 1) * limit + |r| <= |s|
    ensures forall i :: 0 <= i < |r| ==> r[i] == s[(page - 1) * limit + i]
    ensures (page - 1) * limit < |s| ==>
      |r| == if |s| - (page - 1) * limit < limit then |s| - (page - 1) * limit else limit
  {
    MulMonotone(limit, 0, page - 1);
    var skip := (page - 1) * limit;
    if skip >= |s| then [] else s[skip..if skip + limit <= |s| then skip + limit else |s|]
  }

  /** `pages` pages of `limit` records hold exactly `total` records: the last page is
      not empty, and there is no page at all when there is nothing to show. */
  predicate PagesHold(pages: nat, total: nat, limit: nat) {
    (pages - 1) * limit < total <= pages * limit || (total == 0 && pages == 0)
  }

  function TotalPages(total: nat, limit: nat): (p: nat)
    requires limit >= 1
    ensures PagesHold(p, total, limit)
  {
    (total + limit - 1) / limit
  }

  /** Every record of a result set lies on exactly one page between 1 and totalPages. */
  lemma PageCovers<T>(s: seq<T>, limit: nat, i: nat)
    requires limit >= 1 && i < |s|
    ensures 1 <= i / limit + 1 <= TotalPages(|s|, limit)
    ensures Page(s, i / limit + 1, limit)[i % limit] == s[i]
  {
    var q, m := i / limit, i % limit;
    assert q * limit + m == i && m < limit;
    PageAt(s, limit, q, m);
  }

  /** Record `m` of page `q + 1` is record `q * limit + m` of the result set. */
  lemma PageAt<T>(s: seq<T>, limit: nat, q: nat, m: nat)
    requires limit >= 1 && m < limit && q * limit + m < |s|
    ensures 1 <= q + 1 <= TotalPages(|s|, limit)
    ensures m < |Page(s, q + 1, limit)| && Page(s, q + 1, limit)[m] == s[q * limit + m]
  {
    var skip := q * limit;
    assert (q + 1) * limit == skip + limit;
    AtLeastQuotient(|s| + limit - 1, q + 1, limit);
    assert (q + 1 - 1) * limit == skip;
  }

  /** `k * d <= x` puts `k` at or below `x / d`. */
  lemma AtLeastQuotient(x: nat, k: nat, d: nat)
    requires d >= 1 && k * d <= x
    ensures k <= x / d
  {
    var q := x / d;
    assert d * q + x % d == x && x % d < d;
    assert d * (k - 1) == k * d - d;
    if q < k {
      MulMonotone(d, q, k - 1);
    }
  }

  lemma {:induction false} MulMonotone(d: nat, a: nat, b: nat)
    requires a <= b
    ensures d * a <= d * b
    decreases b - a
  {
    if a < b {
      MulMonotone(d, a, b - 1);
      assert d * b == d * (b - 1) + d;
    }
  }

  lemma OnSomePage<T>(s: seq<T>, limit: nat, i: nat)
    requires limit >= 1 && i < |s|
    ensures exists page: nat :: 1 <= page <= TotalPages(|s|, limit) && s[i] in Page(s, page, limit)
  {
    PageCovers(s, limit, i);
  }

  // ---------------------------------------------------------------------------
  // The same query for any integers the query string can carry

  /** `(page - 1) * limit`: how many records `skip` is asked to pass over. */
  function SkipOf(page: int, limit: int): int {
    (page - 1) * limit
  }

  /** The most records `limit(n)` returns: no bound for 0, and `-n` for a
      negative `n`. */
  function Bound(limit: int): nat {
    if limit < 0 then -limit else limit
  }

  /** `.skip((page - 1) * limit).limit(limit)` for any integers: a negative skip
      makes the query fail (None); otherwise the records from the skip on, as many
      as the limit's bound allows, all of them for limit 0. */
  function Window<T>(s: seq<T>, page: int, limit: int): (r: Option<seq<T>>)
    ensures r.None? <==> SkipOf(page, limit) < 0
    ensures r.Some? && limit != 0 ==> |r.value| <= Bound(limit)
    ensures r.Some? ==> forall i :: 0 <= i < |r.value| ==>
      SkipOf(page, limit) + i < |s| && r.value[i] == s[SkipOf(page, limit) + i]
    ensures r.Some? && (limit == 0 || |s| - SkipOf(page, limit) <= Bound(limit)) ==>
      |r.value| == if SkipOf(page, limit) < |s| then |s| - SkipOf(page, limit) else 0
    ensures r.Some? && limit != 0 && |s| - SkipOf(page, limit) > Bound(limit) ==> |r.value| == Bound(limit)
  {
    var skip := SkipOf(page, limit);
    if skip < 0 then None
    else if skip >= |s| then Some([])
    else if limit == 0 || |s| - skip <= Bound(limit) then Some(s[skip..])
    else Some(s[skip..skip + Bound(limit)])
  }

  /** For a page and a limit of at least 1, the window is the page. */
  lemma WindowIsPage<T>(s: seq<T>, page: int, limit: int)
    requires page >= 1 && limit >= 1
    ensures Window(s, page, limit) == Some(Page(s, page, limit))
  {
    var w := Window(s, page, limit).value;
    var r := Page(s, page, limit);
    var skip := SkipOf(page, limit);
    MulMonotone(limit, 0, page - 1);
    assert skip == (page - 1) * limit >= 0;
    if skip >= |s| {
      assert w == [] == r;
    } else {
      assert |w| == |r|;
      forall i | 0 <= i < |w| ensures w[i] == r[i] {
        assert w[i] == s[skip + i];
      }
      assert w == r;
    }
  }

  /** `Math.ceil(total / limit)` as it reaches the JSON body: `null` (None) for
      limit 0, where the quotient is Infinity or NaN; for a negative limit, the
      ceiling of a quotient at or below zero. */
  function PageCount(total: nat, limit: int): (r: Option<int>)
    ensures r.None? <==> limit == 0
    ensures limit >= 1 ==> r == Some(TotalPages(total, limit)) && PagesHold(r.value, total, limit)
    ensures limit < 0 ==>
      r.Some? && r.value <= 0 && r.value * limit <= total < (r.value - 1) * limit
  {
    if limit == 0 then None
    else if limit > 0 then Some(TotalPages(total, limit))
    else
      var n := -limit;
      var q := total / n;
      assert n * q + total % n == total && total % n < n;
      assert (-q) * limit == n * q && (-q - 1) * limit == n * q + n;
      Some(-q)
  }

  lemma WindowSorted<T>(s: seq<T>, key: T -> real, page: int, limit: int)
    requires SortedDesc(s, key) && Window(s, page, limit).Some?
    ensures SortedDesc(Window(s, page, limit).value, key)
  {
    var r := Window(s, page, limit).value;
    RunSorted(s, key, r, SkipOf(page, limit));
  }

  /** A run of consecutive elements of a sorted sequence is sorted. */
  lemma RunSorted<T>(s: seq<T>, key: T -> real, r: seq<T>, off: int)
    requires SortedDesc(s, key) && 0 <= off
    requires forall i :: 0 <= i < |r| ==> off + i < |s| && r[i] == s[off + i]
    ensures SortedDesc(r, key)
  {
    forall i, j | 0 <= i < j < |r| ensures key(r[i]) >= key(r[j]) {
      var a, b := off + i, off + j;
      assert a < |s| && r[i] == s[a];
      assert b < |s| && r[j] == s[b];
      assert key(s[a]) >= key(s[b]);
    }
  }

  lemma WindowWithin<T>(s: seq<T>, page: int, limit: int)
    requires Window(s, page, limit).Some?
    ensures forall i :: 0 <= i < |Window(s, page, limit).value| ==> Window(s, page, limit).value[i] in multiset(s)
  {
    var r := Window(s, page, limit).value;
    forall i | 0 <= i < |r| ensures r[i] in multiset(s) {
      assert r[i] == s[SkipOf(page, limit) + i];
    }
  }

  /** `find(filter).sort({ key: -1 }).skip((page - 1) * limit).limit(limit)` for
      any integers: None when the skip is negative; otherwise records passing the
      filter, largest key first, the requested page of them when page and limit
      are at least 1, and every one of them when the limit is 0. */
  function SortedWindow<T>(s: seq<T>, p: T -> bool, key: T -> real, page: int, limit: int): (r: Option<seq<T>>)
    ensures r.None? <==> SkipOf(page, limit) < 0
    ensures r.Some? ==> SortedDesc(r.value, key)
    ensures r.Some? ==> forall i :: 0 <= i < |r.value| ==> p(r.value[i]) && r.value[i] in s
    ensures r.Some? && limit != 0 ==> |r.value| <= Bound(limit)
    ensures page >= 1 && limit >= 1 ==> r == Some(SortedPage(s, p, key, page, limit))
    ensures limit == 0 ==> r == Some(SortDesc(Filter(s, p), key))
  {
    SortedWindowFacts(s, p, key, page, limit);
    Window(SortDesc(Filter(s, p), key), page, limit)
  }

  lemma SortedWindowFacts<T>(s: seq<T>, p: T -> bool, key: T -> real, page: int, limit: int)
    ensures var r := Window(SortDesc(Filter(s, p), key), page, limit);
      && (r.Some? ==> SortedDesc(r.value, key))
      && (r.Some? ==> forall i :: 0 <= i < |r.value| ==> p(r.value[i]) && r.value[i] in s)
      && (page >= 1 && limit >= 1 ==> r == Some(SortedPage(s, p, key, page, limit)))
      && (limit == 0 ==> r == Some(SortDesc(Filter(s, p), key)))
  {
    var sel := Filter(s, p);
    var sorted := SortDesc(sel, key);
    var r := Window(sorted, page, limit);
    if r.Some? {
      WindowSorted(sorted, key, page, limit);
      WindowWithin(sorted, page, limit);
      forall i | 0 <= i < |r.value| ensures p(r.value[i]) && r.value[i] in s {
        assert r.value[i] in multiset(sel);
        var j :| 0 <= j < |sel| && sel[j] == r.value[i];
      }
    }
    if page >= 1 && limit >= 1 {
      WindowIsPage(sorted, page, limit);
    }
    if limit == 0 {
      assert SkipOf(page, limit) == 0;
      assert sorted[0..] == sorted;
    }
  }

  // ---------------------------------------------------------------------------
  // Keyed lists: `findIndex(x => key(x) === k)` and `filter(x => key(x) !== k)`

  /** No two elements share a key (an id column, a unique index). */
  predicate UniqueBy<T, K(==)>(s: seq<T>, key: T -> K) {
    forall i, j :: 0 <= i < j < |s| ==> key(s[i]) != key(s[j])
  }

  /** The first position whose key is `k`, or none. */
  function IndexOf<T, K(==)>(s: seq<T>, key: T -> K, k: K): (r: Option<nat>)
    ensures r.Some? ==> r.value < |s| && key(s[r.value]) == k
    ensures r.Some? ==> forall j :: 0 <= j < r.value ==> key(s[j]) != k
    ensures r.None? <==> forall j :: 0 <= j < |s| ==> key(s[j]) != k
  {
    if s == [] then None
    else if key(s[0]) == k then Some(0)
    else match IndexOf(s[1..], key, k)
      case None => None
      case Some(i) => Some(i + 1)
  }

  /** With unique keys the first match is the only match. */
  lemma IndexOfUnique<T, K>(s: seq<T>, key: T -> K, k: K, i: nat)
    requires UniqueBy(s, key)
    requires i < |s| && key(s[i]) == k
    ensures IndexOf(s, key, k) == Some(i)
  {
  }

  /** Every element whose key is not `k`, in their original order. */
  function RemoveWhere<T, K(==)>(s: seq<T>, key: T -> K, k: K): (r: seq<T>)
    ensures |r| <= |s|
    ensures forall i :: 0 <= i < |r| ==> key(r[i]) != k
    ensures forall i :: 0 <= i < |r| ==> r[i] in s
  {
    if s == [] then []
    else (if key(s[0]) == k then [] else [s[0]]) + RemoveWhere(s[1..], key, k)
  }

  /** A filter nothing passes keeps nothing. */
  lemma {:induction false} FilterNone<T>(s: seq<T>, p: T -> bool)
    requires forall i :: 0 <= i < |s| ==> !p(s[i])
    ensures Filter(s, p) == []
  {
    if s != [] {
      assert forall i :: 0 <= i < |s[1..]| ==> s[1..][i] == s[i + 1];
      FilterNone(s[1..], p);
    }
  }

  /** Filtering distributes over concatenation, so the survivors keep their order. */
  lemma {:induction false} RemoveWhereAppend<T, K>(a: seq<T>, b: seq<T>, key: T -> K, k: K)
    ensures RemoveWhere(a + b, key, k) == RemoveWhere(a, key, k) + RemoveWhere(b, key, k)
  {
    if a == [] {
      assert a + b == b;
    } else {
      var head := if key(a[0]) == k then [] else [a[0]];
      var x, y := RemoveWhere(a[1..], key, k), RemoveWhere(b, key, k);
      calc {
        RemoveWhere(a + b, key, k);
        == { assert (a + b)[0] == a[0] && (a + b)[1..] == a[1..] + b; }
        head + RemoveWhere(a[1..] + b, key, k);
        == { RemoveWhereAppend(a[1..], b, key, k); }
        head + (x + y);
        ==
        (head + x) + y;
      }
    }
  }

  /** Removing a key no element carries changes nothing; an element with another
      key always survives. */
  lemma {:induction false} RemoveWhereKeeps<T, K>(s: seq<T>, key: T -> K, k: K)
    ensures (forall i :: 0 <= i < |s| ==> key(s[i]) != k) ==> RemoveWhere(s, key, k) == s
    ensures forall i :: 0 <= i < |s| && key(s[i]) != k ==> s[i] in RemoveWhere(s, key, k)
  {
    if s != [] {
      RemoveWhereKeeps(s[1..], key, k);
      forall i | 0 <= i < |s| && key(s[i]) != k ensures s[i] in RemoveWhere(s, key, k) {
        if i > 0 { assert s[i] == s[1..][i - 1]; }
      }
    }
  }

  lemma {:induction false} RemoveWhereUnique<T, K, K2>(s: seq<T>, key: T -> K, k: K, other: T -> K2)
    requires UniqueBy(s, other)
    ensures UniqueBy(RemoveWhere(s, key, k), other)
  {
    if s != [] {
      assert UniqueBy(s[1..], other) by {
        forall i, j | 0 <= i < j < |s[1..]| ensures other(s[1..][i]) != other(s[1..][j]) {
          assert s[1..][i] == s[i + 1] && s[1..][j] == s[j + 1];
        }
      }
      RemoveWhereUnique(s[1..], key, k, other);
      var rest := RemoveWhere(s[1..], key, k);
      forall i | 0 <= i < |rest| ensures other(rest[i]) != other(s[0]) {
        var x := rest[i];
        assert x in s[1..];
        var j :| 0 <= j < |s[1..]| && s[1..][j] == x;
        assert s[j + 1] == x;
      }
    }
  }

  /** Appending an element whose key is new keeps the keys unique. */
  lemma AppendUnique<T, K>(s: seq<T>, x: T, key: T -> K)
    requires UniqueBy(s, key)
    requires forall i :: 0 <= i < |s| ==> key(s[i]) != key(x)
    ensures UniqueBy(s + [x], key)
  {
  }

  /** Replacing an element by one with the same key keeps the keys unique. */
  lemma ReplaceUnique<T, K>(s: seq<T>, i: nat, x: T, key: T -> K)
    requires UniqueBy(s, key) && i < |s|
    requires forall j :: 0 <= j < |s| && j != i ==> key(s[j]) != key(x)
    ensures UniqueBy(s[i := x], key)
  {
  }

  // ---------------------------------------------------------------------------
  // `filter` and `$group`

  /** The elements satisfying `p`, in order. */
  function Filter<T>(s: seq<T>, p: T -> bool): (r: seq<T>)
    ensures |r| <= |s|
    ensures forall i :: 0 <= i < |r| ==> p(r[i]) && r[i] in s
    ensures forall i :: 0 <= i < |s| && p(s[i]) ==> s[i] in r
  {
    if s == [] then []
    else
      var rest := Filter(s[1..], p);
      assert forall i :: 1 <= i < |s| ==> s[i] == s[1..][i - 1];
      (if p(s[0]) then [s[0]] else []) + rest
  }

  /** Filtering distributes over concatenation: it keeps what it keeps in order. */
  lemma {:induction false} FilterAppend<T>(a: seq<T>, b: seq<T>, p: T -> bool)
    ensures Filter(a + b, p) == Filter(a, p) + Filter(b, p)
  {
    if a == [] {
      assert a + b == b;
    } else {
      assert (a + b)[0] == a[0];
      assert (a + b)[1..] == a[1..] + b;
      FilterAppend(a[1..], b, p);
    }
  }

  /** A predicate every element meets filters nothing out. */
  lemma {:induction false} FilterKeepsAll<T>(s: seq<T>, p: T -> bool)
    requires forall i :: 0 <= i < |s| ==> p(s[i])
    ensures Filter(s, p) == s
  {
    if s != [] {
      assert p(s[0]);
      forall i | 0 <= i < |s[1..]| ensures p(s[1..][i]) {
        assert s[1..][i] == s[i + 1];
      }
      FilterKeepsAll(s[1..], p);
      assert Filter(s, p) == [s[0]] + Filter(s[1..], p);
      assert [s[0]] + s[1..] == s;
    }
  }

  /** One `$group` output row: the key, how many elements carry it and the sum of
      their values. */
  datatype Group<K> = Group(key: K, count: nat, total: real)

  function GroupKey<K>(g: Group<K>): K { g.key }
  function GroupTotal<K>(g: Group<K>): real { g.total }

  /** One row per key of `ks`, in that order. */
  function GroupRows<T, K(==)>(ks: seq<K>, s: seq<T>, key: T -> K, f: T -> real): (g: seq<Group<K>>)
    ensures |g| == |ks|
    ensures forall i :: 0 <= i < |ks| ==>
      g[i] == Group(ks[i], CountWhere(s, key, ks[i]), SumWhere(s, key, ks[i], f))
  {
    if ks == [] then [] else [Group(ks[0], CountWhere(s, key, ks[0]), SumWhere(s, key, ks[0], f))] + GroupRows(ks[1..], s, key, f)
  }

  function CountSum<K>(g: seq<Group<K>>): nat {
    if g == [] then 0 else g[0].count + CountSum(g[1..])
  }

  lemma {:induction false} GroupRowsSums<T, K>(ks: seq<K>, s: seq<T>, key: T -> K, f: T -> real)
    ensures CountSum(GroupRows(ks, s, key, f)) == CountGroups(ks, s, key)
    ensures Sum(GroupRows(ks, s, key, f), GroupTotal) == SumGroups(ks, s, key, f)
  {
    if ks != [] {
      var g := GroupRows(ks, s, key, f);
      assert g[1..] == GroupRows(ks[1..], s, key, f);
      GroupRowsSums(ks[1..], s, key, f);
    }
  }

  /** `$group` by `key` summing `f`: one row per distinct key in order of first
      occurrence. The counts add up to the number of elements and the totals to
      the sum over all of them; no row is empty. */
  function GroupAll<T, K(==,!new)>(s: seq<T>, key: T -> K, f: T -> real): (g: seq<Group<K>>)
    ensures CountSum(g) == |s|
    ensures Sum(g, GroupTotal) == Sum(s, f)
    ensures NoDup(KeysOf(g, GroupKey))
    ensures forall i :: 0 <= i < |g| ==> g[i].count > 0
    ensures forall k :: k in KeysOf(g, GroupKey) <==> exists i :: 0 <= i < |s| && key(s[i]) == k
  {
    var ks := Distinct(KeysOf(s, key));
    var g := GroupRows(ks, s, key, f);
    GroupRowsSums(ks, s, key, f);
    assert forall i :: 0 <= i < |s| ==> key(s[i]) in ks by {
      forall i | 0 <= i < |s| ensures key(s[i]) in ks {
        assert KeysOf(s, key)[i] == key(s[i]);
      }
    }
    GroupsPartition(ks, s, key, f);
    assert KeysOf(g, GroupKey) == ks;
    forall i | 0 <= i < |g| ensures g[i].count > 0 {
      assert ks[i] in KeysOf(s, key);
      var j :| 0 <= j < |s| && KeysOf(s, key)[j] == ks[i];
      CountWhereBound(s, key, ks[i]);
    }
    forall k ensures k in ks <==> exists i :: 0 <= i < |s| && key(s[i]) == k {
      if k in ks {
        var j :| 0 <= j < |s| && KeysOf(s, key)[j] == k;
      }
      if exists i :: 0 <= i < |s| && key(s[i]) == k {
        var i :| 0 <= i < |s| && key(s[i]) == k;
        assert KeysOf(s, key)[i] == k;
      }
    }
    g
  }

  /** Each `GroupAll` row is the count and sum of its key, and the keys are the
      distinct keys of `s` in order of first occurrence. */
  lemma GroupAllRows<T, K(!new)>(s: seq<T>, key: T -> K, f: T -> real)
    ensures KeysOf(GroupAll(s, key, f), GroupKey) == Distinct(KeysOf(s, key))
    ensures forall i :: 0 <= i < |GroupAll(s, key, f)| ==>
      && GroupAll(s, key, f)[i].count == CountWhere(s, key, GroupAll(s, key, f)[i].key)
      && GroupAll(s, key, f)[i].total == SumWhere(s, key, GroupAll(s, key, f)[i].key, f)
  {
    var ks := Distinct(KeysOf(s, key));
    assert GroupAll(s, key, f) == GroupRows(ks, s, key, f);
  }

  /** `g` answers a `$group` on `key` over `s`: in some order, one row per key
      occurring in `s`, none twice, each with that key's count and sum of `f`. */
  predicate GroupsOf<T, K(==)>(g: seq<Group<K>>, s: seq<T>, key: T -> K, f: T -> real) {
    && NoDup(KeysOf(g, GroupKey))
    && (forall i :: 0 <= i < |g| ==>
          && g[i].count == CountWhere(s, key, g[i].key) > 0
          && g[i].total == SumWhere(s, key, g[i].key, f))
    && (forall j :: 0 <= j < |s| ==> exists i :: 0 <= i < |g| && g[i].key == key(s[j]))
  }

  lemma GroupAllGroups<T, K(!new)>(s: seq<T>, key: T -> K, f: T -> real)
    ensures GroupsOf(GroupAll(s, key, f), s, key, f)
  {
    var g := GroupAll(s, key, f);
    GroupAllRows(s, key, f);
    forall j | 0 <= j < |s| ensures exists i :: 0 <= i < |g| && g[i].key == key(s[j]) {
      assert key(s[j]) in KeysOf(g, GroupKey);
      var i :| 0 <= i < |g| && KeysOf(g, GroupKey)[i] == key(s[j]);
      assert g[i].key == key(s[j]);
    }
  }

  /** Grouping one element gives one row: its key, a count of 1 and its value. */
  lemma SingleGroup<T, K>(g: seq<Group<K>>, s: seq<T>, key: T -> K, f: T -> real)
    requires |s| == 1 && GroupsOf(g, s, key, f) && CountSum(g) == 1
    ensures g == [Group(key(s[0]), 1, f(s[0]))]
  {
    CountSumAtLeastRows(g);
    var x := s[0];
    assert s[1..] == [];
    forall j | 0 <= j < |g| ensures KeysOf(g, GroupKey)[j] == key(x) {
      assert CountWhere(s, key, g[j].key) == (if key(x) == g[j].key then 1 else 0) + CountWhere(s[1..], key, g[j].key);
    }
    var i :| 0 <= i < |g| && g[i].key == key(x);
    assert |g| == 1;
    assert CountWhere(s, key, key(x)) == 1 + CountWhere(s[1..], key, key(x));
    assert SumWhere(s, key, key(x), f) == f(x) + SumWhere(s[1..], key, key(x), f);
    assert g[0].key == key(x) && g[0].count == 1 && g[0].total == f(x);
  }

  /** Rows with positive counts count at least one element each. */
  lemma {:induction false} CountSumAtLeastRows<K>(g: seq<Group<K>>)
    requires forall i :: 0 <= i < |g| ==> g[i].count > 0
    ensures CountSum(g) >= |g|
  {
    if g != [] {
      assert forall i :: 0 <= i < |g[1..]| ==> g[1..][i] == g[i + 1];
      CountSumAtLeastRows(g[1..]);
    }
  }

  /** Reordering the rows of a `$group` answer (a `$sort`) keeps it one. */
  lemma PermutedGroups<T, K>(g: seq<Group<K>>, h: seq<Group<K>>, s: seq<T>, key: T -> K, f: T -> real)
    requires GroupsOf(g, s, key, f) && multiset(h) == multiset(g)
    ensures GroupsOf(h, s, key, f)
  {
    forall i | 0 <= i < |h|
      ensures h[i].count == CountWhere(s, key, h[i].key) > 0 && h[i].total == SumWhere(s, key, h[i].key, f)
    {
      assert h[i] in multiset(g);
      var a :| 0 <= a < |g| && g[a] == h[i];
    }
    forall j | 0 <= j < |s| ensures exists i :: 0 <= i < |h| && h[i].key == key(s[j]) {
      var a :| 0 <= a < |g| && g[a].key == key(s[j]);
      assert g[a] in multiset(h);
      var i :| 0 <= i < |h| && h[i] == g[a];
    }
    forall i, j | 0 <= i < j < |h| ensures KeysOf(h, GroupKey)[i] != KeysOf(h, GroupKey)[j] {
      if h[i].key == h[j].key {
        assert h[i] in multiset(g) && h[j] in multiset(g);
        var a :| 0 <= a < |g| && g[a] == h[i];
        var b :| 0 <= b < |g| && g[b] == h[j];
        assert KeysOf(g, GroupKey)[a] == KeysOf(g, GroupKey)[b];
        assert a == b;
        UniqueKeyOnce(g, a);
        TwiceCounted(h, i, j);
        assert false;
      }
    }
  }

  /** A row of a sequence with distinct keys occurs in it once. */
  lemma {:induction false} UniqueKeyOnce<K>(g: seq<Group<K>>, a: nat)
    requires NoDup(KeysOf(g, GroupKey)) && a < |g|
    ensures multiset(g)[g[a]] == 1
  {
    assert g == g[..a] + [g[a]] + g[a + 1..];
    forall k | 0 <= k < |g| && k != a ensures g[k] != g[a] {
      assert KeysOf(g, GroupKey)[k] != KeysOf(g, GroupKey)[a];
    }
    assert g[a] !in g[..a];
    var rest := g[a + 1..];
    assert g[a] !in rest by {
      forall k | 0 <= k < |rest| ensures rest[k] != g[a] {
        assert rest[k] == g[a + 1 + k];
      }
    }
  }

  /** A value at two positions occurs at least twice. */
  lemma TwiceCounted<T>(s: seq<T>, i: nat, j: nat)
    requires i < j < |s| && s[i] == s[j]
    ensures multiset(s)[s[i]] >= 2
  {
    assert s == s[..j] + [s[j]] + s[j + 1..];
    assert s[..j][i] == s[i];
    assert s[i] in multiset(s[..j]);
  }

  /** With non-negative values, one key's sum lies between 0 and the whole sum. */
  lemma {:induction false} SumWhereBound<T, K>(s: seq<T>, key: T -> K, k: K, f: T -> real)
    requires forall i :: 0 <= i < |s| ==> f(s[i]) >= 0.0
    ensures 0.0 <= SumWhere(s, key, k, f) <= Sum(s, f)
  {
    if s != [] {
      assert forall i :: 0 <= i < |s[1..]| ==> s[1..][i] == s[i + 1];
      SumWhereBound(s[1..], key, k, f);
    }
  }

  /** Filtering on one key value keeps exactly the elements the per-key count and
      sum see. */
  lemma {:induction false} FilterWhere<T, K>(s: seq<T>, p: T -> bool, key: T -> K, k: K, f: T -> real)
    requires forall x :: p(x) <==> key(x) == k
    ensures |Filter(s, p)| == CountWhere(s, key, k)
    ensures Sum(Filter(s, p), f) == SumWhere(s, key, k, f)
  {
    if s != [] {
      FilterWhere(s[1..], p, key, k, f);
      var head: seq<T> := if p(s[0]) then [s[0]] else [];
      SumAppend(head, Filter(s[1..], p), f);
      if p(s[0]) {
        assert head[1..] == [];
      }
    }
  }

  lemma PageSorted<T>(s: seq<T>, key: T -> real, page: nat, limit: nat)
    requires page >= 1 && limit >= 1 && SortedDesc(s, key)
    ensures SortedDesc(Page(s, page, limit), key)
  {
    var r := Page(s, page, limit);
    var off := (page - 1) * limit;
    forall i, j | 0 <= i < j < |r| ensures key(r[i]) >= key(r[j]) {
      assert off + i < |s| && r[i] == s[off + i];
      assert off + j < |s| && r[j] == s[off + j];
    }
  }

  lemma PageWithin<T>(s: seq<T>, page: nat, limit: nat)
    requires page >= 1 && limit >= 1
    ensures forall i :: 0 <= i < |Page(s, page, limit)| ==> Page(s, page, limit)[i] in multiset(s)
  {
    var r := Page(s, page, limit);
    forall i | 0 <= i < |r| ensures r[i] in multiset(s) {
      assert r[i] == s[(page - 1) * limit + i];
    }
  }

  /** `find(filter).sort({ key: -1 }).skip((page - 1) * limit).limit(limit)`: the
      requested page of the records passing the filter, largest key first. */
  function SortedPage<T>(s: seq<T>, p: T -> bool, key: T -> real, page: nat, limit: nat): (r: seq<T>)
    requires page >= 1 && limit >= 1
    ensures |r| <= limit
    ensures SortedDesc(r, key)
    ensures forall i :: 0 <= i < |r| ==> p(r[i]) && r[i] in s
    ensures r == Page(SortDesc(Filter(s, p), key), page, limit)
  {
    var sel := Filter(s, p);
    var sorted := SortDesc(sel, key);
    var r := Page(sorted, page, limit);
    PageSorted(sorted, key, page, limit);
    PageWithin(sorted, page, limit);
    assert forall i :: 0 <= i < |r| ==> p(r[i]) && r[i] in s by {
      forall i | 0 <= i < |r| ensures p(r[i]) && r[i] in s {
        assert r[i] in multiset(sel);
        var j :| 0 <= j < |sel| && sel[j] == r[i];
      }
    }
    r
  }

  /** Every record passing the filter is on one of the pages 1 to totalPages. */
  lemma SortedPageCovers<T>(s: seq<T>, p: T -> bool, key: T -> real, limit: nat, x: T)
    requires limit >= 1 && x in s && p(x)
    ensures exists page: nat ::
      1 <= page <= TotalPages(|Filter(s, p)|, limit) && x in SortedPage(s, p, key, page, limit)
  {
    var sel := Filter(s, p);
    var sorted := SortDesc(sel, key);
    var j :| 0 <= j < |s| && s[j] == x;
    assert x in sel;
    assert x in multiset(sel);
    assert x in multiset(sorted);
    var i :| 0 <= i < |sorted| && sorted[i] == x;
    OnSomePage(sorted, limit, i);
    var page: nat :| 1 <= page <= TotalPages(|sorted|, limit) && x in Page(sorted, page, limit);
    assert x in SortedPage(s, p, key, page, limit);
  }

  /** The first page holds the largest keys: a match whose key exceeds that of a
      record on the first page is on the first page too. */
  lemma FirstPageHoldsLargest<T>(s: seq<T>, p: T -> bool, key: T -> real, limit: nat, x: T, i: nat)
    requires limit >= 1 && x in s && p(x)
    requires i < |SortedPage(s, p, key, 1, limit)| && key(x) > key(SortedPage(s, p, key, 1, limit)[i])
    ensures x in SortedPage(s, p, key, 1, limit)
  {
    var sel := Filter(s, p);
    var sorted := SortDesc(sel, key);
    var r := SortedPage(s, p, key, 1, limit);
    assert x in sel;
    assert x in multiset(sorted);
    var k :| 0 <= k < |sorted| && sorted[k] == x;
    assert r[i] == sorted[i];
    assert r[k] == x;
  }

  // ---------------------------------------------------------------------------
  // Sorting moves elements but keeps sums

  lemma {:induction false} InsertDescSum<T>(x: T, s: seq<T>, key: T -> real, f: T -> real)
    ensures Sum(InsertDesc(x, s, key), f) == f(x) + Sum(s, f)
  {
    if s == [] || key(s[0]) <= key(x) {
      assert ([x] + s)[1..] == s;
    } else {
      InsertDescSum(x, s[1..], key, f);
      var r := InsertDesc(x, s, key);
      assert r[1..] == InsertDesc(x, s[1..], key);
    }
  }

  lemma {:induction false} SortDescSum<T>(s: seq<T>, key: T -> real, f: T -> real)
    ensures Sum(SortDesc(s, key), f) == Sum(s, f)
  {
    if s != [] {
      SortDescSum(s[1..], key, f);
      InsertDescSum(s[0], SortDesc(s[1..], key), key, f);
    }
  }

  lemma {:induction false} InsertDescCount<K>(x: Group<K>, s: seq<Group<K>>, key: Group<K> -> real)
    ensures CountSum(InsertDesc(x, s, key)) == x.count + CountSum(s)
  {
    if s == [] || key(s[0]) <= key(x) {
      assert ([x] + s)[1..] == s;
    } else {
      InsertDescCount(x, s[1..], key);
      var r := InsertDesc(x, s, key);
      assert r[1..] == InsertDesc(x, s[1..], key);
    }
  }

  lemma {:induction false} SortDescCount<K>(s: seq<Group<K>>, key: Group<K> -> real)
    ensures CountSum(SortDesc(s, key)) == CountSum(s)
  {
    if s != [] {
      SortDescCount(s[1..], key);
      InsertDescCount(s[0], SortDesc(s[1..], key), key);
    }
  }
}
