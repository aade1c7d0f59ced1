/** client/src/pages/Dashboard.tsx: the recent-activity lists, the last five
    invoices and expenses of the slices' lists, last one first. */
module DashboardPage {
  import opened Folds

  /** What the selector hands over: an array, or, guarded against, anything else. */
  datatype Listing<T> = List(items: seq<T>) | NotAList

  /** `reverse` on a fresh copy. */
  function Reversed<T>(s: seq<T>): (r: seq<T>)
    ensures |r| == |s|
    ensures forall i :: 0 <= i < |s| ==> r[i] == s[|s| - 1 - i]
  {
    if s == [] then [] else Reversed(s[1..]) + [s[0]]
  }

  /** `slice(-5)`: the last five, or all when there are fewer. */
  function LastFive<T>(s: seq<T>): (r: seq<T>)
    ensures |r| == (if |s| < 5 then |s| else 5)
    ensures s == s[..|s| - |r|] + r
  {
    var start := if |s| < 5 then 0 else |s| - 5;
    assert s == s[..start] + s[start..];
    s[start..]
  }

  function Min(a: nat, b: nat): nat {
    if a < b then a else b
  }

  /** `Array.isArray(x) ? x.slice(-5).reverse() : []`: the last five of the list,
      last one first, which is the start of the whole list reversed. */
  function Recent<T>(x: Listing<T>): (r: seq<T>)
    ensures x.NotAList? ==> r == []
    ensures x.List? ==> |r| == Min(5, |x.items|)
    ensures x.List? ==> forall i :: 0 <= i < |r| ==> r[i] == x.items[|x.items| - 1 - i]
    ensures x.List? ==> r == Reversed(x.items)[..|r|]
  {
    match x
    case NotAList => []
    case List(items) =>
      var last := LastFive(items);
      ReversedSuffix(items, last);
      Reversed(last)
  }

  /** Reversing a suffix gives the start of the whole list reversed. */
  lemma ReversedSuffix<T>(items: seq<T>, last: seq<T>)
    requires |last| <= |items| && items == items[..|items| - |last|] + last
    ensures forall i :: 0 <= i < |last| ==> Reversed(last)[i] == items[|items| - 1 - i]
    ensures Reversed(last) == Reversed(items)[..|last|]
  {
    var r := Reversed(last);
    forall i | 0 <= i < |last| ensures r[i] == items[|items| - 1 - i] {
      assert r[i] == last[|last| - 1 - i];
      assert last[|last| - 1 - i] == items[|items| - |last| + (|last| - 1 - i)];
    }
  }

  /** The record a slice appended last heads the recent list. */
  lemma NewestFirst<T>(s: seq<T>, x: T)
    ensures Recent(List(s + [x])) != [] && Recent(List(s + [x]))[0] == x
  {
    var r := Recent(List(s + [x]));
    assert |r| >= 1;
  }

  /** A list as the server sends it, newest first, shows its five oldest records,
      oldest first: each shown record is no newer than the next one shown and no
      newer than any record left out. */
  lemma FetchedListShowsOldest<T>(s: seq<T>, createdAt: T -> real)
    requires SortedDesc(s, createdAt)
    ensures var r := Recent(List(s));
      && (forall i, j :: 0 <= i < j < |r| ==> createdAt(r[i]) <= createdAt(r[j]))
      && (forall i, j :: 0 <= i < |r| && 0 <= j < |s| - |r| ==> createdAt(r[i]) <= createdAt(s[j]))
  {
    var r := Recent(List(s));
    TailReversedAscends(s, createdAt, r);
  }

  /** The last records of a list sorted newest first, taken last one first, come
      oldest first and are no newer than the records before them. */
  lemma TailReversedAscends<T>(s: seq<T>, createdAt: T -> real, r: seq<T>)
    requires SortedDesc(s, createdAt) && |r| <= |s|
    requires forall i :: 0 <= i < |r| ==> r[i] == s[|s| - 1 - i]
    ensures forall i, j :: 0 <= i < j < |r| ==> createdAt(r[i]) <= createdAt(r[j])
    ensures forall i, j :: 0 <= i < |r| && 0 <= j < |s| - |r| ==> createdAt(r[i]) <= createdAt(s[j])
  {
    var n := |s|;
    forall i, j | 0 <= i < j < |r| ensures createdAt(r[i]) <= createdAt(r[j]) {
      assert r[i] == s[n - 1 - i] && r[j] == s[n - 1 - j];
    }
    forall i, j | 0 <= i < |r| && 0 <= j < n - |r| ensures createdAt(r[i]) <= createdAt(s[j]) {
      assert r[i] == s[n - 1 - i];
    }
  }
}
