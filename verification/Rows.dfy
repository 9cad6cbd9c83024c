/** Table rows addressed by number: index scans, ordering, bounded reads. */
module Rows {

  function AtMost<T>(xs: seq<T>, n: nat): seq<T> {
    if |xs| <= n then xs else xs[..n]
  }

  ghost predicate Distinct<T(!new)>(xs: seq<T>) {
    forall i, j :: 0 <= i < j < |xs| ==> xs[i] != xs[j]
  }

  function Elements<T>(xs: seq<T>): set<T> {
    set x | x in xs
  }

  lemma {:induction false} ElementsCount<T(!new)>(xs: seq<T>)
    ensures |Elements(xs)| <= |xs|
    ensures Distinct(xs) ==> |Elements(xs)| == |xs|
  {
    if xs != [] {
      var init, last := xs[..|xs| - 1], xs[|xs| - 1];
      ElementsCount(init);
      assert xs == init + [last];
      assert Elements(xs) == Elements(init) + {last};
      if Distinct(xs) {
        assert forall i :: 0 <= i < |init| ==> init[i] == xs[i] && init[i] != last;
      }
    }
  }

  lemma {:induction false} Subset<T>(a: set<T>, b: set<T>)
    requires a <= b
    ensures |a| <= |b|
    ensures |a| == |b| ==> a == b
  {
    assert b == a + (b - a);
  }

  lemma AtMostKeeps<T(!new)>(xs: seq<T>, n: nat)
    ensures Distinct(xs) ==> Distinct(AtMost(xs, n))
    ensures forall x :: x in AtMost(xs, n) ==> x in xs
    ensures |AtMost(xs, n)| == if |xs| <= n then |xs| else n
  {
  }

  /** What a bounded read left out lies beyond its bound. */
  lemma BeyondBound<T>(xs: seq<T>, n: nat, x: T) returns (at: nat)
    requires x in xs && x !in AtMost(xs, n)
    ensures n <= at < |xs| && xs[at] == x
  {
    at :| 0 <= at < |xs| && xs[at] == x;
    assert forall k :: 0 <= k < |AtMost(xs, n)| ==> AtMost(xs, n)[k] == xs[k] && AtMost(xs, n)[k] in AtMost(xs, n);
  }

  /** The numbers of the rows that satisfy `p`, in table order. */
  function Where<T>(rows: seq<T>, p: T -> bool): seq<nat> {
    if rows == [] then []
    else
      var n := |rows| - 1;
      Where(rows[..n], p) + (if p(rows[n]) then [n] else [])
  }

  lemma {:induction false} WhereSelects<T>(rows: seq<T>, p: T -> bool)
    ensures forall i :: i in Where(rows, p) <==> 0 <= i < |rows| && p(rows[i])
    ensures Distinct(Where(rows, p))
    ensures |Where(rows, p)| <= |rows|
  {
    if rows != [] {
      var n := |rows| - 1;
      var found, all := Where(rows[..n], p), Where(rows, p);
      WhereSelects(rows[..n], p);
      assert all == found + (if p(rows[n]) then [n] else []);
      hide Where;
      assert forall k :: 0 <= k < |found| ==> found[k] in found;
      forall i ensures i in all <==> 0 <= i < |rows| && p(rows[i]) {
        assert i in all <==> i in found || (i == n && p(rows[n]));
        if 0 <= i < n { assert rows[..n][i] == rows[i]; }
      }
      forall i, j | 0 <= i < j < |all| ensures all[i] != all[j] {
        assert all[i] == found[i];
        if j < |found| { assert all[j] == found[j]; } else { assert all[j] == n && found[i] < n; }
      }
    }
  }

  /** `Where` sees the rows only through `p`. */
  lemma {:induction false} WhereAgrees<T>(a: seq<T>, b: seq<T>, p: T -> bool)
    requires |a| == |b| && forall i :: 0 <= i < |a| ==> p(a[i]) == p(b[i])
    ensures Where(a, p) == Where(b, p)
  {
    if a != [] {
      var n := |a| - 1;
      assert forall i :: 0 <= i < n ==> a[..n][i] == a[i] && b[..n][i] == b[i];
      WhereAgrees(a[..n], b[..n], p);
    }
  }

  function First<T>(rows: seq<T>, p: T -> bool): (r: int)
    ensures r >= 0 ==> r < |rows| && p(rows[r])
    ensures r < 0 ==> forall i :: 0 <= i < |rows| ==> !p(rows[i])
  {
    WhereSelects(rows, p);
    var found := Where(rows, p);
    if found == [] then
      (assert forall i :: 0 <= i < |rows| ==> !p(rows[i]) by {
         forall i | 0 <= i < |rows| ensures !p(rows[i]) { assert !(i in found); }
       }
       -1)
    else assert found[0] in found; found[0]
  }

  // ---------- keeping ----------

  function Keep<T>(xs: seq<T>, p: T -> bool): seq<T> {
    if xs == [] then []
    else Keep(xs[..|xs| - 1], p) + if p(xs[|xs| - 1]) then [xs[|xs| - 1]] else []
  }

  lemma {:induction false} KeepIs<T>(xs: seq<T>, p: T -> bool)
    ensures forall x :: x in Keep(xs, p) <==> x in xs && p(x)
    ensures |Keep(xs, p)| <= |xs|
  {
    if xs != [] {
      KeepIs(xs[..|xs| - 1], p);
      assert xs == xs[..|xs| - 1] + [xs[|xs| - 1]];
    }
  }

  lemma {:induction false} KeepAppend<T>(xs: seq<T>, ys: seq<T>, p: T -> bool)
    ensures Keep(xs + ys, p) == Keep(xs, p) + Keep(ys, p)
  {
    if ys == [] {
      assert xs + ys == xs;
    } else {
      var init := ys[..|ys| - 1];
      assert (xs + ys)[..|xs + ys| - 1] == xs + init;
      KeepAppend(xs, init, p);
    }
  }

  lemma {:induction false} KeepAll<T>(xs: seq<T>, p: T -> bool)
    requires forall x :: x in xs ==> p(x)
    ensures Keep(xs, p) == xs
  {
    if xs != [] {
      assert xs[|xs| - 1] in xs;
      KeepAll(xs[..|xs| - 1], p);
      assert xs == xs[..|xs| - 1] + [xs[|xs| - 1]];
    }
  }

  lemma KeepNone<T>(xs: seq<T>, p: T -> bool)
    requires forall x :: x in xs ==> !p(x)
    ensures Keep(xs, p) == []
  {
    KeepIs(xs, p);
    var kept := Keep(xs, p);
    assert forall i :: 0 <= i < |kept| ==> kept[i] in kept;
  }

  // ---------- ordering ----------

  ghost predicate StrictOrder(less: (nat, nat) -> bool) {
    && (forall a, b :: less(a, b) ==> !less(b, a))
    && (forall a, b, c :: less(a, c) ==> less(a, b) || less(b, c))
  }

  ghost predicate Ordered(xs: seq<nat>, less: (nat, nat) -> bool) {
    forall i, j :: 0 <= i < j < |xs| ==> !less(xs[j], xs[i])
  }

  function Insert(x: nat, xs: seq<nat>, less: (nat, nat) -> bool): (r: seq<nat>)
    ensures multiset(r) == multiset(xs) + multiset{x}
  {
    if xs == [] || less(x, xs[0]) then [x] + xs
    else
      assert xs == [xs[0]] + xs[1..];
      [xs[0]] + Insert(x, xs[1..], less)
  }

  function Sort(xs: seq<nat>, less: (nat, nat) -> bool): (r: seq<nat>)
    ensures multiset(r) == multiset(xs)
  {
    if xs == [] then [] else
      assert xs == [xs[0]] + xs[1..];
      Insert(xs[0], Sort(xs[1..], less), less)
  }

  lemma {:induction false} InsertOrdered(x: nat, xs: seq<nat>, less: (nat, nat) -> bool)
    requires StrictOrder(less) && Ordered(xs, less)
    ensures Ordered(Insert(x, xs, less), less)
  {
    var r := Insert(x, xs, less);
    if xs == [] || less(x, xs[0]) {
      forall i, j | 0 <= i < j < |r| ensures !less(r[j], r[i]) {
        if i == 0 && j > 1 { assert !less(xs[j - 1], xs[0]); }
      }
    } else {
      var rest := Insert(x, xs[1..], less);
      InsertOrdered(x, xs[1..], less);
      forall i, j | 0 <= i < j < |r| ensures !less(r[j], r[i]) {
        if i == 0 {
          assert rest[j - 1] in multiset(xs[1..]) + multiset{x};
          if rest[j - 1] != x {
            assert rest[j - 1] in xs[1..];
            var k :| 0 <= k < |xs[1..]| && xs[1..][k] == rest[j - 1];
            assert xs[k + 1] == r[j];
          }
        }
      }
    }
  }

  lemma {:induction false} SortOrdered(xs: seq<nat>, less: (nat, nat) -> bool)
    requires StrictOrder(less)
    ensures Ordered(Sort(xs, less), less)
  {
    if xs != [] {
      SortOrdered(xs[1..], less);
      InsertOrdered(xs[0], Sort(xs[1..], less), less);
    }
  }

  /** Sorting neither loses, adds nor repeats a row. */
  lemma SortKeeps(xs: seq<nat>, less: (nat, nat) -> bool)
    ensures |Sort(xs, less)| == |xs|
    ensures Elements(Sort(xs, less)) == Elements(xs)
    ensures Distinct(xs) ==> Distinct(Sort(xs, less))
  {
    var r := Sort(xs, less);
    assert |multiset(r)| == |multiset(xs)|;
    assert forall x :: x in r <==> x in multiset(r);
    assert forall x :: x in xs <==> x in multiset(xs);
    if Distinct(xs) {
      forall x ensures multiset(xs)[x] <= 1 { AtMostOnce(xs, x); }
      DistinctByCount(r);
    }
  }

  lemma {:induction false} AtMostOnce<T(!new)>(xs: seq<T>, x: T)
    requires Distinct(xs)
    ensures multiset(xs)[x] <= 1
  {
    if xs != [] {
      var init, last := xs[..|xs| - 1], xs[|xs| - 1];
      assert xs == init + [last];
      assert forall i :: 0 <= i < |init| ==> init[i] == xs[i] && init[i] != last;
      AtMostOnce(init, x);
      assert last !in init;
    }
  }

  lemma {:induction false} DistinctByCount<T(!new)>(xs: seq<T>)
    requires forall x :: multiset(xs)[x] <= 1
    ensures Distinct(xs)
  {
    if xs != [] {
      var init, last := xs[..|xs| - 1], xs[|xs| - 1];
      assert xs == init + [last];
      assert multiset(xs) == multiset(init) + multiset{last};
      assert forall x :: multiset(init)[x] <= multiset(xs)[x];
      DistinctByCount(init);
      assert multiset(xs)[last] == multiset(init)[last] + 1;
      assert last !in init;
      assert forall i :: 0 <= i < |init| ==> xs[i] == init[i] && init[i] in init;
    }
  }
}
