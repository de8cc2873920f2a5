/** Sorting by a key: comparators that chain several columns compare key
    sequences lexicographically. */
module Ordering {
  /** The first column that differs decides. */
  predicate Before(a: seq<int>, b: seq<int>) {
    if |a| == 0 || |b| == 0 then false
    else if a[0] != b[0] then a[0] < b[0]
    else Before(a[1..], b[1..])
  }

  lemma {:induction false} BeforeTransitive(a: seq<int>, b: seq<int>, c: seq<int>)
    requires |a| == |b| == |c| && Before(a, b) && Before(b, c)
    ensures Before(a, c)
  {
    if a[0] == b[0] && b[0] == c[0] { BeforeTransitive(a[1..], b[1..], c[1..]); }
  }

  lemma {:induction false} BeforeTotal(a: seq<int>, b: seq<int>)
    requires |a| == |b|
    ensures Before(a, b) || Before(b, a) || a == b
    ensures !(Before(a, b) && Before(b, a)) && !Before(a, a)
  {
    if |a| > 0 {
      BeforeTotal(a[1..], b[1..]);
      assert a == [a[0]] + a[1..] && b == [b[0]] + b[1..];
    }
  }

  /** Keys of one width, so that any two compare. */
  ghost predicate Uniform<T(!new)>(key: T -> seq<int>) {
    forall x, y :: |key(x)| == |key(y)|
  }

  ghost predicate Ordered<T(!new)>(key: T -> seq<int>, xs: seq<T>) {
    forall i, j :: 0 <= i < j < |xs| ==> Before(key(xs[i]), key(xs[j]))
  }

  /** No two positions hold the same key. */
  ghost predicate Unlike<T(!new)>(key: T -> seq<int>, xs: seq<T>) {
    forall i, j :: 0 <= i < j < |xs| ==> key(xs[i]) != key(xs[j])
  }

  /** Where a stable sort leaves `x` when it is appended to a sorted sequence. */
  function Place<T>(key: T -> seq<int>, xs: seq<T>, x: T): (r: seq<T>)
    ensures |r| == |xs| + 1
    ensures multiset(r) == multiset(xs) + multiset{x}
  {
    if |xs| == 0 then [x]
    else
      var last := xs[|xs| - 1];
      assert xs == xs[..|xs| - 1] + [last];
      if Before(key(x), key(last)) then Place(key, xs[..|xs| - 1], x) + [last] else xs + [x]
  }

  function SortBy<T>(key: T -> seq<int>, xs: seq<T>): (r: seq<T>)
    ensures |r| == |xs|
    ensures multiset(r) == multiset(xs)
  {
    if |xs| == 0 then []
    else
      assert xs == xs[..|xs| - 1] + [xs[|xs| - 1]];
      Place(key, SortBy(key, xs[..|xs| - 1]), xs[|xs| - 1])
  }

  lemma MultisetMembers<T>(xs: seq<T>, ys: seq<T>)
    requires multiset(xs) == multiset(ys)
    ensures forall x :: x in xs <==> x in ys
  {
    forall x ensures x in xs <==> x in ys {
      assert x in xs <==> x in multiset(xs);
      assert x in ys <==> x in multiset(ys);
    }
  }

  lemma PlaceMembers<T>(key: T -> seq<int>, xs: seq<T>, x: T)
    ensures forall y :: y in Place(key, xs, x) <==> y in xs || y == x
  {
    forall y ensures y in Place(key, xs, x) <==> y in xs || y == x {
      assert y in Place(key, xs, x) <==> y in multiset(Place(key, xs, x));
      assert y in xs <==> y in multiset(xs);
    }
  }

  lemma {:induction false} PlaceOrdered<T(!new)>(key: T -> seq<int>, xs: seq<T>, x: T)
    requires Uniform(key) && Ordered(key, xs) && forall i :: 0 <= i < |xs| ==> key(xs[i]) != key(x)
    ensures Ordered(key, Place(key, xs, x))
  {
    if |xs| > 0 {
      var n := |xs| - 1;
      var last := xs[n];
      BeforeTotal(key(x), key(last));
      if Before(key(x), key(last)) {
        PlaceOrdered(key, xs[..n], x);
        PlaceMembers(key, xs[..n], x);
        var front := Place(key, xs[..n], x);
        forall i | 0 <= i < |front| ensures Before(key(front[i]), key(last)) {
          assert front[i] in front;
        }
      } else {
        forall i | 0 <= i < |xs| ensures Before(key(xs[i]), key(x)) {
          if i < n { BeforeTransitive(key(xs[i]), key(last), key(x)); }
        }
      }
    }
  }

  lemma {:induction false} SortOrdered<T(!new)>(key: T -> seq<int>, xs: seq<T>)
    requires Uniform(key) && Unlike(key, xs)
    ensures Ordered(key, SortBy(key, xs))
  {
    if |xs| > 0 {
      var n := |xs| - 1;
      SortOrdered(key, xs[..n]);
      var rest := SortBy(key, xs[..n]);
      MultisetMembers(rest, xs[..n]);
      forall i | 0 <= i < |rest| ensures key(rest[i]) != key(xs[n]) {
        assert rest[i] in xs[..n];
        var k :| 0 <= k < n && xs[..n][k] == rest[i];
      }
      PlaceOrdered(key, rest, xs[n]);
    }
  }

  /** Two ordered sequences with the same elements are the same sequence, so
      what a sort returns does not depend on how it sorts. */
  lemma {:induction false} OrderedUnique<T(!new)>(key: T -> seq<int>, xs: seq<T>, ys: seq<T>)
    requires Uniform(key) && Ordered(key, xs) && Ordered(key, ys)
    requires forall x :: x in xs <==> x in ys
    ensures xs == ys
    decreases |xs|
  {
    if |xs| == 0 {
      if |ys| > 0 { HasMember(ys); }
    } else {
      assert xs[0] in ys;
      assert ys[0] in xs;
      HeadsAgree(key, xs, ys);
      forall x ensures x in xs[1..] <==> x in ys[1..] {
        TailMembers(key, xs, x);
        TailMembers(key, ys, x);
      }
      forall i, j | 0 <= i < j < |xs[1..]| ensures Before(key(xs[1..][i]), key(xs[1..][j])) {
        assert Before(key(xs[i + 1]), key(xs[j + 1]));
      }
      forall i, j | 0 <= i < j < |ys[1..]| ensures Before(key(ys[1..][i]), key(ys[1..][j])) {
        assert Before(key(ys[i + 1]), key(ys[j + 1]));
      }
      OrderedUnique(key, xs[1..], ys[1..]);
      assert xs == [xs[0]] + xs[1..] && ys == [ys[0]] + ys[1..];
    }
  }

  lemma HasMember<T>(ys: seq<T>)
    requires |ys| > 0
    ensures exists y :: y in ys
  {
    assert ys[0] in ys;
  }

  lemma HeadsAgree<T(!new)>(key: T -> seq<int>, xs: seq<T>, ys: seq<T>)
    requires Uniform(key) && Ordered(key, xs) && Ordered(key, ys) && |xs| > 0 && |ys| > 0
    requires xs[0] in ys && ys[0] in xs
    ensures xs[0] == ys[0]
  {
    var i :| 0 <= i < |ys| && ys[i] == xs[0];
    var j :| 0 <= j < |xs| && xs[j] == ys[0];
    BeforeTotal(key(xs[0]), key(ys[0]));
  }

  lemma TailMembers<T(!new)>(key: T -> seq<int>, xs: seq<T>, x: T)
    requires Uniform(key) && Ordered(key, xs) && |xs| > 0
    ensures x in xs[1..] <==> x in xs && x != xs[0]
  {
    if x in xs[1..] {
      var i :| 0 <= i < |xs[1..]| && xs[1..][i] == x;
      assert Before(key(xs[0]), key(xs[i + 1]));
      BeforeTotal(key(xs[0]), key(x));
    }
    if x in xs && x != xs[0] {
      var i :| 0 <= i < |xs| && xs[i] == x;
      assert xs[1..][i - 1] == x;
    }
  }

  // ----- the first k -----

  function Trim<T>(k: nat, xs: seq<T>): seq<T> {
    if |xs| > k then xs[..k] else xs
  }

  /** Push, sort, and drop the last when there are more than `k`. */
  function Best<T>(key: T -> seq<int>, k: nat, xs: seq<T>): (r: seq<T>)
    ensures |r| <= k
  {
    if |xs| == 0 then []
    else
      var pushed := Place(key, Best(key, k, xs[..|xs| - 1]), xs[|xs| - 1]);
      if |pushed| > k then pushed[..|pushed| - 1] else pushed
  }

  /** `best` holds the first k elements of `all` in order. */
  ghost predicate FirstOf<T(!new)>(key: T -> seq<int>, k: nat, best: seq<T>, all: seq<T>) {
    && Ordered(key, best) && |best| <= k
    && (forall x :: x in best ==> x in all)
    && (forall x :: x in all && x !in best ==> |best| == k && forall i :: 0 <= i < |best| ==> Before(key(best[i]), key(x)))
  }

  lemma {:induction false} BestIsFirst<T(!new)>(key: T -> seq<int>, k: nat, xs: seq<T>)
    requires Uniform(key) && Unlike(key, xs)
    ensures FirstOf(key, k, Best(key, k, xs), xs)
  {
    if |xs| > 0 {
      var n := |xs| - 1;
      var x := xs[n];
      var best := Best(key, k, xs[..n]);
      BestIsFirst(key, k, xs[..n]);
      forall i | 0 <= i < |best| ensures key(best[i]) != key(x) {
        assert best[i] in xs[..n];
        var j :| 0 <= j < n && xs[..n][j] == best[i];
      }
      PlaceOrdered(key, best, x);
      PlaceMembers(key, best, x);
      assert forall y :: y in xs <==> y in xs[..n] || y == x;
      PushedIsFirst(key, k, best, xs[..n], x, xs);
    }
  }

  lemma PushedIsFirst<T(!new)>(key: T -> seq<int>, k: nat, best: seq<T>, all: seq<T>, x: T, all': seq<T>)
    requires Uniform(key) && FirstOf(key, k, best, all) && Ordered(key, Place(key, best, x))
    requires forall y :: y in Place(key, best, x) <==> y in best || y == x
    requires forall y :: y in all' <==> y in all || y == x
    ensures var pushed := Place(key, best, x);
            FirstOf(key, k, if |pushed| > k then pushed[..|pushed| - 1] else pushed, all')
  {
    hide Place, Before, Uniform;
    var pushed := Place(key, best, x);
    if |pushed| > k {
      var r := pushed[..k];
      assert pushed == r + [pushed[k]];
      forall y, i | y in all' && y !in r && 0 <= i < |r| ensures Before(key(r[i]), key(y)) {
        KeptComesFirst(key, best, x, pushed, i, y);
      }
    }
  }

  /** What is kept comes before the element pushed out, and before everything
      that was left out earlier. */
  lemma KeptComesFirst<T(!new)>(key: T -> seq<int>, best: seq<T>, x: T, pushed: seq<T>, i: nat, y: T)
    requires Uniform(key) && Ordered(key, pushed) && |pushed| > 0 && i < |pushed| - 1
    requires forall z :: z in pushed <==> z in best || z == x
    requires y != pushed[|pushed| - 1] ==> forall j :: 0 <= j < |best| ==> Before(key(best[j]), key(y))
    ensures Before(key(pushed[i]), key(y))
  {
    var last := pushed[|pushed| - 1];
    assert Before(key(pushed[i]), key(last));
    if y != last && pushed[i] !in best {
      assert pushed[i] in pushed && last in pushed;
      BeforeTotal(key(x), key(last));
      assert last in best;
      BeforeTransitive(key(x), key(last), key(y));
    } else if y != last {
      var j :| 0 <= j < |best| && best[j] == pushed[i];
    }
  }

  /** The first k are determined by the elements alone, not by their order. */
  lemma FirstUnique<T(!new)>(key: T -> seq<int>, k: nat, a: seq<T>, b: seq<T>, xs: seq<T>, ys: seq<T>)
    requires Uniform(key) && FirstOf(key, k, a, xs) && FirstOf(key, k, b, ys)
    requires forall x :: x in xs <==> x in ys
    ensures a == b
  {
    forall x | x in a ensures x in b { FirstIncluded(key, k, a, b, xs, ys, x); }
    forall x | x in b ensures x in a { FirstIncluded(key, k, b, a, ys, xs, x); }
    OrderedUnique(key, a, b);
  }

  lemma FirstIncluded<T(!new)>(key: T -> seq<int>, k: nat, a: seq<T>, b: seq<T>, xs: seq<T>, ys: seq<T>, x: T)
    requires Uniform(key) && FirstOf(key, k, a, xs) && FirstOf(key, k, b, ys) && x in a
    requires forall y :: y in xs <==> y in ys
    ensures x in b
  {
    if x !in b {
      // all of b would come before x, hence be in a: one too many
      forall i | 0 <= i < |b| ensures b[i] in a {
        InOrAfter(key, k, a, xs, x, b[i]);
        BeforeTotal(key(x), key(b[i]));
      }
      DistinctFit(key, b, x, a);
    }
  }

  lemma InOrAfter<T(!new)>(key: T -> seq<int>, k: nat, a: seq<T>, xs: seq<T>, x: T, y: T)
    requires FirstOf(key, k, a, xs) && x in a && y in xs
    ensures y in a || Before(key(x), key(y))
  {
    var j :| 0 <= j < |a| && a[j] == x;
  }

  lemma DistinctFit<T(!new)>(key: T -> seq<int>, b: seq<T>, x: T, a: seq<T>)
    requires Uniform(key) && Ordered(key, b) && Ordered(key, a) && x in a && x !in b
    requires forall i :: 0 <= i < |b| ==> b[i] in a
    ensures |b| < |a|
  {
    var sb := set y | y in b;
    var sa := set y | y in a;
    OrderedSize(key, b);
    OrderedSize(key, a);
    assert sb + {x} <= sa;
    SubsetSize(sb + {x}, sa);
  }

  lemma SubsetSize<T>(s: set<T>, t: set<T>)
    requires s <= t
    ensures |s| <= |t|
  {
    if s != {} {
      var x :| x in s;
      SubsetSize(s - {x}, t - {x});
    }
  }

  lemma {:induction false} OrderedSize<T(!new)>(key: T -> seq<int>, xs: seq<T>)
    requires Uniform(key) && Ordered(key, xs)
    ensures |set y | y in xs| == |xs|
  {
    if |xs| > 0 {
      var n := |xs| - 1;
      OrderedSize(key, xs[..n]);
      assert xs == xs[..n] + [xs[n]];
      assert xs[n] !in xs[..n] by {
        forall i | 0 <= i < n ensures xs[..n][i] != xs[n] {
          assert Before(key(xs[i]), key(xs[n]));
          BeforeTotal(key(xs[n]), key(xs[n]));
        }
      }
      assert (set y | y in xs) == (set y | y in xs[..n]) + {xs[n]};
    }
  }
}
