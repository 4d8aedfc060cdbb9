/**
 * The wallet ranking `sorted(wallets.items(), key=lambda x: x[1], reverse=True)[:10]`:
 * a stable sort by tally, largest first, truncated. Python's sort keeps equal
 * keys in their original order even with reverse=True.
 */
module Ranking {
  import opened Wrappers

  /** A (delegator address, tally in uheli) pair. */
  type Item = (string, int)

  predicate NonIncreasing(s: seq<Item>) {
    forall i, j :: 0 <= i < j < |s| ==> s[i].1 >= s[j].1
  }

  /** The items of `s` whose tally is `v`, in their order in `s`. */
  function WithTally(s: seq<Item>, v: int): seq<Item>
  {
    if s == [] then []
    else (if s[0].1 == v then [s[0]] else []) + WithTally(s[1..], v)
  }

  /** Places `x` before the first item whose tally is not larger than its own. */
  function Insert(x: Item, s: seq<Item>): seq<Item>
  {
    if s == [] then [x]
    else if s[0].1 <= x.1 then [x] + s
    else [s[0]] + Insert(x, s[1..])
  }

  /** Insertion sort from the back, so earlier items precede later ones of equal tally. */
  function SortByTally(items: seq<Item>): seq<Item>
  {
    if items == [] then [] else Insert(items[0], SortByTally(items[1..]))
  }

  /** The first `n` items of the sorted list. */
  function Top(items: seq<Item>, n: nat): seq<Item>
  {
    var s := SortByTally(items);
    s[..Min(n, |s|)]
  }

  lemma {:induction false} InsertPermutes(x: Item, s: seq<Item>)
    ensures multiset(Insert(x, s)) == multiset(s) + multiset{x}
  {
    if s != [] && s[0].1 > x.1 {
      InsertPermutes(x, s[1..]);
      assert s == [s[0]] + s[1..];
    }
  }

  lemma {:induction false} InsertSorted(x: Item, s: seq<Item>)
    requires NonIncreasing(s)
    ensures NonIncreasing(Insert(x, s))
  {
    if s != [] && s[0].1 > x.1 {
      InsertSorted(x, s[1..]);
      InsertPermutes(x, s[1..]);
      var r := Insert(x, s);
      assert r == [s[0]] + Insert(x, s[1..]);
      forall j | 0 < j < |r| ensures r[0].1 >= r[j].1 {
        assert r[j] in multiset(Insert(x, s[1..]));
        if r[j] != x {
          assert r[j] in multiset(s[1..]);
          var i :| 0 <= i < |s[1..]| && s[1..][i] == r[j];
          assert s[i + 1] == r[j];
        }
      }
    }
  }

  lemma {:induction false} InsertStable(x: Item, s: seq<Item>, v: int)
    requires NonIncreasing(s)
    ensures WithTally(Insert(x, s), v) == (if x.1 == v then [x] else []) + WithTally(s, v)
  {
    if s == [] {
      assert [x][1..] == [];
    } else if s[0].1 <= x.1 {
      var r := [x] + s;
      assert r[1..] == s;
    } else {
      InsertStable(x, s[1..], v);
      var r := [s[0]] + Insert(x, s[1..]);
      assert r[1..] == Insert(x, s[1..]);
    }
  }

  /** The sorted list is in non-increasing tally order and is a permutation of the items. */
  lemma {:induction false} SortByTallyFacts(items: seq<Item>)
    ensures NonIncreasing(SortByTally(items))
    ensures multiset(SortByTally(items)) == multiset(items)
    ensures forall v :: WithTally(SortByTally(items), v) == WithTally(items, v)
  {
    if items != [] {
      SortByTallyFacts(items[1..]);
      InsertSorted(items[0], SortByTally(items[1..]));
      InsertPermutes(items[0], SortByTally(items[1..]));
      assert items == [items[0]] + items[1..];
      forall v ensures WithTally(SortByTally(items), v) == WithTally(items, v) {
        InsertStable(items[0], SortByTally(items[1..]), v);
        assert WithTally(items, v) == (if items[0].1 == v then [items[0]] else []) + WithTally(items[1..], v);
      }
    }
  }

  lemma {:induction false} WithTallyConcat(a: seq<Item>, b: seq<Item>, v: int)
    ensures WithTally(a + b, v) == WithTally(a, v) + WithTally(b, v)
  {
    if a != [] {
      assert (a + b)[1..] == a[1..] + b;
      WithTallyConcat(a[1..], b, v);
    } else {
      assert a + b == b;
    }
  }

  /** Every item left out of the first `n` has a tally no larger than the last listed one. */
  lemma TopLeavesOutSmaller(items: seq<Item>, n: nat)
    requires |Top(items, n)| > 0
    ensures forall x :: x in items && x !in Top(items, n) ==> x.1 <= Top(items, n)[|Top(items, n)| - 1].1
  {
    var s := SortByTally(items);
    SortByTallyFacts(items);
    var t := Top(items, n);
    forall x | x in items && x !in t ensures x.1 <= t[|t| - 1].1 {
      assert x in multiset(s);
      var i :| 0 <= i < |s| && s[i] == x;
      assert forall j :: 0 <= j < |t| ==> t[j] == s[j];
      assert i >= |t|;
    }
  }

  /** Among equal tallies the listed items are the first ones of that tally. */
  lemma TopIsStable(items: seq<Item>, n: nat)
    ensures forall v :: WithTally(Top(items, n), v) <= WithTally(items, v)
  {
    var s := SortByTally(items);
    SortByTallyFacts(items);
    var t := Top(items, n);
    assert s == t + s[|t|..];
    forall v ensures WithTally(t, v) <= WithTally(items, v) {
      WithTallyConcat(t, s[|t|..], v);
    }
  }

  /**
   * What the ranking promises: at most `n` items, largest tally first, every
   * listed item comes from `items`, everything left out has a tally no larger
   * than the last listed one, and among equal tallies the listed items are the
   * first ones of that tally in the original order.
   */
  lemma TopFacts(items: seq<Item>, n: nat)
    ensures |Top(items, n)| == Min(n, |items|)
    ensures NonIncreasing(Top(items, n))
    ensures multiset(Top(items, n)) <= multiset(items)
    ensures |Top(items, n)| > 0 ==> forall x :: x in items && x !in Top(items, n) ==> x.1 <= Top(items, n)[|Top(items, n)| - 1].1
    ensures forall v :: WithTally(Top(items, n), v) <= WithTally(items, v)
  {
    var s := SortByTally(items);
    SortByTallyFacts(items);
    assert |s| == |multiset(s)| == |items|;
    var t := Top(items, n);
    assert s == t + s[|t|..];
    assert multiset(s) == multiset(t) + multiset(s[|t|..]);
    if |t| > 0 {
      TopLeavesOutSmaller(items, n);
    }
    TopIsStable(items, n);
  }
}
