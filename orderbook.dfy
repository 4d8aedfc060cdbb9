/**
 * Decoy-order detection over the exchange's orderbook (bids then asks):
 * small orders are grouped by price, the per-price totals are listed in
 * ascending price order, at most `MaxDisplay` lines, with a count of the
 * prices that did not fit. Prices and quantities are exact reals.
 */
module Orderbook {
  import opened Wrappers

  /** One (price, quantity) orderbook level. */
  datatype Order = Order(price: real, qty: real)

  const ThresholdSmallOrder: real := 10000.0
  const ThresholdCount: nat := 8
  const MaxDisplay: nat := 20

  predicate IsSmall(o: Order) {
    o.qty < ThresholdSmallOrder
  }

  /** The list comprehension keeping orders whose quantity is below the threshold. */
  function SmallOrders(orders: seq<Order>): seq<Order>
  {
    if orders == [] then []
    else (if IsSmall(orders[0]) then [orders[0]] else []) + SmallOrders(orders[1..])
  }

  lemma {:induction false} SmallOrdersFacts(orders: seq<Order>)
    ensures forall o :: o in SmallOrders(orders) <==> o in orders && IsSmall(o)
  {
    if orders != [] {
      SmallOrdersFacts(orders[1..]);
      assert orders == [orders[0]] + orders[1..];
    }
  }

  lemma {:induction false} SmallOrdersConcat(a: seq<Order>, b: seq<Order>)
    ensures SmallOrders(a + b) == SmallOrders(a) + SmallOrders(b)
  {
    if a != [] {
      assert (a + b)[1..] == a[1..] + b;
      SmallOrdersConcat(a[1..], b);
    } else {
      assert a + b == b;
    }
  }

  /** Total quantity of a list of orders. */
  function SumQty(s: seq<Order>): real
  {
    if s == [] then 0.0 else SumQty(s[..|s|-1]) + s[|s|-1].qty
  }

  /** Total quantity of the orders at `price`. */
  function QtyAt(s: seq<Order>, price: real): real
  {
    if s == [] then 0.0
    else QtyAt(s[..|s|-1], price) + (if s[|s|-1].price == price then s[|s|-1].qty else 0.0)
  }

  /** The defaultdict after `summary[price] += qty` for every order in turn. */
  function PriceTotals(s: seq<Order>): map<real, real>
  {
    if s == [] then map[]
    else
      var m := PriceTotals(s[..|s|-1]);
      var o := s[|s|-1];
      m[o.price := (if o.price in m then m[o.price] else 0.0) + o.qty]
  }

  /** A price that appears in no order has no quantity. */
  lemma {:induction false} QtyAtAbsent(s: seq<Order>, p: real)
    requires forall o :: o in s ==> o.price != p
    ensures QtyAt(s, p) == 0.0
  {
    if s != [] {
      QtyAtAbsent(s[..|s|-1], p);
    }
  }

  /** The summary has one key per distinct price. */
  lemma {:induction false} PriceTotalsKeys(s: seq<Order>)
    ensures forall p :: p in PriceTotals(s) <==> exists o :: o in s && o.price == p
  {
    if s != [] {
      var prev := s[..|s|-1];
      PriceTotalsKeys(prev);
      assert s == prev + [s[|s|-1]];
      forall p | (exists o :: o in s && o.price == p) ensures p in PriceTotals(s) {
        var o :| o in s && o.price == p;
        if o != s[|s|-1] {
          assert o in prev;
        }
      }
    }
  }

  /** Each summary entry holds the total quantity of the orders at its price. */
  lemma {:induction false} PriceTotalsQty(s: seq<Order>)
    ensures forall p :: p in PriceTotals(s) ==> PriceTotals(s)[p] == QtyAt(s, p)
  {
    if s != [] {
      var prev := s[..|s|-1];
      var o := s[|s|-1];
      var m := PriceTotals(prev);
      PriceTotalsQty(prev);
      PriceTotalsKeys(prev);
      forall p | p in PriceTotals(s) ensures PriceTotals(s)[p] == QtyAt(s, p) {
        assert QtyAt(s, p) == QtyAt(prev, p) + (if o.price == p then o.qty else 0.0);
        if p == o.price && p !in m {
          QtyAtAbsent(prev, p);
        }
      }
    }
  }

  /** The loop `for price, qty in small_orders: summary[price] += qty`. */
  method GroupByPrice(small: seq<Order>) returns (summary: map<real, real>)
    ensures summary == PriceTotals(small)
  {
    summary := map[];
    var i := 0;
    while i < |small|
      invariant 0 <= i <= |small|
      invariant summary == PriceTotals(small[..i])
    {
      var o := small[i];
      assert small[..i+1][..i] == small[..i];
      summary := summary[o.price := (if o.price in summary then summary[o.price] else 0.0) + o.qty];
      i := i + 1;
    }
    assert small[..|small|] == small;
  }

  lemma HasElement(s: set<real>)
    requires |s| > 0
    ensures exists z :: z in s
  {
    if forall z :: z !in s {
      assert false;
    }
  }

  lemma {:induction false} MinExists(s: set<real>)
    requires |s| > 0
    ensures exists x :: x in s && forall y :: y in s ==> x <= y
  {
    HasElement(s);
    var z :| z in s;
    var rest := s - {z};
    if rest == {} {
      assert forall y :: y in s ==> z <= y by {
        forall y | y in s ensures z <= y {
          assert y !in rest;
        }
      }
    } else {
      MinExists(rest);
      var x :| x in rest && forall y :: y in rest ==> x <= y;
      var w := if z < x then z else x;
      assert forall y :: y in s ==> w <= y by {
        forall y | y in s ensures w <= y {
          if y != z {
            assert y in rest;
          }
        }
      }
    }
  }

  /** The smallest price of a non-empty summary. */
  function MinKey(m: map<real, real>): (k: real)
    requires |m| > 0
    ensures k in m && forall q :: q in m ==> k <= q
  {
    assert |m.Keys| == |m|;
    MinExists(m.Keys);
    var k :| k in m && forall q :: q in m ==> k <= q;
    k
  }

  lemma RemoveKeySize(m: map<real, real>, k: real)
    requires k in m
    ensures |m - {k}| == |m| - 1
  {
    assert (m - {k}).Keys == m.Keys - {k};
  }

  /** `sorted(summary.items())`: the (price, total) pairs in ascending price order. */
  function SortedLevels(m: map<real, real>): (levels: seq<(real, real)>)
    ensures |levels| == |m|
    decreases |m|
  {
    if |m| == 0 then []
    else
      var k := MinKey(m);
      RemoveKeySize(m, k);
      [(k, m[k])] + SortedLevels(m - {k})
  }

  /** Every listed pair is a summary entry. */
  lemma {:induction false} LevelsFromMap(m: map<real, real>)
    ensures forall i :: 0 <= i < |SortedLevels(m)| ==>
      SortedLevels(m)[i].0 in m && m[SortedLevels(m)[i].0] == SortedLevels(m)[i].1
    decreases |m|
  {
    if |m| > 0 {
      var k := MinKey(m);
      var rest := m - {k};
      RemoveKeySize(m, k);
      LevelsFromMap(rest);
      var levels := SortedLevels(m);
      var tail := SortedLevels(rest);
      assert levels == [(k, m[k])] + tail;
      forall i | 0 <= i < |levels| ensures levels[i].0 in m && m[levels[i].0] == levels[i].1 {
        if i > 0 {
          assert levels[i] == tail[i - 1];
        }
      }
    }
  }

  /** The listing is strictly ascending in price. */
  lemma {:induction false} LevelsAscending(m: map<real, real>)
    ensures forall i, j :: 0 <= i < j < |SortedLevels(m)| ==> SortedLevels(m)[i].0 < SortedLevels(m)[j].0
    decreases |m|
  {
    if |m| > 0 {
      var k := MinKey(m);
      var rest := m - {k};
      RemoveKeySize(m, k);
      LevelsAscending(rest);
      LevelsFromMap(rest);
      var levels := SortedLevels(m);
      var tail := SortedLevels(rest);
      assert levels == [(k, m[k])] + tail;
      forall i, j | 0 <= i < j < |levels| ensures levels[i].0 < levels[j].0 {
        assert levels[j] == tail[j - 1];
        assert tail[j - 1].0 in rest;
        if i > 0 {
          assert levels[i] == tail[i - 1];
        }
      }
    }
  }

  /** `price` is the price of one of the listed pairs. */
  predicate Lists(levels: seq<(real, real)>, price: real) {
    exists i :: 0 <= i < |levels| && levels[i].0 == price
  }

  /** Every summary entry is listed. */
  lemma {:induction false} LevelsCoverMap(m: map<real, real>)
    ensures forall p :: p in m ==> Lists(SortedLevels(m), p)
    decreases |m|
  {
    if |m| > 0 {
      var k := MinKey(m);
      var rest := m - {k};
      RemoveKeySize(m, k);
      LevelsCoverMap(rest);
      var levels := SortedLevels(m);
      var tail := SortedLevels(rest);
      assert levels == [(k, m[k])] + tail;
      forall p | p in m ensures Lists(levels, p) {
        if p == k {
          assert levels[0].0 == p;
        } else {
          assert p in rest;
          var i :| 0 <= i < |tail| && tail[i].0 == p;
          assert levels[i + 1].0 == p;
        }
      }
    } else {
      assert m.Keys == {};
    }
  }

  function SumLevels(levels: seq<(real, real)>): real
  {
    if levels == [] then 0.0 else levels[0].1 + SumLevels(levels[1..])
  }

  /** Summing the listing does not depend on which entry is taken out first. */
  lemma {:induction false} SumLevelsRemove(m: map<real, real>, p: real)
    requires p in m
    ensures SumLevels(SortedLevels(m)) == m[p] + SumLevels(SortedLevels(m - {p}))
    decreases |m|
  {
    var k := MinKey(m);
    RemoveKeySize(m, k);
    RemoveKeySize(m, p);
    if k != p {
      var mk := m - {k};
      var mp := m - {p};
      SumLevelsRemove(mk, p);
      assert MinKey(mp) == k by {
        var k2 := MinKey(mp);
        assert k in mp;
        assert k <= k2 && k2 <= k;
      }
      assert mk - {p} == mp - {k};
    }
  }

  lemma UpdateThenRemove(m: map<real, real>, p: real, v: real)
    ensures m[p := v] - {p} == m - {p}
  {
  }

  lemma RemoveAbsent(m: map<real, real>, p: real)
    requires p !in m
    ensures m - {p} == m
  {
  }

  lemma SumLevelsUpdate(m: map<real, real>, p: real, v: real)
    ensures SumLevels(SortedLevels(m[p := v])) ==
      SumLevels(SortedLevels(m)) - (if p in m then m[p] else 0.0) + v
  {
    var m' := m[p := v];
    SumLevelsRemove(m', p);
    UpdateThenRemove(m, p, v);
    if p in m {
      SumLevelsRemove(m, p);
    } else {
      RemoveAbsent(m, p);
    }
  }

  /** The per-price totals add up to the total quantity of the small orders. */
  lemma {:induction false} SummaryAddsUp(s: seq<Order>)
    ensures SumLevels(SortedLevels(PriceTotals(s))) == SumQty(s)
  {
    if s != [] {
      var prev := s[..|s|-1];
      SummaryAddsUp(prev);
      var m := PriceTotals(prev);
      var o := s[|s|-1];
      SumLevelsUpdate(m, o.price, (if o.price in m then m[o.price] else 0.0) + o.qty);
    }
  }

  /**
   * The message body: the number of small orders, the first `MaxDisplay`
   * (price, total) lines in ascending price order, and the number of prices
   * left off (0 when the "...and N more" suffix is absent).
   */
  datatype DecoyReport = DecoyReport(count: nat, lines: seq<(real, real)>, hidden: nat)

  function Report(small: seq<Order>): DecoyReport
  {
    var levels := SortedLevels(PriceTotals(small));
    DecoyReport(|small|, levels[..Min(MaxDisplay, |levels|)],
                if |levels| > MaxDisplay then |levels| - MaxDisplay else 0)
  }

  /**
   * The report counts every small order, shows min(MaxDisplay, prices) lines,
   * and carries the "N more" suffix exactly when there are more prices than
   * that, with N the prices left off.
   */
  lemma ReportShape(small: seq<Order>)
    ensures Report(small).count == |small|
    ensures |Report(small).lines| == Min(MaxDisplay, |PriceTotals(small)|)
    ensures Report(small).hidden > 0 <==> |PriceTotals(small)| > MaxDisplay
    ensures Report(small).hidden > 0 ==> Report(small).hidden == |PriceTotals(small)| - MaxDisplay
  {
  }

  /** The listed lines are in ascending price order, each one a price's total. */
  lemma ReportLines(small: seq<Order>)
    ensures forall i, j :: 0 <= i < j < |Report(small).lines| ==> Report(small).lines[i].0 < Report(small).lines[j].0
    ensures forall i :: 0 <= i < |Report(small).lines| ==>
      (exists o :: o in small && o.price == Report(small).lines[i].0) &&
      Report(small).lines[i].1 == QtyAt(small, Report(small).lines[i].0)
  {
    var m := PriceTotals(small);
    var levels := SortedLevels(m);
    var lines := Report(small).lines;
    assert lines == levels[..Min(MaxDisplay, |levels|)];
    LevelsAscending(m);
    LevelsFromMap(m);
    PriceTotalsKeys(small);
    PriceTotalsQty(small);
    forall i | 0 <= i < |lines|
      ensures (exists o :: o in small && o.price == lines[i].0) && lines[i].1 == QtyAt(small, lines[i].0)
    {
      assert lines[i] == levels[i];
      assert levels[i].0 in m;
    }
  }

  /** The listed prices are the smallest ones: every price left off is above them all. */
  lemma ReportShowsLowest(small: seq<Order>, p: real)
    requires p in PriceTotals(small)
    requires forall j :: 0 <= j < |Report(small).lines| ==> Report(small).lines[j].0 != p
    ensures forall i :: 0 <= i < |Report(small).lines| ==> Report(small).lines[i].0 < p
  {
    var m := PriceTotals(small);
    var levels := SortedLevels(m);
    var lines := Report(small).lines;
    assert lines == levels[..Min(MaxDisplay, |levels|)];
    LevelsAscending(m);
    LevelsCoverMap(m);
    var k :| 0 <= k < |levels| && levels[k].0 == p;
    assert forall i :: 0 <= i < |lines| ==> lines[i] == levels[i];
    assert k >= |lines|;
  }

  /** detect_doilai: no report when there is no small order, otherwise the listing. */
  method DetectDecoys(bids: seq<Order>, asks: seq<Order>) returns (reply: Option<DecoyReport>)
    ensures reply.None? <==> SmallOrders(bids + asks) == []
    ensures reply.Some? ==> reply.value == Report(SmallOrders(bids + asks))
  {
    var small := SmallOrders(bids + asks);
    if small == [] {
      return None;
    }
    var summary := GroupByPrice(small);
    var levels := SortedLevels(summary);
    var shown := levels[..Min(MaxDisplay, |levels|)];
    var hidden := if |levels| > MaxDisplay then |levels| - MaxDisplay else 0;
    reply := Some(DecoyReport(|small|, shown, hidden));
  }

  /**
   * alert_handler, and the body of one round of alert_loop: the warning is
   * produced exactly when there are at least `ThresholdCount` small orders.
   */
  method AlertCheck(bids: seq<Order>, asks: seq<Order>) returns (alert: Option<DecoyReport>)
    ensures alert.Some? <==> |SmallOrders(bids + asks)| >= ThresholdCount
    ensures alert.Some? ==> alert.value == Report(SmallOrders(bids + asks))
  {
    var small := SmallOrders(bids + asks);
    if |small| < ThresholdCount {
      return None;
    }
    var summary := GroupByPrice(small);
    var levels := SortedLevels(summary);
    var shown := levels[..Min(MaxDisplay, |levels|)];
    var hidden := if |levels| > MaxDisplay then |levels| - MaxDisplay else 0;
    alert := Some(DecoyReport(|small|, shown, hidden));
  }

  /** An alert always comes with a non-empty listing, so it implies a detect_doilai report. */
  lemma AlertImpliesDetection(bids: seq<Order>, asks: seq<Order>)
    requires |SmallOrders(bids + asks)| >= ThresholdCount
    ensures |Report(SmallOrders(bids + asks)).lines| > 0
  {
    var small := SmallOrders(bids + asks);
    assert small[0] in small;
    PriceTotalsKeys(small);
    assert small[0].price in PriceTotals(small);
    ReportLines(small);
  }

  /** The periodic job keeps the orders whose quantity is above 1000 instead. */
  const JobThreshold: real := 1000.0

  function BigOrders(orders: seq<Order>): seq<Order>
  {
    if orders == [] then []
    else (if orders[0].qty > JobThreshold then [orders[0]] else []) + BigOrders(orders[1..])
  }

  lemma {:induction false} BigOrdersFacts(orders: seq<Order>)
    ensures forall o :: o in BigOrders(orders) <==> o in orders && o.qty > JobThreshold
  {
    if orders != [] {
      BigOrdersFacts(orders[1..]);
      assert orders == [orders[0]] + orders[1..];
    }
  }

  /** job_detect_doilai: no message without such an order, otherwise one line per order, in book order. */
  method JobDetect(bids: seq<Order>, asks: seq<Order>) returns (lines: Option<seq<Order>>)
    ensures lines.None? <==> forall o :: o in bids + asks ==> o.qty <= JobThreshold
    ensures lines.Some? ==> lines.value == BigOrders(bids + asks)
  {
    BigOrdersFacts(bids + asks);
    var big := BigOrders(bids + asks);
    if big == [] {
      return None;
    }
    assert big[0] in big;
    lines := Some(big);
  }

  /** An order of quantity strictly between 1000 and 10000 is reported by both the job and the handlers. */
  lemma JobAndHandlersOverlap(o: Order)
    requires JobThreshold < o.qty < ThresholdSmallOrder
    ensures o in BigOrders([o]) && o in SmallOrders([o])
  {
    assert [o][1..] == [];
  }
}
