/**
 * The unbonding heatmap: each unbonding entry's balance is added to the
 * bucket of the whole number of days left until its completion time, for the
 * fifteen buckets 0..14; entries outside that window are dropped.
 */
module Heatmap {
  import opened Wrappers
  import opened Numerals
  import opened Unbonding

  const Day: int := 86400
  const Buckets: nat := 15

  /** timedelta.days of (completion - now): the floor of the difference in days. */
  function DaysLeft(now: int, completion: int): (d: int)
    ensures Day * d <= completion - now < Day * (d + 1)
  {
    (completion - now) / Day
  }

  /** The bucket an entry lands in, if any: it needs a completion time and 0 <= days left <= 14. */
  function Slot(u: Unbond, now: int): (r: Option<nat>)
    ensures r.Some? <==> u.completion.At? && 0 <= DaysLeft(now, u.completion.seconds) < Buckets
    ensures r.Some? ==> r.value == DaysLeft(now, u.completion.seconds)
  {
    match u.completion
    case At(t) =>
      var d := DaysLeft(now, t);
      if 0 <= d <= 14 then Some(d) else None
    case _ => None
  }

  function EmptyHeat(): seq<int>
  {
    seq(Buckets, _ => 0)
  }

  /** The `heatmap` dict as the loop leaves it, indexed by day. */
  function Heat(us: seq<Unbond>, now: int): (h: seq<int>)
    ensures |h| == Buckets
  {
    if us == [] then EmptyHeat()
    else
      var h := Heat(us[..|us| - 1], now);
      var u := us[|us| - 1];
      match Slot(u, now)
      case Some(d) => h[d := h[d] + u.amount]
      case None => h
  }

  /** The summed amounts of the entries whose days left are exactly `d`. */
  function DaySum(us: seq<Unbond>, now: int, d: nat): int
  {
    if us == [] then 0
    else
      var u := us[|us| - 1];
      DaySum(us[..|us| - 1], now, d) + (if Slot(u, now) == Some(d) then u.amount else 0)
  }

  /** The summed amounts of the entries that land in some bucket. */
  function WindowTotal(us: seq<Unbond>, now: int): int
  {
    if us == [] then 0
    else
      var u := us[|us| - 1];
      WindowTotal(us[..|us| - 1], now) + (if Slot(u, now).Some? then u.amount else 0)
  }

  function SumSeq(s: seq<int>): int
  {
    if s == [] then 0 else SumSeq(s[..|s| - 1]) + s[|s| - 1]
  }

  /** Each bucket holds exactly the amounts of the entries due that many days from now. */
  lemma {:induction false} HeatIsDaySum(us: seq<Unbond>, now: int)
    ensures forall d :: 0 <= d < Buckets ==> Heat(us, now)[d] == DaySum(us, now, d)
  {
    if us != [] {
      HeatIsDaySum(us[..|us| - 1], now);
    }
  }

  lemma {:induction false} SumSeqBump(s: seq<int>, d: nat, v: int)
    requires d < |s|
    ensures SumSeq(s[d := s[d] + v]) == SumSeq(s) + v
  {
    var n := |s| - 1;
    var t := s[d := s[d] + v];
    assert t[..n] == if d < n then s[..n][d := s[d] + v] else s[..n];
    if d < n {
      SumSeqBump(s[..n], d, v);
    }
  }

  lemma {:induction false} SumSeqEmptyHeat(k: nat)
    requires k <= Buckets
    ensures SumSeq(EmptyHeat()[..k]) == 0
  {
    if k > 0 {
      assert EmptyHeat()[..k][..k - 1] == EmptyHeat()[..k - 1];
      SumSeqEmptyHeat(k - 1);
    }
  }

  /** The buckets together hold exactly the amounts of the entries inside the window. */
  lemma {:induction false} HeatTotal(us: seq<Unbond>, now: int)
    ensures SumSeq(Heat(us, now)) == WindowTotal(us, now)
  {
    if us == [] {
      SumSeqEmptyHeat(Buckets);
      assert EmptyHeat()[..Buckets] == EmptyHeat();
    } else {
      var n := |us| - 1;
      HeatTotal(us[..n], now);
      match Slot(us[n], now)
      case Some(d) => SumSeqBump(Heat(us[..n], now), d, us[n].amount);
      case None =>
    }
  }

  /** With non-negative balances the buckets never hold more than the whole unbonding total. */
  lemma {:induction false} WindowWithinTotal(us: seq<Unbond>, now: int)
    requires forall i :: 0 <= i < |us| ==> us[i].amount >= 0
    ensures WindowTotal(us, now) <= Total(us)
  {
    if us != [] {
      var n := |us| - 1;
      assert forall i :: 0 <= i < n ==> us[..n][i] == us[i];
      WindowWithinTotal(us[..n], now);
    }
  }

  /** What get_unbonding_heatmap returns in uheli; None stands for the empty dict of its error path. */
  function HeatmapReport(listing: Option<seq<ValidatorUnbonding>>, now: int): Option<seq<int>>
  {
    if listing.None? then None
    else match Collect(listing.value)
      case None => None
      case Some(hs) =>
        match Strict(hs)
        case None => None
        case Some(us) => Some(Heat(us, now))
  }

  /**
   * With non-negative balances, the heatmap's buckets together never exceed
   * the network total that get_total_unbonding reports from the same replies.
   */
  lemma HeatmapWithinTotal(listing: Option<seq<ValidatorUnbonding>>, now: int)
    requires HeatmapReport(listing, now).Some?
    requires forall h :: h in Collect(listing.value).value && h.entry.balance.IntText? ==> h.entry.balance.value >= 0
    ensures TotalUnbondingSum(listing).Some?
    ensures SumSeq(HeatmapReport(listing, now).value) <= TotalUnbondingSum(listing).value
  {
    var hs := Collect(listing.value).value;
    var us := Strict(hs).value;
    StrictFacts(hs);
    forall i | 0 <= i < |us| ensures us[i].amount >= 0 {
      assert hs[i] in hs;
    }
    HeatTotal(us, now);
    WindowWithinTotal(us, now);
    LenientMatchesStrict(hs);
  }

  /**
   * get_unbonding_heatmap with `now` given in UTC seconds: each balance goes
   * through int() before its completion time is looked at, so a malformed
   * balance aborts the whole report even on an entry without completion time.
   */
  method UnbondingHeatmap(listing: Option<seq<ValidatorUnbonding>>, now: int) returns (heatmap: Option<seq<int>>)
    ensures heatmap == HeatmapReport(listing, now)
  {
    if listing.None? {
      return None;
    }
    var read := CollectUnbonding(listing.value);
    if read.None? {
      return None;
    }
    heatmap := FillHeat(read.value, now);
  }

  lemma HeatStep(us: seq<Unbond>, u: Unbond, now: int)
    ensures Heat(us + [u], now) ==
      if Slot(u, now).Some? then Heat(us, now)[Slot(u, now).value := Heat(us, now)[Slot(u, now).value] + u.amount]
      else Heat(us, now)
  {
    assert (us + [u])[..|us|] == us;
  }

  /** The per-entry loop of get_unbonding_heatmap over the collected entries. */
  method FillHeat(hs: seq<Held>, now: int) returns (heatmap: Option<seq<int>>)
    ensures Strict(hs).None? ==> heatmap.None?
    ensures Strict(hs).Some? ==> heatmap == Some(Heat(Strict(hs).value, now))
  {
    var heat := seq(Buckets, _ => 0);
    ghost var us: seq<Unbond> := [];
    for j := 0 to |hs|
      invariant Strict(hs[..j]) == Some(us)
      invariant heat == Heat(us, now)
    {
      var h := hs[j];
      if !h.entry.balance.IntText? {
        StrictFailsAt(hs, j);
        return None;
      }
      var bal := h.entry.balance.value;
      ghost var u := Unbond(h.delegator, bal, h.entry.completion);
      StrictStep(hs, j, us);
      HeatStep(us, u, now);
      us := us + [u];
      match h.entry.completion {
        case At(t) =>
          var daysLeft := (t - now) / Day;
          if 0 <= daysLeft <= 14 {
            heat := heat[daysLeft := heat[daysLeft] + bal];
          }
        case _ =>
      }
    }
    assert hs[..|hs|] == hs;
    heatmap := Some(heat);
  }

  /**
   * Bucketing examples: 3 days 2 hours ahead is day 3, 20 days ahead is
   * dropped, and one second in the past is day -1, which is dropped too.
   */
  lemma BucketExamples(now: int, who: string, amount: int)
    ensures Slot(Unbond(who, amount, At(now + 3 * Day + 2 * 3600)), now) == Some(3)
    ensures Slot(Unbond(who, amount, At(now + 20 * Day)), now) == None
    ensures Slot(Unbond(who, amount, At(now - 1)), now) == None
    ensures Slot(Unbond(who, amount, NoTime), now) == None
  {
    assert DaysLeft(now, now + 3 * Day + 2 * 3600) == 3;
    assert DaysLeft(now, now + 20 * Day) == 20;
    assert DaysLeft(now, now - 1) == -1;
  }
}
