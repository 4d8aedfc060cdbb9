/**
 * Network-wide unbonding aggregation: the validator list is fetched once,
 * then each validator's unbonding_delegations endpoint is walked page by page
 * and every entry balance is folded into a total and a per-delegator tally.
 */
module Unbonding {
  import opened Wrappers
  import opened Numerals
  import opened Pagination
  import opened Ranking

  /** An entry's completion_time: absent, present but unparseable, or UTC seconds. */
  datatype Completion = NoTime | BadTime | At(seconds: int)

  /** One element of a delegation's "entries". */
  datatype Entry = Entry(balance: Numeric, completion: Completion)

  /** One element of "unbonding_responses": a delegator and its entries. */
  datatype Delegation = Delegation(delegator: string, entries: seq<Entry>)

  /**
   * A validator from the list, with the replies its unbonding endpoint gives
   * to the successive page requests. An operator of "" stands for a missing
   * operator_address; such a validator is skipped without a request.
   */
  datatype ValidatorUnbonding = ValidatorUnbonding(operator: string, pages: seq<Page<Delegation>>)

  /** An entry together with the delegator it belongs to. */
  datatype Held = Held(delegator: string, entry: Entry)

  /** An entry whose balance int() accepted. */
  datatype Unbond = Unbond(delegator: string, amount: int, completion: Completion)

  function Tagged(d: Delegation): seq<Held>
  {
    seq(|d.entries|, i requires 0 <= i < |d.entries| => Held(d.delegator, d.entries[i]))
  }

  /** The entries of `ds` in the order of the two nested loops over responses and entries. */
  function Holdings(ds: seq<Delegation>): seq<Held>
  {
    if ds == [] then [] else Holdings(ds[..|ds| - 1]) + Tagged(ds[|ds| - 1])
  }

  /**
   * Every entry the fan-out reads, validator after validator; None when some
   * page request of a validator that is not skipped fails.
   */
  function Collect(vals: seq<ValidatorUnbonding>): Option<seq<Held>>
  {
    if vals == [] then Some([])
    else match Collect(vals[..|vals| - 1])
      case None => None
      case Some(prev) =>
        var v := vals[|vals| - 1];
        if v.operator == "" then Some(prev)
        else match Walk(v.pages)
          case None => None
          case Some(ds) => Some(prev + Holdings(ds))
  }

  /** The fan-out fails exactly when some validator that is not skipped has a failing walk. */
  lemma {:induction false} CollectFails(vals: seq<ValidatorUnbonding>)
    ensures Collect(vals).None? <==>
      exists i :: 0 <= i < |vals| && vals[i].operator != "" && Walk(vals[i].pages).None?
  {
    if vals != [] {
      var n := |vals| - 1;
      CollectFails(vals[..n]);
      assert forall i :: 0 <= i < n ==> vals[..n][i] == vals[i];
    }
  }

  lemma {:induction false} CollectNoneExtends(vals: seq<ValidatorUnbonding>, i: nat)
    requires i <= |vals| && Collect(vals[..i]).None?
    ensures Collect(vals).None?
  {
    if i < |vals| {
      var n := |vals| - 1;
      assert vals[..n][..i] == vals[..i];
      CollectNoneExtends(vals[..n], i);
    } else {
      assert vals[..i] == vals;
    }
  }

  /** The validator loop of the fan-out, walking each validator's pages in turn. */
  method CollectUnbonding(vals: seq<ValidatorUnbonding>) returns (hs: Option<seq<Held>>)
    ensures hs == Collect(vals)
  {
    var acc: seq<Held> := [];
    for i := 0 to |vals|
      invariant Collect(vals[..i]) == Some(acc)
    {
      assert vals[..i + 1][..i] == vals[..i];
      if vals[i].operator == "" {
        continue;
      }
      var read, _ := FollowCursor(vals[i].pages);
      if read.None? {
        CollectNoneExtends(vals, i + 1);
        return None;
      }
      acc := acc + Holdings(read.value);
    }
    assert vals[..|vals|] == vals;
    hs := Some(acc);
  }

  // ---------------------------------------------------------------------
  // get_total_unbonding_with_top10: int() on every balance, with no per-entry
  // try; the function-wide try turns a rejected balance into the error value.
  // ---------------------------------------------------------------------

  /** The entries with their balances read by int(); None when any balance is not integer text. */
  function Strict(hs: seq<Held>): Option<seq<Unbond>>
  {
    if hs == [] then Some([])
    else
      var h := hs[|hs| - 1];
      match Strict(hs[..|hs| - 1])
      case None => None
      case Some(us) =>
        if h.entry.balance.IntText? then Some(us + [Unbond(h.delegator, h.entry.balance.value, h.entry.completion)])
        else None
  }

  /**
   * int() on every balance succeeds exactly when each is integer text, and
   * then each entry keeps its delegator, its value and its completion time.
   */
  lemma {:induction false} StrictFacts(hs: seq<Held>)
    ensures Strict(hs).Some? <==> forall i :: 0 <= i < |hs| ==> hs[i].entry.balance.IntText?
    ensures Strict(hs).Some? ==> |Strict(hs).value| == |hs|
    ensures Strict(hs).Some? ==> forall i :: 0 <= i < |hs| ==>
      Strict(hs).value[i] == Unbond(hs[i].delegator, hs[i].entry.balance.value, hs[i].entry.completion)
  {
    if hs != [] {
      var n := |hs| - 1;
      StrictFacts(hs[..n]);
      assert forall i :: 0 <= i < n ==> hs[..n][i] == hs[i];
    }
  }

  /** One more integer balance extends the strict reading by one entry. */
  lemma StrictStep(hs: seq<Held>, j: nat, us: seq<Unbond>)
    requires j < |hs| && Strict(hs[..j]) == Some(us) && hs[j].entry.balance.IntText?
    ensures Strict(hs[..j + 1]) == Some(us + [Unbond(hs[j].delegator, hs[j].entry.balance.value, hs[j].entry.completion)])
  {
    assert hs[..j + 1][..j] == hs[..j];
  }

  lemma StrictFailsAt(hs: seq<Held>, j: nat)
    requires j < |hs| && !hs[j].entry.balance.IntText?
    ensures Strict(hs).None?
  {
    StrictFacts(hs);
  }

  function Total(us: seq<Unbond>): int
  {
    if us == [] then 0 else Total(us[..|us| - 1]) + us[|us| - 1].amount
  }

  /** The `wallets` dict: each delegator's summed balances. */
  function Tally(us: seq<Unbond>): map<string, int>
  {
    if us == [] then map[]
    else
      var m := Tally(us[..|us| - 1]);
      var u := us[|us| - 1];
      m[u.delegator := (if u.delegator in m then m[u.delegator] else 0) + u.amount]
  }

  predicate Distinct(s: seq<string>) {
    forall i, j :: 0 <= i < j < |s| ==> s[i] != s[j]
  }

  /** The dict's key order: each delegator where it first occurs. */
  function FirstSeen(us: seq<Unbond>): (r: seq<string>)
    ensures Distinct(r)
    ensures forall k :: k in r <==> k in Tally(us)
  {
    if us == [] then []
    else
      var prev := FirstSeen(us[..|us| - 1]);
      var d := us[|us| - 1].delegator;
      if d in Tally(us[..|us| - 1]) then prev else prev + [d]
  }

  lemma TallyStep(us: seq<Unbond>, u: Unbond)
    ensures Total(us + [u]) == Total(us) + u.amount
    ensures Tally(us + [u]) == Tally(us)[u.delegator := (if u.delegator in Tally(us) then Tally(us)[u.delegator] else 0) + u.amount]
    ensures FirstSeen(us + [u]) == if u.delegator in Tally(us) then FirstSeen(us) else FirstSeen(us) + [u.delegator]
  {
    assert (us + [u])[..|us|] == us;
  }

  /** The sum of `m` over `keys`, with repetitions counted. */
  function SumOver(keys: seq<string>, m: map<string, int>): int
    requires forall k :: k in keys ==> k in m
  {
    if keys == [] then 0 else SumOver(keys[..|keys| - 1], m) + m[keys[|keys| - 1]]
  }

  lemma {:induction false} SumOverAgree(keys: seq<string>, m: map<string, int>, m': map<string, int>)
    requires forall k :: k in keys ==> k in m && k in m' && m[k] == m'[k]
    ensures SumOver(keys, m) == SumOver(keys, m')
  {
    if keys != [] {
      SumOverAgree(keys[..|keys| - 1], m, m');
    }
  }

  /** Raising one key's value by `v` raises the sum over distinct keys by `v`. */
  lemma {:induction false} SumOverBump(keys: seq<string>, m: map<string, int>, m': map<string, int>, d: string, v: int)
    requires Distinct(keys) && d in keys
    requires forall k :: k in keys ==> k in m && k in m' && m'[k] == (if k == d then m[k] + v else m[k])
    ensures SumOver(keys, m') == SumOver(keys, m) + v
  {
    var n := |keys| - 1;
    if keys[n] == d {
      assert d !in keys[..n];
      SumOverAgree(keys[..n], m, m');
    } else {
      assert d in keys[..n];
      SumOverBump(keys[..n], m, m', d, v);
    }
  }

  lemma SumOverAppend(keys: seq<string>, k: string, m: map<string, int>)
    requires forall x :: x in keys ==> x in m
    requires k in m
    ensures SumOver(keys + [k], m) == SumOver(keys, m) + m[k]
  {
    assert (keys + [k])[..|keys|] == keys;
  }

  /** One more balance for a delegator already in the dict. */
  lemma SumStepSeen(us: seq<Unbond>)
    requires us != [] && us[|us| - 1].delegator in Tally(us[..|us| - 1])
    requires Total(us[..|us| - 1]) == SumOver(FirstSeen(us[..|us| - 1]), Tally(us[..|us| - 1]))
    ensures Total(us) == SumOver(FirstSeen(us), Tally(us))
  {
    var p := us[..|us| - 1];
    var u := us[|us| - 1];
    var keys := FirstSeen(p);
    assert FirstSeen(us) == keys;
    SumOverBump(keys, Tally(p), Tally(us), u.delegator, u.amount);
  }

  /** The first balance of a new delegator. */
  lemma SumStepNew(us: seq<Unbond>)
    requires us != [] && us[|us| - 1].delegator !in Tally(us[..|us| - 1])
    requires Total(us[..|us| - 1]) == SumOver(FirstSeen(us[..|us| - 1]), Tally(us[..|us| - 1]))
    ensures Total(us) == SumOver(FirstSeen(us), Tally(us))
  {
    var p := us[..|us| - 1];
    var u := us[|us| - 1];
    var keys := FirstSeen(p);
    var after := Tally(us);
    SumOverAgree(keys, Tally(p), after);
    SumOverAppend(keys, u.delegator, after);
  }

  /** The running total always equals the sum of the per-delegator tallies. */
  lemma {:induction false} TotalIsSumOfTallies(us: seq<Unbond>)
    ensures Total(us) == SumOver(FirstSeen(us), Tally(us))
  {
    if us != [] {
      var p := us[..|us| - 1];
      TotalIsSumOfTallies(p);
      if us[|us| - 1].delegator in Tally(p) {
        SumStepSeen(us);
      } else {
        SumStepNew(us);
      }
    }
  }

  /** `wallets.items()`: the pairs in key order. */
  function Items(order: seq<string>, m: map<string, int>): (r: seq<Item>)
    requires forall k :: k in order ==> k in m
    ensures |r| == |order| && forall i :: 0 <= i < |order| ==> r[i] == (order[i], m[order[i]])
  {
    seq(|order|, i requires 0 <= i < |order| => (order[i], m[order[i]]))
  }

  function WalletItems(us: seq<Unbond>): seq<Item>
  {
    Items(FirstSeen(us), Tally(us))
  }

  const TopCount: nat := 10

  /** The total in uheli and the top-10 (delegator, tally) pairs. */
  datatype UnbondingTop = UnbondingTop(total: int, top: seq<Item>)

  /** What get_total_unbonding_with_top10 returns, None standing for (None, []). */
  function Top10Report(listing: Option<seq<ValidatorUnbonding>>): Option<UnbondingTop>
  {
    if listing.None? then None
    else match Collect(listing.value)
      case None => None
      case Some(hs) =>
        match Strict(hs)
        case None => None
        case Some(us) => Some(UnbondingTop(Total(us), Top(WalletItems(us), TopCount)))
  }

  /** Every listed pair is a delegator with its tally. */
  lemma RankingListsTallies(us: seq<Unbond>)
    ensures forall x :: x in Top(WalletItems(us), TopCount) ==> x.0 in Tally(us) && Tally(us)[x.0] == x.1
  {
    var items := WalletItems(us);
    var t := Top(items, TopCount);
    TopFacts(items, TopCount);
    forall x | x in t ensures x.0 in Tally(us) && Tally(us)[x.0] == x.1 {
      assert x in multiset(items);
      var i :| 0 <= i < |items| && items[i] == x;
    }
  }

  /** A delegator left out of the ranking has a tally no larger than the last listed one. */
  lemma RankingLeavesOutSmaller(us: seq<Unbond>, k: string)
    requires |Top(WalletItems(us), TopCount)| > 0
    requires k in Tally(us) && (k, Tally(us)[k]) !in Top(WalletItems(us), TopCount)
    ensures Tally(us)[k] <= Top(WalletItems(us), TopCount)[|Top(WalletItems(us), TopCount)| - 1].1
  {
    var items := WalletItems(us);
    TopLeavesOutSmaller(items, TopCount);
    var i :| 0 <= i < |FirstSeen(us)| && FirstSeen(us)[i] == k;
    assert items[i] == (k, Tally(us)[k]);
  }

  /**
   * The ranking of a tally: at most ten wallets, largest first, each with its
   * own tally, none left out having more than the last listed one, and among
   * equal tallies the listed wallets come first in first-seen order.
   */
  lemma RankingFacts(us: seq<Unbond>)
    ensures |Top(WalletItems(us), TopCount)| == Min(TopCount, |FirstSeen(us)|)
    ensures NonIncreasing(Top(WalletItems(us), TopCount))
    ensures forall x :: x in Top(WalletItems(us), TopCount) ==> x.0 in Tally(us) && Tally(us)[x.0] == x.1
    ensures var t := Top(WalletItems(us), TopCount);
      |t| > 0 ==> forall k :: k in Tally(us) && (k, Tally(us)[k]) !in t ==> Tally(us)[k] <= t[|t| - 1].1
    ensures forall v :: WithTally(Top(WalletItems(us), TopCount), v) <= WithTally(WalletItems(us), v)
  {
    var items := WalletItems(us);
    var t := Top(items, TopCount);
    TopFacts(items, TopCount);
    RankingListsTallies(us);
    forall k | k in Tally(us) && (k, Tally(us)[k]) !in t && |t| > 0 ensures Tally(us)[k] <= t[|t| - 1].1 {
      RankingLeavesOutSmaller(us, k);
    }
  }


  /**
   * get_total_unbonding_with_top10 gives its error value exactly when the
   * validator list or a page request fails or some balance is not integer
   * text; otherwise its total is the sum of the per-delegator tallies and its
   * list is the ranking of those tallies (RankingFacts).
   */
  lemma Top10ReportFacts(listing: Option<seq<ValidatorUnbonding>>)
    ensures Top10Report(listing).None? <==>
      listing.None? || Collect(listing.value).None? || Strict(Collect(listing.value).value).None?
    ensures Top10Report(listing).Some? ==>
      var us := Strict(Collect(listing.value).value).value;
      Top10Report(listing).value.total == SumOver(FirstSeen(us), Tally(us)) &&
      Top10Report(listing).value.top == Top(WalletItems(us), TopCount)
  {
    if Top10Report(listing).Some? {
      TotalIsSumOfTallies(Strict(Collect(listing.value).value).value);
    }
  }

  /** `total`, `wallets` and the dict's key order are those of the entries `done`. */
  predicate Folded(done: seq<Unbond>, total: int, wallets: map<string, int>, order: seq<string>) {
    total == Total(done) && wallets == Tally(done) && order == FirstSeen(done)
  }

  /** One more entry moves the three accumulators as the loop body does. */
  lemma WalletsStep(us: seq<Unbond>, j: nat, total: int, wallets: map<string, int>, order: seq<string>)
    requires j < |us| && Folded(us[..j], total, wallets, order)
    ensures Folded(us[..j + 1], total + us[j].amount,
      wallets[us[j].delegator := (if us[j].delegator in wallets then wallets[us[j].delegator] else 0) + us[j].amount],
      if us[j].delegator in wallets then order else order + [us[j].delegator])
  {
    assert us[..j + 1][..j] == us[..j];
  }

  /** The balances as int() reads them, one entry at a time; None when one of them raises. */
  method ReadBalances(hs: seq<Held>) returns (read: Option<seq<Unbond>>)
    ensures read == Strict(hs)
  {
    var us: seq<Unbond> := [];
    for j := 0 to |hs|
      invariant Strict(hs[..j]) == Some(us)
    {
      var h := hs[j];
      if !h.entry.balance.IntText? {
        StrictFailsAt(hs, j);
        return None;
      }
      StrictStep(hs, j, us);
      us := us + [Unbond(h.delegator, h.entry.balance.value, h.entry.completion)];
    }
    assert hs[..|hs|] == hs;
    read := Some(us);
  }

  /** `total += bal` and `wallets[delegator] = wallets.get(delegator, 0) + bal` for one entry. */
  method AddEntry(total: int, wallets: map<string, int>, order: seq<string>, u: Unbond)
    returns (total': int, wallets': map<string, int>, order': seq<string>)
    ensures total' == total + u.amount
    ensures wallets' == wallets[u.delegator := (if u.delegator in wallets then wallets[u.delegator] else 0) + u.amount]
    ensures order' == if u.delegator in wallets then order else order + [u.delegator]
  {
    total' := total + u.amount;
    order' := order;
    if u.delegator !in wallets {
      order' := order + [u.delegator];
    }
    wallets' := wallets[u.delegator := (if u.delegator in wallets then wallets[u.delegator] else 0) + u.amount];
  }

  /** The running total, the `wallets` dict and its key order over the read entries. */
  method FoldWallets(us: seq<Unbond>) returns (total: int, wallets: map<string, int>, order: seq<string>)
    ensures total == Total(us) && wallets == Tally(us) && order == FirstSeen(us)
  {
    total, wallets, order := 0, map[], [];
    for j := 0 to |us|
      invariant Folded(us[..j], total, wallets, order)
    {
      WalletsStep(us, j, total, wallets, order);
      total, wallets, order := AddEntry(total, wallets, order, us[j]);
    }
    assert us[..|us|] == us;
  }

  method TallyWallets(hs: seq<Held>) returns (ok: bool, total: int, wallets: map<string, int>, order: seq<string>)
    ensures ok <==> Strict(hs).Some?
    ensures ok ==> var us := Strict(hs).value;
      total == Total(us) && wallets == Tally(us) && order == FirstSeen(us)
  {
    var read := ReadBalances(hs);
    if read.None? {
      return false, 0, map[], [];
    }
    ok := true;
    total, wallets, order := FoldWallets(read.value);
  }


  /** get_total_unbonding_with_top10, with the amounts in uheli. */
  method TotalUnbondingWithTop10(listing: Option<seq<ValidatorUnbonding>>) returns (r: Option<UnbondingTop>)
    ensures r == Top10Report(listing)
  {
    if listing.None? {
      return None;
    }
    var read := CollectUnbonding(listing.value);
    if read.None? {
      return None;
    }
    var ok, total, wallets, order := TallyWallets(read.value);
    if !ok {
      return None;
    }
    r := Some(UnbondingTop(total, Top(Items(order, wallets), TopCount)));
  }

  // ---------------------------------------------------------------------
  // get_total_unbonding: a balance int() rejects is skipped.
  // ---------------------------------------------------------------------

  /** The sum of the balances int() accepts; the others are passed over. */
  function LenientTotal(hs: seq<Held>): int
  {
    if hs == [] then 0
    else
      var b := hs[|hs| - 1].entry.balance;
      LenientTotal(hs[..|hs| - 1]) + (if b.IntText? then b.value else 0)
  }

  function TotalUnbondingSum(listing: Option<seq<ValidatorUnbonding>>): Option<int>
  {
    if listing.None? then None
    else match Collect(listing.value)
      case None => None
      case Some(hs) => Some(LenientTotal(hs))
  }

  /** get_total_unbonding, with the amount in uheli. */
  method TotalUnbonding(listing: Option<seq<ValidatorUnbonding>>) returns (r: Option<int>)
    ensures r == TotalUnbondingSum(listing)
  {
    if listing.None? {
      return None;
    }
    var read := CollectUnbonding(listing.value);
    if read.None? {
      return None;
    }
    var hs := read.value;
    var total := 0;
    for j := 0 to |hs|
      invariant total == LenientTotal(hs[..j])
    {
      assert hs[..j + 1][..j] == hs[..j];
      match hs[j].entry.balance {
        case IntText(v) => total := total + v;
        case _ =>
      }
    }
    assert hs[..|hs|] == hs;
    r := Some(total);
  }

  lemma {:induction false} LenientMatchesStrict(hs: seq<Held>)
    requires Strict(hs).Some?
    ensures LenientTotal(hs) == Total(Strict(hs).value)
  {
    if hs != [] {
      var n := |hs| - 1;
      assert Strict(hs[..n]).Some?;
      LenientMatchesStrict(hs[..n]);
      var prev := Strict(hs[..n]).value;
      var h := hs[n];
      var u := Unbond(h.delegator, h.entry.balance.value, h.entry.completion);
      assert Strict(hs).value == prev + [u];
      assert (prev + [u])[..|prev|] == prev;
    }
  }

  /**
   * The two commands disagree only on malformed balances: the lenient sum fails
   * only on a failed request, and whenever the strict one succeeds the two
   * totals are equal.
   */
  lemma TotalsAgree(listing: Option<seq<ValidatorUnbonding>>)
    ensures TotalUnbondingSum(listing).None? <==> listing.None? || Collect(listing.value).None?
    ensures Top10Report(listing).Some? ==> TotalUnbondingSum(listing) == Some(Top10Report(listing).value.total)
  {
    if Top10Report(listing).Some? {
      LenientMatchesStrict(Collect(listing.value).value);
    }
  }

  // ---------------------------------------------------------------------
  // _sum_unbonding_for_validator: one request, int() then int(float()).
  // ---------------------------------------------------------------------

  /** The sum with int(), then int(float()), then skipping, tried on each balance. */
  function LooseTotal(hs: seq<Held>): int
  {
    if hs == [] then 0
    else
      var b := hs[|hs| - 1].entry.balance;
      LooseTotal(hs[..|hs| - 1]) + (match b case IntText(v) => v case FloatText(t) => t case NotNumber => 0)
  }

  /**
   * _sum_unbonding_for_validator: `reply` is the "unbonding_responses" of a
   * 200 reply, or None for another status or a failed request, both of which
   * give 0.
   */
  method SumUnbondingForValidator(reply: Option<seq<Delegation>>) returns (total: int)
    ensures reply.None? ==> total == 0
    ensures reply.Some? ==> total == LooseTotal(Holdings(reply.value))
  {
    total := 0;
    if reply.None? {
      return;
    }
    var hs := Holdings(reply.value);
    for j := 0 to |hs|
      invariant total == LooseTotal(hs[..j])
    {
      assert hs[..j + 1][..j] == hs[..j];
      match hs[j].entry.balance {
        case IntText(v) => total := total + v;
        case FloatText(t) => total := total + t;
        case NotNumber =>
      }
    }
    assert hs[..|hs|] == hs;
  }

  /** Per-validator sums add up: splitting the entries between two validators changes nothing. */
  lemma {:induction false} LooseTotalAdds(a: seq<Held>, b: seq<Held>)
    ensures LooseTotal(a + b) == LooseTotal(a) + LooseTotal(b)
  {
    if b == [] {
      assert a + b == a;
    } else {
      var n := |b| - 1;
      assert (a + b)[..|a + b| - 1] == a + b[..n];
      LooseTotalAdds(a, b[..n]);
    }
  }

  /** Without decimal-text balances the per-validator sum is the lenient sum. */
  lemma {:induction false} LooseIsLenientWithoutDecimals(hs: seq<Held>)
    requires forall i :: 0 <= i < |hs| ==> !hs[i].entry.balance.FloatText?
    ensures LooseTotal(hs) == LenientTotal(hs)
  {
    if hs != [] {
      var n := |hs| - 1;
      assert forall i :: 0 <= i < n ==> hs[..n][i] == hs[i];
      LooseIsLenientWithoutDecimals(hs[..n]);
    }
  }

  // ---------------------------------------------------------------------
  // unbonding_wallets: one request per validator, distinct delegators.
  // ---------------------------------------------------------------------

  /** The delegator addresses of `ds`. */
  function Delegators(ds: seq<Delegation>): set<string>
  {
    if ds == [] then {} else Delegators(ds[..|ds| - 1]) + {ds[|ds| - 1].delegator}
  }

  /** The count is that of the distinct addresses among the responses, so never more than the responses. */
  lemma {:induction false} DelegatorsFacts(ds: seq<Delegation>)
    ensures forall d :: d in Delegators(ds) <==> exists i :: 0 <= i < |ds| && ds[i].delegator == d
    ensures |Delegators(ds)| <= |ds|
  {
    if ds != [] {
      var n := |ds| - 1;
      DelegatorsFacts(ds[..n]);
      assert forall i :: 0 <= i < n ==> ds[..n][i] == ds[i];
    }
  }

  lemma DelegatorsStep(ds: seq<Delegation>, d: Delegation)
    ensures Delegators(ds + [d]) == Delegators(ds) + {d.delegator}
  {
    assert (ds + [d])[..|ds|] == ds;
  }

  /** All responses, validator after validator; None when some request raised. */
  function AllDelegations(replies: seq<Option<seq<Delegation>>>): Option<seq<Delegation>>
  {
    if replies == [] then Some([])
    else
      match AllDelegations(replies[..|replies| - 1])
      case None => None
      case Some(prev) =>
        match replies[|replies| - 1]
        case None => None
        case Some(ds) => Some(prev + ds)
  }

  /** The command fails exactly when one of its per-validator requests raised. */
  lemma {:induction false} AllDelegationsFails(replies: seq<Option<seq<Delegation>>>)
    ensures AllDelegations(replies).None? <==> exists i :: 0 <= i < |replies| && replies[i].None?
  {
    if replies != [] {
      var n := |replies| - 1;
      AllDelegationsFails(replies[..n]);
      assert forall i :: 0 <= i < n ==> replies[..n][i] == replies[i];
    }
  }

  /**
   * unbonding_wallets: `listing` holds, per validator, the responses of its
   * single request (None where the request raised); the count is the number
   * of distinct delegators, None standing for the error reply.
   */
  method UnbondingWallets(listing: Option<seq<Option<seq<Delegation>>>>) returns (count: Option<nat>)
    ensures listing.None? ==> count.None?
    ensures listing.Some? ==> count == match AllDelegations(listing.value)
      case None => None
      case Some(ds) => Some(|Delegators(ds)|)
  {
    if listing.None? {
      return None;
    }
    var replies := listing.value;
    var wallets: set<string> := {};
    ghost var acc: seq<Delegation> := [];
    for i := 0 to |replies|
      invariant AllDelegations(replies[..i]) == Some(acc)
      invariant wallets == Delegators(acc)
    {
      assert replies[..i + 1][..i] == replies[..i];
      if replies[i].None? {
        AllDelegationsFails(replies);
        return None;
      }
      var ds := replies[i].value;
      assert acc + ds[..0] == acc;
      for j := 0 to |ds|
        invariant wallets == Delegators(acc + ds[..j])
      {
        assert acc + ds[..j + 1] == (acc + ds[..j]) + [ds[j]];
        DelegatorsStep(acc + ds[..j], ds[j]);
        wallets := wallets + {ds[j].delegator};
      }
      assert ds[..|ds|] == ds;
      assert AllDelegations(replies[..i + 1]) == Some(acc + ds);
      acc := acc + ds;
    }
    assert replies[..|replies|] == replies;
    count := Some(|wallets|);
  }
}
