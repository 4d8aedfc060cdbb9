/**
 * get_tx_last_7d: the uheli a wallet sent during the last seven days, read
 * from the paginated tx search of transfer.sender events. The scan assumes
 * newest-first order and returns at the first transaction older than the
 * window.
 */
module Transfers {
  import opened Wrappers
  import opened Numerals
  import opened Pagination

  datatype Attribute = Attribute(key: string, value: string)
  datatype Event = Event(kind: string, attributes: seq<Attribute>)

  /** A tx_response: its timestamp in UTC seconds (None when isoparse fails) and its logs. */
  datatype Tx = Tx(timestamp: Option<int>, logs: seq<seq<Event>>)

  const Week: int := 7 * 86400

  /** The uheli an "amount" attribute contributes; a value that does not parse contributes nothing. */
  function AttributeSent(a: Attribute): int
  {
    if a.key == "amount" then ParseUheli(a.value).GetOr(0) else 0
  }

  function AttributesSent(attrs: seq<Attribute>): int
  {
    if attrs == [] then 0 else AttributeSent(attrs[0]) + AttributesSent(attrs[1..])
  }

  /** Only "transfer" events are read. */
  function EventsSent(events: seq<Event>): int
  {
    if events == [] then 0
    else (if events[0].kind == "transfer" then AttributesSent(events[0].attributes) else 0) + EventsSent(events[1..])
  }

  /** What the four nested loops over logs, events and attributes add for one transaction. */
  function TxSent(tx: Tx): int
  {
    LogsSent(tx.logs)
  }

  function LogsSent(logs: seq<seq<Event>>): int
  {
    if logs == [] then 0 else EventsSent(logs[0]) + LogsSent(logs[1..])
  }

  predicate IsOld(tx: Tx, now: int) {
    tx.timestamp.Some? && tx.timestamp.value < now - Week
  }

  predicate InWindow(tx: Tx, now: int) {
    tx.timestamp.Some? && now - Week <= tx.timestamp.value <= now
  }

  /** The result of scanning one page: what it added, and whether it met an old transaction. */
  datatype Scan = Scan(sent: int, stopped: bool)

  function ScanTxs(txs: seq<Tx>, now: int): Scan
  {
    if txs == [] then Scan(0, false)
    else if IsOld(txs[0], now) then Scan(0, true)
    else
      var rest := ScanTxs(txs[1..], now);
      Scan((if InWindow(txs[0], now) then TxSent(txs[0]) else 0) + rest.sent, rest.stopped)
  }

  /**
   * The total over the successive pages: a page that meets an old transaction
   * or carries no next_key is the last one read, and when the pages run out the
   * failing request's exception is caught and the total so far is returned.
   */
  function Sent(pages: seq<Page<Tx>>, now: int): int
  {
    if pages == [] then 0
    else
      var s := ScanTxs(pages[0].records, now);
      if s.stopped || pages[0].nextKey == "" then s.sent else s.sent + Sent(pages[1..], now)
  }

  /** Index of the first old transaction, or |txs| when there is none. */
  function FirstOld(txs: seq<Tx>, now: int): (k: nat)
    ensures k <= |txs|
    ensures forall j :: 0 <= j < k ==> !IsOld(txs[j], now)
    ensures k < |txs| ==> IsOld(txs[k], now)
  {
    if txs == [] then 0 else if IsOld(txs[0], now) then 0 else 1 + FirstOld(txs[1..], now)
  }

  /** The amounts of the transactions inside the window, independent of the scan order. */
  function WindowSent(txs: seq<Tx>, now: int): int
  {
    if txs == [] then 0 else (if InWindow(txs[0], now) then TxSent(txs[0]) else 0) + WindowSent(txs[1..], now)
  }

  /**
   * Scanning a page adds the in-window amounts of the transactions before the
   * first old one, and stops exactly when there is an old one; what comes after
   * it is never read.
   */
  lemma {:induction false} ScanIsWindowBeforeFirstOld(txs: seq<Tx>, now: int)
    ensures ScanTxs(txs, now).sent == WindowSent(txs[..FirstOld(txs, now)], now)
    ensures ScanTxs(txs, now).stopped <==> FirstOld(txs, now) < |txs|
  {
    if txs != [] && !IsOld(txs[0], now) {
      ScanIsWindowBeforeFirstOld(txs[1..], now);
      var k := FirstOld(txs, now);
      assert txs[..k][1..] == txs[1..][..k - 1];
    }
  }

  /** A page is the last one read when it holds an old transaction or carries no next_key. */
  predicate LastRead(p: Page<Tx>, now: int) {
    FirstOld(p.records, now) < |p.records| || p.nextKey == ""
  }

  /** How many pages the scan reads: up to and including the first last-read page. */
  function PagesRead(pages: seq<Page<Tx>>, now: int): (n: nat)
    ensures n <= |pages|
    ensures forall j :: 0 <= j < n - 1 ==> !LastRead(pages[j], now)
    ensures n < |pages| ==> n > 0 && LastRead(pages[n - 1], now)
  {
    if pages == [] then 0
    else if LastRead(pages[0], now) then 1
    else 1 + PagesRead(pages[1..], now)
  }

  lemma {:induction false} RecordsCons(p: Page<Tx>, ps: seq<Page<Tx>>)
    ensures Records([p] + ps) == p.records + Records(ps)
    decreases |ps|
  {
    if ps != [] {
      var n := |ps| - 1;
      assert ([p] + ps)[..|[p] + ps| - 1] == [p] + ps[..n];
      RecordsCons(p, ps[..n]);
    }
  }

  lemma {:induction false} WindowSentConcat(a: seq<Tx>, b: seq<Tx>, now: int)
    ensures WindowSent(a + b, now) == WindowSent(a, now) + WindowSent(b, now)
  {
    if a == [] {
      assert a + b == b;
    } else {
      assert (a + b)[1..] == a[1..] + b;
      WindowSentConcat(a[1..], b, now);
    }
  }

  lemma {:induction false} FirstOldConcat(a: seq<Tx>, b: seq<Tx>, now: int)
    requires FirstOld(a, now) == |a|
    ensures FirstOld(a + b, now) == |a| + FirstOld(b, now)
  {
    if a == [] {
      assert a + b == b;
    } else {
      assert (a + b)[1..] == a[1..] + b;
      FirstOldConcat(a[1..], b, now);
    }
  }

  /** Reading past a page that is not the last one read: its whole window comes first. */
  lemma JoinPage(r: seq<Tx>, t: seq<Tx>, now: int)
    requires FirstOld(r, now) == |r|
    ensures (r + t)[..FirstOld(r + t, now)] == r + t[..FirstOld(t, now)]
    ensures WindowSent((r + t)[..FirstOld(r + t, now)], now) == WindowSent(r, now) + WindowSent(t[..FirstOld(t, now)], now)
  {
    FirstOldConcat(r, t, now);
    WindowSentConcat(r, t[..FirstOld(t, now)], now);
  }

  /**
   * The whole walk: the total is the in-window amount of the transactions of
   * the pages read, taken in order and cut at the first old one.
   */
  lemma {:induction false} SentIsWindowOfPagesRead(pages: seq<Page<Tx>>, now: int)
    ensures var txs := Records(pages[..PagesRead(pages, now)]);
      Sent(pages, now) == WindowSent(txs[..FirstOld(txs, now)], now)
  {
    if pages != [] {
      var r := pages[0].records;
      ScanIsWindowBeforeFirstOld(r, now);
      if LastRead(pages[0], now) {
        assert PagesRead(pages, now) == 1;
        assert pages[..1] == [pages[0]] + [];
        RecordsCons(pages[0], []);
        assert Records(pages[..1]) == r + [] == r;
        assert Sent(pages, now) == ScanTxs(r, now).sent;
      } else {
        var rest := pages[1..];
        var n := PagesRead(rest, now);
        assert PagesRead(pages, now) == n + 1;
        SentIsWindowOfPagesRead(rest, now);
        assert pages[..n + 1] == [pages[0]] + rest[..n];
        RecordsCons(pages[0], rest[..n]);
        assert r[..FirstOld(r, now)] == r;
        JoinPage(r, Records(rest[..n]), now);
      }
    }
  }

  /**
   * get_tx_last_7d with the amounts in uheli and `now` in UTC seconds.
   * `pages` are the replies to the successive requests.
   */
  method TxLast7d(pages: seq<Page<Tx>>, now: int) returns (totalSent: int)
    ensures totalSent == Sent(pages, now)
  {
    totalSent := 0;
    var i := 0;
    while true
      invariant 0 <= i <= |pages|
      invariant Sent(pages, now) == totalSent + Sent(pages[i..], now)
      decreases |pages| - i
    {
      if i == |pages| {
        return;
      }
      var txs := pages[i].records;
      assert pages[i..][0] == pages[i] && pages[i..][1..] == pages[i + 1..];
      ghost var base := totalSent;
      var j := 0;
      while j < |txs|
        invariant 0 <= j <= |txs|
        invariant ScanTxs(txs, now).stopped == ScanTxs(txs[j..], now).stopped
        invariant ScanTxs(txs, now).sent == totalSent - base + ScanTxs(txs[j..], now).sent
      {
        var tx := txs[j];
        assert txs[j..][0] == tx && txs[j..][1..] == txs[j + 1..];
        if tx.timestamp.Some? {
          var ts := tx.timestamp.value;
          if ts < now - Week {
            return;
          }
          if now - Week <= ts <= now {
            totalSent := totalSent + TxSent(tx);
          }
        }
        j := j + 1;
      }
      assert txs[j..] == [];
      if pages[i].nextKey == "" {
        return;
      }
      i := i + 1;
    }
  }

  /** A transfer of "<n>uheli" inside the window counts n; the same transfer a week and a second old ends the scan. */
  lemma TransferExample(n: nat, now: int)
    ensures var tx := Tx(Some(now), [[Event("transfer", [Attribute("amount", ShowNat(n) + Denom)])]]);
      TxSent(tx) == n && Sent([Page([tx], "")], now) == n
    ensures var stale := Tx(Some(now - Week - 1), [[Event("transfer", [Attribute("amount", ShowNat(n) + Denom)])]]);
      Sent([Page([stale], "")], now) == 0
  {
    ParseUheliRoundTrip(n);
    var a := Attribute("amount", ShowNat(n) + Denom);
    assert AttributeSent(a) == n;
    assert [a][1..] == [];
    assert AttributesSent([a]) == n;
    var e := Event("transfer", [a]);
    assert [e][1..] == [];
    assert EventsSent([e]) == n;
    var tx := Tx(Some(now), [[e]]);
    assert [[e]][1..] == [];
    assert LogsSent(tx.logs) == n;
    assert ScanTxs([tx], now) == Scan(n, false) by {
      assert [tx][1..] == [];
    }
  }
}
