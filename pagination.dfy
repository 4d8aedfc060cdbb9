/**
 * Cursor pagination of the chain's REST endpoint: every request after the
 * first carries the previous reply's next_key, and the walk stops at the first
 * reply whose next_key is absent or empty.
 */
module Pagination {
  import opened Wrappers

  /**
   * One reply: its records, and its next_key, where "" stands for a key that
   * is absent, null or empty (all of which end the walk).
   */
  datatype Page<R> = Page(records: seq<R>, nextKey: string)

  /** Index of the first page that ends the walk, or |pages| when none does. */
  function FirstFinal<R>(pages: seq<Page<R>>): (k: nat)
    ensures k <= |pages|
    ensures forall j :: 0 <= j < k ==> pages[j].nextKey != ""
    ensures k < |pages| ==> pages[k].nextKey == ""
  {
    if pages == [] then 0
    else if pages[0].nextKey == "" then 0
    else 1 + FirstFinal(pages[1..])
  }

  /** The records of `pages`, page after page. */
  function Records<R>(pages: seq<Page<R>>): seq<R>
  {
    if pages == [] then []
    else Records(pages[..|pages| - 1]) + pages[|pages| - 1].records
  }

  /**
   * The records a walk collects when the endpoint answers the successive
   * requests with `pages`. When every page carries a key and the pages run out,
   * the next request is the one that fails (timeout, connection error, bad
   * JSON), and the walk yields None.
   */
  function Walk<R>(pages: seq<Page<R>>): Option<seq<R>>
  {
    var k := FirstFinal(pages);
    if k < |pages| then Some(Records(pages[..k + 1])) else None
  }

  /** A walk yields records exactly when some page ends it, and then those of the pages up to the first such one. */
  lemma WalkEnds<R>(pages: seq<Page<R>>)
    ensures Walk(pages).Some? <==> exists k :: 0 <= k < |pages| && pages[k].nextKey == ""
    ensures Walk(pages).Some? ==> Walk(pages).value == Records(pages[..FirstFinal(pages) + 1])
  {
  }

  /** Records of a one-page walk are that page's records. */
  lemma WalkSinglePage<R>(p: Page<R>)
    requires p.nextKey == ""
    ensures Walk([p]) == Some(p.records)
  {
    var ps := [p];
    assert FirstFinal(ps) == 0;
    assert ps[..1] == ps;
    assert ps[..0] == [];
    assert Records(ps[..0]) == [];
    assert Records(ps) == p.records;
    assert Walk(ps) == Some(Records(ps[..1]));
  }

  /**
   * The `while True` loop: request, fold the reply, read next_key, stop when it
   * is empty. `sent` lists the pagination.key of each request issued (None on
   * the first), including the one that fails when the pages run out.
   */
  method FollowCursor<R>(pages: seq<Page<R>>) returns (read: Option<seq<R>>, sent: seq<Option<string>>)
    ensures read == Walk(pages)
    ensures |sent| == if FirstFinal(pages) < |pages| then FirstFinal(pages) + 1 else |pages| + 1
    ensures sent[0] == None
    ensures forall j :: 0 <= j < |sent| - 1 ==> sent[j + 1] == Some(pages[j].nextKey) && pages[j].nextKey != ""
  {
    var pageKey: Option<string> := None;
    var acc: seq<R> := [];
    var i := 0;
    sent := [];
    while true
      invariant 0 <= i <= |pages|
      invariant forall j :: 0 <= j < i ==> pages[j].nextKey != ""
      invariant acc == Records(pages[..i])
      invariant pageKey == if i == 0 then None else Some(pages[i - 1].nextKey)
      invariant |sent| == i
      invariant i > 0 ==> sent[0] == None
      invariant forall j :: 0 <= j < i - 1 ==> sent[j + 1] == Some(pages[j].nextKey)
      decreases |pages| - i
    {
      sent := sent + [pageKey];
      if i == |pages| {
        read := None;
        return;
      }
      var r := pages[i];
      assert pages[..i + 1][..i] == pages[..i];
      acc := acc + r.records;
      if r.nextKey == "" {
        read := Some(acc);
        return;
      }
      pageKey := Some(r.nextKey);
      i := i + 1;
    }
  }
}
