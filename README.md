# heli-bot: a Dafny model of the bot's data-folding core

heli-bot is a Telegram bot for the HeliChain network and the HELI/USDT market.
It reads the chain's REST (LCD) endpoint and an exchange's public order book,
then answers chat commands with totals and signals. This project models the
logic inside the bot's handlers in `heli_bot.py`:

- the cursor pagination over the staking module's `unbonding_delegations`
  endpoint, and the network-wide unbonding totals built on it;
- the per-delegator tally and its top-10 ranking;
- the 15-bucket heatmap of unbonding by days left;
- the allow-list of user ids, which only the admin can change;
- decoy-order detection and the spam alert over the order book;
- the trend vote, the periodic trend job, the `/orderbook` pressure reading
  and the `/flow` snapshot;
- the supply, top-validator, validator-count and seven-day transfer lookups;
- the guards in front of the bonded ratio and the APY.

Every HTTP reply is an input value. A paginated endpoint is a sequence of
`Page`s. Each page has its records and its `next_key`, where `""` stands
for a key that is absent, null or empty. A single request that can fail is
an `Option`. Amounts are in uheli, as unbounded integers. Order-book prices
and quantities and the moving averages are exact `real`s. Timestamps are
UTC seconds. A numeric text field is a `Numeric`: `IntText(v)` when `int()`
accepts it, `FloatText(t)` when only `int(float())` does, and `NotNumber`
otherwise.

Modules: `Wrappers` (Option, Min), `Numerals` (`int()`, `str()`, the
`"<n>uheli"` reading), `Pagination`, `Ranking`, `Unbonding`, `Heatmap`,
`Access`, `Orderbook`, `Signals`, `Chain`, `Transfers`.

Behaviour worth knowing:

- A malformed balance does not skip just that entry in
  `get_total_unbonding_with_top10` and `get_unbonding_heatmap`. `int()`
  sits outside any per-entry `try` there: the function-wide `try` catches
  it, so the whole call returns its error value.
  `get_total_unbonding` and `_sum_unbonding_for_validator` do skip the
  entry: each wraps its `int()` in a per-entry `try`.
- An unbonding entry that completed one second ago has `timedelta.days`
  equal to -1, so it is dropped. It is not put in bucket 0.
- The trend verdict needs two of the three votes (`score_up >= 2`).
- The spam alert fires when the small-order count is at least 8
  (`>=`), not only when it exceeds 8.

## Model

| member | source | states |
|---|---|---|
| Numerals.ParseInt | heli_bot.py:78 | `int(s)` succeeds exactly on an optional sign followed by digits, with the decimal value of those digits, negated after `-` and unchanged after `+` |
| Numerals.ParseShowInt | heli_bot.py:78 | reading back the decimal text of any id gives that id |
| Numerals.ParseUheli | heli_bot.py:257-259 | the `"<n>uheli"` reading: only a value that ends in `uheli` is read, as `int()` of the value with every `uheli` removed |
| Numerals.ParseUheliRoundTrip | heli_bot.py:257-259 | an amount written `"<n>uheli"` is read back as n |
| Numerals.ParseUheliNeedsSuffix | heli_bot.py:257 | a value with another five-letter denomination is not read |
| Pagination.FirstFinal | heli_bot.py:144-146 | the walk ends at the first page whose next_key is empty; every earlier page carries a key |
| Pagination.WalkEnds | heli_bot.py:118-146 | the walk yields records exactly when some page ends it; when the pages run out first, the failing request makes it fail |
| Pagination.WalkSinglePage | heli_bot.py:169-186 | a walk over one final page yields that page's records |
| Pagination.FollowCursor | heli_bot.py:169-186 | the loop collects what `Walk` describes; the first request has no key, each later one carries the previous page's next_key, and the loop stops exactly at the first empty key |
| Unbonding.CollectFails | heli_bot.py:165-186 | the fan-out over validators fails exactly when some validator with an operator address has a failing walk; validators without one are skipped |
| Unbonding.Collect | heli_bot.py:165-186 | every unbonding entry of every page of every validator with an operator address, tagged with its delegator, in request order; None when a page request fails |
| Unbonding.CollectUnbonding | heli_bot.py:165-186 | the validator loop collects every entry of every walked page, in order, or fails as `Collect` says |
| Unbonding.StrictFacts | heli_bot.py:179-182 | `int()` on every balance succeeds exactly when each one is integer text, and then each entry keeps its delegator, value and completion time |
| Unbonding.Strict | heli_bot.py:179-180 | the entries with their balances read by `int()`, or None when one balance is not integer text |
| Unbonding.ReadBalances | heli_bot.py:179-180 | the entry loop reads the balances as `Strict` does and stops at the first one `int()` rejects |
| Unbonding.TotalIsSumOfTallies | heli_bot.py:162-182 | the running total always equals the sum of the per-delegator tallies in `wallets` |
| Unbonding.AddEntry | heli_bot.py:181-182 | one entry adds its balance to the total and to its delegator's tally, starting that tally at 0 when the delegator is new |
| Unbonding.FoldWallets | heli_bot.py:177-182 | the loop leaves the total, the `wallets` dict and its first-seen key order of all entries |
| Unbonding.TallyWallets | heli_bot.py:177-182 | the fold succeeds exactly when every balance is integer text, and then gives the total, the tallies and their key order |
| Unbonding.RankingListsTallies | heli_bot.py:189 | every ranked pair is a delegator together with its own tally |
| Unbonding.RankingLeavesOutSmaller | heli_bot.py:189 | a delegator left out of the top 10 has a tally no larger than the last listed one |
| Unbonding.RankingFacts | heli_bot.py:189 | the top 10 has min(10, delegators) entries, tallies non-increasing, each a delegator with its tally; those left out are no larger than the last; among equal tallies the listed ones come first in first-seen order |
| Unbonding.Top10Report | heli_bot.py:156-194 | get_total_unbonding_with_top10's result: the sum of the strictly read balances and the top 10 of the per-delegator tallies, None standing for `(None, [])` |
| Unbonding.Top10ReportFacts | heli_bot.py:156-194 | the error value `(None, [])` is returned exactly when the validator list or a page request fails or a balance is not integer text; otherwise the total is the sum of the tallies and the list is their ranking |
| Unbonding.TotalUnbondingWithTop10 | heli_bot.py:156-194 | the command returns the report that `Top10Report` describes |
| Unbonding.LenientTotal | heli_bot.py:328-333 | the sum of the balances `int()` accepts, passing over the others |
| Unbonding.TotalUnbondingSum | heli_bot.py:307-342 | get_total_unbonding's result in uheli: the lenient sum over all collected entries, None when a request fails |
| Unbonding.TotalUnbonding | heli_bot.py:307-342 | the total is the sum of every integer-text balance over all validators and pages; malformed balances are skipped; a failed request gives None |
| Unbonding.LenientMatchesStrict | heli_bot.py:328-333 | when every balance is integer text, the skipping sum equals the strict total |
| Unbonding.TotalsAgree | heli_bot.py:180 | get_total_unbonding fails only on a failed request, and whenever get_total_unbonding_with_top10 succeeds the two totals are equal |
| Unbonding.SumUnbondingForValidator | heli_bot.py:367-389 | a non-200 status or a failed request gives 0; otherwise each balance is read with `int()`, then `int(float())`, or else skipped |
| Unbonding.LooseTotal | heli_bot.py:376-386 | the sum with `int()`, then `int(float())`, tried on each balance; a balance neither accepts adds nothing |
| Unbonding.LooseTotalAdds | heli_bot.py:376-386 | the per-validator sum over two groups of entries is the sum of the two group sums |
| Unbonding.LooseIsLenientWithoutDecimals | heli_bot.py:378-385 | without decimal-text balances, the `int(float())` fallback changes nothing |
| Unbonding.DelegatorsFacts | heli_bot.py:832-835 | the wallets counted are exactly the delegators of the responses, so there are never more of them than responses |
| Unbonding.AllDelegationsFails | heli_bot.py:828-833 | unbonding_wallets fails exactly when one of its per-validator requests fails |
| Unbonding.UnbondingWallets | heli_bot.py:821-838 | the count is the number of distinct delegators over all validators, or the error reply when a request fails |
| Ranking.SortByTallyFacts | heli_bot.py:189 | the sort is a permutation, non-increasing by tally and stable among equal tallies |
| Ranking.SortByTally | heli_bot.py:189 | `sorted(..., key=tally, reverse=True)` as an insertion sort that keeps earlier items first among equal tallies |
| Ranking.Top | heli_bot.py:189 | the first n items of that sort, the `[:n]` cut |
| Ranking.TopLeavesOutSmaller | heli_bot.py:189 | every item cut off by `[:n]` has a tally no larger than the last kept one |
| Ranking.TopIsStable | heli_bot.py:189 | among equal tallies, the kept items are the first ones in the original order |
| Ranking.TopFacts | heli_bot.py:189 | `sorted(..., reverse=True)[:n]` keeps min(n, len) items, non-increasing, a sub-multiset of the input, the largest ones, stable on ties |
| Heatmap.DaysLeft | heli_bot.py:138 | `timedelta.days` is the floor of the difference in whole days |
| Heatmap.Slot | heli_bot.py:129-140 | an entry lands in a bucket exactly when it has a completion time and 0 <= days left <= 14, and the bucket is its days left |
| Heatmap.Heat | heli_bot.py:110 | the heatmap always has exactly the 15 buckets 0..14 |
| Heatmap.HeatIsDaySum | heli_bot.py:126-140 | each bucket holds exactly the balances of the entries due that many days from now |
| Heatmap.HeatTotal | heli_bot.py:110-140 | the buckets add up to the balances of the entries inside the 15-day window |
| Heatmap.WindowWithinTotal | heli_bot.py:126-140 | with non-negative balances, the window's sum is at most the sum of all balances |
| Heatmap.HeatmapWithinTotal | heli_bot.py:104-154 | the heatmap's buckets add up to no more than the total get_total_unbonding reports from the same replies |
| Heatmap.FillHeat | heli_bot.py:126-143 | the entry loop builds the heatmap, and a balance that is not integer text aborts it even when the entry has no completion time |
| Heatmap.UnbondingHeatmap | heli_bot.py:104-154 | the command returns the heatmap of all walked entries, or the empty result on any failure |
| Heatmap.HeatmapReport | heli_bot.py:104-154 | get_unbonding_heatmap's result: the 15 buckets over the strictly read entries, None standing for the empty dict of its error path |
| Heatmap.BucketExamples | heli_bot.py:138-140 | three days and two hours ahead is bucket 3; twenty days ahead, one second past, or no completion time is no bucket |
| Access.AllowList.constructor | heli_bot.py:60-61 | the allow-list starts as {ADMIN_ID} |
| Access.AllowList.IsAllowed | heli_bot.py:63-64 | a user is allowed exactly when the id is in the allow-list |
| Access.AllowList.Grant | heli_bot.py:70-82 | a non-admin is refused, a missing argument gets the usage line, a non-integer one the invalid-id reply, and all three leave the list unchanged; otherwise the id is added |
| Access.AllowList.Revoke | heli_bot.py:84-99 | the same refusals as grant; an id that is in the list is removed, any other id gets "not granted" and changes nothing |
| Access.GrantRevokeSession | heli_bot.py:70-99 | after the admin grants a user, that user is allowed; a second revoke reports "not granted"; a non-admin cannot revoke the admin |
| Orderbook.SmallOrdersFacts | heli_bot.py:538 | an order is kept exactly when it is in the book and its quantity is below 10000 |
| Orderbook.SmallOrdersConcat | heli_bot.py:535-538 | filtering bids then asks is filtering each side and joining the results |
| Orderbook.GroupByPrice | heli_bot.py:542-544 | the `summary[price] += qty` loop leaves the per-price totals of the small orders |
| Orderbook.PriceTotalsKeys | heli_bot.py:542-544 | the summary has one key per distinct price of the small orders |
| Orderbook.PriceTotalsQty | heli_bot.py:542-544 | each summary entry is the total quantity of the small orders at its price |
| Orderbook.SummaryAddsUp | heli_bot.py:542-548 | the per-price totals add up to the total quantity of the small orders |
| Orderbook.LevelsAscending | heli_bot.py:548 | `sorted(summary.items())` is strictly ascending in price |
| Orderbook.LevelsFromMap | heli_bot.py:548 | every sorted pair is a summary entry with its total |
| Orderbook.LevelsCoverMap | heli_bot.py:548 | every summary entry appears in the sorted list |
| Orderbook.SortedLevels | heli_bot.py:548 | `sorted(summary.items())` has one pair per summary entry |
| Orderbook.Report | heli_bot.py:547-553 | the message body: the small-order count, the first 20 (price, total) lines in ascending price, and the number of prices left off |
| Orderbook.ReportShape | heli_bot.py:547-553 | the message gives the small-order count, min(20, prices) lines, and the "N more" suffix exactly when there are more than 20 prices, with N = prices - 20 |
| Orderbook.ReportLines | heli_bot.py:548-549 | the shown lines ascend in price, and each one is a price of some small order with that price's total quantity |
| Orderbook.ReportShowsLowest | heli_bot.py:548 | every price left off is above every shown price |
| Orderbook.DetectDecoys | heli_bot.py:529-558 | detect_doilai reports nothing exactly when there is no small order, and otherwise replies with the report |
| Orderbook.AlertCheck | heli_bot.py:593-615 | alert_handler, and one round of alert_loop, warn exactly when there are at least 8 small orders, with the report |
| Orderbook.AlertImpliesDetection | heli_bot.py:600-613 | an alert always comes with at least one listed price |
| Orderbook.BigOrdersFacts | heli_bot.py:702 | the periodic job keeps exactly the orders whose quantity is above 1000 |
| Orderbook.JobDetect | heli_bot.py:699-708 | the job sends nothing exactly when no order is above 1000, and otherwise one line per such order in book order |
| Orderbook.JobAndHandlersOverlap | heli_bot.py:538 | an order between 1000 and 10000 counts for both the job and the handlers |
| Signals.BuySellRatio | heli_bot.py:632-634 | the ratio is buy / sell, and 0 when there is no sell volume |
| Signals.Momentum | heli_bot.py:643 | the momentum is the percentage gap of the price to the 24h average; a zero average makes the handler raise |
| Signals.VotesExclusive | heli_bot.py:652-654 | each signal votes for at most one side, so up and down votes cannot both reach 2 of 3 |
| Signals.Verdict | heli_bot.py:656-661 | the verdict is UP exactly on two up-votes, DOWN exactly on two down-votes, SIDEWAY otherwise |
| Signals.TrendCheck | heli_bot.py:621-661 | /trend raises exactly when the 24h average is zero; otherwise its EMA line is up exactly when EMA5 > EMA20 (never neutral), its ratio is the book's buy/sell ratio with that ratio's vote, its momentum m satisfies m x avg = (price - avg) x 100 with that momentum's vote, and its verdict is the vote over the three lines |
| Signals.RatioVoteByVolumes | heli_bot.py:634-640 | with sell volume, the ratio line votes up exactly when buy > 1.2 x sell and down exactly when buy < 0.8 x sell |
| Signals.NoSellVolumeVotesDown | heli_bot.py:634-638 | with no sell volume, the forced ratio 0 is a vote for the selling side |
| Signals.MomentumVoteByPrice | heli_bot.py:643-649 | with a positive average, momentum votes up exactly above 1.03 x the average and down exactly below 0.97 x |
| Signals.NoAsksAndWeakEmaFall | heli_bot.py:629-661 | no ask volume and EMA5 not above EMA20 make /trend conclude DOWN whatever the momentum |
| Signals.JobTrendAgainstEmaVote | heli_bot.py:714-719 | the job's "up" puts the price above both averages and agrees with /trend's EMA line; its "down" agrees too; equal averages give "sideway" in the job but a down line in /trend |
| Signals.JobTrend | heli_bot.py:714-719 | the job's rule: up when EMA5 > EMA20 and the price is above EMA5, down when EMA5 < EMA20 and the price is below EMA20, sideway otherwise |
| Signals.PressureByTotals | heli_bot.py:777-791 | no bids is selling pressure; otherwise selling pressure is exactly asks > 1.2 x bids and buy support exactly asks < 0.8 x bids |
| Signals.AskBid | heli_bot.py:777 | asks / bids, infinite when there is no bid quantity |
| Signals.PressureOf | heli_bot.py:786-791 | selling pressure above 1.2 (infinity included), buy support below 0.8, balanced otherwise |
| Signals.BookSummary | heli_bot.py:675-685 | /orderbook shows both sides' total quantities and the first five levels of each side; the ratio is infinite exactly when there is no bid quantity and otherwise ratio x bids = asks; the pressure line is the reading of that ratio |
| Signals.PressureAndRatioCanDisagree | heli_bot.py:777-791 | asks 1.21 x the bids read as selling pressure on /orderbook, while /trend's ratio line stays neutral |
| Signals.FlowVerdictFacts | heli_bot.py:759-764 | the flow reading is unclear exactly when the diffs are equal or neither grew; swapping the sides swaps selling and buying |
| Signals.FlowVerdict | heli_bot.py:759-764 | more selling when the asks grew more than the bids and grew; more buying in the mirror case; unclear otherwise |
| Signals.FlowMonitor.constructor | heli_bot.py:55 | the snapshot starts at zero totals and time 0 |
| Signals.FlowMonitor.Flow | heli_bot.py:736-767 | with time 0, the call only stores a snapshot; otherwise it compares the current totals with the stored ones; in both cases the snapshot becomes the current totals and time |
| Signals.FlowSession | heli_bot.py:742-767 | from a fresh start, the first call stores a snapshot and the second reports the changes against it |
| Chain.TotalSupplyUheli | heli_bot.py:196-209 | the first uheli coin decides: its amount when `int()` accepts it, otherwise None; no uheli coin or a failed request also gives None |
| Chain.TopValidator | heli_bot.py:293-305 | the result is the first validator of largest stake; None exactly when the request fails, the list is empty, or some token count is not integer text |
| Chain.ValidatorCounts | heli_bot.py:1007-1009 | the total is the list's length, the jailed count is the number of jailed validators, and the active count the number of bonded validators that are not jailed |
| Chain.ValidatorCountsAdd | heli_bot.py:1007-1009 | the three counts of two lists together are the sums of their counts |
| Chain.NoJailedMeansAllBondedActive | heli_bot.py:1008-1009 | with no jailed validator, the jailed count is 0 and the active count is the number of bonded ones |
| Chain.BondedRatio | heli_bot.py:890-916 | a failed bonded lookup or a missing or zero supply is reported before any division; otherwise ratio x supply = bonded x 100 |
| Chain.BondedRatioHalf | heli_bot.py:912-916 | 500,000 HELI bonded of a 1,000,000 HELI supply is 50% |
| Chain.ApyAsWritten | heli_bot.py:923-939 | the apy handler crashes exactly when `int()` rejects a pool field, when bonded is non-zero and the supply lookup failed, or when `float()` rejects the top validator's rate after the other guards pass; it says "cannot compute" exactly on zero bonded or a zero supply, and "no top validator" exactly when that lookup fails after the guards |
| Chain.ApyAsWrittenCrashes | heli_bot.py:926-930 | a concrete input on which the apy guard lets a missing supply through to the division |
| Chain.ApyGuarded | heli_bot.py:923-939 | with the corrected guard, a failed supply lookup is "cannot compute" like zero bonded or a zero supply; the handler still crashes on an unreadable pool field or rate, and says "no top validator" exactly when that lookup fails |
| Chain.ApyGuardedAgrees | heli_bot.py:927-929 | the corrected and the written guard give different replies exactly on a readable pool with non-zero bonded and a failed supply lookup, where the written one crashes and the corrected one says "cannot compute" |
| Transfers.FirstOld | heli_bot.py:249-250 | the scan position of the first transaction older than the window |
| Transfers.ScanIsWindowBeforeFirstOld | heli_bot.py:231-262 | a page adds the in-window amounts of the transactions before the first old one, and stops exactly when there is an old one |
| Transfers.ScanTxs | heli_bot.py:231-262 | one page's scan: the in-window amounts up to the first old transaction, and whether there was one |
| Transfers.Sent | heli_bot.py:219-268 | the total over successive pages, a page with an old transaction or no next_key being the last one read |
| Transfers.PagesRead | heli_bot.py:249-266 | how many pages are read: up to and including the first with an old transaction or no next_key, all of them when there is none |
| Transfers.SentIsWindowOfPagesRead | heli_bot.py:212-271 | the sent total is the in-window amounts of the transactions of the pages read, cut at the first old one across those pages |
| Transfers.TxLast7d | heli_bot.py:212-271 | get_tx_last_7d returns the sent total over the pages, and stops at the first old transaction, at an empty next_key, or at a failed request |
| Transfers.TransferExample | heli_bot.py:249-262 | a `"<n>uheli"` transfer inside the window counts n; the same transfer a week and a second old counts nothing |

## Findings

| source | as written | input that shows it | evidently intended | confidence | as-written member | corrected member |
|---|---|---|---|---|---|---|
| heli_bot.py:926-930 | the guard `bonded == 0 or supply_uheli == 0` is false when get_total_supply_uheli returned None, so `bonded / supply_uheli` raises TypeError and the handler ends without a reply | bonded_tokens 500000000000 with a failed supply request | reply "cannot compute APY", as bonded_ratio does with `not supply_uheli` | high, not executed | Chain.ApyAsWrittenCrashes | Chain.ApyGuarded |

## Left out

- Telegram transport: command registration, `reply_text`/`edit_text`, the
  job queue, webhook and polling startup, and the message texts themselves.
  Replies are modelled as datatypes that hold the values the text shows.
- HTTP clients, status checks and timeouts: each reply is an input.
  `pagination.limit` is not modelled, because it only sizes the pages.
- `run_in_executor`: the aggregations run sequentially in the model.
- Display conversion by 1e6 and the float formatting: amounts stay in uheli.
- Float arithmetic: prices, quantities and averages are exact reals, so
  float rounding and float price equality are not modelled. The running
  total of `get_tx_last_7d` is a float too (`total_sent += val / 1_000_000`,
  heli_bot.py:259-260); `Transfers.Sent` sums the amounts exactly in uheli.
- `get_price_data` (heli_bot.py:503-519): the candle averages are inputs
  (`PriceData`). They are float sums over a fetched series.
- ISO-8601 parsing and timezone normalisation: timestamps are UTC seconds.
  An unparseable `completion_time` is `BadTime`, and an unparseable tx
  timestamp is `None`.
- `alert_loop`'s endless loop, its sleep and its broadcast to `user_chats`:
  only one round is modelled, by `AlertCheck`.
- The `is_allowed` gate at the head of each restricted handler: it is
  modelled once, in `Access`. The handler models start after the gate.
- `/whoami` (heli_bot.py:66-68): it echoes the caller's id and user name
  and sends no request.
- `/status` (heli_bot.py:806-819): one request, whose block height and
  proposer are shown as they come.
- `/supply` (heli_bot.py:946-960): one request; the amount of the first
  uheli coin, read with `int()`, and an error reply when the request or
  `int()` raises. It differs from `Chain.TotalSupplyUheli` in three ways.
  It has no `raise_for_status`, so a non-200 reply with a JSON body shows
  0 HELI. It reads `item["denom"]` directly, so a coin without `denom`
  gives the error reply where `.get` would skip it. No uheli coin shows 0,
  not None.
- `/staked` (heli_bot.py:989-995) and `get_pool` (heli_bot.py:273-281):
  one request and `int()` of `bonded_tokens`, the same reading as the
  bonded lookup of `Chain.BondedRatio`.
- `/allaccounts` (heli_bot.py:1055-1069): it reads a holder count out of
  an explorer web page with a regular expression. Regular expressions
  over HTML are not modelled.
- `get_balance` (heli_bot.py:391-407), `get_inflation`
  (heli_bot.py:283-291), `get_unbonding_data` (heli_bot.py:345-353) and
  `_get_validators_list` (heli_bot.py:355-365): single requests whose
  reply is returned or read for one field, 0 or empty on failure.
  `get_inflation` is an input of `Chain.ApyAsWritten`, `get_balance` is
  called only by `/coreteam`, and the other two are never called.
- `get_staked` and `get_unstaking` (heli_bot.py:410-446): each sums the
  amounts of one delegator's reply with `int()` inside one `try` around the
  whole loop, so a single amount `int()` rejects turns the whole sum into
  0. That is the reading of `Unbonding.Strict` followed by the total, with
  0 as the error value; they are not modelled separately.
- `/coreteam` (heli_bot.py:1020-1050): for each of four fixed wallets it
  calls `get_balance`, `get_staked` and `get_unstaking` and formats the
  three amounts. Those lookups are not modelled, so neither is the loop.
- `/price` (heli_bot.py:962-987): when the exchange ticker gives no
  positive price it sends a second request to a price aggregator and
  replies with that price, or with a failure line. The model has no price
  feed; the candle data of `get_price_data` is an input instead.
- heli_bot_final.py is not part of this model. Each of its handlers makes
  zero to four `get_json` calls (`/start` and `/help` none, `/network`
  four), then filters, loops or sums over the replies with fixed float
  arithmetic and formats the result.
- `order_memory`, `recent_orders` and `THRESHOLD_SPAM_COUNT` are never read.
- Numerals.ParseInt: Python's `int()` also accepts surrounding whitespace,
  `_` separators between digits, and non-ASCII Unicode decimal digits
  (Arabic-Indic, fullwidth and others). The model accepts only an optional
  sign and ASCII digits. For chain amounts that is the form the LCD writes.
  For the id an admin types after `/grant` or `/revoke` (heli_bot.py:78)
  it is not: an argument such as `"4_2"` or fullwidth `"４２"` is
  granted or revoked by the bot but gets the invalid-id reply in the model.
- Unbonding.Collect: the model collects each validator's pages before
  folding them, while the source folds each page as it arrives. Every
  failure gives the same error value, so the results are identical.
- Chain.TopValidator: the model returns the validator that the stable
  descending sort puts first. It does not sort the list in place.
- Unbonding.UnbondingWallets: a response without `delegator_address` adds
  `None` to the set in the source. In the model, addresses are strings.
- Unbonding.Top10Report: for the same reason, a response without
  `delegator_address` makes `None` a key of the `wallets` tally
  (heli_bot.py:181-182), which can then appear in the top 10. The model's
  tally and ranking (`WalletItems`, `TallyWallets`, `RankingFacts`) are
  keyed by strings only.
