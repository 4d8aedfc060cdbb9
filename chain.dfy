/**
 * Single-request chain lookups and the guards in front of the derived
 * ratios: total supply, the top validator by stake, the validator counts,
 * and the checks that decide whether the bonded ratio and the APY can be
 * computed.
 */
module Chain {
  import opened Wrappers
  import opened Numerals

  /** One element of the bank module's "supply" list. */
  datatype Coin = Coin(denom: string, amount: Numeric)

  /** A validator record: its "tokens" text, its "jailed" flag and its "status". */
  datatype Validator = Validator(operator: string, tokens: Numeric, jailed: bool, status: string)

  const Uheli: string := "uheli"
  const Bonded: string := "BOND_STATUS_BONDED"

  /** `i` is the first coin of denomination uheli. */
  predicate FirstUheliAt(coins: seq<Coin>, i: int) {
    0 <= i < |coins| && coins[i].denom == Uheli && forall j :: 0 <= j < i ==> coins[j].denom != Uheli
  }

  /**
   * get_total_supply_uheli: `reply` is the supply list, None when the request
   * or raise_for_status() raised. The first uheli coin decides: its amount if
   * int() accepts it, otherwise None; None also when there is no uheli coin.
   */
  method TotalSupplyUheli(reply: Option<seq<Coin>>) returns (supply: Option<int>)
    ensures reply.None? ==> supply.None?
    ensures reply.Some? ==>
      (supply.Some? <==> exists i :: FirstUheliAt(reply.value, i) && reply.value[i].amount.IntText?)
    ensures reply.Some? && supply.Some? ==>
      exists i :: FirstUheliAt(reply.value, i) && reply.value[i].amount == IntText(supply.value)
  {
    if reply.None? {
      return None;
    }
    var coins := reply.value;
    var i := 0;
    while i < |coins|
      invariant 0 <= i <= |coins|
      invariant forall j :: 0 <= j < i ==> coins[j].denom != Uheli
    {
      if coins[i].denom == Uheli {
        assert FirstUheliAt(coins, i);
        match coins[i].amount {
          case IntText(v) => return Some(v);
          case _ =>
            assert forall k :: FirstUheliAt(coins, k) ==> k == i;
            return None;
        }
      }
      i := i + 1;
    }
    supply := None;
  }

  /**
   * get_top_validator: the validators are sorted by int(tokens), largest
   * first, by a stable sort, and the first is returned; so the result is the
   * first validator of largest stake. None when the request raised, the list
   * is empty, or some "tokens" is not integer text (int() raises in the sort key).
   */
  method TopValidator(reply: Option<seq<Validator>>) returns (top: Option<Validator>)
    ensures top.Some? <==>
      reply.Some? && |reply.value| > 0 && forall j :: 0 <= j < |reply.value| ==> reply.value[j].tokens.IntText?
    ensures top.Some? ==> exists k ::
      && 0 <= k < |reply.value| && top.value == reply.value[k]
      && (forall j :: 0 <= j < |reply.value| ==> reply.value[j].tokens.value <= reply.value[k].tokens.value)
      && (forall j :: 0 <= j < k ==> reply.value[j].tokens.value < reply.value[k].tokens.value)
  {
    if reply.None? || |reply.value| == 0 {
      return None;
    }
    var vals := reply.value;
    var i := 0;
    while i < |vals|
      invariant 0 <= i <= |vals|
      invariant forall j :: 0 <= j < i ==> vals[j].tokens.IntText?
    {
      if !vals[i].tokens.IntText? {
        return None;
      }
      i := i + 1;
    }
    var best := 0;
    i := 1;
    while i < |vals|
      invariant 1 <= i <= |vals| && 0 <= best < i
      invariant forall j :: 0 <= j < i ==> vals[j].tokens.value <= vals[best].tokens.value
      invariant forall j :: 0 <= j < best ==> vals[j].tokens.value < vals[best].tokens.value
    {
      if vals[i].tokens.value > vals[best].tokens.value {
        best := i;
      }
      i := i + 1;
    }
    top := Some(vals[best]);
  }

  /** The three numbers of the validator command. */
  datatype Counts = Counts(total: nat, active: nat, jailed: nat)

  /** Positions of the jailed validators: `v.get("jailed", False)`. */
  function JailedAt(vals: seq<Validator>): set<int>
  {
    set i | 0 <= i < |vals| && vals[i].jailed
  }

  /** Positions of the bonded validators that are not jailed. */
  function ActiveAt(vals: seq<Validator>): set<int>
  {
    set i | 0 <= i < |vals| && vals[i].status == Bonded && !vals[i].jailed
  }

  /** Dropping the last validator drops at most its own position from each set. */
  lemma AtDropLast(vals: seq<Validator>)
    requires vals != []
    ensures JailedAt(vals) == JailedAt(vals[..|vals| - 1]) + (if vals[|vals| - 1].jailed then {|vals| - 1} else {})
    ensures ActiveAt(vals) == ActiveAt(vals[..|vals| - 1]) +
      (if vals[|vals| - 1].status == Bonded && !vals[|vals| - 1].jailed then {|vals| - 1} else {})
    ensures |vals| - 1 !in JailedAt(vals[..|vals| - 1]) && |vals| - 1 !in ActiveAt(vals[..|vals| - 1])
  {
    var n := |vals| - 1;
    assert forall i :: 0 <= i < n ==> vals[..n][i] == vals[i];
  }

  /**
   * The validator command's generator sums: `total = len(vals)`, `jailed` the
   * number of jailed ones, `active` the number of bonded ones not jailed.
   */
  function ValidatorCounts(vals: seq<Validator>): (c: Counts)
    ensures c.total == |vals|
    ensures c.jailed == |JailedAt(vals)|
    ensures c.active == |ActiveAt(vals)|
    ensures c.active + c.jailed <= c.total
  {
    if vals == [] then Counts(0, 0, 0)
    else
      var c := ValidatorCounts(vals[..|vals| - 1]);
      var v := vals[|vals| - 1];
      AtDropLast(vals);
      Counts(c.total + 1,
             c.active + (if v.status == Bonded && !v.jailed then 1 else 0),
             c.jailed + (if v.jailed then 1 else 0))
  }

  /** The counts of two lists together are the sums of their counts. */
  lemma {:induction false} ValidatorCountsAdd(a: seq<Validator>, b: seq<Validator>)
    ensures ValidatorCounts(a + b).total == ValidatorCounts(a).total + ValidatorCounts(b).total
    ensures ValidatorCounts(a + b).active == ValidatorCounts(a).active + ValidatorCounts(b).active
    ensures ValidatorCounts(a + b).jailed == ValidatorCounts(a).jailed + ValidatorCounts(b).jailed
  {
    if b == [] {
      assert a + b == a;
    } else {
      var n := |b| - 1;
      assert (a + b)[..|a + b| - 1] == a + b[..n];
      ValidatorCountsAdd(a, b[..n]);
    }
  }

  /** A list with no jailed validator has every bonded one active. */
  lemma NoJailedMeansAllBondedActive(vals: seq<Validator>)
    requires forall i :: 0 <= i < |vals| ==> !vals[i].jailed
    ensures ValidatorCounts(vals).jailed == 0
    ensures ValidatorCounts(vals).active == |set i | 0 <= i < |vals| && vals[i].status == Bonded|
  {
    assert JailedAt(vals) == {};
    assert ActiveAt(vals) == set i | 0 <= i < |vals| && vals[i].status == Bonded;
  }

  // ---------------------------------------------------------------------
  // bonded_ratio and apy guards
  // ---------------------------------------------------------------------

  datatype RatioReply = BondedUnavailable | SupplyUnavailable | Ratio(percent: real)

  /**
   * bonded_ratio: `bonded` is the pool's bonded_tokens (None when the request
   * raised) and `supply` what get_total_supply_uheli returned. `not
   * supply_uheli` rejects both a missing and a zero supply before the division.
   */
  function BondedRatio(bonded: Option<int>, supply: Option<int>): (r: RatioReply)
    ensures r.BondedUnavailable? <==> bonded.None?
    ensures r.SupplyUnavailable? <==> bonded.Some? && (supply.None? || supply.value == 0)
    ensures r.Ratio? ==> supply.Some? && supply.value != 0 && r.percent * (supply.value as real) == (bonded.value as real) * 100.0
  {
    if bonded.None? then BondedUnavailable
    else if supply.None? || supply.value == 0 then SupplyUnavailable
    else Ratio((bonded.value as real) / (supply.value as real) * 100.0)
  }

  /** 500,000 HELI bonded of a 1,000,000 HELI supply is reported as 50%. */
  lemma BondedRatioHalf()
    ensures BondedRatio(Some(500000000000), Some(1000000000000)) == Ratio(50.0)
  {
  }

  datatype ApyReply = CannotCompute | NoTopValidator | Crashed | Apy(percent: real)

  /**
   * The pool's "bonded_tokens" and "not_bonded_tokens". get_pool returns `{}`
   * when its request fails, and a missing field is read with the default 0,
   * so a failed lookup is `Pool(IntText(0), IntText(0))`.
   */
  datatype Pool = Pool(bonded: Numeric, notBonded: Numeric)

  /** The top validator's commission "rate" as `float()` reads it; a missing rate is read as 0. */
  datatype RateText = RateValue(rate: real) | NotFloat

  /** `int()` accepts both pool fields. */
  predicate PoolReadable(pool: Pool) {
    pool.bonded.IntText? && pool.notBonded.IntText?
  }

  /**
   * apy as written. `supply` is what get_total_supply_uheli returned (None on
   * failure), `inflation` what get_inflation returned (0.0 on failure) and
   * `top` the commission rate of get_top_validator's result (None when it
   * returned None). Three steps raise outside any `try`, and the handler then
   * ends without a reply: `int()` on a pool field, the division
   * `bonded / supply_uheli` with a None supply (the guard
   * `bonded == 0 or supply_uheli == 0` lets it through), and `float()` on
   * the rate. The top validator's `int(tokens)` cannot raise, because
   * get_top_validator already sorted by it inside its `try`.
   */
  function ApyAsWritten(pool: Pool, supply: Option<int>, inflation: real, top: Option<RateText>): (r: ApyReply)
    ensures r.Crashed? <==>
      !PoolReadable(pool) ||
      (pool.bonded.value != 0 && supply.None?) ||
      (pool.bonded.value != 0 && supply.Some? && supply.value != 0 && top.Some? && top.value.NotFloat?)
    ensures r.CannotCompute? <==> PoolReadable(pool) && (pool.bonded.value == 0 || supply == Some(0))
    ensures r.NoTopValidator? <==>
      PoolReadable(pool) && pool.bonded.value != 0 && supply.Some? && supply.value != 0 && top.None?
  {
    if !PoolReadable(pool) then Crashed
    else
      var bonded := pool.bonded.value;
      if bonded == 0 || supply == Some(0) then CannotCompute
      else if supply.None? then Crashed
      else if top.None? then NoTopValidator
      else if top.value.NotFloat? then Crashed
      else Apy(inflation / ((bonded as real) / (supply.value as real)) * (1.0 - top.value.rate) * 100.0)
  }

  /** A failed supply lookup with readable, non-zero bonded tokens crashes the command. */
  lemma ApyAsWrittenCrashes()
    ensures ApyAsWritten(Pool(IntText(500000000000), IntText(0)), None, 0.07, Some(RateValue(0.05))) == Crashed
  {
  }

  /**
   * apy with the guard `bonded == 0 or not supply_uheli`, which the "cannot
   * compute" reply evidently intends. The `int()` and `float()` reads are
   * kept as written.
   */
  function ApyGuarded(pool: Pool, supply: Option<int>, inflation: real, top: Option<RateText>): (r: ApyReply)
    ensures r.Crashed? <==>
      !PoolReadable(pool) ||
      (pool.bonded.value != 0 && supply.Some? && supply.value != 0 && top.Some? && top.value.NotFloat?)
    ensures r.CannotCompute? <==>
      PoolReadable(pool) && (pool.bonded.value == 0 || supply.None? || supply.value == 0)
    ensures r.NoTopValidator? <==>
      PoolReadable(pool) && pool.bonded.value != 0 && supply.Some? && supply.value != 0 && top.None?
  {
    if !PoolReadable(pool) then Crashed
    else
      var bonded := pool.bonded.value;
      if bonded == 0 || supply.None? || supply.value == 0 then CannotCompute
      else if top.None? then NoTopValidator
      else if top.value.NotFloat? then Crashed
      else Apy(inflation / ((bonded as real) / (supply.value as real)) * (1.0 - top.value.rate) * 100.0)
  }

  /**
   * The corrected guard differs from the written one only on a readable pool
   * with non-zero bonded tokens and a failed supply lookup, where the written
   * one crashes and the corrected one says "cannot compute".
   */
  lemma ApyGuardedAgrees(pool: Pool, supply: Option<int>, inflation: real, top: Option<RateText>)
    ensures ApyGuarded(pool, supply, inflation, top) != ApyAsWritten(pool, supply, inflation, top) <==>
      PoolReadable(pool) && pool.bonded.value != 0 && supply.None?
    ensures PoolReadable(pool) && pool.bonded.value != 0 && supply.None? ==>
      ApyAsWritten(pool, supply, inflation, top) == Crashed && ApyGuarded(pool, supply, inflation, top) == CannotCompute
  {
  }
}
