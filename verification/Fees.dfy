/** EIP-1559 fee arithmetic: the first quote, the gas buffer and the replacement bump.
    Amounts are wei, unbounded as BigInt is. */
module Fees {
  import opened Base

  datatype FeeQuote = FeeQuote(gasLimit: nat, maxFee: nat, maxPriority: nat)

  datatype FeePair = FeePair(maxFee: nat, maxPriority: nat)

  /** What `eth_feeHistory` answers: base fees, the last one projected for the next block,
      and for each block the rewards at the percentiles asked for. */
  datatype FeeHistory = FeeHistory(baseFees: seq<nat>, rewards: seq<seq<nat>>)

  // -------------------------------------------------------------------------
  // The upper median
  // -------------------------------------------------------------------------

  /** How many elements lie below the bound. */
  function CountBelow(s: seq<nat>, bound: nat): (count: nat)
    ensures count <= |s|
  {
    if s == [] then 0 else (if s[0] < bound then 1 else 0) + CountBelow(s[1..], bound)
  }

  /** The upper median: at most half of the sample (rounded down) lies below it, and more
      than that lies at or below it. The order of the sample plays no part. */
  predicate UpperMedian(s: seq<nat>, m: nat) {
    CountBelow(s, m) <= |s| / 2 < CountBelow(s, m + 1)
  }

  predicate Ascending(s: seq<nat>) {
    forall i, j :: 0 <= i < j < |s| ==> s[i] <= s[j]
  }

  lemma {:induction false} CountSplit(s: seq<nat>, t: seq<nat>, bound: nat)
    ensures CountBelow(s + t, bound) == CountBelow(s, bound) + CountBelow(t, bound)
  {
    if s == [] {
      assert s + t == t;
    } else {
      CountSplit(s[1..], t, bound);
      assert (s + t)[1..] == s[1..] + t;
    }
  }

  /** Only the first `k` elements can lie below the bound. */
  lemma {:induction false} CountAtMost(s: seq<nat>, k: nat, bound: nat)
    requires forall i :: k <= i < |s| ==> s[i] >= bound
    ensures CountBelow(s, bound) <= k
  {
    if s != [] {
      CountAtMost(s[1..], if k == 0 then 0 else k - 1, bound);
    }
  }

  /** The first `k` elements all lie below the bound. */
  lemma {:induction false} CountAtLeast(s: seq<nat>, k: nat, bound: nat)
    requires k <= |s| && forall i :: 0 <= i < k ==> s[i] < bound
    ensures CountBelow(s, bound) >= k
  {
    if k > 0 {
      CountAtLeast(s[1..], k - 1, bound);
    }
  }

  lemma {:induction false} CountMonotone(s: seq<nat>, low: nat, high: nat)
    requires low <= high
    ensures CountBelow(s, low) <= CountBelow(s, high)
  {
    if s != [] {
      CountMonotone(s[1..], low, high);
    }
  }

  lemma {:induction false} CountRemoved(t: seq<nat>, k: nat, bound: nat)
    requires k < |t|
    ensures CountBelow(t, bound) == CountBelow(t[..k] + t[k + 1..], bound) + if t[k] < bound then 1 else 0
  {
    var tail := t[k..];
    assert t == t[..k] + tail && tail[1..] == t[k + 1..];
    CountSplit(t[..k], tail, bound);
    CountSplit(t[..k], t[k + 1..], bound);
  }

  lemma MultisetRemoved(t: seq<nat>, k: nat)
    requires k < |t|
    ensures multiset(t[..k] + t[k + 1..]) == multiset(t) - multiset{t[k]}
  {
    assert t == t[..k] + [t[k]] + t[k + 1..];
  }

  /** Counting ignores the order of the sample. */
  lemma {:induction false} CountOrderFree(s: seq<nat>, t: seq<nat>, bound: nat)
    requires multiset(s) == multiset(t)
    ensures CountBelow(s, bound) == CountBelow(t, bound)
    decreases |s|
  {
    if s == [] {
      assert |multiset(t)| == |t| == 0;
    } else {
      hide CountBelow;
      assert s[0] in multiset(s);
      assert s[0] in t;
      var k :| 0 <= k < |t| && t[k] == s[0];
      MultisetRemoved(s, 0);
      MultisetRemoved(t, k);
      CountOrderFree(s[..0] + s[1..], t[..k] + t[k + 1..], bound);
      CountRemoved(s, 0, bound);
      CountRemoved(t, k, bound);
    }
  }

  /** One sample has one upper median, whichever order its blocks come in. */
  lemma UpperMedianUnique(s: seq<nat>, t: seq<nat>, m: nat, n: nat)
    requires multiset(s) == multiset(t)
    requires UpperMedian(s, m)
    ensures UpperMedian(t, n) <==> m == n
  {
    assert |multiset(s)| == |s| && |multiset(t)| == |t|;
    CountOrderFree(s, t, m);
    CountOrderFree(s, t, m + 1);
    if UpperMedian(t, n) && m < n {
      CountMonotone(t, m + 1, n);
    }
    if UpperMedian(t, n) && n < m {
      CountMonotone(t, n + 1, m);
    }
  }

  /** In an ascending sample the upper median stands at index floor(n / 2). */
  lemma AscendingMedian(s: seq<nat>)
    requires Ascending(s) && s != []
    ensures UpperMedian(s, s[|s| / 2])
  {
    var m := s[|s| / 2];
    CountAtMost(s, |s| / 2, m);
    CountAtLeast(s, |s| / 2 + 1, m + 1);
  }

  /** The first reward of every block, when every block has one. */
  function Tips(rewards: seq<seq<nat>>): (tips: seq<nat>)
    requires forall i :: 0 <= i < |rewards| ==> rewards[i] != []
    ensures |tips| == |rewards| && forall i :: 0 <= i < |tips| ==> tips[i] == rewards[i][0]
  {
    seq(|rewards|, i requires 0 <= i < |rewards| => rewards[i][0])
  }

  predicate Sampled(history: FeeHistory) {
    history.baseFees != [] && history.rewards != [] && forall i :: 0 <= i < |history.rewards| ==>
        history.rewards[i] != []
  }

  // -------------------------------------------------------------------------
  // The fee service
  // -------------------------------------------------------------------------

  /** Sorts the tips in place. */
  method SortTips(tips: array<nat>)
    modifies tips
    ensures Ascending(tips[..])
    ensures multiset(tips[..]) == multiset(old(tips[..]))
  {
    for i := 0 to tips.Length
      invariant Ascending(tips[..i])
      invariant multiset(tips[..]) == multiset(old(tips[..]))
    {
      var j := i;
      while j > 0 && tips[j] < tips[j - 1]
        invariant 0 <= j <= i
        invariant forall a, b :: 0 <= a < b <= i && b != j ==> tips[a] <= tips[b]
        invariant multiset(tips[..]) == multiset(old(tips[..]))
      {
        tips[j - 1], tips[j] := tips[j], tips[j - 1];
        j := j - 1;
      }
    }
    assert tips[..] == tips[..tips.Length];
  }

  /** The fee pair of the next block: the tip is the upper median of the sample, the fee
      cap twice the projected base fee plus the tip. An answer without base fees, without
      blocks, or with a block without rewards raises an error. */
  method FetchFeeData(history: FeeHistory) returns (fees: Option<FeePair>)
    ensures fees.Some? <==> Sampled(history)
    ensures fees.Some? ==> UpperMedian(Tips(history.rewards), fees.value.maxPriority)
    ensures fees.Some? ==>
      fees.value.maxFee == 2 * history.baseFees[|history.baseFees| - 1] + fees.value.maxPriority
    ensures fees.Some? ==> fees.value.maxPriority <= fees.value.maxFee
  {
    if |history.baseFees| == 0 {
      return None;
    }
    var baseFee := history.baseFees[|history.baseFees| - 1];
    var tips := new nat[|history.rewards|];
    for i := 0 to |history.rewards|
      invariant forall k :: 0 <= k < i ==> history.rewards[k] != []
      invariant forall k :: 0 <= k < i ==> tips[k] == history.rewards[k][0]
    {
      if history.rewards[i] == [] {
        return None;
      }
      tips[i] := history.rewards[i][0];
    }
    assert tips[..] == Tips(history.rewards);
    SortTips(tips);
    if tips.Length == 0 {
      return None;
    }
    var medianTip := tips[tips.Length / 2];
    AscendingMedian(tips[..]);
    UpperMedianUnique(tips[..], Tips(history.rewards), medianTip, medianTip);
    return Some(FeePair(baseFee * 2 + medianTip, medianTip));
  }

  /** The gas limit sent: the estimate with a buffer of a fifth. */
  function GasBuffer(estimate: nat): (limit: nat)
    ensures estimate <= limit && 5 * limit <= 6 * estimate < 5 * limit + 5
  {
    estimate * 120 / 100
  }

  /** The replacement fee: `percent`/100 of the fee, rounded up in integer arithmetic. */
  function Bump(fee: nat, percent: nat): nat {
    (fee * percent + 99) / 100
  }

  /** Speed-up keeps the fresh gas limit and bumps both fees. */
  function BumpQuote(quote: FeeQuote, percent: nat): FeeQuote {
    FeeQuote(quote.gasLimit, Bump(quote.maxFee, percent), Bump(quote.maxPriority, percent))
  }

  /** The bump is the ceiling of the product: the least amount that is not below it. */
  lemma BumpIsCeiling(fee: nat, percent: nat, amount: nat)
    ensures fee * percent <= 100 * Bump(fee, percent) < fee * percent + 100
    ensures amount >= Bump(fee, percent) <==> 100 * amount >= fee * percent
  {
  }

  /** A multiplier of at least one never lowers a fee, and one above 1 raises every
      positive fee. */
  lemma BumpRaises(fee: nat, percent: nat)
    requires percent >= 100
    ensures Bump(fee, percent) >= fee
    ensures Bump(fee, percent) > fee <==> fee > 0 && percent > 100
  {
    var extra := percent - 100;
    assert fee * percent == 100 * fee + fee * extra;
    if fee > 0 && extra > 0 {
      assert fee * extra >= 1;
    } else {
      assert fee * extra == 0;
    }
  }

  /** A bumped fee is above another amount exactly when the product is above a hundred times it. */
  lemma BumpExceeds(fee: nat, percent: nat, amount: nat)
    ensures Bump(fee, percent) > amount <==> fee * percent > 100 * amount
  {
    BumpIsCeiling(fee, percent, amount);
  }

  lemma BumpMonotone(low: nat, high: nat, percent: nat)
    requires low <= high
    ensures Bump(low, percent) <= Bump(high, percent)
  {
    assert low * percent <= high * percent;
  }

  /** The priority fee stays within the fee cap through the bump, as EIP-1559
      ("Specification") demands of every transaction. */
  lemma BumpKeepsCap(quote: FeeQuote, percent: nat)
    requires quote.maxPriority <= quote.maxFee
    ensures BumpQuote(quote, percent).maxPriority <= BumpQuote(quote, percent).maxFee
  {
    BumpMonotone(quote.maxPriority, quote.maxFee, percent);
  }
}
