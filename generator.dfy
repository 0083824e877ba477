/** The deterministic part of backend/services/dataGeneratorService.js: the
    strike ladder, the shape of the generated option chain, the selection of
    distinct options to update in a tick, and the update records. Random draws,
    generated tokens and the floating-point option prices are inputs. */
module DataGenerator {
  import opened Common
  import opened Pricing
  import opened Market

  /** STRIKE_GAP and STRIKE_DEPTH, the defaults of the backend constants. */
  const STRIKE_GAP: int := 100
  const STRIKE_DEPTH: int := 75

  function Min(a: int, b: int): int { if a < b then a else b }
  function Max(a: int, b: int): int { if a < b then b else a }

  /** Math.round: halves go up. */
  function RoundHalfUp(x: real): int
  {
    (x + 0.5).Floor
  }

  /** The price rounded to the nearest multiple of the strike gap. */
  function CenterStrike(underlyingPrice: real, gap: int): int
    requires gap > 0
  {
    RoundHalfUp(underlyingPrice / gap as real) * gap
  }

  /** The intended ladder: `depth` strikes, `gap` apart, starting `depth / 2`
      gaps below the center. */
  function Ladder(center: int, gap: int, depth: nat): (r: seq<int>)
    ensures |r| == depth
  {
    seq(depth, k => center - (depth / 2) * gap + k * gap)
  }

  lemma MulLess(a: int, b: int, g: int)
    requires g > 0
    ensures a * g < b * g <==> a < b
  {
    if a < b {
      assert b * g - a * g == (b - a) * g;
    } else {
      assert a * g - b * g == (a - b) * g;
    }
  }

  /** `n` strikes `gap` apart, from `first` up. */
  function Run(first: int, gap: int, n: nat): (r: seq<int>)
    ensures |r| == n
  {
    seq(n, k => first + k * gap)
  }

  lemma RunSnoc(first: int, gap: int, n: nat)
    ensures Run(first, gap, n + 1) == Run(first, gap, n) + [first + n * gap]
  {
  }

  lemma RunPrefix(first: int, gap: int, n: nat)
    requires n > 0
    ensures Run(first, gap, n)[..n - 1] == Run(first, gap, n - 1)
  {
  }

  /** The loop bound `i < limit` on `i == first + n * gap`, in terms of `n`. */
  lemma StepBound(first: int, gap: int, n: int, m: int)
    requires gap > 0
    ensures first + n * gap < first + m * gap <==> n < m
  {
    MulLess(n, m, gap);
  }

  lemma StepNext(first: int, gap: int, n: int)
    ensures first + n * gap + gap == first + (n + 1) * gap
  {
  }

  /** One loop of generateStrikes: pushes `i` and steps by `gap` while `i`
      stays below `limit` (or at most `limit`, when `inclusive`). */
  method PushWhile(strikes0: seq<int>, first: int, gap: int, limit: int, inclusive: bool, m: nat)
      returns (strikes: seq<int>)
    requires gap > 0 && |strikes0| <= m
    requires strikes0 == Run(first, gap, |strikes0|)
    requires limit == first + (if inclusive then m - 1 else m) * gap
    ensures strikes == Run(first, gap, m)
  {
    strikes := strikes0;
    var i := first + |strikes| * gap;
    while if inclusive then i <= limit else i < limit
      invariant |strikes| <= m
      invariant i == first + |strikes| * gap
      invariant strikes == Run(first, gap, |strikes|)
      decreases m - |strikes|
    {
      StepBound(first, gap, |strikes|, m);
      StepBound(first, gap, |strikes|, m - 1);
      RunSnoc(first, gap, |strikes|);
      StepNext(first, gap, |strikes|);
      strikes := strikes + [i];
      i := i + gap;
    }
    StepBound(first, gap, |strikes|, m);
    StepBound(first, gap, |strikes|, m - 1);
  }

  /** generateStrikes: strikes below the center, the center, strikes above it,
      then the excess popped from the top. */
  method GenerateStrikes(underlyingPrice: real, gap: int, depth: nat) returns (strikes: seq<int>)
    requires gap > 0
    ensures strikes == Ladder(CenterStrike(underlyingPrice, gap), gap, depth)
  {
    var centerStrike := CenterStrike(underlyingPrice, gap);
    var halfDepth := depth / 2;
    var first := centerStrike - halfDepth * gap;
    strikes := PushWhile([], first, gap, centerStrike, false, halfDepth);
    RunSnoc(first, gap, halfDepth);
    strikes := strikes + [centerStrike];
    assert centerStrike + halfDepth * gap == first + (2 * halfDepth) * gap;
    strikes := PushWhile(strikes, first, gap, centerStrike + halfDepth * gap, true, 2 * halfDepth + 1);
    while |strikes| > depth
      invariant depth <= |strikes|
      invariant strikes == Run(first, gap, |strikes|)
    {
      RunPrefix(first, gap, |strikes|);
      strikes := strikes[..|strikes| - 1];
    }
  }

  /** The ladder is strictly ascending in steps of `gap` and starts
      `depth / 2` gaps below the center. */
  lemma {:induction false} LadderAscending(center: int, gap: int, depth: nat)
    requires gap > 0
    ensures var r := Ladder(center, gap, depth);
      && (forall i, j :: 0 <= i < j < depth ==> r[i] < r[j])
      && (forall i :: 0 <= i < depth - 1 ==> r[i + 1] - r[i] == gap)
      && (depth > 0 ==> r[0] == center - (depth / 2) * gap)
  {
    var r := Ladder(center, gap, depth);
    forall i, j | 0 <= i < j < depth
      ensures r[i] < r[j]
    {
      MulLess(i, j, gap);
    }
  }

  /** With at least one strike, the center strike is on the ladder (at index
      `depth / 2`), and every strike of a generated ladder is a whole number of
      gaps. */
  lemma {:induction false} StrikesOnGrid(underlyingPrice: real, gap: int, depth: nat)
    requires gap > 0
    ensures var c := CenterStrike(underlyingPrice, gap);
      var r := Ladder(c, gap, depth);
      && (depth >= 1 ==> r[depth / 2] == c)
      && (forall i :: 0 <= i < depth ==> r[i] % gap == 0)
  {
    var m := RoundHalfUp(underlyingPrice / gap as real);
    var r := Ladder(CenterStrike(underlyingPrice, gap), gap, depth);
    forall i | 0 <= i < depth
      ensures r[i] % gap == 0
    {
      var q := m - depth / 2 + i;
      assert r[i] == q * gap;
      MultipleMod(q, gap);
    }
  }

  lemma MultipleMod(q: int, g: int)
    requires g > 0
    ensures (q * g) % g == 0
  {
    var d, m := (q * g) / g, (q * g) % g;
    assert q * g == d * g + m;
    assert (q - d) * g == m;
    MulLess(q - d, 1, g);
    MulLess(-1, q - d, g);
  }

  /** The underlying record the generator starts from. */
  datatype UnderlyingData = UnderlyingData(
    name: string,
    token: Token,
    yesterdayPrice: real,
    currentPrice: real)

  /** One generated option of the chain. */
  datatype GeneratedOption = GeneratedOption(
    token: Token,
    strike: int,
    optionType: string,
    underlyingToken: Token,
    yesterdayPrice: real,
    currentPrice: real,
    percentChange: Percent,
    moneyness: Moneyness)

  /** generateOptionData for one strike and type; `token` is the generated
      identifier and `priceOf(strike, underlyingPrice, type)` the option price
      formula. */
  function GenerateOptionData(strike: int, optionType: string, u: UnderlyingData, token: Token,
                              priceOf: (real, real, string) -> real): GeneratedOption
  {
    var yesterdayPrice := priceOf(strike as real, u.yesterdayPrice, optionType);
    var currentPrice := priceOf(strike as real, u.currentPrice, optionType);
    GeneratedOption(token, strike, optionType, u.token, yesterdayPrice, currentPrice,
                    RawPercentChange(currentPrice, yesterdayPrice),
                    GetMoneyness(strike as real, u.currentPrice, optionType))
  }

  /** generateOptionChainData for a given underlying: the ladder around its
      current price, and a CALL then a PUT for every strike, in strike order.
      `freshTokens` are the identifiers the token generator hands out, in
      order. */
  method GenerateOptionChainData(u: UnderlyingData, gap: int, depth: nat, freshTokens: seq<Token>,
                                 priceOf: (real, real, string) -> real)
    returns (options: seq<GeneratedOption>)
    requires gap > 0
    requires |freshTokens| >= 2 * depth
    ensures var strikes := Ladder(CenterStrike(u.currentPrice, gap), gap, depth);
      && |options| == 2 * |strikes|
      && (forall i :: 0 <= i < |strikes| ==>
            && options[2 * i].strike == strikes[i] && options[2 * i].optionType == "CALL"
            && options[2 * i + 1].strike == strikes[i] && options[2 * i + 1].optionType == "PUT")
    ensures forall i :: 0 <= i < |options| ==>
      && options[i].token == freshTokens[i]
      && options[i].underlyingToken == u.token
      && options[i].moneyness == GetMoneyness(options[i].strike as real, u.currentPrice, options[i].optionType)
  {
    var strikes := GenerateStrikes(u.currentPrice, gap, depth);
    options := [];
    var n := 0;
    while n < |strikes|
      invariant 0 <= n <= |strikes|
      invariant |options| == 2 * n
      invariant forall i :: 0 <= i < n ==>
        && options[2 * i].strike == strikes[i] && options[2 * i].optionType == "CALL"
        && options[2 * i + 1].strike == strikes[i] && options[2 * i + 1].optionType == "PUT"
      invariant forall i :: 0 <= i < |options| ==>
        && options[i].token == freshTokens[i]
        && options[i].underlyingToken == u.token
        && options[i].moneyness == GetMoneyness(options[i].strike as real, u.currentPrice, options[i].optionType)
    {
      var call := GenerateOptionData(strikes[n], "CALL", u, freshTokens[2 * n], priceOf);
      var put := GenerateOptionData(strikes[n], "PUT", u, freshTokens[2 * n + 1], priceOf);
      options := options + [call, put];
      n := n + 1;
    }
  }

  /** The random index loop of generateRandomUpdates: `draws` are the values of
      `floor(random * n)` in the order they are drawn, and the loop stops once
      it holds min(updateCount, n) distinct indices. The draws must contain that
      many distinct values, as an unending random stream eventually does. */
  method SelectIndices(n: nat, updateCount: int, draws: seq<nat>) returns (indices: seq<nat>)
    requires forall k :: 0 <= k < |draws| ==> draws[k] < n
    requires |Elems(draws)| >= Min(updateCount, n)
    ensures |indices| == Max(0, Min(updateCount, n))
    ensures NoDup(indices)
    ensures forall j :: 0 <= j < |indices| ==> indices[j] < n && indices[j] in draws
  {
    var target := Min(updateCount, n);
    indices := [];
    var k := 0;
    while |indices| < target
      invariant 0 <= k <= |draws|
      invariant |indices| <= Max(0, target)
      invariant NoDup(indices)
      invariant Elems(indices) == Elems(draws[..k])
      decreases |draws| - k
    {
      if k == |draws| {
        assert draws[..k] == draws;
        NoDupCard(indices);
        assert false;
      }
      assert Elems(draws[..k + 1]) == Elems(draws[..k]) + {draws[k]} by {
        assert draws[..k + 1] == draws[..k] + [draws[k]];
      }
      if draws[k] !in indices {
        assert Elems(indices + [draws[k]]) == Elems(indices) + {draws[k]};
        indices := indices + [draws[k]];
      }
      k := k + 1;
    }
    forall j | 0 <= j < |indices|
      ensures indices[j] < n && indices[j] in draws
    {
      assert indices[j] in Elems(draws[..k]);
      var m :| 0 <= m < k && draws[m] == indices[j];
    }
  }

  /** The update for one option: same token, the old price as previousPrice,
      and the change measured against yesterday's price. */
  function OptionUpdate(option: OptionEntry, newPrice: real): (u: TickUpdate)
    ensures u.token == option.token && u.previousPrice == option.currentPrice && u.currentPrice == newPrice
    ensures u.percentChange.NonFinite? <==> option.yesterdayPrice == 0.0
    ensures u.percentChange.Finite? ==>
      u.percentChange.v * option.yesterdayPrice == (newPrice - option.yesterdayPrice) * 100.0
  {
    TickUpdate(option.token, option.currentPrice, newPrice, RawPercentChange(newPrice, option.yesterdayPrice))
  }

  /** generateUnderlyingUpdate, with the random-walk price as an input. */
  function GenerateUnderlyingUpdate(underlying: UnderlyingEntry, newPrice: real): (u: TickUpdate)
    ensures u.token == underlying.token && u.previousPrice == underlying.currentPrice && u.currentPrice == newPrice
    ensures u.percentChange.NonFinite? <==> underlying.yesterdayPrice == 0.0
    ensures u.percentChange.Finite? ==>
      u.percentChange.v * underlying.yesterdayPrice == (newPrice - underlying.yesterdayPrice) * 100.0
  {
    TickUpdate(underlying.token, underlying.currentPrice, newPrice,
               RawPercentChange(newPrice, underlying.yesterdayPrice))
  }

  /** generateRandomUpdates: one update per selected option, in selection
      order; `newPrices[i]` is the random-walk price of option `i`. */
  method GenerateRandomUpdates(options: seq<OptionEntry>, updateCount: int, draws: seq<nat>, newPrices: seq<real>)
    returns (indices: seq<nat>, updates: seq<TickUpdate>)
    requires |newPrices| == |options|
    requires forall k :: 0 <= k < |draws| ==> draws[k] < |options|
    requires |Elems(draws)| >= Min(updateCount, |options|)
    ensures |updates| == |indices| == Max(0, Min(updateCount, |options|))
    ensures NoDup(indices)
    ensures forall j :: 0 <= j < |indices| ==>
      && indices[j] < |options| && indices[j] in draws
      && updates[j] == OptionUpdate(options[indices[j]], newPrices[indices[j]])
  {
    indices := SelectIndices(|options|, updateCount, draws);
    updates := [];
    var j := 0;
    while j < |indices|
      invariant 0 <= j <= |indices|
      invariant |updates| == j
      invariant forall m :: 0 <= m < j ==> updates[m] == OptionUpdate(options[indices[m]], newPrices[indices[m]])
    {
      var option := options[indices[j]];
      updates := updates + [TickUpdate(option.token, option.currentPrice, newPrices[indices[j]],
                                       RawPercentChange(newPrices[indices[j]], option.yesterdayPrice))];
      j := j + 1;
    }
  }
}
