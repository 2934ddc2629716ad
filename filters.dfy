/**
 * `applyTradingFilters` of pumpfun-trading-bot.js: an order-preserving
 * `Array.filter` that keeps a token only when its safety score, 24-hour
 * volume and social engagement are all strictly above the configured
 * thresholds.
 */
module Filters {

  /**
   * One scraped token. Scores are integers: only their comparisons and the
   * printed safety score matter here. Price and liquidity are never compared,
   * only printed, so they are kept as the text the message shows.
   */
  datatype Token = Token(
    contractAddress: string,
    symbol: string,
    priceText: string,
    liquidityText: string,
    volume24h: int,
    socialEngagement: int,
    safetyScore: int)

  /** `config.rugcheck.safety_threshold`, `config.filters.min_volume`, `config.social.min_engagement`. */
  datatype Policy = Policy(safetyThreshold: int, minVolume: int, minEngagement: int)

  /** The filter callback: three strict comparisons. */
  predicate Passes(t: Token, p: Policy)
  {
    t.safetyScore > p.safetyThreshold
    && t.volume24h > p.minVolume
    && t.socialEngagement > p.minEngagement
  }

  function ApplyTradingFilters(tokens: seq<Token>, p: Policy): (kept: seq<Token>)
    ensures |kept| <= |tokens|
    ensures forall t :: t in kept <==> t in tokens && Passes(t, p)
  {
    if tokens == [] then []
    else
      var rest := ApplyTradingFilters(tokens[1..], p);
      if Passes(tokens[0], p) then [tokens[0]] + rest else rest
  }

  /** `a` is `b` with some elements removed, the rest in the same order. */
  ghost predicate IsSubsequence<T>(a: seq<T>, b: seq<T>)
    decreases |b|
  {
    a == [] || (b != [] && ((a[0] == b[0] && IsSubsequence(a[1..], b[1..])) || IsSubsequence(a, b[1..])))
  }

  /** The candidates appear in the scraped list, in the scraped order. */
  lemma {:induction false} FilterIsSubsequence(tokens: seq<Token>, p: Policy)
    ensures IsSubsequence(ApplyTradingFilters(tokens, p), tokens)
  {
    if tokens != [] {
      FilterIsSubsequence(tokens[1..], p);
      var rest := ApplyTradingFilters(tokens[1..], p);
      if Passes(tokens[0], p) {
        assert ([tokens[0]] + rest)[1..] == rest;
      }
    }
  }

  /**
   * Each token value is kept as many times as it occurs when it passes, and
   * not at all when it fails.
   */
  lemma {:induction false} FilterMultiplicity(tokens: seq<Token>, p: Policy, t: Token)
    ensures multiset(ApplyTradingFilters(tokens, p))[t]
         == if Passes(t, p) then multiset(tokens)[t] else 0
  {
    if tokens != [] {
      FilterMultiplicity(tokens[1..], p, t);
      assert tokens == [tokens[0]] + tokens[1..];
      assert multiset(tokens) == multiset([tokens[0]]) + multiset(tokens[1..]);
    }
  }

  /** Filtering the concatenation of two scrapes filters each one. */
  lemma {:induction false} FilterAppend(a: seq<Token>, b: seq<Token>, p: Policy)
    ensures ApplyTradingFilters(a + b, p) == ApplyTradingFilters(a, p) + ApplyTradingFilters(b, p)
  {
    if a != [] {
      FilterAppend(a[1..], b, p);
      assert (a + b)[0] == a[0];
      assert (a + b)[1..] == a[1..] + b;
    } else {
      assert a + b == b;
    }
  }

  /** Filtering a list of candidates changes nothing. */
  lemma {:induction false} FilterIdempotent(tokens: seq<Token>, p: Policy)
    ensures ApplyTradingFilters(ApplyTradingFilters(tokens, p), p) == ApplyTradingFilters(tokens, p)
  {
    if tokens != [] {
      FilterIdempotent(tokens[1..], p);
      var rest := ApplyTradingFilters(tokens[1..], p);
      if Passes(tokens[0], p) {
        assert ([tokens[0]] + rest)[0] == tokens[0];
        assert ([tokens[0]] + rest)[1..] == rest;
      }
    }
  }

  /** A score exactly at a threshold is dropped: all three comparisons are strict. */
  lemma BoundaryExcluded(tokens: seq<Token>, p: Policy, t: Token)
    requires t.safetyScore == p.safetyThreshold
          || t.volume24h == p.minVolume
          || t.socialEngagement == p.minEngagement
    ensures t !in ApplyTradingFilters(tokens, p)
  {
  }

  /** A token one above every threshold is kept whenever it was scraped. */
  lemma JustAboveKept(tokens: seq<Token>, p: Policy, t: Token)
    requires t in tokens
    requires t.safetyScore == p.safetyThreshold + 1
    requires t.volume24h == p.minVolume + 1
    requires t.socialEngagement == p.minEngagement + 1
    ensures t in ApplyTradingFilters(tokens, p)
  {
  }
}
