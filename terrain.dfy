/** The rule that picks the height of each new ground segment, and the small
    integer computations around it. */
module Terrain {
  import opened Options

  /** `draw` is a possible result of `arc4random_uniform(upper)`: a value
      below `upper`, or 0 when `upper` is 0. */
  predicate UniformDraw(upper: nat, draw: nat)
  {
    if upper == 0 then draw == 0 else draw < upper
  }

  /** `UInt32(frameHeight / 12)`: a twelfth of the frame height, truncated. */
  function BaseHeight(frameHeight: real): (b: nat)
    requires frameHeight >= 0.0
    ensures b as real <= frameHeight / 12.0 < b as real + 1.0
  {
    (frameHeight / 12.0).Floor
  }

  /** `UInt32(1 / rate)`: the range of the draw behind a chance of `rate`. */
  function ChanceRange(rate: real): (n: nat)
    requires 0.0 < rate <= 1.0
    ensures n >= 1
    ensures n as real <= 1.0 / rate < n as real + 1.0
  {
    assert 1.0 / rate >= 1.0 by {
      assert (1.0 / rate) * rate == 1.0;
    }
    (1.0 / rate).Floor
  }

  /** `arc4random_uniform(UInt32(1 / rate)) == 0`. */
  function Chance(rate: real, draw: nat): bool
    requires 0.0 < rate <= 1.0
    requires UniformDraw(ChanceRange(rate), draw)
  {
    draw == 0
  }

  /** `getRundom(rate)` is true with a chance of at least `rate`: of the
      `UInt32(1 / rate)` equally likely draws, exactly one (draw 0) hits, and
      one in that many is no less than `rate`. */
  lemma ChanceIsRate(rate: real)
    requires 0.0 < rate <= 1.0
    ensures (set d: nat | d < ChanceRange(rate) && Chance(rate, d)) == {0}
    ensures rate <= 1.0 / (ChanceRange(rate) as real)
  {
    assert (1.0 / rate) * rate == 1.0;
  }

  /** The coin of the height rule has two outcomes, one of which is true. */
  lemma CoinIsFair(draw: nat)
    requires UniformDraw(ChanceRange(0.5), draw)
    ensures ChanceRange(0.5) == 2
    ensures Chance(0.5, draw) <==> draw == 0
    ensures !Chance(0.5, draw) <==> draw == 1
  {
  }

  /** A height of a freshly drawn segment: in [base, 4 * base), or 0 when the
      base height itself is 0 (the draw then has range 0). */
  predicate FreshHeight(base: nat, h: nat)
  {
    if base == 0 then h == 0 else base <= h < 4 * base
  }

  /** The height of the next segment: the previous segment's height (the base
      height for the very first segment) unless the coin says to draw anew, in
      which case `arc4random_uniform(3 * base) + base`. */
  function ChooseHeight(previous: Option<nat>, coin: bool, draw: nat, base: nat): (h: nat)
    requires UniformDraw(3 * base, draw)
    ensures !coin && previous.None? ==> h == base
    ensures !coin && previous.Some? ==> h == previous.value
    ensures coin ==> h == draw + base && FreshHeight(base, h)
  {
    if coin then draw + base
    else match previous
      case None => base
      case Some(p) => p
  }

  /** Every segment height in `heights` (in spawn order) was chosen by the
      rule under the coin recorded beside it in `coins`: a fresh draw where the
      coin was true, an exact copy of the segment before it (the base height
      for the first one) where it was false. */
  ghost predicate HeightsFollowRule(heights: seq<nat>, coins: seq<bool>, base: nat)
  {
    |heights| == |coins| &&
    forall i :: 0 <= i < |heights| ==>
      if coins[i] then FreshHeight(base, heights[i]) else heights[i] == PreviousHeight(heights, base, i)
  }

  /** The height the `i`-th segment inherits when no new one is drawn. */
  function PreviousHeight(heights: seq<nat>, base: nat, i: nat): nat
    requires i < |heights|
  {
    if i == 0 then base else heights[i - 1]
  }

  /** Appending a height chosen by the rule, with its coin, keeps the whole
      history lawful. */
  lemma ChosenHeightFollowsRule(heights: seq<nat>, coins: seq<bool>, base: nat, coin: bool, draw: nat)
    requires HeightsFollowRule(heights, coins, base)
    requires UniformDraw(3 * base, draw)
    ensures HeightsFollowRule(heights + [ChooseHeight(if heights == [] then None else Some(heights[|heights| - 1]), coin, draw, base)],
                              coins + [coin], base)
  {
  }

  /** Under the rule every segment height is in [base, 4 * base) (0 when the
      base is 0): the base itself and every draw are in range, and copies
      carry that on. */
  lemma {:induction false} HeightsInRange(heights: seq<nat>, coins: seq<bool>, base: nat, i: nat)
    requires HeightsFollowRule(heights, coins, base)
    requires i < |heights|
    ensures FreshHeight(base, heights[i])
  {
    assert if coins[i] then FreshHeight(base, heights[i]) else heights[i] == PreviousHeight(heights, base, i);
    if i > 0 && !coins[i] {
      HeightsInRange(heights, coins, base, i - 1);
    }
  }

  /** A stretch of segments spawned with the coin false all share the height
      of the segment before the stretch. */
  lemma {:induction false} CopiesKeepHeight(heights: seq<nat>, coins: seq<bool>, base: nat, i: nat, j: nat)
    requires HeightsFollowRule(heights, coins, base)
    requires 0 < i <= j < |heights|
    requires forall k :: i <= k <= j ==> !coins[k]
    ensures heights[j] == heights[i - 1]
    decreases j
  {
    assert heights[j] == PreviousHeight(heights, base, j);
    if j > i {
      CopiesKeepHeight(heights, coins, base, i, j - 1);
    }
  }

  /** `Int(1 + h / tileHeight)`: the number of underground tiles stacked under
      a segment of height `h`; their total height just exceeds `h`. */
  function UndergroundTiles(h: nat, tileHeight: nat): (n: nat)
    requires tileHeight > 0
    ensures n >= 1
    ensures (n - 1) * tileHeight <= h < n * tileHeight
  {
    var q := h / tileHeight;
    assert q * tileHeight + h % tileHeight == h;
    q + 1
  }
}
