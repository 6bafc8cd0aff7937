/** How much loot appears in a tick. */
module LootGeneration {
  import opened Geometry

  function Shortage(lootCount: nat, looterCount: nat): nat {
    if lootCount > looterCount then 0 else looterCount - lootCount
  }

  function Clamp01(r: real): (c: real)
    ensures 0.0 <= c <= 1.0
  {
    Max(0.0, Min(r, 1.0))
  }

  /** Rounding of a non-negative number, halves up. */
  function Round(r: real): (n: nat)
    requires r >= 0.0
    ensures r - 0.5 < n as real <= r + 0.5
  {
    (r + 0.5).Floor
  }

  /** The share `chance` of the shortage, rounded. */
  function Share(shortage: nat, chance: real): (n: nat)
    requires 0.0 <= chance <= 1.0
    ensures n <= shortage
  {
    ProductIsMonotone(0.0, chance, shortage as real);
    ProductIsMonotone(chance, 1.0, shortage as real);
    Round(Product(chance, shortage as real))
  }

  /** `decay` is the probability that nothing appears for as long as nothing has appeared. */
  function Amount(shortage: nat, decay: real, random: real): (n: nat)
    ensures n <= shortage
  {
    Share(shortage, Clamp01(Product(1.0 - decay, random)))
  }

  lemma ShareIsMonotone(shortage: nat, x1: real, x2: real)
    requires x1 <= x2
    ensures Share(shortage, Clamp01(x1)) <= Share(shortage, Clamp01(x2))
  {
    ProductIsMonotone(Clamp01(x1), Clamp01(x2), shortage as real);
  }

  lemma SmallerDecayNeverYieldsLess(shortage: nat, decay1: real, decay2: real, random: real)
    requires decay2 <= decay1 && random >= 0.0
    ensures Amount(shortage, decay1, random) <= Amount(shortage, decay2, random)
  {
    ProductIsMonotone(1.0 - decay1, 1.0 - decay2, random);
    ShareIsMonotone(shortage, Product(1.0 - decay1, random), Product(1.0 - decay2, random));
  }

  /** The generator can yield every amount up to the shortage, and no other. */
  lemma AmountsUpToShortage(shortage: nat, n: nat)
    ensures n <= shortage <==> exists random: real :: 0.0 <= random <= 1.0 && Amount(shortage, 0.0, random) == n
  {
    if 0 < n <= shortage {
      var random := n as real / shortage as real;
      FractionIsShare(n as real, shortage as real, random);
      assert Amount(shortage, 0.0, random) == n;
    } else if n == 0 {
      assert Amount(shortage, 0.0, 0.0) == 0;
    }
  }

  lemma FractionIsShare(n: real, d: real, q: real)
    requires 0.0 <= n <= d && d > 0.0 && q == n / d
    ensures 0.0 <= q <= 1.0 && Product(q, d) == n && Product(1.0, q) == q
  {
    DivisionBounds(n, d);
    assert q * d == n;
  }

  class LootGenerator {
    /** Milliseconds. */
    const baseInterval: int
    const probability: real
    /** The library's power function; the class assumes nothing about it. */
    const pow: (real, real) -> real
    var timeWithoutLoot: int

    constructor (baseInterval: int, probability: real, pow: (real, real) -> real)
      ensures this.baseInterval == baseInterval && this.probability == probability && this.pow == pow
      ensures timeWithoutLoot == 0
    {
      this.baseInterval, this.probability, this.pow, timeWithoutLoot := baseInterval, probability, pow, 0;
    }

    /** The chance that no loot appears in `time` milliseconds. */
    function Decay(time: int): real
      requires baseInterval > 0
    {
      pow(1.0 - probability, time as real / baseInterval as real)
    }

    method Generate(timeDelta: int, lootCount: nat, looterCount: nat, random: real) returns (generated: nat)
      requires baseInterval > 0
      modifies this`timeWithoutLoot
      ensures generated == Amount(Shortage(lootCount, looterCount), Decay(old(timeWithoutLoot) + timeDelta), random)
      ensures timeWithoutLoot == if generated > 0 then 0 else old(timeWithoutLoot) + timeDelta
      ensures generated == 0 || lootCount + generated <= looterCount
      ensures random == 1.0 && Decay(old(timeWithoutLoot) + timeDelta) == 0.0
        ==> generated == if lootCount < looterCount then looterCount - lootCount else 0
    {
      timeWithoutLoot := timeWithoutLoot + timeDelta;
      var shortage := Shortage(lootCount, looterCount);
      generated := Amount(shortage, Decay(timeWithoutLoot), random);
      if generated > 0 {
        timeWithoutLoot := 0;
      }
    }
  }

  // ---- the laws of powers, and what they say about loot ----

  /** Exponents add up; the powers with exponents 0 and 1 are 1 and the base. */
  ghost predicate IsPower(pow: (real, real) -> real) {
    && (forall x: real :: x >= 0.0 ==> pow(x, 0.0) == 1.0 && pow(x, 1.0) == x)
    && forall x: real, a: real, b: real :: x >= 0.0 && a >= 0.0 && b >= 0.0 ==>
         pow(x, a + b) == Product(pow(x, a), pow(x, b))
  }

  /** The power of a base from 0 to 1 falls with the exponent. */
  ghost predicate PowerFalls(pow: (real, real) -> real) {
    forall x: real, a: real, b: real :: 0.0 <= x <= 1.0 && a <= b ==> pow(x, b) <= pow(x, a)
  }

  /** The probability that something of probability `x` happens `n` times in a row. */
  function InARow(x: real, n: nat): real { if n == 0 then 1.0 else Product(InARow(x, n - 1), x) }

  lemma {:induction false} PowerIsInARow(pow: (real, real) -> real, x: real, n: nat)
    requires IsPower(pow) && x >= 0.0
    ensures pow(x, n as real) == InARow(x, n)
  {
    if n > 0 {
      PowerIsInARow(pow, x, n - 1);
      assert (n - 1) as real + 1.0 == n as real;
      assert pow(x, (n - 1) as real + 1.0) == Product(pow(x, (n - 1) as real), pow(x, 1.0));
    }
  }

  lemma {:induction false} InARowIsProbability(x: real, n: nat)
    requires 0.0 <= x <= 1.0
    ensures 0.0 <= InARow(x, n) <= 1.0
  {
    if n > 0 {
      InARowIsProbability(x, n - 1);
      ProductOfProbabilities(InARow(x, n - 1), x);
    }
  }

  lemma ProductOfProbabilities(a: real, b: real)
    requires 0.0 <= a <= 1.0 && 0.0 <= b <= 1.0
    ensures 0.0 <= Product(a, b) <= 1.0
  {
    ProductIsMonotone(0.0, a, b);
    ProductIsMonotone(a, 1.0, b);
  }

  lemma WholeIntervals(n: nat, c: int)
    requires c > 0
    ensures (n * c) as real / c as real == n as real
  {
    assert (n * c) as real == n as real * c as real;
  }

  /**
   * In each base interval loot fails to appear with the complement of the probability. After `n`
   * intervals without loot the share of the missing loot that appears is the probability that it
   * did not fail `n` times in a row, times the random number, rounded.
   */
  lemma AmountAfterIntervals(generator: LootGenerator, n: nat, lootCount: nat, looterCount: nat, random: real)
    requires generator.baseInterval > 0 && 0.0 <= generator.probability <= 1.0 && IsPower(generator.pow)
    requires lootCount <= looterCount && 0.0 <= random <= 1.0
    ensures var chance := Product(1.0 - InARow(1.0 - generator.probability, n), random);
      var expected := Product(chance, (looterCount - lootCount) as real);
      var amount := Amount(Shortage(lootCount, looterCount), generator.Decay(n * generator.baseInterval), random);
      expected - 0.5 < amount as real <= expected + 0.5
  {
    var fails := InARow(1.0 - generator.probability, n);
    WholeIntervals(n, generator.baseInterval);
    PowerIsInARow(generator.pow, 1.0 - generator.probability, n);
    InARowIsProbability(1.0 - generator.probability, n);
    ProductOfProbabilities(1.0 - fails, random);
    assert generator.Decay(n * generator.baseInterval) == fails;
  }

  /** With the same random number, a longer time without loot never yields less loot. */
  lemma LongerWaitNeverYieldsLess(generator: LootGenerator, shortage: nat, wait: int, longer: int, random: real)
    requires generator.baseInterval > 0 && 0.0 <= generator.probability <= 1.0 && PowerFalls(generator.pow)
    requires wait <= longer && random >= 0.0
    ensures Amount(shortage, generator.Decay(wait), random) <= Amount(shortage, generator.Decay(longer), random)
  {
    RatioGrows(wait as real, longer as real, generator.baseInterval as real);
    SmallerDecayNeverYieldsLess(shortage, generator.Decay(wait), generator.Decay(longer), random);
  }

  lemma RatioGrows(a: real, b: real, c: real)
    requires a <= b && c > 0.0
    ensures a / c <= b / c
  {
    assert (a / c) * c == a && (b / c) * c == b;
  }
}
