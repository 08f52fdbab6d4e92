/** node/internal/node/node.go: whether a node claims an announced task, and how long it holds back first. */
module ClaimDelay {
  import opened TaskStore

  const GP_RESERVE := 1000
  const SECOND := 1_000_000_000
  const FREE_TIER_CLAIM_DELAY := 2 * SECOND

  /** baseBalanceGP, and baseClaimDelay in nanoseconds. */
  datatype Settings = Settings(baseBalance: int, baseDelay: nat)

  function Square(x: real): real {
    x * x
  }

  /** The delay before it is truncated to a Duration. */
  function Exact(s: Settings, balance: int): real
    requires balance < s.baseBalance ==> s.baseBalance != GP_RESERVE
  {
    if balance >= s.baseBalance then 0.0
    else s.baseDelay as real * Square((s.baseBalance - balance) as real / (s.baseBalance - GP_RESERVE) as real)
  }

  /** time.Duration(...) truncates towards zero. */
  function Truncated(x: real): int {
    if x >= 0.0 then x.Floor else -((-x).Floor)
  }

  function BalanceBasedDelay(s: Settings, balance: int): int
    requires balance < s.baseBalance ==> s.baseBalance != GP_RESERVE
  {
    Truncated(Exact(s, balance))
  }

  predicate Affordable(balance: int, estimatedGP: int) {
    balance >= estimatedGP + GP_RESERVE
  }

  /** shouldClaimTask: how long to wait before claiming, or None. */
  function ShouldClaim(s: Settings, freeTier: bool, estimatedGP: nat, haveFree: bool, balance: int): Option<int> {
    if freeTier && haveFree then Some(0)
    else if Affordable(balance, estimatedGP) then
      Some(if freeTier then FREE_TIER_CLAIM_DELAY else BalanceBasedDelay(s, balance))
    else None
  }

  // ---- arithmetic ----

  lemma RatioInUnit(a: int, b: int)
    requires 0 <= a <= b && 0 < b
    ensures 0.0 <= a as real / b as real <= 1.0
  {
  }

  lemma SquareMonotone(x: real, y: real)
    requires 0.0 <= x <= y
    ensures 0.0 <= Square(x) <= Square(y)
  {
    assert x * x <= x * y <= y * y;
  }

  lemma ScaledMonotone(k: real, x: real, y: real)
    requires 0.0 <= k && x <= y
    ensures k * x <= k * y
  {
  }

  lemma RatioMonotone(a: int, b: int, n: int)
    requires a <= b && 0 < n
    ensures a as real / n as real <= b as real / n as real
  {
  }

  lemma ExactIsBounded(s: Settings, balance: int)
    requires GP_RESERVE <= balance
    ensures 0.0 <= Exact(s, balance) <= s.baseDelay as real
  {
    if balance < s.baseBalance {
      var n := s.baseBalance - GP_RESERVE;
      var k, x := s.baseDelay as real, (s.baseBalance - balance) as real / n as real;
      RatioInUnit(s.baseBalance - balance, n);
      SquareMonotone(x, 1.0);
      ScaledMonotone(k, Square(x), 1.0);
      ScaledMonotone(k, 0.0, Square(x));
    }
  }

  /** More than the reserve is never slower with more balance. */
  lemma ExactIsAntitone(s: Settings, low: int, high: int)
    requires GP_RESERVE <= low <= high
    ensures 0.0 <= Exact(s, high) <= Exact(s, low) <= s.baseDelay as real
  {
    ExactIsBounded(s, low);
    ExactIsBounded(s, high);
    if high < s.baseBalance {
      var n := s.baseBalance - GP_RESERVE;
      var x, y := (s.baseBalance - low) as real / n as real, (s.baseBalance - high) as real / n as real;
      RatioInUnit(s.baseBalance - high, n);
      RatioMonotone(s.baseBalance - high, s.baseBalance - low, n);
      SquareMonotone(y, x);
      ScaledMonotone(s.baseDelay as real, Square(y), Square(x));
    }
  }

  lemma TruncatedMonotone(x: real, y: real)
    requires 0.0 <= x <= y
    ensures 0 <= Truncated(x) <= Truncated(y)
  {
  }

  /**
   * Every paid task that is claimed is claimed after a delay between nothing and the base delay, never
   * longer with more balance, and at once from the base balance upward.
   */
  lemma PaidClaims(s: Settings, estimatedGP: nat, haveFree: bool, low: int, high: int)
    requires low <= high && Affordable(low, estimatedGP)
    ensures var early := ShouldClaim(s, false, estimatedGP, haveFree, high);
      var late := ShouldClaim(s, false, estimatedGP, haveFree, low);
      && early.Some? && late.Some? && 0 <= early.value <= late.value <= s.baseDelay
      && (low >= s.baseBalance ==> late.value == 0)
  {
    ExactIsAntitone(s, low, high);
    TruncatedMonotone(Exact(s, high), Exact(s, low));
    TruncatedMonotone(Exact(s, low), s.baseDelay as real);
  }

  /**
   * What a node claims: a paid task iff claiming it leaves the reserve of 1000 GP, a free-tier task if it does or
   * if the node has free quota at hand. With free quota a free-tier task is claimed at once, else after two seconds.
   */
  lemma ClaimsIff(s: Settings, freeTier: bool, estimatedGP: nat, haveFree: bool, balance: int)
    ensures var claim := ShouldClaim(s, freeTier, estimatedGP, haveFree, balance);
      var leaves := balance - estimatedGP >= 1000;
      && (!freeTier ==> (claim.Some? <==> leaves))
      && (freeTier ==> (claim.Some? <==> leaves || haveFree))
      && (freeTier && haveFree ==> claim == Some(0))
      && (freeTier && !haveFree && leaves ==> claim == Some(2_000_000_000))
  {
  }

  /** Halfway between the reserve and the base balance a quarter of the base delay is waited. */
  lemma QuarterHalfway(s: Settings, balance: int)
    requires 1000 < s.baseBalance && balance - 1000 == s.baseBalance - balance
    ensures Exact(s, balance) == s.baseDelay as real / 4.0
  {
    var n, m := (s.baseBalance - 1000) as real, (s.baseBalance - balance) as real;
    assert n == 2.0 * m && m / n == 0.5;
    assert Square(0.5) == 0.25;
  }

  /** At the reserve the whole base delay is waited. */
  lemma SlowestAtTheReserve(s: Settings)
    requires GP_RESERVE < s.baseBalance
    ensures BalanceBasedDelay(s, GP_RESERVE) == s.baseDelay
  {
    var n := (s.baseBalance - GP_RESERVE) as real;
    assert n / n == 1.0;
    assert Exact(s, GP_RESERVE) == s.baseDelay as real * Square(1.0);
  }

  // ---- convexity ----

  /** How far the balance falls short of the base. */
  function Lack(s: Settings, balance: int): int {
    if balance >= s.baseBalance then 0 else s.baseBalance - balance
  }

  /** The square of a weighted mean is at most the weighted mean of the squares. */
  lemma SquareChord(u: int, v: int, a: nat, b: nat)
    ensures (b * u + a * v) * (b * u + a * v) <= (a + b) * (b * (u * u) + a * (v * v))
  {
    var d := u - v;
    assert (a + b) * (b * (u * u) + a * (v * v)) - (b * u + a * v) * (b * u + a * v) == (a * b) * (d * d);
    assert 0 <= d * d && 0 <= a * b;
    ProductNonNegative(a * b, d * d);
  }

  lemma ProductNonNegative(x: int, y: int)
    requires 0 <= x && 0 <= y
    ensures 0 <= x * y
  {
  }

  lemma SquaresOrdered(x: int, y: int)
    requires 0 <= x <= y
    ensures x * x <= y * y
  {
    assert x * x <= x * y <= y * y;
  }

  lemma LackIsConvex(s: Settings, x: int, y: int, z: int)
    requires x < y < z
    ensures 0 <= (z - x) * Lack(s, y) <= (z - y) * Lack(s, x) + (y - x) * Lack(s, z)
  {
    var b := s.baseBalance;
    ProductNonNegative(z - x, Lack(s, y));
    ProductNonNegative(z - y, Lack(s, x));
    if y < b {
      if z < b {
        assert (z - x) * (b - y) == (z - y) * (b - x) + (y - x) * (b - z);
      } else {
        assert (z - x) * (b - y) == (z - y) * (b - x) - (y - x) * (z - b);
        ProductNonNegative(y - x, z - b);
      }
    }
  }

  function SquaredLack(s: Settings, balance: int): int {
    Lack(s, balance) * Lack(s, balance)
  }

  lemma CancelFactor(n: int, x: int, y: int)
    requires 0 < n && n * x <= n * y
    ensures x <= y
  {
  }

  lemma SquaredLackIsConvex(s: Settings, x: int, y: int, z: int)
    requires x < y < z
    ensures (z - x) * SquaredLack(s, y) <= (z - y) * SquaredLack(s, x) + (y - x) * SquaredLack(s, z)
  {
    var n, ly := z - x, Lack(s, y);
    var mean := (z - y) * Lack(s, x) + (y - x) * Lack(s, z);
    var chord := (z - y) * (Lack(s, x) * Lack(s, x)) + (y - x) * (Lack(s, z) * Lack(s, z));
    LackIsConvex(s, x, y, z);
    SquaresOrdered(n * ly, mean);
    SquareChord(Lack(s, x), Lack(s, z), y - x, z - y);
    assert (n * ly) * (n * ly) == n * (n * (ly * ly));
    CancelFactor(n, n * (ly * ly), chord);
  }

  function Scale(s: Settings): real
    requires GP_RESERVE < s.baseBalance
  {
    var n := (s.baseBalance - GP_RESERVE) as real;
    s.baseDelay as real / (n * n)
  }

  lemma ScaleNonNegative(s: Settings)
    requires GP_RESERVE < s.baseBalance
    ensures 0.0 <= Scale(s)
  {
  }

  /** The exact delay is the squared shortfall, scaled. */
  lemma ExactIsSquaredLack(s: Settings, balance: int)
    requires GP_RESERVE < s.baseBalance
    ensures Exact(s, balance) == Scale(s) * SquaredLack(s, balance) as real
  {
    if balance < s.baseBalance {
      var n, k, l := (s.baseBalance - GP_RESERVE) as real, s.baseDelay as real, Lack(s, balance) as real;
      QuotientSquared(k, l, n);
      assert (Lack(s, balance) * Lack(s, balance)) as real == l * l;
    }
  }

  lemma QuotientSquared(k: real, l: real, n: real)
    requires n != 0.0
    ensures k * ((l / n) * (l / n)) == (k / (n * n)) * (l * l)
  {
    var q := l / n;
    assert q * n == l;
    assert l * l == (q * q) * (n * n);
    assert (k / (n * n)) * (n * n) == k;
    assert (k / (n * n)) * ((q * q) * (n * n)) == ((k / (n * n)) * (n * n)) * (q * q);
  }

  lemma ScaleChord(m: real, a: int, b: int, n: int, u: int, v: int, w: int, eu: real, ev: real, ew: real)
    requires 0.0 <= m && n * v <= a * u + b * w
    requires eu == m * u as real && ev == m * v as real && ew == m * w as real
    ensures n as real * ev <= a as real * eu + b as real * ew
  {
    ScaledMonotone(m, (n * v) as real, (a * u + b * w) as real);
    assert m * (n * v) as real == n as real * ev;
    assert m * (a * u + b * w) as real == a as real * eu + b as real * ew;
  }

  /** Before truncation the delay is convex in the balance: it grows ever faster as the balance falls. */
  lemma ExactIsConvex(s: Settings, x: int, y: int, z: int)
    requires GP_RESERVE <= x < y < z
    ensures (z - x) as real * Exact(s, y) <= (z - y) as real * Exact(s, x) + (y - x) as real * Exact(s, z)
  {
    if GP_RESERVE < s.baseBalance {
      ScaleNonNegative(s);
      ExactIsSquaredLack(s, x);
      ExactIsSquaredLack(s, y);
      ExactIsSquaredLack(s, z);
      SquaredLackIsConvex(s, x, y, z);
      ScaleChord(Scale(s), z - y, y - x, z - x, SquaredLack(s, x), SquaredLack(s, y), SquaredLack(s, z),
                 Exact(s, x), Exact(s, y), Exact(s, z));
    }
  }
}
