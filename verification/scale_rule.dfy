// The CPU scaling rule (autoscale/scale_rule.go) over real numbers.
//
// A tenant runs n pods of CORES_OF_POD cores; usage is the average number of busy cores per pod;
// lower and upper are the tenant's thresholds as fractions of one pod.
module ScaleRule {
  import opened Numbers

  const CORES_OF_POD: int := 8
  const NO_CHANGE: int := -1

  // The pod counts a tenant's configuration allows: at least one pod, and never an empty range.
  function MinPods(minCores: int): int {
    MaxInt(DivTrunc(minCores, CORES_OF_POD), 1)
  }

  function MaxPods(minCores: int, maxCores: int): int {
    MaxInt(DivTrunc(maxCores, CORES_OF_POD), MaxInt(DivTrunc(minCores, CORES_OF_POD), 1))
  }

  // How many pods would bring each pod to the middle of the band, before rounding.
  function LogicalPods(n: int, usage: real, lower: real, upper: real): real
    requires lower + upper != 0.0
  {
    usage * n as real / ((lower + upper) / 2.0) / CORES_OF_POD as real
  }

  // Rounding: up just above n, down just below n, to nearest further away; never below one pod.
  function Candidate(x: real, n: int): (c: int)
  {
    MaxInt(
      if x > n as real && x < n as real + 1.0 then Trunc(x + 0.99)
      else if x < n as real && x > n as real - 1.0 then Trunc(x)
      else Round(x),
      1)
  }

  predicate Overloaded(usage: real, upper: real) {
    usage > CORES_OF_POD as real * upper
  }

  predicate Underloaded(usage: real, lower: real) {
    usage < CORES_OF_POD as real * lower
  }

  // ComputeBestPodsInRuleOfCompute: the wanted count (or NO_CHANGE) and its distance from n.
  function BestPods(n: int, min: int, max: int, usage: real, lower: real, upper: real): (int, int) {
    if lower >= upper then (NO_CHANGE, 0)
    else
      var low := CORES_OF_POD as real * lower;
      var up := CORES_OF_POD as real * upper;
      if usage >= low && usage <= up then (NO_CHANGE, 0)
      else if low + up == 0.0 then (NO_CHANGE, 0)
      else
        var candidate := Candidate(LogicalPods(n, usage, lower, upper), n);
        var usageThen := usage * n as real / candidate as real;
        if usage > up then
          if candidate < n then (NO_CHANGE, 0)                        // case#2
          else if usageThen <= low then                               // case#3
            var ret := MinInt(n + 1, max); (ret, ret - n)
          else
            var ret := MinInt(candidate, max); (ret, ret - n)
        else if usage < low then
          if candidate > n then (NO_CHANGE, 0)                        // case#4
          else if usageThen >= up then                                // case#5
            var ret := MaxInt(n - 1, min); (ret, ret - n)
          else
            var ret := MaxInt(candidate, min); (ret, ret - n)
        else (NO_CHANGE, 0)
  }

  // Thresholds, load and counts the rule is meant for.
  predicate Sane(n: int, min: int, max: int, usage: real, lower: real, upper: real) {
    && 0.0 <= lower < upper
    && usage >= 0.0
    && 1 <= min <= n <= max
  }

  // Every configuration yields a range the rule can work with, whatever the core counts are: as many pods
  // of eight cores as fit, at least one, and a maximum that never falls below the minimum.
  lemma ConfiguredRangeIsSane(minCores: int, maxCores: int)
    ensures var min, max := MinPods(minCores), MaxPods(minCores, maxCores);
            && 1 <= min <= max
            && (minCores < 16 ==> min == 1)
            && (minCores >= 8 ==> min * 8 <= minCores < (min + 1) * 8)
            && (maxCores < min * 8 ==> max == min)
            && (maxCores >= min * 8 ==> max * 8 <= maxCores < (max + 1) * 8)
  {
  }

  // Thresholds that leave no band between them, or cancel out, change nothing.
  lemma DegenerateBandsDoNothing(n: int, min: int, max: int, usage: real, lower: real, upper: real)
    requires lower >= upper || lower + upper == 0.0
    ensures BestPods(n, min, max, usage, lower, upper) == (-1, 0)
    ensures NextCount(n, min, max, usage, lower, upper) == n
  {
  }

  // ---------------------------------------------------------------------------------------------
  // Arithmetic of the rounding

  lemma DivMul(a: real, b: real)
    requires b != 0.0
    ensures a / b * b == a
  {
  }

  // x pods at the middle of the band carry exactly the present load.
  lemma LogicalCarriesLoad(n: int, usage: real, lower: real, upper: real)
    requires lower + upper > 0.0
    ensures LogicalPods(n, usage, lower, upper) * (4.0 * (lower + upper)) == usage * n as real
  {
    var load := usage * n as real;
    var half := (lower + upper) / 2.0;
    DivMul(load, half);
    DivMul(load / half, 8.0);
  }

  lemma CandidateAbove(x: real, n: int)
    requires n >= 1 && x > n as real
    ensures x < n as real + 0.01 ==> Candidate(x, n) == n
    ensures x >= n as real + 0.01 ==> Candidate(x, n) >= n + 1
    ensures n as real + 0.01 <= x < n as real + 1.0 ==> Candidate(x, n) == n + 1
    ensures x >= n as real + 1.0 ==> Candidate(x, n) as real <= x + 0.5
  {
  }

  lemma CandidateBelow(x: real, n: int)
    requires n >= 1 && 0.0 <= x < n as real
    ensures 1 <= Candidate(x, n) <= MaxInt(n - 1, 1)
  {
  }

  lemma ScaleUp(a: real, b: real, k: real)
    requires k > 0.0 && a <= b
    ensures a * k <= b * k
  {
  }

  lemma ScaleUpStrict(a: real, b: real, k: real)
    requires k > 0.0 && a < b
    ensures a * k < b * k
  {
  }

  lemma CancelLess(a: real, b: real, k: real)
    requires k > 0.0 && a * k < b * k
    ensures a < b
  {
    if a >= b { ScaleUp(b, a, k); }
  }

  lemma CancelLeq(a: real, b: real, k: real)
    requires k > 0.0 && a * k <= b * k
    ensures a <= b
  {
    if a > b { ScaleUpStrict(b, a, k); }
  }

  lemma CompareScaled(a: real, b: real, k: real)
    requires k > 0.0
    ensures a <= b <==> a * k <= b * k
  {
    if a <= b { ScaleUp(a, b, k); }
    if a * k <= b * k { CancelLeq(a, b, k); }
  }

  // a/b against c, without the division.
  lemma Quotient(a: real, b: real, c: real)
    requires b > 0.0
    ensures a / b <= c <==> a <= c * b
    ensures a / b >= c <==> a >= c * b
  {
    DivMul(a, b);
    if a / b <= c { ScaleUp(a / b, c, b); }
    if a / b >= c { ScaleUp(c, a / b, b); }
    if a <= c * b { CancelLeq(a / b, c, b); }
    if a >= c * b { CancelLeq(c, a / b, b); }
  }

  // usage > upper puts the logical count above n, usage < lower puts it below.
  lemma LogicalSide(n: int, usage: real, lower: real, upper: real)
    requires 0.0 <= lower < upper && usage >= 0.0 && n >= 1
    ensures LogicalPods(n, usage, lower, upper) >= 0.0
    ensures Overloaded(usage, upper) ==> LogicalPods(n, usage, lower, upper) > n as real
    ensures Underloaded(usage, lower) ==> LogicalPods(n, usage, lower, upper) < n as real
  {
    var x := LogicalPods(n, usage, lower, upper);
    var k := 4.0 * (lower + upper);
    LogicalCarriesLoad(n, usage, lower, upper);
    ScaleUp(0.0, usage, n as real);
    CancelLeq(0.0, x, k);
    if Overloaded(usage, upper) {
      ScaleUpStrict(k, usage, n as real);
      CancelLess(n as real, x, k);
    }
    if Underloaded(usage, lower) {
      ScaleUpStrict(usage, k, n as real);
      CancelLess(x, n as real, k);
    }
  }

  // ---------------------------------------------------------------------------------------------
  // What one decision does

  // Enough load to make the rounding move up: a 0.01 margin above the present count.
  predicate ClearsMargin(n: int, usage: real, lower: real, upper: real) {
    usage * n as real >= (n as real + 0.01) * (4.0 * (lower + upper))
  }

  lemma MarginIsLogical(n: int, usage: real, lower: real, upper: real)
    requires 0.0 <= lower < upper
    ensures ClearsMargin(n, usage, lower, upper) <==> LogicalPods(n, usage, lower, upper) >= n as real + 0.01
  {
    LogicalCarriesLoad(n, usage, lower, upper);
    CompareScaled(n as real + 0.01, LogicalPods(n, usage, lower, upper), 4.0 * (lower + upper));
  }

  // In the band nothing happens; outside it the answer is a legal count, never on the wrong side,
  // and underload always shrinks a tenant that may shrink. Overload grows exactly above the margin.
  lemma OneDecision(n: int, min: int, max: int, usage: real, lower: real, upper: real)
    requires Sane(n, min, max, usage, lower, upper)
    ensures var (r, delta) := BestPods(n, min, max, usage, lower, upper);
            && (r == -1 <==> 8.0 * lower <= usage <= 8.0 * upper)
            && (r != -1 ==> min <= r <= max && delta == r - n)
            && (Overloaded(usage, upper) ==> r >= n)
            && (Overloaded(usage, upper) ==> (r > n <==> n < max && ClearsMargin(n, usage, lower, upper)))
            && (Underloaded(usage, lower) ==> r <= n)
            && (Underloaded(usage, lower) ==> (r < n <==> n > min))
  {
    var x := LogicalPods(n, usage, lower, upper);
    LogicalSide(n, usage, lower, upper);
    MarginIsLogical(n, usage, lower, upper);
    if Overloaded(usage, upper) {
      CandidateAbove(x, n);
      var c := Candidate(x, n);
      if c == n { Quotient(usage * n as real, n as real, 8.0 * lower); ScaleUpStrict(8.0 * lower, usage, n as real); }
    } else if Underloaded(usage, lower) {
      CandidateBelow(x, n);
    }
  }

  // A tenant left above its range by a lowered limit: overload drops it straight to the limit,
  // underload shrinks it but need not reach the range at once.
  lemma AboveTheRange(n: int, min: int, max: int, usage: real, lower: real, upper: real)
    requires 0.0 <= lower < upper && usage >= 0.0 && 1 <= min <= max < n
    ensures var (r, delta) := BestPods(n, min, max, usage, lower, upper);
            && (Overloaded(usage, upper) ==> r == max)
            && (Underloaded(usage, lower) ==> min <= r < n)
  {
    var x := LogicalPods(n, usage, lower, upper);
    LogicalSide(n, usage, lower, upper);
    if Overloaded(usage, upper) {
      CandidateAbove(x, n);
    } else if Underloaded(usage, lower) {
      CandidateBelow(x, n);
    }
  }

  // A tenant left below its range by a raised limit: underload lifts it to the limit, overload never
  // shrinks it but need not lift it into the range.
  lemma BelowTheRange(n: int, min: int, max: int, usage: real, lower: real, upper: real)
    requires 0.0 <= lower < upper && usage >= 0.0 && 1 <= n < min <= max
    ensures var (r, delta) := BestPods(n, min, max, usage, lower, upper);
            && (Underloaded(usage, lower) ==> r == min)
            && (Overloaded(usage, upper) ==> n <= r <= max)
  {
    var x := LogicalPods(n, usage, lower, upper);
    LogicalSide(n, usage, lower, upper);
    if Overloaded(usage, upper) {
      CandidateAbove(x, n);
    } else if Underloaded(usage, lower) {
      CandidateBelow(x, n);
    }
  }

  // The guards marked case#2 and case#4 never fire.
  lemma DefensiveCasesAreDead(n: int, min: int, max: int, usage: real, lower: real, upper: real)
    requires Sane(n, min, max, usage, lower, upper)
    ensures Overloaded(usage, upper) ==> Candidate(LogicalPods(n, usage, lower, upper), n) >= n
    ensures Underloaded(usage, lower) ==> Candidate(LogicalPods(n, usage, lower, upper), n) <= n
  {
    var x := LogicalPods(n, usage, lower, upper);
    LogicalSide(n, usage, lower, upper);
    if Overloaded(usage, upper) { CandidateAbove(x, n); }
    if Underloaded(usage, lower) { CandidateBelow(x, n); }
  }

  // The repository's own test expects every overload below the maximum to grow. One pod with 7.95 of its
  // eight cores busy, under thresholds 0.98 and 0.99, is overloaded and stays one pod.
  lemma OverloadCanStall()
    ensures Sane(1, 1, 4, 7.95, 0.98, 0.99) && Overloaded(7.95, 0.99) && 7.95 <= CORES_OF_POD as real
    ensures BestPods(1, 1, 4, 7.95, 0.98, 0.99) == (1, 0)
  {
    OneDecision(1, 1, 4, 7.95, 0.98, 0.99);
  }

  // ---------------------------------------------------------------------------------------------
  // Two decisions in a row under the same total load

  // The count the analysis loop moves to.
  function NextCount(n: int, min: int, max: int, usage: real, lower: real, upper: real): int {
    var r := BestPods(n, min, max, usage, lower, upper).0;
    if r == NO_CHANGE then n else r
  }

  // The second decision undoes part of the first.
  predicate Reverses(n: int, min: int, max: int, usage: real, lower: real, upper: real) {
    var r := NextCount(n, min, max, usage, lower, upper);
    && r != 0
    && var again := NextCount(r, min, max, usage * n as real / r as real, lower, upper);
       (r > n && again < r) || (r < n && again > r)
  }

  // Growing by one would already leave the tenant underloaded.
  predicate FlapsUp(n: int, max: int, usage: real, lower: real, upper: real) {
    && Overloaded(usage, upper)
    && n < max
    && ClearsMargin(n, usage, lower, upper)
    && usage * n as real < CORES_OF_POD as real * lower * (n + 1) as real
  }

  // Shrinking by one would overload the tenant enough to grow again.
  predicate FlapsDown(n: int, min: int, usage: real, lower: real, upper: real) {
    && Underloaded(usage, lower)
    && n > min
    && usage * n as real > CORES_OF_POD as real * upper * (n - 1) as real
    && usage * n as real >= (n as real - 1.0 + 0.01) * (4.0 * (lower + upper))
  }

  lemma LessLoadPerPod(a: real, small: int, large: int)
    requires a >= 0.0 && small <= large
    ensures a * small as real <= a * large as real
  {
  }

  // c pods of k cores each carry the load as nearly as whole pods can; next to n, one pod more.
  predicate NearestAbove(n: int, load: real, k: real, c: int) {
    if load < (n + 1) as real * k then c == n + 1
    else (c as real - 0.5) * k <= load <= (c as real + 0.5) * k
  }

  // The same below n, where the next count is one less, and there is always one pod.
  predicate NearestBelow(n: int, load: real, k: real, c: int) {
    if load > (n - 1) as real * k then c == MaxInt(n - 1, 1)
    else if load < 0.5 * k then c == 1
    else (c as real - 0.5) * k <= load <= (c as real + 0.5) * k
  }

  // A growth goes to the count that carries the load at the middle of the band, capped; case#3 grows by exactly one.
  lemma GrowthTarget(n: int, min: int, max: int, usage: real, lower: real, upper: real) returns (c: int, r: int)
    requires Sane(n, min, max, usage, lower, upper)
    requires Overloaded(usage, upper) && n < max && ClearsMargin(n, usage, lower, upper)
    ensures r == NextCount(n, min, max, usage, lower, upper) && n < r <= max
    ensures n + 1 <= c && NearestAbove(n, usage * n as real, 4.0 * (lower + upper), c)
    ensures r == if usage * n as real / c as real <= 8.0 * lower then n + 1 else MinInt(c, max)
  {
    GrowthIsRounded(n, min, max, usage, lower, upper);
    c := Candidate(LogicalPods(n, usage, lower, upper), n);
    r := NextCount(n, min, max, usage, lower, upper);
    hide NextCount, Candidate, LogicalPods, NearestAbove, Sane;
    NearestByRounding(n, usage, lower, upper);
  }

  lemma NearestByRounding(n: int, usage: real, lower: real, upper: real)
    requires 0.0 <= lower < upper && usage >= 0.0 && n >= 1
    ensures var c := Candidate(LogicalPods(n, usage, lower, upper), n);
            && (ClearsMargin(n, usage, lower, upper) ==> NearestAbove(n, usage * n as real, 4.0 * (lower + upper), c))
            && (Underloaded(usage, lower) ==> NearestBelow(n, usage * n as real, 4.0 * (lower + upper), c))
  {
    LogicalSide(n, usage, lower, upper);
    MarginIsLogical(n, usage, lower, upper);
    LogicalCarriesLoad(n, usage, lower, upper);
    hide LogicalPods, Candidate, NearestAbove, NearestBelow, ClearsMargin, Underloaded;
    var x, k := LogicalPods(n, usage, lower, upper), 4.0 * (lower + upper);
    assert x * k == usage * n as real && k > 0.0;
    if x >= n as real + 0.01 { RoundsAbove(n, x, k); }
    if x < n as real { RoundsBelow(n, x, k); }
  }

  lemma RoundsAbove(n: int, x: real, k: real)
    requires k > 0.0 && n >= 1 && x >= n as real + 0.01
    ensures NearestAbove(n, x * k, k, Candidate(x, n))
  {
    CandidateRounds(x, n);
    NearestScaled(x, Candidate(x, n), (n + 1) as real, k);
    hide Candidate;
  }

  lemma RoundsBelow(n: int, x: real, k: real)
    requires k > 0.0 && n >= 1 && 0.0 <= x < n as real
    ensures NearestBelow(n, x * k, k, Candidate(x, n))
  {
    CandidateRounds(x, n);
    NearestScaled(x, Candidate(x, n), (n - 1) as real, k);
    NearestScaled(x, Candidate(x, n), 0.5, k);
    hide Candidate;
  }

  lemma NearestScaled(x: real, c: int, bound: real, k: real)
    requires k > 0.0
    ensures x < bound <==> x * k < bound * k
    ensures x > bound <==> x * k > bound * k
    ensures x - 0.5 <= c as real <= x + 0.5 ==> (c as real - 0.5) * k <= x * k <= (c as real + 0.5) * k
  {
    CompareScaled(x, bound, k);
    CompareScaled(bound, x, k);
    CompareScaled(c as real - 0.5, x, k);
    CompareScaled(x, c as real + 0.5, k);
  }

  lemma GrowthIsRounded(n: int, min: int, max: int, usage: real, lower: real, upper: real)
    requires Sane(n, min, max, usage, lower, upper)
    requires Overloaded(usage, upper) && n < max && ClearsMargin(n, usage, lower, upper)
    ensures var c, r := Candidate(LogicalPods(n, usage, lower, upper), n), NextCount(n, min, max, usage, lower, upper);
            && n + 1 <= c && n < r <= max
            && r == if usage * n as real / c as real <= 8.0 * lower then n + 1 else MinInt(c, max)
  {
    OneDecision(n, min, max, usage, lower, upper);
    MarginIsLogical(n, usage, lower, upper);
    LogicalSide(n, usage, lower, upper);
    CandidateAbove(LogicalPods(n, usage, lower, upper), n);
  }

  lemma GrowthArithmetic(load: real, low: real, n: int, c: int, r: int)
    requires low >= 0.0 && n >= 1 && n + 1 <= c && n < r
    requires if load / c as real <= low then r == n + 1 else r <= c
    ensures load / r as real < low <==> load < low * (n + 1) as real
  {
    Quotient(load, c as real, low);
    Quotient(load, r as real, low);
    if load / c as real > low {
      LessLoadPerPod(low, r, c);
      LessLoadPerPod(low, n + 1, c);
    }
  }

  // A shrink goes to the count that carries the load at the middle of the band, floored; case#5 shrinks by exactly one.
  lemma ShrinkTarget(n: int, min: int, max: int, usage: real, lower: real, upper: real) returns (c: int, r: int)
    requires Sane(n, min, max, usage, lower, upper)
    requires Underloaded(usage, lower) && n > min
    ensures r == NextCount(n, min, max, usage, lower, upper) && min <= r < n
    ensures 1 <= c <= n - 1 && NearestBelow(n, usage * n as real, 4.0 * (lower + upper), c)
    ensures r == if usage * n as real / c as real >= 8.0 * upper then n - 1 else MaxInt(c, min)
  {
    ShrinkIsRounded(n, min, max, usage, lower, upper);
    c := Candidate(LogicalPods(n, usage, lower, upper), n);
    r := NextCount(n, min, max, usage, lower, upper);
    hide NextCount, Candidate, LogicalPods, NearestBelow, Sane;
    NearestByRounding(n, usage, lower, upper);
  }

  lemma ShrinkIsRounded(n: int, min: int, max: int, usage: real, lower: real, upper: real)
    requires Sane(n, min, max, usage, lower, upper)
    requires Underloaded(usage, lower) && n > min
    ensures var c, r := Candidate(LogicalPods(n, usage, lower, upper), n), NextCount(n, min, max, usage, lower, upper);
            && 1 <= c <= n - 1 && min <= r < n
            && r == if usage * n as real / c as real >= 8.0 * upper then n - 1 else MaxInt(c, min)
  {
    OneDecision(n, min, max, usage, lower, upper);
    LogicalSide(n, usage, lower, upper);
    CandidateBelow(LogicalPods(n, usage, lower, upper), n);
  }

  lemma ShrinkArithmetic(load: real, up: real, n: int, c: int, r: int)
    requires up >= 0.0 && 1 <= c <= n - 1 && 1 <= r < n
    requires if load / c as real >= up then r == n - 1 else r >= c
    ensures load / r as real > up <==> load > up * (n - 1) as real
    ensures load > up * (n - 1) as real ==> r == n - 1
  {
    Quotient(load, c as real, up);
    Quotient(load, r as real, up);
    LessLoadPerPod(up, r, n - 1);
    LessLoadPerPod(up, c, n - 1);
    if load / c as real < up {
      LessLoadPerPod(up, c, r);
    }
  }

  // The next decision, on r pods carrying the load of n.
  lemma SecondDecision(n: int, r: int, min: int, max: int, usage: real, lower: real, upper: real)
    requires Sane(n, min, max, usage, lower, upper) && min <= r <= max
    ensures var then_ := usage * n as real / r as real;
            var again := NextCount(r, min, max, then_, lower, upper);
            && (again > r <==> Overloaded(then_, upper) && r < max &&
                               usage * n as real >= (r as real + 0.01) * (4.0 * (lower + upper)))
            && (again < r <==> Underloaded(then_, lower) && r > min)
  {
    hide BestPods;
    var then_ := usage * n as real / r as real;
    DivMul(usage * n as real, r as real);
    ScaleUp(0.0, usage, n as real);
    Quotient(usage * n as real, r as real, 0.0);
    OneDecision(r, min, max, then_, lower, upper);
  }

  lemma GrowthReverses(n: int, min: int, max: int, usage: real, lower: real, upper: real)
    requires Sane(n, min, max, usage, lower, upper)
    requires Overloaded(usage, upper) && n < max && ClearsMargin(n, usage, lower, upper)
    ensures Reverses(n, min, max, usage, lower, upper) <==> usage * n as real < 8.0 * lower * (n + 1) as real
  {
    hide BestPods, NextCount, NearestAbove, NearestBelow;
    var c, r := GrowthTarget(n, min, max, usage, lower, upper);
    GrowthArithmetic(usage * n as real, 8.0 * lower, n, c, r);
    SecondDecision(n, r, min, max, usage, lower, upper);
  }

  lemma ShrinkReverses(n: int, min: int, max: int, usage: real, lower: real, upper: real)
    requires Sane(n, min, max, usage, lower, upper)
    requires Underloaded(usage, lower) && n > min
    ensures Reverses(n, min, max, usage, lower, upper) <==>
              && usage * n as real > 8.0 * upper * (n - 1) as real
              && usage * n as real >= (n as real - 1.0 + 0.01) * (4.0 * (lower + upper))
  {
    hide BestPods, NextCount, NearestAbove, NearestBelow;
    var c, r := ShrinkTarget(n, min, max, usage, lower, upper);
    ShrinkArithmetic(usage * n as real, 8.0 * upper, n, c, r);
    SecondDecision(n, r, min, max, usage, lower, upper);
  }

  // Exactly when a resize is undone by the next decision, for any thresholds.
  lemma ReversesIff(n: int, min: int, max: int, usage: real, lower: real, upper: real)
    requires Sane(n, min, max, usage, lower, upper)
    ensures Reverses(n, min, max, usage, lower, upper) <==>
              FlapsUp(n, max, usage, lower, upper) || FlapsDown(n, min, usage, lower, upper)
  {
    hide BestPods;
    OneDecision(n, min, max, usage, lower, upper);
    if Overloaded(usage, upper) && n < max && ClearsMargin(n, usage, lower, upper) {
      GrowthReverses(n, min, max, usage, lower, upper);
    } else if Underloaded(usage, lower) && n > min {
      ShrinkReverses(n, min, max, usage, lower, upper);
    }
  }

  // A band at least twice as wide at the top as at the bottom never flaps ...
  lemma WideBandIsStable(n: int, min: int, max: int, usage: real, lower: real, upper: real)
    requires Sane(n, min, max, usage, lower, upper) && upper >= 2.0 * lower
    ensures !Reverses(n, min, max, usage, lower, upper)
  {
    hide BestPods;
    ReversesIff(n, min, max, usage, lower, upper);
    if Overloaded(usage, upper) {
      DoubleBand(n, usage, lower);
    }
    if Underloaded(usage, lower) && n > min {
      HalfBand(n, usage, upper);
    }
  }

  // Over twice the lower threshold, one pod more still leaves every pod at the lower threshold.
  lemma DoubleBand(n: int, usage: real, lower: real)
    requires n >= 1 && lower >= 0.0 && usage >= 16.0 * lower
    ensures usage * n as real >= 8.0 * lower * (n + 1) as real
  {
    ScaleUp(16.0 * lower, usage, n as real);
    var m := n as real;
    assert lower * (m - 1.0) >= 0.0;
    assert 16.0 * lower * m - 8.0 * lower * (m + 1.0) == 8.0 * (lower * (m - 1.0));
    assert (n + 1) as real == m + 1.0;
  }

  // Under half the upper threshold, one pod in two or more is never missed.
  lemma HalfBand(n: int, usage: real, upper: real)
    requires n >= 2 && upper >= 0.0 && usage <= 4.0 * upper
    ensures usage * n as real <= 8.0 * upper * (n - 1) as real
  {
    ScaleUp(usage, 4.0 * upper, n as real);
    var m := n as real;
    assert upper * (m - 2.0) >= 0.0;
    assert 8.0 * upper * (m - 1.0) - 4.0 * upper * m == 4.0 * (upper * (m - 2.0));
    assert (n - 1) as real == m - 1.0;
  }

  // ... and every narrower band has a load that makes one pod grow to two and shrink back.
  lemma NarrowBandFlaps(lower: real, upper: real) returns (usage: real)
    requires 0.0 <= lower < upper < 2.0 * lower
    ensures Sane(1, 1, 2, usage, lower, upper)
    ensures Reverses(1, 1, 2, usage, lower, upper)
  {
    var floor := if 8.0 * upper > 4.04 * (lower + upper) then 8.0 * upper else 4.04 * (lower + upper);
    usage := (floor + 16.0 * lower) / 2.0;
    ReversesIff(1, 1, 2, usage, lower, upper);
  }

  // The side condition is sharp: no configuration and load ever flaps iff upper >= 2 * lower.
  lemma StableIff(lower: real, upper: real)
    requires 0.0 <= lower < upper
    ensures upper >= 2.0 * lower <==>
              forall n: int, min: int, max: int, usage: real :: Sane(n, min, max, usage, lower, upper) ==>
                !Reverses(n, min, max, usage, lower, upper)
  {
    if upper >= 2.0 * lower {
      forall n: int, min: int, max: int, usage: real | Sane(n, min, max, usage, lower, upper)
        ensures !Reverses(n, min, max, usage, lower, upper)
      {
        WideBandIsStable(n, min, max, usage, lower, upper);
      }
    } else {
      var usage := NarrowBandFlaps(lower, upper);
    }
  }

  // ---------------------------------------------------------------------------------------------
  // Many rounds under a constant total load

  // The count after k rounds, the load being what n pods carry at `usage` each.
  function Rounds(n: int, min: int, max: int, load: real, lower: real, upper: real, k: nat): int
    requires n >= 1 && 1 <= min
    decreases k
  {
    if k == 0 then n
    else
      var r := NextCount(n, min, max, load / n as real, lower, upper);
      if r < 1 then r else Rounds(r, min, max, load, lower, upper, k - 1)
  }

  // No round would change the count any more.
  predicate Settled(n: int, min: int, max: int, load: real, lower: real, upper: real)
    requires n >= 1
  {
    NextCount(n, min, max, load / n as real, lower, upper) == n
  }

  lemma LoadIsSane(n: int, min: int, max: int, load: real, lower: real, upper: real)
    requires 0.0 <= lower < upper && load >= 0.0 && 1 <= min <= n <= max
    ensures Sane(n, min, max, load / n as real, lower, upper)
    ensures load / n as real * n as real == load
  {
    DivMul(load, n as real);
    Quotient(load, n as real, 0.0);
  }

  lemma KeepsDirection(n: int, min: int, max: int, usage: real, load: real, lower: real, upper: real)
    requires Sane(n, min, max, usage, lower, upper) && upper >= 2.0 * lower && load == usage * n as real
    ensures var r := NextCount(n, min, max, usage, lower, upper);
            && r >= 1
            && (r > n ==> NextCount(r, min, max, load / r as real, lower, upper) >= r)
            && (r < n ==> NextCount(r, min, max, load / r as real, lower, upper) <= r)
  {
    hide BestPods;
    OneDecision(n, min, max, usage, lower, upper);
    WideBandIsStable(n, min, max, usage, lower, upper);
  }

  // After a first growth every round grows or stays, and the count has settled within the room left above.
  lemma {:induction false} ClimbSettles(n: int, min: int, max: int, load: real, lower: real, upper: real, k: nat)
    requires 0.0 <= lower < upper && 2.0 * lower <= upper && load >= 0.0 && 1 <= min <= n <= max
    requires NextCount(n, min, max, load / n as real, lower, upper) >= n
    ensures var r := Rounds(n, min, max, load, lower, upper, k);
            && n <= r <= max
            && r <= Rounds(n, min, max, load, lower, upper, k + 1)
            && (k >= max - n ==> Settled(r, min, max, load, lower, upper))
    decreases k
  {
    hide BestPods;
    LoadIsSane(n, min, max, load, lower, upper);
    OneDecision(n, min, max, load / n as real, lower, upper);
    var r := NextCount(n, min, max, load / n as real, lower, upper);
    if k > 0 {
      if r > n {
        KeepsDirection(n, min, max, load / n as real, load, lower, upper);
        ClimbSettles(r, min, max, load, lower, upper, k - 1);
      } else {
        StaysSettled(n, min, max, load, lower, upper, k);
        StaysSettled(n, min, max, load, lower, upper, k + 1);
      }
    }
  }

  // After a first shrink every round shrinks or stays, and the count has settled within the room left below.
  lemma {:induction false} DescentSettles(n: int, min: int, max: int, load: real, lower: real, upper: real, k: nat)
    requires 0.0 <= lower < upper && 2.0 * lower <= upper && load >= 0.0 && 1 <= min <= n <= max
    requires NextCount(n, min, max, load / n as real, lower, upper) <= n
    ensures var r := Rounds(n, min, max, load, lower, upper, k);
            && min <= r <= n
            && r >= Rounds(n, min, max, load, lower, upper, k + 1)
            && (k >= n - min ==> Settled(r, min, max, load, lower, upper))
    decreases k
  {
    hide BestPods;
    LoadIsSane(n, min, max, load, lower, upper);
    OneDecision(n, min, max, load / n as real, lower, upper);
    var r := NextCount(n, min, max, load / n as real, lower, upper);
    if k > 0 {
      if r < n {
        KeepsDirection(n, min, max, load / n as real, load, lower, upper);
        DescentSettles(r, min, max, load, lower, upper, k - 1);
      } else {
        StaysSettled(n, min, max, load, lower, upper, k);
        StaysSettled(n, min, max, load, lower, upper, k + 1);
      }
    }
  }

  lemma {:induction false} StaysSettled(n: int, min: int, max: int, load: real, lower: real, upper: real, k: nat)
    requires n >= 1 && 1 <= min && Settled(n, min, max, load, lower, upper)
    ensures Rounds(n, min, max, load, lower, upper, k) == n
  {
    hide BestPods;
    if k > 0 { StaysSettled(n, min, max, load, lower, upper, k - 1); }
  }

  // From any legal count and under a constant load, every round moves the same way as the first one or
  // not at all, and within max - min rounds the count has settled.
  lemma Converges(n: int, min: int, max: int, load: real, lower: real, upper: real, k: nat)
    requires 0.0 <= lower < upper && 2.0 * lower <= upper && load >= 0.0 && 1 <= min <= n <= max
    ensures var r, next := Rounds(n, min, max, load, lower, upper, k), Rounds(n, min, max, load, lower, upper, k + 1);
            var first := NextCount(n, min, max, load / n as real, lower, upper);
            && min <= r <= max
            && (first >= n ==> n <= r <= next)
            && (first <= n ==> next <= r <= n)
            && (k >= max - min ==> Settled(r, min, max, load, lower, upper))
  {
    hide BestPods;
    if NextCount(n, min, max, load / n as real, lower, upper) >= n {
      ClimbSettles(n, min, max, load, lower, upper, k);
    }
    if NextCount(n, min, max, load / n as real, lower, upper) <= n {
      DescentSettles(n, min, max, load, lower, upper, k);
    }
  }

  // The rounding: next to the present count it goes to the next pod on x's side, with a margin of 0.01
  // upwards; elsewhere to the nearest whole number; and never below one pod.
  lemma CandidateRounds(x: real, n: int)
    requires n >= 1 && x >= 0.0
    ensures n as real < x < n as real + 0.01 ==> Candidate(x, n) == n
    ensures n as real + 0.01 <= x < n as real + 1.0 ==> Candidate(x, n) == n + 1
    ensures n as real - 1.0 < x < n as real ==> Candidate(x, n) == MaxInt(n - 1, 1)
    ensures (x >= n as real + 1.0 || x <= n as real - 1.0) && x >= 0.5 ==> x - 0.5 <= Candidate(x, n) as real <= x + 0.5
    ensures x < 0.5 ==> Candidate(x, n) == 1
  {
  }

  // A product, kept apart from the solver's own arithmetic where only its laws are needed.
  function Times(a: real, b: real): real {
    a * b
  }

  lemma TimesKeepsOrder(a: real, b: real, k: real)
    requires k > 0.0
    ensures a <= b ==> Times(a, k) <= Times(b, k)
    ensures a < b ==> Times(a, k) < Times(b, k)
    ensures Times(0.0, k) == 0.0
  {
    if a <= b { ScaleUp(a, b, k); }
    if a < b { ScaleUpStrict(a, b, k); }
  }

  lemma TimesSpreads(d: real, lower: real, upper: real)
    ensures Times(d, 4.0 * (lower + upper)) == 4.0 * Times(lower, d) + 4.0 * Times(upper, d)
  {
  }

  lemma TimesScales(d: real, k: real)
    ensures Times(0.75 * d, k) == 0.75 * Times(d, k)
    ensures Times(1.25 * d, k) == 1.25 * Times(d, k)
    ensures Times(2.0 * d, k) == 2.0 * Times(d, k)
  {
  }

  lemma TimesOneMore(a: real, d: real)
    ensures Times(a, d + 1.0) == Times(a, d) + a
  {
  }

  // The load of x pods at mid-band, on c pods where c is x rounded, stays in a wide band.
  lemma RoundedFitsBand(x: real, d: real, lower: real, upper: real)
    requires 0.0 <= lower < upper && 2.0 * lower <= upper && d >= 2.0 && x - 0.5 <= d <= x + 0.5
    ensures 8.0 * Times(lower, d) < Times(x, 4.0 * (lower + upper)) <= 8.0 * Times(upper, d)
  {
    hide Times;
    var k := 4.0 * (lower + upper);
    TimesKeepsOrder(0.75 * d, x, k);
    TimesKeepsOrder(x, 1.25 * d, k);
    TimesScales(d, k);
    TimesSpreads(d, lower, upper);
    TimesKeepsOrder(2.0 * lower, upper, d);
    TimesScales(lower, d);
    TimesKeepsOrder(0.0, upper, d);
  }

  // The same when one pod more than m is enough.
  lemma NextPodFitsBand(m: real, x: real, lower: real, upper: real)
    requires 0.0 <= lower < upper && 2.0 * lower <= upper && m >= 1.0 && x <= m + 1.0
    requires Times(x, 4.0 * (lower + upper)) > 8.0 * Times(upper, m)
    ensures 8.0 * Times(lower, m + 1.0) < Times(x, 4.0 * (lower + upper)) <= 8.0 * Times(upper, m + 1.0)
  {
    hide Times;
    var k := 4.0 * (lower + upper);
    TimesKeepsOrder(x, m + 1.0, k);
    TimesSpreads(m + 1.0, lower, upper);
    TimesKeepsOrder(2.0 * lower, upper, m + 1.0);
    TimesScales(lower, m + 1.0);
    TimesKeepsOrder(0.0, upper, m + 1.0);
    TimesKeepsOrder(2.0 * lower, upper, m);
    TimesScales(lower, m);
    TimesOneMore(lower, m);
    AtLeastOnce(lower, m);
    assert 2.0 * Times(lower, m) <= Times(upper, m);
    assert 8.0 * Times(lower, m + 1.0) <= 16.0 * Times(lower, m);
  }

  lemma AtLeastOnce(a: real, m: real)
    requires a >= 0.0 && m >= 1.0
    ensures Times(a, m) >= a
  {
    assert a * (m - 1.0) >= 0.0;
  }

  // With a wide band, one decision is enough for an overloaded tenant: wherever it lands, under the
  // same load no later round moves it again.
  lemma OverloadSettlesAtOnce(n: int, min: int, max: int, load: real, lower: real, upper: real)
    requires 0.0 <= lower < upper && 2.0 * lower <= upper && load >= 0.0 && 1 <= min <= n <= max
    requires Overloaded(load / n as real, upper)
    ensures var r := NextCount(n, min, max, load / n as real, lower, upper);
            r >= n && Settled(r, min, max, load, lower, upper)
  {
    hide BestPods, Candidate, LogicalPods;
    var usage := load / n as real;
    LoadIsSane(n, min, max, load, lower, upper);
    OneDecision(n, min, max, usage, lower, upper);
    SettledIff(n, min, max, load, lower, upper);
    if n < max && ClearsMargin(n, usage, lower, upper) {
      var r := NextCount(n, min, max, usage, lower, upper);
      SettledIff(r, min, max, load, lower, upper);
      GrowthFits(n, min, max, usage, lower, upper);
      Quotient(load, r as real, 8.0 * lower);
      Quotient(load, r as real, 8.0 * upper);
    }
  }

  // A growth ends inside the band, or at the maximum and not below the band.
  lemma GrowthFits(n: int, min: int, max: int, usage: real, lower: real, upper: real)
    requires Sane(n, min, max, usage, lower, upper) && 2.0 * lower <= upper
    requires Overloaded(usage, upper) && n < max && ClearsMargin(n, usage, lower, upper)
    ensures var r := NextCount(n, min, max, usage, lower, upper);
            && n < r <= max && usage * n as real > 8.0 * lower * r as real
            && (r == max || usage * n as real <= 8.0 * upper * r as real)
  {
    hide BestPods, NextCount, LogicalPods, Candidate, ClearsMargin, Times;
    GrowthIsRounded(n, min, max, usage, lower, upper);
    GrowthFallbackIsDead(n, usage, lower, upper);
    RoundedUpFits(n, usage, lower, upper);
    FewerFit(usage * n as real, lower, upper, Candidate(LogicalPods(n, usage, lower, upper), n), max);
  }

  lemma FewerFit(load: real, lower: real, upper: real, c: int, max: int)
    requires 0.0 <= lower && 8.0 * Times(lower, c as real) < load <= 8.0 * Times(upper, c as real)
    ensures load > 8.0 * lower * MinInt(c, max) as real
    ensures c <= max ==> load <= 8.0 * upper * c as real
  {
    InCores(lower, c);
    InCores(upper, c);
    hide Times;
    if max < c { LessLoadPerPod(8.0 * lower, max, c); }
  }

  // With a wide band the fallback of case#3 is never taken: the rounded count is never underloaded.
  lemma GrowthFallbackIsDead(n: int, usage: real, lower: real, upper: real)
    requires 0.0 <= lower < upper && 2.0 * lower <= upper && n >= 1 && usage >= 0.0 && Overloaded(usage, upper)
    ensures usage * n as real / Candidate(LogicalPods(n, usage, lower, upper), n) as real > 8.0 * lower
  {
    var x := LogicalPods(n, usage, lower, upper);
    var c := Candidate(x, n);
    LogicalSide(n, usage, lower, upper);
    MarginIsLogical(n, usage, lower, upper);
    CandidateAbove(x, n);
    if ClearsMargin(n, usage, lower, upper) {
      RoundedUpFits(n, usage, lower, upper);
      InCores(lower, c);
    } else {
      ScaleUpStrict(8.0 * lower, usage, n as real);
    }
    hide LogicalPods, Candidate, ClearsMargin, Times;
    Quotient(usage * n as real, c as real, 8.0 * lower);
  }

  lemma InCores(a: real, c: int)
    ensures 8.0 * Times(a, c as real) == 8.0 * a * c as real
  {
  }

  lemma RoundedUpFits(n: int, usage: real, lower: real, upper: real)
    requires 0.0 <= lower < upper && 2.0 * lower <= upper && n >= 1 && usage >= 0.0
    requires Overloaded(usage, upper) && ClearsMargin(n, usage, lower, upper)
    ensures var c := Candidate(LogicalPods(n, usage, lower, upper), n);
            8.0 * Times(lower, c as real) < usage * n as real <= 8.0 * Times(upper, c as real)
  {
    var x := LogicalPods(n, usage, lower, upper);
    LogicalSide(n, usage, lower, upper);
    LogicalCarriesLoad(n, usage, lower, upper);
    MarginIsLogical(n, usage, lower, upper);
    assert usage * n as real > 8.0 * Times(upper, n as real) by { ScaleUpStrict(8.0 * upper, usage, n as real); }
    assert Times(x, 4.0 * (lower + upper)) == usage * n as real;
    hide LogicalPods, ClearsMargin, Times;
    CandidateFits(x, n, lower, upper);
  }

  lemma CandidateFits(x: real, n: int, lower: real, upper: real)
    requires 0.0 <= lower < upper && 2.0 * lower <= upper && n >= 1 && x >= n as real + 0.01
    requires Times(x, 4.0 * (lower + upper)) > 8.0 * Times(upper, n as real)
    ensures var d := Candidate(x, n) as real;
            8.0 * Times(lower, d) < Times(x, 4.0 * (lower + upper)) <= 8.0 * Times(upper, d)
  {
    hide Times;
    if x < n as real + 1.0 {
      CandidateAbove(x, n);
      NextPodFitsBand(n as real, x, lower, upper);
    } else {
      CandidateRounds(x, n);
      RoundedFitsBand(x, Candidate(x, n) as real, lower, upper);
    }
  }

  // Where it can settle: in the band, at a limit, or overloaded inside the margin.
  lemma SettledIff(n: int, min: int, max: int, load: real, lower: real, upper: real)
    requires 0.0 <= lower < upper && load >= 0.0 && 1 <= min <= n <= max
    ensures Settled(n, min, max, load, lower, upper) <==>
              var usage := load / n as real;
              || (!Overloaded(usage, upper) && !Underloaded(usage, lower))
              || (Overloaded(usage, upper) && (n == max || !ClearsMargin(n, usage, lower, upper)))
              || (Underloaded(usage, lower) && n == min)
  {
    hide BestPods;
    LoadIsSane(n, min, max, load, lower, upper);
    OneDecision(n, min, max, load / n as real, lower, upper);
  }

  // With the thresholds 0.6 and 0.8 of the repository's tests, eight busy cores in all make a
  // tenant alternate between one pod and two for ever.
  lemma {:induction false} PingPong(k: nat)
    ensures Rounds(1, 1, 4, 8.0, 0.6, 0.8, k) == if k % 2 == 0 then 1 else 2
  {
    if k >= 1 {
      assert NextCount(1, 1, 4, 8.0, 0.6, 0.8) == 2;
    }
    if k >= 2 {
      assert NextCount(2, 1, 4, 4.0, 0.6, 0.8) == 1;
      PingPong(k - 2);
    }
  }
}
