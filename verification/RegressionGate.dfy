/** The timing gate of the benchmark summary: regressions of means, and of means after each side is granted
    its confidence interval. */
module RegressionGate {
  import opened Wrappers

  /** A regression in percent, or without bound because the base is zero. */
  datatype Percent = Finite(value: real) | Unbounded

  predicate AtMost(a: Percent, b: Percent) {
    b.Unbounded? || (a.Finite? && a.value <= b.value)
  }

  predicate Exceeds(a: Percent, threshold: real) {
    a.Unbounded? || a.value > threshold
  }

  /** A mean and the half-width of its 95% interval. */
  datatype Timing = Timing(mean: real, ci95: real)

  function Max(a: real, b: real): real {
    if a >= b then a else b
  }

  /** `percent_regression`; `None` where it raises. */
  function PercentRegression(base: real, candidate: real, higherIsWorse: bool): (r: Option<Percent>)
    ensures r.Some? <==> base >= 0.0 && candidate >= 0.0
    ensures r.Some? && r.value.Finite? ==> r.value.value >= 0.0
    ensures r.Some? ==> (r.value.Unbounded? <==> base == 0.0 && candidate > 0.0)
  {
    if base < 0.0 || candidate < 0.0 then None
    else if base == 0.0 then Some(if candidate == 0.0 then Finite(0.0) else Unbounded)
    else
      var delta := (candidate - base) / base * 100.0;
      Some(Finite(Max(if higherIsWorse then delta else -delta, 0.0)))
  }

  function Observed(base: Timing, candidate: Timing): Option<Percent> {
    PercentRegression(base.mean, candidate.mean, true)
  }

  /** The candidate at its favourable bound against the base at its unfavourable one. */
  function ConfidenceAware(base: Timing, candidate: Timing): Option<Percent> {
    PercentRegression(base.mean + base.ci95, Max(candidate.mean - candidate.ci95, 0.0), true)
  }

  lemma Cancel(u: real, v: real, b: real)
    requires b > 0.0 && u * b <= v * b
    ensures u <= v
  {
  }

  lemma Scale(u: real, a: real, b: real)
    requires 0.0 <= u && a <= b
    ensures u * a <= u * b
  {
  }

  /** `p` and `q` are the relative changes from `a` to `x` and from `b` to `y`. */
  lemma RelativeChange(p: real, q: real, a: real, b: real, x: real, y: real)
    requires p * a == x - a && q * b == y - b
    requires 0.0 < a <= b && 0.0 <= y <= x
    ensures q <= p
  {
    assert (p + 1.0) * a == x && (q + 1.0) * b == y;
    Cancel(0.0, p + 1.0, a);
    Scale(p + 1.0, a, b);
    Cancel(q + 1.0, p + 1.0, b);
  }

  lemma Quotient(x: real, b: real)
    requires b > 0.0
    ensures x / b * b == x
  {
  }

  /** A larger base and a smaller candidate never make a larger regression. */
  lemma RegressionIsMonotone(base: real, candidate: real, upper: real, lower: real)
    requires 0.0 <= base <= upper && 0.0 <= lower <= candidate
    ensures AtMost(PercentRegression(upper, lower, true).value, PercentRegression(base, candidate, true).value)
  {
    if base > 0.0 {
      Quotient(candidate - base, base);
      Quotient(lower - upper, upper);
      RelativeChange((candidate - base) / base, (lower - upper) / upper, base, upper, candidate, lower);
    } else if upper > 0.0 && candidate == 0.0 {
      Quotient(lower - upper, upper);
      Cancel((lower - upper) / upper, 0.0, upper);
    }
  }

  /** Where more is better, a larger candidate never makes a larger regression, unless the base is zero: then
      any improvement counts as an unbounded one. */
  lemma GainIsMonotone(base: real, candidate: real, better: real)
    requires 0.0 <= base && 0.0 <= candidate <= better
    ensures AtMost(PercentRegression(base, better, false).value, PercentRegression(base, candidate, false).value)
            <==> base > 0.0 || candidate > 0.0 || better == 0.0
  {
    if base > 0.0 {
      Quotient(candidate - base, base);
      Quotient(better - base, base);
      Cancel((candidate - base) / base, (better - base) / base, base);
    }
  }

  predicate Measured(t: Timing) {
    t.mean >= 0.0 && t.ci95 >= 0.0
  }

  /** Granting the intervals never reports more than the plain means. */
  lemma NeverAboveObserved(base: Timing, candidate: Timing)
    requires Measured(base) && Measured(candidate)
    ensures Observed(base, candidate).Some? && ConfidenceAware(base, candidate).Some?
    ensures AtMost(ConfidenceAware(base, candidate).value, Observed(base, candidate).value)
  {
    RegressionIsMonotone(base.mean, candidate.mean, base.mean + base.ci95, Max(candidate.mean - candidate.ci95, 0.0));
  }

  /** And never reports more when either interval widens. */
  lemma WiderIntervalsReportLess(base: Timing, candidate: Timing, wideBase: real, wideCandidate: real)
    requires Measured(base) && Measured(candidate) && base.ci95 <= wideBase && candidate.ci95 <= wideCandidate
    ensures AtMost(ConfidenceAware(base.(ci95 := wideBase), candidate.(ci95 := wideCandidate)).value, ConfidenceAware(base, candidate).value)
  {
    RegressionIsMonotone(base.mean + base.ci95, Max(candidate.mean - candidate.ci95, 0.0),
                         base.mean + wideBase, Max(candidate.mean - wideCandidate, 0.0));
  }

  // ---------- the error lists ----------

  const THRESHOLD_PERCENT := 5.0

  /** The candidate is worse than the base by more than `threshold` percent of it; whatever a zero base is
      compared with counts as worse, unless it is zero too. */
  predicate WorseBy(base: real, candidate: real, higherIsWorse: bool, threshold: real) {
    if base == 0.0 then candidate > 0.0
    else if higherIsWorse then 100.0 * (candidate - base) > threshold * base
    else 100.0 * (base - candidate) > threshold * base
  }

  lemma QuotientExceeds(q: real, base: real, difference: real, threshold: real)
    requires base > 0.0 && q * base == difference
    ensures q * 100.0 > threshold <==> 100.0 * difference > threshold * base
  {
    assert (q * 100.0) * base == 100.0 * difference;
    ProductExceeds(q * 100.0, threshold, base);
  }

  lemma ProductExceeds(u: real, v: real, b: real)
    requires b > 0.0
    ensures u > v <==> u * b > v * b
  {
    if u <= v {
      Scale(b, u, v);
    } else {
      assert (u - v) * b > 0.0;
    }
  }

  /** The regression in percent is above a threshold exactly when the candidate is worse by more than that. */
  lemma ExceedsIff(base: real, candidate: real, higherIsWorse: bool, threshold: real)
    requires base >= 0.0 && candidate >= 0.0 && threshold >= 0.0
    ensures Exceeds(PercentRegression(base, candidate, higherIsWorse).value, threshold) <==> WorseBy(base, candidate, higherIsWorse, threshold)
  {
    if base > 0.0 {
      var q := (candidate - base) / base;
      Quotient(candidate - base, base);
      QuotientExceeds(q, base, candidate - base, threshold);
      QuotientExceeds(-q, base, base - candidate, threshold);
    }
  }

  /** The gate on plain means, in either direction; `None` where it raises. */
  method AddThresholdError(errors: seq<string>, title: string, base: real, candidate: real, higherIsWorse: bool) returns (all: Option<seq<string>>)
    ensures all.Some? <==> base >= 0.0 && candidate >= 0.0
    ensures all.Some? ==> all.value == if WorseBy(base, candidate, higherIsWorse, THRESHOLD_PERCENT) then errors + [title] else errors
  {
    var regression := PercentRegression(base, candidate, higherIsWorse);
    if regression.None? {
      return None;
    }
    ExceedsIff(base, candidate, higherIsWorse, THRESHOLD_PERCENT);
    all := Some(if Exceeds(regression.value, THRESHOLD_PERCENT) then errors + [title] else errors);
  }

  method AddConfidenceAwareTimingError(errors: seq<string>, title: string, base: Timing, candidate: Timing) returns (all: Option<seq<string>>)
    ensures all.Some? <==> base.mean >= 0.0 && candidate.mean >= 0.0 && base.mean + base.ci95 >= 0.0
    ensures var worse := WorseBy(base.mean + base.ci95, Max(candidate.mean - candidate.ci95, 0.0), true, THRESHOLD_PERCENT);
            all.Some? ==> all.value == if worse then errors + [title] else errors
  {
    var observed, aware := Observed(base, candidate), ConfidenceAware(base, candidate);
    if observed.None? || aware.None? {
      return None;
    }
    ExceedsIff(base.mean + base.ci95, Max(candidate.mean - candidate.ci95, 0.0), true, THRESHOLD_PERCENT);
    all := Some(if Exceeds(aware.value, THRESHOLD_PERCENT) then errors + [title] else errors);
  }

  /** No candidate that passes on plain means is rejected for its timing. */
  lemma GateIsNeverStricter(base: Timing, candidate: Timing, threshold: real)
    requires Measured(base) && Measured(candidate)
    ensures Exceeds(ConfidenceAware(base, candidate).value, threshold) ==> Exceeds(Observed(base, candidate).value, threshold)
  {
    NeverAboveObserved(base, candidate);
  }
}
