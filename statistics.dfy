/**
  The per-test statistics of the benchmark: the `Result` record built from the
  elapsed times of one test case (tests/test_fetch.py, class `Result`).
  Samples are exact reals; Python's floating-point rounding is not modelled.
*/
module Statistics {
  import Sorting

  /** Python's `sum(s)`: a left fold starting from 0. */
  function Sum(s: seq<real>): (t: real)
    ensures (forall i | 0 <= i < |s| :: 0.0 <= s[i]) ==> 0.0 <= t
  {
    if s == [] then 0.0 else Sum(s[..|s| - 1]) + s[|s| - 1]
  }

  /** Python's `max(s)`, defined on a non-empty sequence only. */
  function Max(s: seq<real>): (m: real)
    requires s != []
    ensures m in s
    ensures forall i | 0 <= i < |s| :: s[i] <= m
  {
    if |s| == 1 then s[0]
    else
      var rest := Max(s[1..]);
      assert forall i | 1 <= i < |s| :: s[i] == s[1..][i - 1];
      if rest < s[0] then s[0] else rest
  }

  /** Python's `min(s)`, defined on a non-empty sequence only. */
  function Min(s: seq<real>): (m: real)
    requires s != []
    ensures m in s
    ensures forall i | 0 <= i < |s| :: m <= s[i]
  {
    if |s| == 1 then s[0]
    else
      var rest := Min(s[1..]);
      assert forall i | 1 <= i < |s| :: s[i] == s[1..][i - 1];
      if s[0] < rest then s[0] else rest
  }

  /** The sort key of `sorted(s)`: each sample is its own key. */
  function Identity(x: real): real { x }

  /** The samples in ascending order, as `sorted(s)` returns them. */
  function Ascending(s: seq<real>): (t: seq<real>)
    ensures |t| == |s| && multiset(t) == multiset(s)
    ensures forall i, j | 0 <= i < j < |t| :: t[i] <= t[j]
  {
    Sorting.SortBy(s, Identity)
  }

  /**
    `statistics.median(s)`: the middle element of the sorted samples when
    there is an odd number of them, otherwise the mean of the two middle ones.
  */
  function Median(s: seq<real>): (m: real)
    requires s != []
    ensures Min(s) <= m <= Max(s)
    ensures |s| % 2 == 1 ==> m in s
  {
    var t := Ascending(s);
    var n := |t|;
    assert t[n / 2] in multiset(s);
    if n % 2 == 1 then t[n / 2]
    else
      assert t[n / 2 - 1] in multiset(s);
      (t[n / 2 - 1] + t[n / 2]) / 2.0
  }

  /** `n * x`, named so that the product stays out of the solver's nonlinear arithmetic. */
  function Scaled(n: nat, x: real): real { n as real * x }

  /** A sum of `n` values that lie in [lo, hi] lies in [n * lo, n * hi]. */
  lemma {:induction false} SumBounds(s: seq<real>, lo: real, hi: real)
    requires forall i | 0 <= i < |s| :: lo <= s[i] <= hi
    ensures Scaled(|s|, lo) <= Sum(s) <= Scaled(|s|, hi)
  {
    if s != [] {
      var init := s[..|s| - 1];
      assert forall i | 0 <= i < |init| :: init[i] == s[i];
      SumBounds(init, lo, hi);
      assert Scaled(|s|, lo) == Scaled(|init|, lo) + lo;
      assert Scaled(|s|, hi) == Scaled(|init|, hi) + hi;
    }
  }

  /** The mean of non-empty samples lies between their minimum and maximum. */
  lemma MeanBounds(s: seq<real>)
    requires s != []
    ensures Min(s) <= Sum(s) / |s| as real <= Max(s)
  {
    SumBounds(s, Min(s), Max(s));
    MeanWithin(Sum(s), |s|, Min(s), Max(s));
  }

  lemma MeanWithin(total: real, count: nat, lo: real, hi: real)
    requires count > 0
    requires Scaled(count, lo) <= total <= Scaled(count, hi)
    ensures lo <= total / count as real <= hi
  {
  }

  /**
    The attributes of one test case's `Result`. The standard deviation
    (`statistics.stdev`) is not part of the model; only its demand for two
    samples is.
  */
  datatype Result = Result(
    name: string,
    samples: seq<real>,
    maximum: real,
    minimum: real,
    total: real,
    average: real,
    median: real)

  /** Why constructing a `Result` raises. */
  datatype StatsError =
    | EmptySamples   // `max()` of an empty sequence raises ValueError
    | SingleSample   // `statistics.stdev` needs at least two data points

  datatype Outcome = Ok(value: Result) | Err(error: StatsError)

  /** What every constructed `Result` satisfies. */
  ghost predicate WellFormed(r: Result) {
    && |r.samples| >= 2
    && r.maximum in r.samples && r.minimum in r.samples
    && (forall i | 0 <= i < |r.samples| :: r.minimum <= r.samples[i] <= r.maximum)
    && r.total == Sum(r.samples)
    && r.average == r.total / |r.samples| as real
    && r.minimum <= r.average <= r.maximum
    && r.median == Median(r.samples)
    && r.minimum <= r.median <= r.maximum
  }

  /** `Result(test, result)`: the constructor, with the exceptions it raises. */
  function NewResult(test: string, samples: seq<real>): (o: Outcome)
    ensures o.Ok? <==> |samples| >= 2
    ensures |samples| == 0 ==> o == Err(EmptySamples)
    ensures |samples| == 1 ==> o == Err(SingleSample)
    ensures o.Ok? ==> o.value.name == test && o.value.samples == samples && WellFormed(o.value)
  {
    if |samples| == 0 then Err(EmptySamples)
    else
      var total := Sum(samples);
      var r := Result(test, samples, Max(samples), Min(samples), total,
                      total / |samples| as real, Median(samples));
      if |samples| == 1 then Err(SingleSample)
      else
        MeanBounds(samples);
        Ok(r)
  }
}
