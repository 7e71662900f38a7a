/** Percentiles by linear interpolation between order statistics, over reals. */
module Percentile {
  import opened Wrappers

  datatype SampleError = NoSamples | BadProbability | BadSample

  function Insert(x: real, ordered: seq<real>): seq<real> {
    if ordered == [] || x <= ordered[0] then [x] + ordered else [ordered[0]] + Insert(x, ordered[1..])
  }

  function Sort(values: seq<real>): seq<real> {
    if values == [] then [] else Insert(values[0], Sort(values[1..]))
  }

  ghost predicate IsSorted(ordered: seq<real>) {
    forall i, j | 0 <= i < j < |ordered| :: ordered[i] <= ordered[j]
  }

  function Ceiling(x: real): int {
    if x == x.Floor as real then x.Floor else x.Floor + 1
  }

  /** The value at a position between the first and the last order statistic. */
  function At(ordered: seq<real>, position: real): real
    requires 0.0 <= position <= (|ordered| - 1) as real
  {
    var lower, upper := position.Floor, Ceiling(position);
    if lower == upper then ordered[lower]
    else ordered[lower] * (upper as real - position) + ordered[upper] * (position - lower as real)
  }

  lemma PositionInRange(n: int, probability: real)
    requires n >= 0 && 0.0 <= probability <= 1.0
    ensures 0.0 <= n as real * probability <= n as real
  {
    NonNegativeProduct(n as real, probability);
    NonNegativeProduct(n as real, 1.0 - probability);
    assert n as real * (1.0 - probability) == n as real - n as real * probability;
  }

  lemma NonNegativeProduct(a: real, b: real)
    requires a >= 0.0 && b >= 0.0
    ensures a * b >= 0.0
  {
  }

  function Position(count: nat, probability: real): (position: real)
    requires count >= 1 && 0.0 <= probability <= 1.0
    ensures 0.0 <= position <= (count - 1) as real
  {
    PositionInRange(count - 1, probability);
    (count - 1) as real * probability
  }

  predicate BadSamples(values: seq<real>) {
    exists x :: x in values && x < 0.0
  }

  function Percentile(values: seq<real>, probability: real): Result<real, SampleError> {
    if values == [] then Err(NoSamples)
    else if !(0.0 <= probability <= 1.0) then Err(BadProbability)
    else if BadSamples(values) then Err(BadSample)
    else
      SortKeepsValues(values);
      Ok(At(Sort(values), Position(|values|, probability)))
  }

  /** The middle value, or the mean of the two middle ones. */
  function Median(values: seq<real>): real
    requires values != []
  {
    SortKeepsValues(values);
    var ordered, n := Sort(values), |values|;
    if n % 2 == 1 then ordered[n / 2] else (ordered[n / 2 - 1] + ordered[n / 2]) / 2.0
  }

  // ---------- sorting ----------

  lemma {:induction false} InsertKeepsValues(x: real, ordered: seq<real>)
    ensures multiset(Insert(x, ordered)) == multiset([x]) + multiset(ordered)
  {
    if ordered != [] && x > ordered[0] {
      InsertKeepsValues(x, ordered[1..]);
      assert ordered == [ordered[0]] + ordered[1..];
    }
  }

  lemma {:induction false} SortKeepsValues(values: seq<real>)
    ensures multiset(Sort(values)) == multiset(values) && |Sort(values)| == |values|
  {
    if values != [] {
      SortKeepsValues(values[1..]);
      InsertKeepsValues(values[0], Sort(values[1..]));
      assert values == [values[0]] + values[1..];
      assert |multiset(Sort(values))| == |multiset(values)|;
    }
  }

  lemma {:induction false} InsertSorts(x: real, ordered: seq<real>)
    requires IsSorted(ordered)
    ensures IsSorted(Insert(x, ordered))
    ensures forall y | y in Insert(x, ordered) :: y == x || y in ordered
  {
    if ordered != [] && x > ordered[0] {
      InsertSorts(x, ordered[1..]);
      var tail := Insert(x, ordered[1..]);
      forall j | 0 <= j < |tail| ensures ordered[0] <= tail[j] {
        assert tail[j] in tail;
      }
    }
  }

  lemma {:induction false} SortSorts(values: seq<real>)
    ensures IsSorted(Sort(values))
  {
    if values != [] {
      SortSorts(values[1..]);
      InsertSorts(values[0], Sort(values[1..]));
    }
  }

  lemma FirstIsLeast(a: seq<real>, x: real)
    requires IsSorted(a) && x in multiset(a)
    ensures a != [] && a[0] <= x
  {
  }

  lemma HeadsAgree(a: seq<real>, b: seq<real>)
    requires IsSorted(a) && IsSorted(b) && multiset(a) == multiset(b) && a != []
    ensures b != [] && a[0] == b[0]
  {
    hide IsSorted;
    assert a[0] in multiset(a);
    FirstIsLeast(b, a[0]);
    assert b[0] in multiset(b);
    FirstIsLeast(a, b[0]);
  }

  lemma TailsAgree(a: seq<real>, b: seq<real>)
    requires IsSorted(a) && IsSorted(b) && multiset(a) == multiset(b) && a != [] && b != [] && a[0] == b[0]
    ensures IsSorted(a[1..]) && IsSorted(b[1..]) && multiset(a[1..]) == multiset(b[1..])
  {
    assert multiset(a[1..]) == multiset(a) - multiset{a[0]} by { assert a == [a[0]] + a[1..]; }
    assert multiset(b[1..]) == multiset(b) - multiset{b[0]} by { assert b == [b[0]] + b[1..]; }
  }

  /** Sorted lists of the same values are equal. */
  lemma {:induction false} SortedIsUnique(a: seq<real>, b: seq<real>)
    requires IsSorted(a) && IsSorted(b) && multiset(a) == multiset(b)
    ensures a == b
    decreases |a|
  {
    hide IsSorted;
    if a == [] {
      assert |multiset(b)| == 0;
    } else {
      HeadsAgree(a, b);
      TailsAgree(a, b);
      SortedIsUnique(a[1..], b[1..]);
      SameHeadAndTail(a, b);
    }
  }

  lemma SameHeadAndTail(a: seq<real>, b: seq<real>)
    requires a != [] && b != [] && a[0] == b[0] && a[1..] == b[1..]
    ensures a == b
  {
    assert a == [a[0]] + a[1..] && b == [b[0]] + b[1..];
  }

  // ---------- percentiles ----------

  /** The order of the samples does not matter, nor for the median. */
  lemma PercentileIgnoresOrder(a: seq<real>, b: seq<real>, probability: real)
    requires multiset(a) == multiset(b)
    ensures Percentile(a, probability) == Percentile(b, probability)
    ensures a != [] && b != [] ==> Median(a) == Median(b)
  {
    hide At, Position, Sort, BadSamples;
    SortIgnoresOrder(a, b);
    SameBadness(a, b);
  }

  lemma SortIgnoresOrder(a: seq<real>, b: seq<real>)
    requires multiset(a) == multiset(b)
    ensures Sort(a) == Sort(b) && |a| == |b|
  {
    hide IsSorted, Sort;
    SortKeepsValues(a);
    SortKeepsValues(b);
    SortSorts(a);
    SortSorts(b);
    SortedIsUnique(Sort(a), Sort(b));
    assert |multiset(a)| == |multiset(b)|;
  }

  lemma SameBadness(a: seq<real>, b: seq<real>)
    requires multiset(a) == multiset(b)
    ensures BadSamples(a) <==> BadSamples(b)
  {
    forall x ensures x in a <==> x in b {
      assert x in a <==> x in multiset(a);
      assert x in b <==> x in multiset(b);
    }
  }

  lemma Between(low: real, high: real, weight: real)
    requires low <= high && 0.0 <= weight <= 1.0
    ensures low <= low * (1.0 - weight) + high * weight <= high
  {
    NonNegativeProduct(high - low, weight);
    NonNegativeProduct(high - low, 1.0 - weight);
    assert low * (1.0 - weight) + high * weight == low + (high - low) * weight;
    assert low * (1.0 - weight) + high * weight == high - (high - low) * (1.0 - weight);
  }

  /** The value lies between the neighbouring order statistics. */
  lemma AtIsBetween(ordered: seq<real>, position: real)
    requires IsSorted(ordered) && 0.0 <= position <= (|ordered| - 1) as real
    ensures 0 <= position.Floor <= Ceiling(position) < |ordered|
    ensures ordered[position.Floor] <= At(ordered, position) <= ordered[Ceiling(position)]
  {
    var lower, upper := position.Floor, Ceiling(position);
    if lower != upper {
      Between(ordered[lower], ordered[upper], position - lower as real);
      assert upper as real - position == 1.0 - (position - lower as real);
    }
  }

  lemma AtIsMonotone(ordered: seq<real>, x: real, y: real)
    requires IsSorted(ordered) && 0.0 <= x <= y <= (|ordered| - 1) as real
    ensures At(ordered, x) <= At(ordered, y)
  {
    AtIsBetween(ordered, x);
    AtIsBetween(ordered, y);
    if x.Floor == y.Floor {
      SameInterval(ordered, x, y);
    } else {
      assert Ceiling(x) <= y.Floor;
    }
  }

  lemma SameInterval(ordered: seq<real>, x: real, y: real)
    requires IsSorted(ordered) && 0.0 <= x <= y <= (|ordered| - 1) as real && x.Floor == y.Floor
    ensures At(ordered, x) <= At(ordered, y)
  {
    AtIsBetween(ordered, y);
    var lower := x.Floor;
    if x != lower as real {
      var upper := lower + 1;
      var low, high := ordered[lower], ordered[upper];
      NonNegativeProduct(high - low, y - x);
      assert At(ordered, x) == low + (high - low) * (x - lower as real) by { Interpolated(low, high, lower, x); }
      assert At(ordered, y) == low + (high - low) * (y - lower as real) by { Interpolated(low, high, lower, y); }
      assert (high - low) * (y - lower as real) - (high - low) * (x - lower as real) == (high - low) * (y - x);
    }
  }

  lemma Interpolated(low: real, high: real, lower: int, x: real)
    ensures low * ((lower + 1) as real - x) + high * (x - lower as real) == low + (high - low) * (x - lower as real)
  {
  }

  lemma PositionIsMonotone(count: nat, p: real, q: real)
    requires count >= 1 && 0.0 <= p <= q <= 1.0
    ensures Position(count, p) <= Position(count, q)
  {
    var n := (count - 1) as real;
    NonNegativeProduct(n, q - p);
    assert n * q - n * p == n * (q - p);
  }

  /** A larger probability never gives a smaller percentile. */
  lemma PercentileIsMonotone(values: seq<real>, p: real, q: real)
    requires 0.0 <= p <= q <= 1.0
    ensures var x, y := Percentile(values, p), Percentile(values, q);
            (x.Ok? <==> y.Ok?) && (x.Ok? ==> x.value <= y.value)
  {
    hide At, BadSamples, IsSorted;
    if values != [] {
      SortKeepsValues(values);
      SortSorts(values);
      PositionIsMonotone(|values|, p, q);
      AtIsMonotone(Sort(values), Position(|values|, p), Position(|values|, q));
    }
  }

  /** Halfway between the ends: the middle value, or midway between the two. */
  lemma AtTheMiddle(ordered: seq<real>)
    requires ordered != []
    ensures Position(|ordered|, 0.5) == (|ordered| - 1) as real * 0.5
    ensures var n := |ordered|;
            At(ordered, Position(n, 0.5))
            == if n % 2 == 1 then ordered[n / 2] else (ordered[n / 2 - 1] + ordered[n / 2]) / 2.0
  {
    var n := |ordered|;
    var position := Position(n, 0.5);
    if n % 2 == 1 {
      MiddlePosition(n, n / 2);
    } else {
      MiddlePosition(n, n / 2 - 1);
      var lower := n / 2 - 1;
      assert position.Floor == lower && Ceiling(position) == lower + 1;
      assert (lower + 1) as real - position == 0.5 && position - lower as real == 0.5;
    }
  }

  lemma MiddlePosition(n: nat, k: nat)
    requires n == 2 * k + 1 || n == 2 * k + 2
    ensures (n - 1) as real * 0.5 == k as real + if n == 2 * k + 1 then 0.0 else 0.5
  {
  }

  /** The percentile at one half is the median. */
  lemma HalfIsMedian(values: seq<real>)
    requires values != [] && forall x | x in values :: x >= 0.0
    ensures Percentile(values, 0.5) == Ok(Median(values))
  {
    hide At, Position, Sort;
    SortKeepsValues(values);
    AtTheMiddle(Sort(values));
  }

  /** The three order figures of a summary are in order. */
  lemma SummaryIsOrdered(samples: seq<real>)
    requires samples != [] && forall x | x in samples :: x > 0.0
    ensures Percentile(samples, 0.2).Ok? && Percentile(samples, 0.8).Ok?
    ensures Percentile(samples, 0.2).value <= Median(samples) <= Percentile(samples, 0.8).value
  {
    HalfIsMedian(samples);
    PercentileIsMonotone(samples, 0.2, 0.5);
    PercentileIsMonotone(samples, 0.5, 0.8);
  }
}
