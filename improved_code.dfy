/** `calculate_average` of improved_code.py: an empty list averages to 0.0,
    any other list to the sum of its elements over their count. */
module ImprovedCode {
  import opened PyNum
  import opened Sums

  /** The guard clause on an empty list, then `sum(numbers) / len(numbers)`.
      The result is never an exception: the division is reached only with a
      positive length. */
  function CalculateAverage(numbers: seq<real>): (r: Result<real>)
    ensures r.Ok?
    ensures |numbers| == 0 ==> r.value == 0.0
    ensures |numbers| > 0 ==> r.value * (|numbers| as real) == Sum(numbers)
  {
    if |numbers| == 0 then Ok(0.0)
    else TrueDiv(Sum(numbers), |numbers| as real)
  }

  /** Bounds that hold of every element of a non-empty list hold of its mean. */
  lemma AverageWithinBounds(numbers: seq<real>, lo: real, hi: real)
    requires |numbers| > 0
    requires forall i :: 0 <= i < |numbers| ==> lo <= numbers[i] <= hi
    ensures lo <= CalculateAverage(numbers).value <= hi
  {
    SumBounds(numbers, lo, hi);
    QuotientBetween(|numbers|, Sum(numbers), Sum(numbers) / (|numbers| as real), lo, hi);
  }

  /** The mean of a non-empty list lies between its smallest and largest element. */
  lemma AverageWithinRange(numbers: seq<real>)
    requires |numbers| > 0
    ensures Min(numbers) <= CalculateAverage(numbers).value <= Max(numbers)
  {
    AverageWithinBounds(numbers, Min(numbers), Max(numbers));
  }

  /** A quotient q with q * k == s, for a positive count k and k * lo <= s <= k * hi, lies in [lo, hi]. */
  lemma QuotientBetween(k: int, s: real, q: real, lo: real, hi: real)
    requires k > 0 && q * (k as real) == s
    requires (k as real) * lo <= s <= (k as real) * hi
    ensures lo <= q <= hi
  {
  }

  /** A non-empty list whose elements all equal c averages to c. */
  lemma AverageOfConstant(numbers: seq<real>, c: real)
    requires |numbers| > 0
    requires forall i :: 0 <= i < |numbers| ==> numbers[i] == c
    ensures CalculateAverage(numbers) == Ok(c)
  {
    AverageWithinBounds(numbers, c, c);
  }

  /** Reordering the list does not change its average. */
  lemma AveragePermutationInvariant(a: seq<real>, b: seq<real>)
    requires multiset(a) == multiset(b)
    ensures CalculateAverage(a) == CalculateAverage(b)
  {
    assert |a| == |multiset(a)| == |multiset(b)| == |b|;
    SumPermutation(a, b);
  }

  /** The example list of the demonstration block averages to 30.0; the
      scenarios [5], [1, 2] and [] give 5.0, 1.5 (no truncation) and 0.0. */
  lemma ExampleAverages()
    ensures CalculateAverage([10.0, 20.0, 30.0, 40.0, 50.0]) == Ok(30.0)
    ensures CalculateAverage([5.0]) == Ok(5.0)
    ensures CalculateAverage([1.0, 2.0]) == Ok(1.5)
    ensures CalculateAverage([]) == Ok(0.0)
  {
    DemoSum();
    assert [5.0][..0] == [];
    assert [1.0, 2.0][..1] == [1.0];
    assert [1.0][..0] == [];
  }
}
