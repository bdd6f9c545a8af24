/** `calculate_average` of code_to_improve.py: an accumulator loop over the
    list, then an unguarded true division by its length. */
module CodeToImprove {
  import opened PyNum
  import opened Sums
  import ImprovedCode

  /** The list is passed by reference, as in Python; without a `modifies`
      clause the method can only read it. An empty list raises
      ZeroDivisionError at the division, exactly there. */
  method CalculateAverage(numbers: array<real>) returns (r: Result<real>)
    ensures r == TrueDiv(Sum(numbers[..]), numbers.Length as real)
    ensures r.Err? <==> numbers.Length == 0
    ensures r.Err? ==> r.error == ZeroDivisionError
    ensures numbers.Length > 0 ==> r == ImprovedCode.CalculateAverage(numbers[..])
  {
    var totalSum := 0.0;
    var i := 0;
    while i < numbers.Length
      invariant 0 <= i <= numbers.Length
      invariant totalSum == Sum(numbers[..i])
    {
      SumPrefixStep(numbers[..], i);
      assert numbers[..][..i + 1] == numbers[..i + 1];
      totalSum := totalSum + numbers[i];
      i := i + 1;
    }
    assert numbers[..i] == numbers[..];
    r := TrueDiv(totalSum, numbers.Length as real);
  }

  /** Over exact reals, the two variants agree on exactly the non-empty
      lists; on the empty list the loop variant raises where the guarded one
      returns 0.0. */
  lemma VariantsAgreeExceptOnEmpty(numbers: seq<real>)
    ensures TrueDiv(Sum(numbers), |numbers| as real) == ImprovedCode.CalculateAverage(numbers)
            <==> |numbers| > 0
    ensures |numbers| == 0 ==> TrueDiv(Sum(numbers), |numbers| as real) == Err(ZeroDivisionError)
  {
  }

  /** The demonstration list [10, 20, 30, 40, 50] averages to 30.0. */
  lemma ExampleAverage()
    ensures TrueDiv(Sum([10.0, 20.0, 30.0, 40.0, 50.0]), 5.0) == Ok(30.0)
  {
    DemoSum();
  }

  /** Runs the loop on the demonstration list [10, 20, 30, 40, 50], which
      yields 30.0, and on an empty list, which raises ZeroDivisionError. */
  method ExampleRuns() returns (demo: Result<real>, empty: Result<real>)
    ensures demo == Ok(30.0)
    ensures empty == Err(ZeroDivisionError)
  {
    var numbers := new real[5] [10.0, 20.0, 30.0, 40.0, 50.0];
    assert numbers[..] == [10.0, 20.0, 30.0, 40.0, 50.0];
    ExampleAverage();
    demo := CalculateAverage(numbers);
    var none := new real[0];
    empty := CalculateAverage(none);
  }
}
