# Arithmetic mean of a list of numbers

This project models `calculate_average`, the one piece of logic in the repository, in its two versions:

- `code_to_improve.py` adds the elements into `total_sum` in a `for` loop, then divides by `len(numbers)`. Nothing guards the division, so an empty list raises `ZeroDivisionError`.
- `improved_code.py` returns `0.0` for an empty list and `sum(numbers) / len(numbers)` otherwise.

Numbers are `real`s. Python's `/` is true division, which never truncates. It is modelled by `PyNum.TrueDiv`, which returns `Err(ZeroDivisionError)` for a zero divisor and the exact real quotient otherwise.

Files:

- `py_division.dfy`: module `PyNum`. It defines the exception, a `Result` type and `TrueDiv`.
- `sums.dfy`: module `Sums`. It defines the left-to-right `Sum` that both versions compute, the list minimum and maximum, and lemmas about the sum: appending, removing an element, order independence and bounds.
- `improved_code.dfy`: module `ImprovedCode`. It holds the guarded function and what holds of it.
- `code_to_improve.dfy`: module `CodeToImprove`. It holds the loop as a method, proved against `Sum` and `TrueDiv`, and compared with the guarded version.

The two versions handle an empty list differently. Both behaviours are modelled as written. Neither is chosen as canonical. Over exact reals, `CodeToImprove.VariantsAgreeExceptOnEmpty` states exactly where they differ.

## Model

| member | source | states |
|---|---|---|
| PyNum.TrueDiv | code_to_improve.py:5 | Python's `/`: it raises ZeroDivisionError exactly when the divisor is zero. Otherwise it gives the exact quotient, with quotient times divisor equal to the dividend, so nothing is truncated. |
| ImprovedCode.CalculateAverage | improved_code.py:2-5 | Never raises over exact reals. An empty list gives 0.0. A non-empty list gives the value that, multiplied by the element count, equals the sum of the elements. |
| ImprovedCode.AverageWithinBounds | improved_code.py:5 | Any lower and upper bounds of every element of a non-empty list also bound its average. |
| ImprovedCode.AverageWithinRange | improved_code.py:5 | The average of a non-empty list lies between its minimum and its maximum element. |
| ImprovedCode.AverageOfConstant | improved_code.py:5 | A non-empty list whose elements all equal c averages to exactly c. |
| ImprovedCode.AveragePermutationInvariant | improved_code.py:5 | Two lists that are permutations of each other have the same average. |
| ImprovedCode.ExampleAverages | improved_code.py:9-12 | The demonstration list [10, 20, 30, 40, 50] averages to 30.0. [5] gives 5.0, [1, 2] gives 1.5 and [] gives 0.0. |
| CodeToImprove.CalculateAverage | code_to_improve.py:1-6 | The loop keeps `total_sum` equal to the sum of the prefix processed so far. The result is the true division of the whole sum by the length. It is ZeroDivisionError exactly when the list is empty, and otherwise equals the guarded version's result. There is no `modifies` clause, so the list is only read. |
| CodeToImprove.VariantsAgreeExceptOnEmpty | code_to_improve.py:5 | Over exact reals, the unguarded division agrees with the guarded function exactly on non-empty lists. On the empty list it raises ZeroDivisionError. |
| CodeToImprove.ExampleAverage | code_to_improve.py:9-10 | The demonstration list [10, 20, 30, 40, 50] averages to 30.0. |
| CodeToImprove.ExampleRuns | code_to_improve.py:9-10 | Running the loop method on an array holding [10, 20, 30, 40, 50] gives 30.0. Running it on an empty array gives ZeroDivisionError. |
| Sums.Sum | improved_code.py:5 | Python's `sum(numbers)` and the accumulated `total_sum` of code_to_improve.py:2-4: 0.0 for [], otherwise the sum of all but the last element plus the last. It is the reference both versions are proved against. |
| Sums.SumPrefixStep | code_to_improve.py:3-4 | One loop step (`total_sum += number`) turns the sum of the first k elements into the sum of the first k + 1. |
| Sums.SumAppend | improved_code.py:5 | The sum of a concatenation is the sum of the sums of the parts. |
| Sums.SumRemoveAt | improved_code.py:5 | Removing one element from a list lowers its sum by exactly that element. |
| Sums.SumPermutation | improved_code.py:5 | `sum` is independent of element order: lists with equal multisets have equal sums. |
| Sums.SumBounds | improved_code.py:5 | If every element lies in [lo, hi], the sum lies between count * lo and count * hi. |
| Sums.DemoSum | improved_code.py:9 | The demonstration list sums to 150. |

## Left out

- `code.py` is not part of this model. It loads a CSV file, parses dates, groups and averages with pandas, and draws a heatmap with seaborn and matplotlib. All of that is library calls and file I/O.
- IEEE-754 floating point: averages are exact reals, so rounding and overflow to infinity are not modelled. That includes a rounding difference between the versions: Python 3.12 and later sum floats with compensated summation in `sum()`, but the loop's `+=` does not. On `[0.1] * 10` the guarded version gives 0.1 and the loop gives 0.09999999999999999. The model's "the versions agree" holds over exact reals only.
- PyNum.TrueDiv: does not model OverflowError. When `sum(numbers)` is a Python int, `/` raises OverflowError if the quotient is outside the float range, for example on `[10**400]`, in both versions. Exact reals have no range, so the model returns the quotient there.
- ImprovedCode.CalculateAverage: never raises only over exact reals. On `[10**400]` the source raises OverflowError at improved_code.py:5, and the `except ZeroDivisionError` at improved_code.py:13 does not catch it.
- The `print` calls and the `if __name__ == "__main__"` guard are console I/O and module loading. Their example inputs are kept as the example lemmas.
- The `try`/`except ZeroDivisionError` in improved_code.py:10-14 is not modelled as a statement. `ImprovedCode.CalculateAverage` is proved never to return ZeroDivisionError, so that handler cannot run.
- Python's dynamic typing is not modelled. Mixed int and float lists, non-numeric elements and `None` are out of scope. `not numbers` would also return 0.0 for `None`. Elements are fixed to `real`, and Python ints are the integral reals.
