/** The sum of a list of numbers, as Python's `sum` and an accumulator loop
    compute it, with the facts about it that the averages rely on. */
module Sums {

  /** Left-to-right sum starting from 0: the last element is added last, as in
      `total_sum += number` and in `sum(numbers)`. Over exact reals the two
      agree; on floats Python's `sum` rounds differently from the loop. */
  function Sum(s: seq<real>): real
  {
    if s == [] then 0.0 else Sum(s[..|s| - 1]) + s[|s| - 1]
  }

  /** Smallest element of a non-empty list. */
  function Min(s: seq<real>): (m: real)
    requires |s| > 0
    ensures m in s
    ensures forall i :: 0 <= i < |s| ==> m <= s[i]
  {
    if |s| == 1 then s[0]
    else
      var m' := Min(s[1..]);
      if s[0] <= m' then s[0] else m'
  }

  /** Largest element of a non-empty list. */
  function Max(s: seq<real>): (m: real)
    requires |s| > 0
    ensures m in s
    ensures forall i :: 0 <= i < |s| ==> s[i] <= m
  {
    if |s| == 1 then s[0]
    else
      var m' := Max(s[1..]);
      if s[0] >= m' then s[0] else m'
  }

  /** Adding one more element to the processed prefix adds it to the sum:
      the step of the accumulator loop. */
  lemma SumPrefixStep(s: seq<real>, k: nat)
    requires k < |s|
    ensures Sum(s[..k + 1]) == Sum(s[..k]) + s[k]
  {
    assert s[..k + 1][..k] == s[..k];
  }

  /** The sum of a concatenation is the sum of the parts. */
  lemma {:induction false} SumAppend(a: seq<real>, b: seq<real>)
    ensures Sum(a + b) == Sum(a) + Sum(b)
    decreases |b|
  {
    if b != [] {
      var b' := b[..|b| - 1];
      assert (a + b)[..|a + b| - 1] == a + b';
      SumAppend(a, b');
    } else {
      assert a + b == a;
    }
  }

  /** Removing the element at index j takes exactly that element off the sum. */
  lemma SumRemoveAt(s: seq<real>, j: nat)
    requires j < |s|
    ensures Sum(s) == Sum(s[..j] + s[j + 1..]) + s[j]
  {
    var front, x, back := s[..j], s[j], s[j + 1..];
    assert [x][..0] == [];
    SumAppend([x], back);
    assert s == front + ([x] + back);
    SumAppend(front, [x] + back);
    SumAppend(front, back);
  }

  /** The sum does not depend on the order of the elements. */
  lemma {:induction false} SumPermutation(a: seq<real>, b: seq<real>)
    requires multiset(a) == multiset(b)
    ensures Sum(a) == Sum(b)
    decreases |a|
  {
    if a == [] {
      assert |b| == |multiset(b)| == 0;
    } else {
      var x := a[|a| - 1];
      var a' := a[..|a| - 1];
      assert a == a' + [x];
      assert x in multiset(b);
      var j :| 0 <= j < |b| && b[j] == x;
      var b' := b[..j] + b[j + 1..];
      assert b == b[..j] + [x] + b[j + 1..];
      assert multiset(b') == multiset(b) - multiset{x};
      assert multiset(a') == multiset(a) - multiset{x};
      SumPermutation(a', b');
      SumRemoveAt(b, j);
    }
  }

  /** Every element between lo and hi puts the sum between |s| * lo and |s| * hi. */
  lemma {:induction false} SumBounds(s: seq<real>, lo: real, hi: real)
    requires forall i :: 0 <= i < |s| ==> lo <= s[i] <= hi
    ensures (|s| as real) * lo <= Sum(s) <= (|s| as real) * hi
  {
    if s != [] {
      var s' := s[..|s| - 1];
      assert forall i :: 0 <= i < |s'| ==> s'[i] == s[i];
      SumBounds(s', lo, hi);
      var n' := |s'| as real;
      assert (|s| as real) * lo == n' * lo + lo;
      assert (|s| as real) * hi == n' * hi + hi;
    }
  }

  /** The list of the demonstration blocks sums to 150. */
  lemma DemoSum()
    ensures Sum([10.0, 20.0, 30.0, 40.0, 50.0]) == 150.0
  {
    var s := [10.0, 20.0, 30.0, 40.0, 50.0];
    assert [10.0][..0] == [];
    assert Sum([10.0]) == 10.0;
    assert [10.0, 20.0][..1] == [10.0];
    assert Sum([10.0, 20.0]) == 30.0;
    assert [10.0, 20.0, 30.0][..2] == [10.0, 20.0];
    assert Sum([10.0, 20.0, 30.0]) == 60.0;
    assert [10.0, 20.0, 30.0, 40.0][..3] == [10.0, 20.0, 30.0];
    assert Sum([10.0, 20.0, 30.0, 40.0]) == 100.0;
    assert s[..4] == [10.0, 20.0, 30.0, 40.0];
  }
}
