/** The grid routines of numpy that the core relies on, in exact real arithmetic. */
module NumpyGrid {
  /** Each entry is at most the next one: the test numpy.histogram applies to an array of bin edges. */
  predicate NonDecreasing(e: seq<real>) {
    forall k :: 0 <= k < |e| - 1 ==> e[k] <= e[k + 1]
  }

  lemma {:induction false} NonDecreasingOrdered(e: seq<real>, i: int, j: int)
    requires NonDecreasing(e) && 0 <= i <= j < |e|
    ensures e[i] <= e[j]
    decreases j - i
  {
    if i < j {
      NonDecreasingOrdered(e, i, j - 1);
    }
  }

  /** The spacing of `numpy.linspace(start, stop, num)` when it has at least two points. */
  function Step(start: real, stop: real, num: nat): real
    requires num >= 2
  {
    (stop - start) / (num - 1) as real
  }

  /** `numpy.linspace(start, stop, num)`: `num` evenly spaced points, both end points included. */
  function LinSpace(start: real, stop: real, num: nat): (r: seq<real>)
    ensures |r| == num
    ensures num >= 1 ==> r[0] == start
    ensures num >= 2 ==> r[num - 1] == stop
    ensures num >= 2 ==> forall k :: 0 <= k < num - 1 ==> r[k + 1] - r[k] == Step(start, stop, num)
  {
    if num < 2 then seq(num, _ => start)
    else seq(num, k => start + (k as real) * Step(start, stop, num))
  }

  /** A linspace grid passes numpy's monotonicity test exactly when it does not run downwards. */
  lemma LinSpaceNonDecreasing(start: real, stop: real, num: nat)
    ensures NonDecreasing(LinSpace(start, stop, num)) <==> (start <= stop || num < 2)
  {
    var r := LinSpace(start, stop, num);
    if num >= 2 && start > stop {
      assert r[1] - r[0] == Step(start, stop, num) < 0.0;
    }
  }

  /** `0.5 * (e[1:] + e[:-1])`: the centre of every bin delimited by the edges `e`. */
  function Midpoints(e: seq<real>): (c: seq<real>)
    ensures |c| == if |e| == 0 then 0 else |e| - 1
  {
    if |e| == 0 then []
    else seq(|e| - 1, k requires 0 <= k < |e| - 1 => 0.5 * (e[k + 1] + e[k]))
  }
}
