/**
 * The bootstrap N(z) summariser `PointEstimateHist`: a baseline histogram of one point
 * estimate column, and `nsamples` histograms of resampled `zmode` values. Each random draw
 * of `np.random.randint(npdf, size=npdf)` is a parameter of the model.
 */
module BootstrapNz {
  import opened Outcomes
  import opened NumpyGrid
  import opened NumpyHistogram

  /** The input ensemble as the summariser sees it: its size and its ancillary columns. */
  datatype TestData = TestData(npdf: nat, ancil: map<string, seq<real>>)

  /** Every ancillary column holds one value per object. */
  predicate WellFormed(d: TestData) {
    forall col :: col in d.ancil ==> |d.ancil[col]| == d.npdf
  }

  /** Every drawn index is below n. */
  predicate IndicesIn(draw: seq<nat>, n: nat) {
    forall j :: 0 <= j < |draw| ==> draw[j] < n
  }

  /** A possible result of `np.random.randint(npdf, size=npdf)`. */
  predicate IsDraw(draw: seq<nat>, npdf: nat) {
    |draw| == npdf && IndicesIn(draw, npdf)
  }

  /** One entry of `np.unique(draw, return_counts=True)`: a drawn index and how often it was drawn. */
  datatype IndexCount = IndexCount(index: nat, count: nat)

  function Total(u: seq<IndexCount>): nat {
    if u == [] then 0 else u[0].count + Total(u[1..])
  }

  /** How many entries of `draw` lie in [lo, hi). */
  function CountRange(draw: seq<nat>, lo: nat, hi: nat): (c: nat)
    ensures c <= |draw|
  {
    if draw == [] then 0
    else (if lo <= draw[0] < hi then 1 else 0) + CountRange(draw[1..], lo, hi)
  }

  lemma {:induction false} CountRangeSplit(draw: seq<nat>, lo: nat, hi: nat)
    requires lo < hi
    ensures CountRange(draw, lo, hi) == multiset(draw)[lo] + CountRange(draw, lo + 1, hi)
  {
    if draw != [] {
      assert draw == [draw[0]] + draw[1..];
      CountRangeSplit(draw[1..], lo, hi);
    }
  }

  lemma {:induction false} CountRangeEmpty(draw: seq<nat>, lo: nat, hi: nat)
    requires hi <= lo
    ensures CountRange(draw, lo, hi) == 0
  {
    if draw != [] {
      CountRangeEmpty(draw[1..], lo, hi);
    }
  }

  lemma {:induction false} CountRangeAll(draw: seq<nat>, hi: nat)
    requires IndicesIn(draw, hi)
    ensures CountRange(draw, 0, hi) == |draw|
  {
    if draw != [] {
      CountRangeAll(draw[1..], hi);
    }
  }

  /** The distinct values of `draw` in [lo, hi), ascending, each with its multiplicity. */
  function UniqueFrom(draw: seq<nat>, lo: nat, hi: nat): (u: seq<IndexCount>)
    ensures forall i :: 0 <= i < |u| ==> lo <= u[i].index < hi
    ensures forall i :: 0 <= i < |u| ==> u[i].count == multiset(draw)[u[i].index] > 0
    ensures Total(u) == CountRange(draw, lo, hi)
    decreases hi - lo
  {
    if lo >= hi then
      CountRangeEmpty(draw, lo, hi);
      []
    else
      CountRangeSplit(draw, lo, hi);
      var rest := UniqueFrom(draw, lo + 1, hi);
      if multiset(draw)[lo] > 0 then
        var u := [IndexCount(lo, multiset(draw)[lo])] + rest;
        assert u[1..] == rest;
        u
      else rest
  }

  /** The table lists the values in strictly ascending order. */
  lemma {:induction false} UniqueFromSorted(draw: seq<nat>, lo: nat, hi: nat)
    ensures forall i, j :: 0 <= i < j < |UniqueFrom(draw, lo, hi)| ==>
              UniqueFrom(draw, lo, hi)[i].index < UniqueFrom(draw, lo, hi)[j].index
    decreases hi - lo
  {
    if lo < hi {
      UniqueFromSorted(draw, lo + 1, hi);
      var u := UniqueFrom(draw, lo, hi);
      var rest := UniqueFrom(draw, lo + 1, hi);
      if multiset(draw)[lo] > 0 {
        assert forall i :: 1 <= i < |u| ==> u[i] == rest[i - 1];
      }
    }
  }

  /** `np.unique(draw, return_counts=True)` for a draw of indices below `npdf`. */
  function Unique(draw: seq<nat>, npdf: nat): (u: seq<IndexCount>)
    requires IsDraw(draw, npdf)
    ensures forall i :: 0 <= i < |u| ==> u[i].index < npdf && u[i].count == multiset(draw)[u[i].index] > 0
    ensures forall i, j :: 0 <= i < j < |u| ==> u[i].index < u[j].index
    ensures Total(u) == npdf
  {
    CountRangeAll(draw, npdf);
    UniqueFromSorted(draw, 0, npdf);
    UniqueFrom(draw, 0, npdf)
  }

  /** Two draws holding the same indices equally often have the same unique/count table. */
  lemma {:induction false} UniqueFromPermutation(d1: seq<nat>, d2: seq<nat>, lo: nat, hi: nat)
    requires multiset(d1) == multiset(d2)
    ensures UniqueFrom(d1, lo, hi) == UniqueFrom(d2, lo, hi)
    decreases hi - lo
  {
    if lo < hi {
      UniqueFromPermutation(d1, d2, lo + 1, hi);
    }
  }

  function Repeat(z: real, n: nat): (r: seq<real>)
    ensures |r| == n && forall i :: 0 <= i < n ==> r[i] == z
  {
    seq(n, _ => z)
  }

  predicate IndicesBelow(u: seq<IndexCount>, n: nat) {
    forall i :: 0 <= i < |u| ==> u[i].index < n
  }

  /** The flat array the `zarr[idx:idx + ct] = zb[un]` loop writes: `ct` copies of `zb[un]` per pair. */
  function Expand(u: seq<IndexCount>, zb: seq<real>): (r: seq<real>)
    requires IndicesBelow(u, |zb|)
    ensures |r| == Total(u)
  {
    if u == [] then [] else Repeat(zb[u[0].index], u[0].count) + Expand(u[1..], zb)
  }

  lemma {:induction false} ExpandAppend(a: seq<IndexCount>, b: seq<IndexCount>, zb: seq<real>)
    requires IndicesBelow(a, |zb|) && IndicesBelow(b, |zb|)
    ensures IndicesBelow(a + b, |zb|)
    ensures Expand(a + b, zb) == Expand(a, zb) + Expand(b, zb)
  {
    if a == [] {
      assert a + b == b;
    } else {
      assert (a + b)[1..] == a[1..] + b;
      ExpandAppend(a[1..], b, zb);
    }
  }

  /** The values the drawn indices select: `zb[draw[0]], zb[draw[1]], ...`. */
  function Lookup(draw: seq<nat>, zb: seq<real>): (r: seq<real>)
    requires IndicesIn(draw, |zb|)
    ensures |r| == |draw|
  {
    seq(|draw|, j requires 0 <= j < |draw| => zb[draw[j]])
  }

  /** The values selected by the drawn indices in [lo, hi), in draw order. */
  function Pick(draw: seq<nat>, zb: seq<real>, lo: nat, hi: nat): seq<real>
    requires hi <= |zb|
  {
    if draw == [] then []
    else (if lo <= draw[0] < hi then [zb[draw[0]]] else []) + Pick(draw[1..], zb, lo, hi)
  }

  lemma {:induction false} PickAll(draw: seq<nat>, zb: seq<real>)
    requires IndicesIn(draw, |zb|)
    ensures Pick(draw, zb, 0, |zb|) == Lookup(draw, zb)
  {
    if draw != [] {
      assert IndicesIn(draw[1..], |zb|) by {
        assert forall j :: 0 <= j < |draw[1..]| ==> draw[1..][j] == draw[j + 1];
      }
      PickAll(draw[1..], zb);
      assert Lookup(draw, zb) == [zb[draw[0]]] + Lookup(draw[1..], zb);
    }
  }

  lemma {:induction false} PickOne(draw: seq<nat>, zb: seq<real>, v: nat)
    requires v < |zb|
    ensures Pick(draw, zb, v, v + 1) == Repeat(zb[v], multiset(draw)[v])
  {
    if draw != [] {
      assert draw == [draw[0]] + draw[1..];
      PickOne(draw[1..], zb, v);
    }
  }

  lemma {:induction false} PickSplit(draw: seq<nat>, zb: seq<real>, lo: nat, hi: nat)
    requires lo < hi <= |zb|
    ensures multiset(Pick(draw, zb, lo, hi)) == multiset(Pick(draw, zb, lo, lo + 1)) + multiset(Pick(draw, zb, lo + 1, hi))
  {
    if draw != [] {
      PickSplit(draw[1..], zb, lo, hi);
    }
  }

  lemma {:induction false} ExpandUniqueFrom(draw: seq<nat>, zb: seq<real>, lo: nat, hi: nat)
    requires hi <= |zb|
    ensures IndicesBelow(UniqueFrom(draw, lo, hi), |zb|)
    ensures multiset(Expand(UniqueFrom(draw, lo, hi), zb)) == multiset(Pick(draw, zb, lo, hi))
    decreases hi - lo
  {
    if lo >= hi {
      PickEmpty(draw, zb, lo, hi);
    } else {
      var next := lo + 1;
      ExpandUniqueFrom(draw, zb, next, hi);
      ExpandUniqueFromCons(draw, zb, lo, hi);
    }
  }

  /** Prepending the copies of `zb[lo]` to both sides keeps the two multisets equal. */
  lemma ExpandUniqueFromCons(draw: seq<nat>, zb: seq<real>, lo: nat, hi: nat)
    requires lo < hi <= |zb|
    requires multiset(Expand(UniqueFrom(draw, lo + 1, hi), zb)) == multiset(Pick(draw, zb, lo + 1, hi))
    ensures multiset(Expand(UniqueFrom(draw, lo, hi), zb)) == multiset(Pick(draw, zb, lo, hi))
  {
    PickSplit(draw, zb, lo, hi);
    PickOne(draw, zb, lo);
    ExpandUniqueFromStep(draw, zb, lo, hi);
  }

  /** One step of the scan: the entry for `lo`, if drawn, expands to its copies. */
  lemma ExpandUniqueFromStep(draw: seq<nat>, zb: seq<real>, lo: nat, hi: nat)
    requires lo < hi <= |zb|
    ensures IndicesBelow(UniqueFrom(draw, lo, hi), |zb|) && IndicesBelow(UniqueFrom(draw, lo + 1, hi), |zb|)
    ensures Expand(UniqueFrom(draw, lo, hi), zb)
         == Repeat(zb[lo], multiset(draw)[lo]) + Expand(UniqueFrom(draw, lo + 1, hi), zb)
  {
    var u := UniqueFrom(draw, lo, hi);
    var rest := UniqueFrom(draw, lo + 1, hi);
    var c := multiset(draw)[lo];
    if c > 0 {
      assert u == [IndexCount(lo, c)] + rest;
      assert u[1..] == rest;
    } else {
      assert u == rest;
      assert Repeat(zb[lo], 0) + Expand(rest, zb) == Expand(rest, zb);
    }
  }

  lemma {:induction false} PickEmpty(draw: seq<nat>, zb: seq<real>, lo: nat, hi: nat)
    requires hi <= lo && hi <= |zb|
    ensures Pick(draw, zb, lo, hi) == []
  {
    if draw != [] {
      PickEmpty(draw[1..], zb, lo, hi);
    }
  }

  /**
   * The unique/count expansion rebuilds the draw up to order: an index drawn k times
   * contributes k copies of its value.
   */
  lemma ExpansionIsResample(draw: seq<nat>, zb: seq<real>)
    requires IsDraw(draw, |zb|)
    ensures IndicesBelow(Unique(draw, |zb|), |zb|)
    ensures multiset(Expand(Unique(draw, |zb|), zb)) == multiset(Lookup(draw, zb))
  {
    ExpandUniqueFrom(draw, zb, 0, |zb|);
    PickAll(draw, zb);
  }

  /** So the histogram of the expanded array is that of the resampled values. */
  lemma ExpansionHistogram(draw: seq<nat>, zb: seq<real>, e: seq<real>)
    requires IsDraw(draw, |zb|) && |e| >= 1 && NonDecreasing(e)
    ensures IndicesBelow(Unique(draw, |zb|), |zb|)
    ensures Histogram(Expand(Unique(draw, |zb|), zb), e) == Histogram(Lookup(draw, zb), e)
  {
    ExpansionIsResample(draw, zb);
    HistogramPermutation(Expand(Unique(draw, |zb|), zb), Lookup(draw, zb), e);
  }

  /** Row r of `hist_vals`: the histogram of the values selected by draw r. */
  function BootstrapRows(draws: seq<seq<nat>>, zb: seq<real>, e: seq<real>): (rows: seq<seq<nat>>)
    requires forall r :: 0 <= r < |draws| ==> IsDraw(draws[r], |zb|)
    requires |e| >= 1 && NonDecreasing(e)
    ensures |rows| == |draws|
  {
    forall r | 0 <= r < |draws|
      ensures IndicesIn(draws[r], |zb|)
    {
      assert IsDraw(draws[r], |zb|);
    }
    seq(|draws|, r requires 0 <= r < |draws| && IndicesIn(draws[r], |zb|) => Histogram(Lookup(draws[r], zb), e))
  }

  /** Every bootstrap row has one count per bin and counts at most `npdf` values. */
  lemma BootstrapRowBounds(draws: seq<seq<nat>>, zb: seq<real>, e: seq<real>, r: int)
    requires forall r :: 0 <= r < |draws| ==> IsDraw(draws[r], |zb|)
    requires |e| >= 2 && NonDecreasing(e) && 0 <= r < |draws|
    ensures |BootstrapRows(draws, zb, e)[r]| == |e| - 1
    ensures Sum(BootstrapRows(draws, zb, e)[r]) <= |zb|
  {
    HistogramTotal(Lookup(draws[r], zb), e);
  }

  /**
   * An empty catalogue draws nothing (`randint` with size 0 returns an empty array), so every
   * bin of the baseline and of every bootstrap row is empty.
   */
  lemma EmptyCatalogueCountsNothing(draws: seq<seq<nat>>, e: seq<real>)
    requires forall r :: 0 <= r < |draws| ==> IsDraw(draws[r], 0)
    requires |e| >= 1 && NonDecreasing(e)
    ensures forall k :: 0 <= k < |e| - 1 ==> Histogram([], e)[k] == 0
    ensures forall r, k :: 0 <= r < |draws| && 0 <= k < |e| - 1 ==> BootstrapRows(draws, [], e)[r][k] == 0
  {
    forall r, k | 0 <= r < |draws| && 0 <= k < |e| - 1
      ensures BootstrapRows(draws, [], e)[r][k] == 0
    {
      assert IsDraw(draws[r], 0);
      assert Lookup(draws[r], []) == [];
      assert BootstrapRows(draws, [], e)[r] == Histogram([], e);
    }
  }

  /**
   * A draw that picks every object exactly once reproduces the baseline histogram, when the
   * baseline column is the `zmode` column the bootstrap reads.
   */
  lemma {:induction false} PermutationDrawIsBaseline(draw: seq<nat>, zb: seq<real>, e: seq<real>)
    requires IsDraw(draw, |zb|) && |e| >= 1 && NonDecreasing(e)
    requires multiset(draw) == multiset(seq(|zb|, j => j))
    ensures Histogram(Lookup(draw, zb), e) == Histogram(zb, e)
  {
    var identity: seq<nat> := seq(|zb|, j => j);
    assert IsDraw(identity, |zb|);
    assert Lookup(identity, zb) == zb;
    ExpansionIsResample(draw, zb);
    ExpansionIsResample(identity, zb);
    UniqueFromPermutation(draw, identity, 0, |zb|);
    HistogramPermutation(Lookup(draw, zb), zb, e);
  }

  /**
   * Each bin centre of a linspace grid lies half a step above the left edge of its bin, strictly
   * inside that bin.
   */
  lemma CentresInBins(zmin: real, zmax: real, nzbins: nat, k: int)
    requires zmin < zmax && 0 <= k < nzbins
    ensures Midpoints(LinSpace(zmin, zmax, nzbins + 1))[k]
         == LinSpace(zmin, zmax, nzbins + 1)[k] + 0.5 * Step(zmin, zmax, nzbins + 1)
    ensures InBin(LinSpace(zmin, zmax, nzbins + 1), k, Midpoints(LinSpace(zmin, zmax, nzbins + 1))[k])
  {
    var e := LinSpace(zmin, zmax, nzbins + 1);
    StepPositive(zmin, zmax, nzbins + 1);
    CentreOfBin(e[k], e[k + 1], Step(zmin, zmax, nzbins + 1));
  }

  lemma CentreOfBin(lo: real, hi: real, s: real)
    requires s > 0.0 && hi - lo == s
    ensures 0.5 * (hi + lo) == lo + 0.5 * s
    ensures lo < 0.5 * (hi + lo) < hi
  {
  }

  lemma StepPositive(start: real, stop: real, num: nat)
    requires start < stop && num >= 2
    ensures Step(start, stop, num) > 0.0
  {
  }

  /**
   * The inner loop of lines 46-50: `zarr` filled, pair by pair, with `ct` copies of `zb[un]`.
   */
  method FillExpanded(uniq: seq<IndexCount>, zb: seq<real>) returns (zarr: array<real>)
    requires IndicesBelow(uniq, |zb|) && Total(uniq) == |zb|
    ensures fresh(zarr) && zarr[..] == Expand(uniq, zb)
  {
    var npdf := |zb|;
    zarr := new real[npdf];
    var idx := 0;
    var p := 0;
    while p < |uniq|
      invariant 0 <= p <= |uniq| && 0 <= idx
      invariant IndicesBelow(uniq[..p], npdf)
      invariant idx + Total(uniq[p..]) == npdf
      invariant zarr[..idx] == Expand(uniq[..p], zb)
    {
      var un := uniq[p].index;
      var ct := uniq[p].count;
      assert uniq[p..][1..] == uniq[p + 1..];
      assert Total(uniq[p..]) == ct + Total(uniq[p + 1..]);
      ghost var before := zarr[..];
      forall j | idx <= j < idx + ct {
        zarr[j] := zb[un];
      }
      FillAdvance(uniq, zb, p, idx, before, zarr[..]);
      idx := idx + ct;
      p := p + 1;
    }
    assert uniq[..p] == uniq;
    assert zarr[..] == zarr[..idx];
  }

  /**
   * One pass of the bootstrap loop (lines 44-51): `np.unique` of the draw, the expanded array,
   * then its histogram. The result is the histogram of the resampled values themselves.
   */
  method ResampleHistogram(draw: seq<nat>, zb: seq<real>, edges: seq<real>) returns (row: seq<nat>)
    requires IsDraw(draw, |zb|) && |edges| >= 1 && NonDecreasing(edges)
    ensures row == Histogram(Lookup(draw, zb), edges)
  {
    var uniq := Unique(draw, |zb|);
    assert IndicesBelow(uniq, |zb|);
    var zarr := FillExpanded(uniq, zb);
    ExpansionHistogram(draw, zb, edges);
    row := Histogram(zarr[..], edges);
  }

  /** Writing the p-th pair's copies after the expansion of the first p pairs expands the first p + 1. */
  lemma FillAdvance(uniq: seq<IndexCount>, zb: seq<real>, p: nat, idx: nat, before: seq<real>, after: seq<real>)
    requires p < |uniq| && IndicesBelow(uniq, |zb|)
    requires |before| == |after| && idx + uniq[p].count <= |after|
    requires IndicesBelow(uniq[..p], |zb|) && idx <= |before| && before[..idx] == Expand(uniq[..p], zb)
    requires forall j :: 0 <= j < |after| && !(idx <= j < idx + uniq[p].count) ==> after[j] == before[j]
    requires forall j :: idx <= j < idx + uniq[p].count ==> after[j] == zb[uniq[p].index]
    ensures IndicesBelow(uniq[..p + 1], |zb|)
    ensures after[..idx + uniq[p].count] == Expand(uniq[..p + 1], zb)
  {
    FillStep(before, after, idx, uniq[p].count, zb[uniq[p].index]);
    assert uniq[..p + 1] == uniq[..p] + [uniq[p]];
    ExpandAppend(uniq[..p], [uniq[p]], zb);
  }

  /** Filling `after[idx..idx + ct]` with `z` extends the filled prefix by `ct` copies of `z`. */
  lemma FillStep(before: seq<real>, after: seq<real>, idx: nat, ct: nat, z: real)
    requires |before| == |after| && idx + ct <= |after|
    requires forall j :: 0 <= j < |after| && !(idx <= j < idx + ct) ==> after[j] == before[j]
    requires forall j :: idx <= j < idx + ct ==> after[j] == z
    ensures after[..idx + ct] == before[..idx] + Repeat(z, ct)
  {
  }

  /** The rows of a two-dimensional array. */
  function Rows(a: array2<nat>): (rows: seq<seq<nat>>)
    reads a
    ensures |rows| == a.Length0
    ensures forall i :: 0 <= i < a.Length0 ==> |rows[i]| == a.Length1
  {
    seq(a.Length0, i requires 0 <= i < a.Length0 reads a =>
      seq(a.Length1, j requires 0 <= j < a.Length1 reads a => a[i, j]))
  }

  /**
   * Lines 42-47 of `run`: a `len(draws)` by `|e| - 1` array whose row i is the histogram of
   * the i-th bootstrap resample.
   */
  method BootstrapSamples(draws: seq<seq<nat>>, zb: seq<real>, e: seq<real>) returns (histVals: array2<nat>)
    requires forall r :: 0 <= r < |draws| ==> IsDraw(draws[r], |zb|)
    requires |e| >= 1 && NonDecreasing(e)
    ensures fresh(histVals)
    ensures Rows(histVals) == BootstrapRows(draws, zb, e)
  {
    var nbins := |e| - 1;
    histVals := new nat[|draws|, nbins];
    var i := 0;
    while i < |draws|
      modifies histVals
      invariant 0 <= i <= |draws|
      invariant forall r, j :: 0 <= r < i && 0 <= j < nbins
                  ==> histVals[r, j] == BootstrapRows(draws, zb, e)[r][j]
    {
      var row := ResampleHistogram(draws[i], zb, e);
      assert row == BootstrapRows(draws, zb, e)[i];
      forall j | 0 <= j < nbins {
        histVals[i, j] := row[j];
      }
      i := i + 1;
    }
    forall r | 0 <= r < |draws|
      ensures Rows(histVals)[r] == BootstrapRows(draws, zb, e)[r]
    {
      assert BootstrapRows(draws, zb, e)[r] == Histogram(Lookup(draws[r], zb), e);
    }
  }

  /** The summariser stage: its configuration and the attributes and outputs `run` sets. */
  class PointEstimateHist {
    const zmin: real
    const zmax: real
    const nzbins: int
    const pointEstimate: string
    const nsamples: int
    /** `self.zgrid`: None until `run` builds the grid. */
    var zgrid: Option<seq<real>>
    /** `self.bincents`: absent until `run` builds it. */
    var bincents: Option<seq<real>>
    /** The `single_NZ` output: histogram counts of the chosen point estimate on `zgrid`. */
    var singleNz: Option<seq<nat>>
    /** The `output` ensemble: one histogram row per bootstrap sample. */
    var output: Option<seq<seq<nat>>>

    constructor (zmin: real, zmax: real, nzbins: int, pointEstimate: string, nsamples: int)
      ensures this.zmin == zmin && this.zmax == zmax && this.nzbins == nzbins
      ensures this.pointEstimate == pointEstimate && this.nsamples == nsamples
      ensures zgrid == None && bincents == None && singleNz == None && output == None
    {
      this.zmin := zmin;
      this.zmax := zmax;
      this.nzbins := nzbins;
      this.pointEstimate := pointEstimate;
      this.nsamples := nsamples;
      zgrid := None;
      bincents := None;
      singleNz := None;
      output := None;
    }

    /** The stage with its default configuration. */
    constructor Default()
      ensures zmin == 0.0 && zmax == 3.0 && nzbins == 301 && pointEstimate == "zmode" && nsamples == 1000
      ensures zgrid == None && bincents == None && singleNz == None && output == None
    {
      zmin := 0.0;
      zmax := 3.0;
      nzbins := 301;
      pointEstimate := "zmode";
      nsamples := 1000;
      zgrid := None;
      bincents := None;
      singleNz := None;
      output := None;
    }

    /** The bin edges `run` builds: `nzbins + 1` evenly spaced points from `zmin` to `zmax`. */
    function Edges(): (e: seq<real>)
      requires nzbins >= -1
      ensures |e| == nzbins + 1
      ensures nzbins >= 1 ==> e[0] == zmin && e[nzbins] == zmax
    {
      LinSpace(zmin, zmax, nzbins + 1)
    }

    /** Whether `run` completes on `data`: both columns exist and every numpy call accepts its arguments. */
    predicate Completes(data: TestData) {
      "zmode" in data.ancil && pointEstimate in data.ancil && nzbins >= 0
      && NonDecreasing(Edges()) && nsamples >= 0
    }

    /**
     * `run`, with the random draws of line 44 as the parameter `draws`, one per sample.
     * The unused draw of lines 40-41 only contributes its error conditions.
     */
    method Run(data: TestData, draws: seq<seq<nat>>) returns (err: Option<Exception>)
      requires WellFormed(data)
      requires nsamples >= 0 ==> |draws| == nsamples
      requires forall r :: 0 <= r < |draws| ==> IsDraw(draws[r], data.npdf)
      modifies this
      ensures "zmode" !in data.ancil ==> err == Some(KeyError("zmode"))
      ensures "zmode" in data.ancil && nzbins < -1 ==> err.Some? && err.value.ValueError?
      ensures "zmode" in data.ancil && nzbins >= -1 && pointEstimate !in data.ancil
              ==> err == Some(KeyError(pointEstimate))
      ensures "zmode" in data.ancil && nzbins >= -1 && pointEstimate in data.ancil && !Completes(data)
              ==> err.Some? && err.value.ValueError?
      ensures err == None <==> Completes(data)
      ensures "zmode" in data.ancil && nzbins >= -1
              ==> zgrid == Some(Edges()) && bincents == Some(Midpoints(Edges()))
      ensures "zmode" !in data.ancil || nzbins < -1 ==> zgrid == old(zgrid) && bincents == old(bincents)
      ensures err.Some? ==> singleNz == old(singleNz) && output == old(output)
      ensures err == None ==> singleNz == Some(Histogram(data.ancil[pointEstimate], Edges()))
      ensures err == None ==> output == Some(BootstrapRows(draws, data.ancil["zmode"], Edges()))
    {
      if "zmode" !in data.ancil {
        return Some(KeyError("zmode"));
      }
      var zb := data.ancil["zmode"];
      var nsamp := nsamples;
      if nzbins + 1 < 0 {
        return Some(ValueError("Number of samples must be non-negative."));
      }
      var grid := LinSpace(zmin, zmax, nzbins + 1);
      zgrid := Some(grid);
      bincents := Some(Midpoints(grid));
      if pointEstimate !in data.ancil {
        return Some(KeyError(pointEstimate));
      }
      if nzbins < 0 {
        return Some(ValueError("negative dimensions are not allowed"));
      }
      if !NonDecreasing(grid) {
        return Some(ValueError("`bins` must increase monotonically, when an array"));
      }
      var single := Histogram(data.ancil[pointEstimate], grid);
      if nsamp < 0 {
        return Some(ValueError("negative dimensions are not allowed"));
      }
      var histVals := BootstrapSamples(draws, zb, grid);
      output := Some(Rows(histVals));
      singleNz := Some(single);
      return None;
    }
  }
}
