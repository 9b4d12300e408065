/**
 * The legacy `Metrics` class: the PIT vector, QQ vectors and outlier rate computed when it is
 * built, the KS, CvM and AD tests on the PIT vector, the CDE loss of Izbicki & Lee (2017) and
 * the summary table.
 */
module LegacyMetrics {
  import opened Outcomes
  import opened NumpyGrid
  import opened LibraryCalls
  import PitMetrics

  /** One object's photo-z distribution, by its CDF and its density. */
  datatype Dist = Dist(cdf: real -> real, pdf: real -> real)

  /** The `Sample` the metrics read: its name, distributions, true redshifts and redshift grid. */
  datatype Sample = Sample(name: string, pdfs: seq<Dist>, ztrue: seq<real>, zgrid: seq<real>)

  /** A sample pairs every true redshift with one distribution; `len(sample)` is that number. */
  predicate WellFormed(s: Sample) {
    |s.pdfs| == |s.ztrue|
  }

  function Cdfs(dists: seq<Dist>): (r: seq<real -> real>)
    ensures |r| == |dists| && forall i :: 0 <= i < |dists| ==> r[i] == dists[i].cdf
  {
    seq(|dists|, i requires 0 <= i < |dists| => dists[i].cdf)
  }

  // ---------------------------------------------------------------- outlier rate

  /** How many PIT values lie strictly below `pitMin` or strictly above `pitMax`. */
  function CountOutliers(pits: seq<real>, pitMin: real, pitMax: real): (c: nat)
    ensures c <= |pits|
  {
    if pits == [] then 0
    else (if pits[0] < pitMin || pits[0] > pitMax then 1 else 0) + CountOutliers(pits[1..], pitMin, pitMax)
  }

  /** `float(n_outliers) / float(len(pits))`, which raises ZeroDivisionError on an empty vector. */
  function OutlierRate(pits: seq<real>, pitMin: real, pitMax: real): (r: Result<real, Exception>)
    ensures r.Err? <==> |pits| == 0
    ensures r.Err? ==> r.error == ZeroDivisionError
    ensures r.Ok? ==> 0.0 <= r.value <= 1.0
    ensures r.Ok? ==> r.value * (|pits| as real) == CountOutliers(pits, pitMin, pitMax) as real
  {
    if |pits| == 0 then Err(ZeroDivisionError)
    else Ok((CountOutliers(pits, pitMin, pitMax) as real) / (|pits| as real))
  }

  /**
   * The strict outlier count and the inclusive filter of the Anderson-Darling metric split the
   * PIT values between them: every value is either an outlier or kept, never both.
   */
  lemma {:induction false} OutliersComplementInclusive(pits: seq<real>, pitMin: real, pitMax: real)
    ensures CountOutliers(pits, pitMin, pitMax) + |PitMetrics.InclusiveFilter(pits, pitMin, pitMax)| == |pits|
  {
    if pits != [] {
      OutliersComplementInclusive(pits[1..], pitMin, pitMax);
    }
  }

  /** Two of five values, 0.1 and 0.2, lie below 0.25 and one, 0.5, above 0.45: a rate of 0.6. */
  lemma OutlierRateExample()
    ensures OutlierRate([0.1, 0.2, 0.3, 0.4, 0.5], 0.25, 0.45) == Ok(0.6)
  {
    var pits := [0.1, 0.2, 0.3, 0.4, 0.5];
    assert pits[1..] == [0.2, 0.3, 0.4, 0.5];
    assert pits[1..][1..] == [0.3, 0.4, 0.5];
    assert pits[1..][1..][1..] == [0.4, 0.5];
    assert pits[1..][1..][1..][1..] == [0.5];
    assert CountOutliers(pits, 0.25, 0.45) == 3;
  }

  /**
   * Five objects with Uniform(0, 1) distributions and true redshifts 0.1, ..., 0.5 have exactly
   * those PIT values, and an outlier rate of 0.6 for the bounds 0.25 and 0.45.
   */
  lemma UniformSampleOutlierRate(dists: seq<Dist>)
    requires |dists| == 5 && forall i :: 0 <= i < 5 ==> dists[i].cdf == PitMetrics.UniformCdf
    ensures PitMetrics.PitValues(Cdfs(dists), [0.1, 0.2, 0.3, 0.4, 0.5]) == Ok([0.1, 0.2, 0.3, 0.4, 0.5])
    ensures OutlierRate(PitMetrics.PitValues(Cdfs(dists), [0.1, 0.2, 0.3, 0.4, 0.5]).value, 0.25, 0.45) == Ok(0.6)
  {
    PitMetrics.UniformPitIsIdentity(Cdfs(dists), [0.1, 0.2, 0.3, 0.4, 0.5]);
    OutlierRateExample();
  }

  // ---------------------------------------------------------------- the QQ grid

  /** `np.linspace(0., 1., n_quant)`: the theoretical quantiles, evenly spread over [0, 1]. */
  lemma {:induction false} QTheoryInUnitInterval(nQuant: nat, k: int)
    requires 0 <= k < nQuant
    ensures 0.0 <= LinSpace(0.0, 1.0, nQuant)[k] <= 1.0
    ensures nQuant >= 2 ==> LinSpace(0.0, 1.0, nQuant)[k] == (k as real) / ((nQuant - 1) as real)
  {
    if nQuant >= 2 {
      var q := LinSpace(0.0, 1.0, nQuant);
      var d := (nQuant - 1) as real;
      assert q[k] == 0.0 + (k as real) * Step(0.0, 1.0, nQuant);
      assert Step(0.0, 1.0, nQuant) == 1.0 / d;
      FractionInUnitInterval(k as real, d);
    }
  }

  lemma FractionInUnitInterval(k: real, d: real)
    requires 0.0 <= k <= d && d > 0.0
    ensures k * (1.0 / d) == k / d
    ensures 0.0 <= k / d <= 1.0
  {
  }

  // ---------------------------------------------------------------- CDE loss

  function Abs(x: real): real {
    if x < 0.0 then -x else x
  }

  /** `np.argmin(xs)`: a position of the least value, the first such position on ties. */
  function ArgMin(xs: seq<real>): (k: nat)
    requires |xs| > 0
    ensures k < |xs|
    ensures forall j :: 0 <= j < |xs| ==> xs[k] <= xs[j]
    ensures forall j :: 0 <= j < k ==> xs[j] > xs[k]
  {
    if |xs| == 1 then 0
    else
      var k := ArgMin(xs[..|xs| - 1]);
      if xs[|xs| - 1] < xs[k] then |xs| - 1 else k
  }

  /**
   * `np.argmin(np.abs(zgrid - z))`: the grid point nearest to z, the lowest index when two
   * points are equally near. An empty grid makes numpy raise ValueError.
   */
  function Nearest(zgrid: seq<real>, z: real): (r: Result<nat, Exception>)
    ensures r.Err? <==> |zgrid| == 0
    ensures r.Ok? ==> r.value < |zgrid|
    ensures r.Ok? ==> forall j :: 0 <= j < |zgrid| ==> Abs(zgrid[r.value] - z) <= Abs(zgrid[j] - z)
    ensures r.Ok? ==> forall j :: 0 <= j < r.value ==> Abs(zgrid[j] - z) > Abs(zgrid[r.value] - z)
  {
    if |zgrid| == 0 then Err(ValueError("attempt to get argmin of an empty sequence"))
    else
      var dist := seq(|zgrid|, k requires 0 <= k < |zgrid| => Abs(zgrid[k] - z));
      var k := ArgMin(dist);
      assert forall j :: 0 <= j < |zgrid| ==> dist[j] == Abs(zgrid[j] - z);
      Ok(k)
  }

  /** `np.trapz(y, x)`: the trapezoid rule over consecutive grid points. */
  function Trapz(y: seq<real>, x: seq<real>): real
    requires |y| == |x|
  {
    if |x| < 2 then 0.0
    else Trapz(y[..|y| - 1], x[..|x| - 1])
         + (x[|x| - 1] - x[|x| - 2]) * (y[|y| - 1] + y[|y| - 2]) / 2.0
  }

  /** On an ascending grid the trapezoid integral of a non-negative function is non-negative. */
  lemma {:induction false} TrapzNonNegative(y: seq<real>, x: seq<real>)
    requires |y| == |x| && NonDecreasing(x)
    requires forall k :: 0 <= k < |y| ==> y[k] >= 0.0
    ensures Trapz(y, x) >= 0.0
  {
    if |x| >= 2 {
      TrapzNonNegative(y[..|y| - 1], x[..|x| - 1]);
      TrapezoidNonNegative(x[|x| - 1] - x[|x| - 2], y[|y| - 1] + y[|y| - 2]);
    }
  }

  lemma TrapezoidNonNegative(width: real, heights: real)
    requires width >= 0.0 && heights >= 0.0
    ensures width * heights / 2.0 >= 0.0
  {
  }

  function Total(xs: seq<real>): real {
    if xs == [] then 0.0 else Total(xs[..|xs| - 1]) + xs[|xs| - 1]
  }

  /** `np.mean(xs)` of a non-empty vector. */
  function Mean(xs: seq<real>): real
    requires |xs| > 0
  {
    Total(xs) / (|xs| as real)
  }

  lemma {:induction false} TotalAtLeast(xs: seq<real>, lo: real)
    requires forall k :: 0 <= k < |xs| ==> xs[k] >= lo
    ensures Total(xs) >= (|xs| as real) * lo
  {
    if xs != [] {
      TotalAtLeast(xs[..|xs| - 1], lo);
    }
  }

  /** A mean is at least any lower bound of its values. */
  lemma MeanAtLeast(xs: seq<real>, lo: real)
    requires |xs| > 0
    requires forall k :: 0 <= k < |xs| ==> xs[k] >= lo
    ensures Mean(xs) >= lo
  {
    TotalAtLeast(xs, lo);
    QuotientAtLeast(Total(xs), |xs| as real, lo);
  }

  lemma QuotientAtLeast(t: real, n: real, lo: real)
    requires n > 0.0 && t >= n * lo
    ensures t / n >= lo
  {
  }

  /** `pdfs.pdf([zgrid])`: row i holds object i's density on the grid. */
  function PdfMatrix(dists: seq<Dist>, zgrid: seq<real>): (m: seq<seq<real>>)
    ensures |m| == |dists|
    ensures forall i :: 0 <= i < |dists| ==> |m[i]| == |zgrid|
  {
    seq(|dists|, i requires 0 <= i < |dists| =>
      seq(|zgrid|, k requires 0 <= k < |zgrid| => dists[i].pdf(zgrid[k])))
  }

  function Squares(row: seq<real>): (r: seq<real>)
    ensures |r| == |row|
  {
    seq(|row|, k requires 0 <= k < |row| => row[k] * row[k])
  }

  /** `np.mean(np.trapz(pdfs ** 2, zgrid))`: the mean over objects of the integral of pdf squared. */
  function Term1(pdfs: seq<seq<real>>, zgrid: seq<real>): real
    requires |pdfs| > 0 && forall i :: 0 <= i < |pdfs| ==> |pdfs[i]| == |zgrid|
  {
    Mean(seq(|pdfs|, i requires 0 <= i < |pdfs| => Trapz(Squares(pdfs[i]), zgrid)))
  }

  /** `np.mean(pdfs[range(n_obs), nns])`: the mean over objects of the density at the nearest grid point. */
  function Term2(pdfs: seq<seq<real>>, nns: seq<nat>): real
    requires |pdfs| > 0 && |nns| == |pdfs|
    requires forall i :: 0 <= i < |pdfs| ==> nns[i] < |pdfs[i]|
  {
    Mean(seq(|pdfs|, i requires 0 <= i < |pdfs| => pdfs[i][nns[i]]))
  }

  /** `[np.argmin(np.abs(zgrid - z)) for z in ztrue]` on a non-empty grid. */
  function NearestIndices(zgrid: seq<real>, ztrue: seq<real>): (nns: seq<nat>)
    requires |zgrid| > 0
    ensures |nns| == |ztrue|
    ensures forall i :: 0 <= i < |ztrue| ==> Nearest(zgrid, ztrue[i]) == Ok(nns[i])
  {
    seq(|ztrue|, i requires 0 <= i < |ztrue| => Nearest(zgrid, ztrue[i]).value)
  }

  /**
   * The CDE loss `term1 - 2 * term2` of a sample on its own grid; ValueError when the grid is
   * empty, from the first `argmin`.
   */
  function CdeLossOf(s: Sample): (r: Result<real, Exception>)
    requires WellFormed(s) && |s.ztrue| > 0
    ensures r.Err? <==> |s.zgrid| == 0
    ensures r.Err? ==> r.error.ValueError?
  {
    if |s.zgrid| == 0 then Err(ValueError("attempt to get argmin of an empty sequence"))
    else
      var pdfs := PdfMatrix(s.pdfs, s.zgrid);
      Ok(Term1(pdfs, s.zgrid) - 2.0 * Term2(pdfs, NearestIndices(s.zgrid, s.ztrue)))
  }

  /**
   * With non-negative densities and an ascending grid both terms are non-negative, so the loss
   * never exceeds its first term, which is non-negative.
   */
  lemma CdeLossAtMostTerm1(s: Sample)
    requires WellFormed(s) && |s.ztrue| > 0 && |s.zgrid| > 0 && NonDecreasing(s.zgrid)
    requires forall i, z :: 0 <= i < |s.pdfs| ==> s.pdfs[i].pdf(z) >= 0.0
    ensures Term1(PdfMatrix(s.pdfs, s.zgrid), s.zgrid) >= 0.0
    ensures CdeLossOf(s).Ok?
    ensures CdeLossOf(s).value <= Term1(PdfMatrix(s.pdfs, s.zgrid), s.zgrid)
  {
    var pdfs := PdfMatrix(s.pdfs, s.zgrid);
    var nns := NearestIndices(s.zgrid, s.ztrue);
    var integrals := seq(|pdfs|, i requires 0 <= i < |pdfs| => Trapz(Squares(pdfs[i]), s.zgrid));
    forall i | 0 <= i < |pdfs|
      ensures integrals[i] >= 0.0
    {
      var sq := Squares(pdfs[i]);
      forall k | 0 <= k < |sq|
        ensures sq[k] >= 0.0
      {
        SquareNonNegative(pdfs[i][k]);
      }
      TrapzNonNegative(sq, s.zgrid);
    }
    MeanAtLeast(integrals, 0.0);
    var picked := seq(|pdfs|, i requires 0 <= i < |pdfs| => pdfs[i][nns[i]]);
    forall i | 0 <= i < |pdfs|
      ensures picked[i] >= 0.0
    {
      assert picked[i] == s.pdfs[i].pdf(s.zgrid[nns[i]]);
    }
    MeanAtLeast(picked, 0.0);
  }

  lemma SquareNonNegative(x: real)
    ensures x * x >= 0.0
  {
  }

  // ---------------------------------------------------------------- the class

  /** What `all()` formats into its Markdown table. */
  datatype MetricsTable = MetricsTable(name: string, pitOutRate: real, cdeLoss: real,
                                       ks: LibCall, cvm: LibCall, ad: LibCall)

  class Metrics {
    const sample: Sample
    const nQuant: int
    const pit: seq<real>
    /** `(Qtheory, Qdata)`. */
    const qqVectors: (seq<real>, LibCall)
    const pitOutRate: real
    /** `self._cde_loss`: absent until the `cde_loss` property has been read. */
    var cdeLoss: Option<real>

    constructor (sample: Sample, nQuant: int, pitMin: real, pitMax: real)
      requires WellFormed(sample) && |sample.ztrue| > 0 && nQuant >= 0
      ensures this.sample == sample && this.nQuant == nQuant
      ensures PitMetrics.PitValues(Cdfs(sample.pdfs), sample.ztrue) == Ok(pit)
      ensures qqVectors == (LinSpace(0.0, 1.0, nQuant), Quantile(pit, LinSpace(0.0, 1.0, nQuant)))
      ensures OutlierRate(pit, pitMin, pitMax) == Ok(pitOutRate)
      ensures cdeLoss == None
    {
      this.sample := sample;
      this.nQuant := nQuant;
      var pits := PitMetrics.PitValues(Cdfs(sample.pdfs), sample.ztrue).value;
      pit := pits;
      var qtheory := LinSpace(0.0, 1.0, nQuant);
      qqVectors := (qtheory, Quantile(pits, qtheory));
      pitOutRate := OutlierRate(pits, pitMin, pitMax).value;
      cdeLoss := None;
    }

    /**
     * `Metrics(sample, n_quant, pit_min, pit_max)`: ValueError from `np.linspace` for a
     * negative `n_quant`, IndexError from `np.quantile` for an empty sample.
     */
    static method New(sample: Sample, nQuant: int, pitMin: real, pitMax: real) returns (r: Result<Metrics, Exception>)
      requires WellFormed(sample)
      ensures r.Err? <==> nQuant < 0 || |sample.ztrue| == 0
      ensures nQuant < 0 ==> r == Err(ValueError("Number of samples must be non-negative."))
      ensures nQuant >= 0 && |sample.ztrue| == 0 ==> r == Err(IndexError)
      ensures r.Ok? ==> fresh(r.value) && r.value.sample == sample && r.value.nQuant == nQuant
      ensures r.Ok? ==> PitMetrics.PitValues(Cdfs(sample.pdfs), sample.ztrue) == Ok(r.value.pit)
      ensures r.Ok? ==> r.value.qqVectors
                        == (LinSpace(0.0, 1.0, nQuant), Quantile(r.value.pit, LinSpace(0.0, 1.0, nQuant)))
      ensures r.Ok? ==> OutlierRate(r.value.pit, pitMin, pitMax) == Ok(r.value.pitOutRate)
    {
      if nQuant < 0 {
        return Err(ValueError("Number of samples must be non-negative."));
      }
      if |sample.ztrue| == 0 {
        return Err(IndexError);
      }
      var m := new Metrics(sample, nQuant, pitMin, pitMax);
      return Ok(m);
    }

    /** `Metrics(sample)` with the defaults `n_quant=100, pit_min=0.0001, pit_max=0.9999`. */
    static method NewDefault(sample: Sample) returns (r: Result<Metrics, Exception>)
      requires WellFormed(sample)
      ensures r.Err? <==> |sample.ztrue| == 0
      ensures r.Err? ==> r.error == IndexError
      ensures r.Ok? ==> fresh(r.value) && r.value.sample == sample && r.value.nQuant == 100
      ensures r.Ok? ==> PitMetrics.PitValues(Cdfs(sample.pdfs), sample.ztrue) == Ok(r.value.pit)
      ensures r.Ok? ==> r.value.qqVectors
                        == (LinSpace(0.0, 1.0, 100), Quantile(r.value.pit, LinSpace(0.0, 1.0, 100)))
      ensures r.Ok? ==> OutlierRate(r.value.pit, 0.0001, 0.9999) == Ok(r.value.pitOutRate)
    {
      r := New(sample, 100, 0.0001, 0.9999);
    }

    /** `KS()`: `stats.kstest(pit, "uniform")`. */
    function Ks(): LibCall {
      KsTest(pit)
    }

    /** `CvM()`: `stats.cramervonmises(pit, "uniform")`. */
    function Cvm(): LibCall {
      CvmTest(pit)
    }

    /** `AD(vmin, vmax)`: the mask of line 146 is never used; the test runs on every PIT value. */
    function Ad(vmin: real, vmax: real): LibCall {
      Anderson(pit, "norm")
    }

    /** The AD result is the same whatever bounds are passed, and covers the whole PIT vector. */
    lemma AdIgnoresBounds(vmin: real, vmax: real, vmin': real, vmax': real)
      ensures Ad(vmin, vmax) == Ad(vmin', vmax')
      ensures Ad(vmin, vmax).samples == pit
    {
    }

    /**
     * Reading the `cde_loss` property: always on the sample's own grid, since a property takes
     * no argument. On success the loss is stored in `_cde_loss`.
     */
    method CdeLoss() returns (r: Result<real, Exception>)
      requires WellFormed(sample) && |sample.ztrue| > 0
      modifies this
      ensures r == CdeLossOf(sample)
      ensures cdeLoss == if r.Ok? then Some(r.value) else old(cdeLoss)
    {
      r := CdeLossOf(sample);
      if r.Ok? {
        cdeLoss := Some(r.value);
      }
    }

    /** `all()`: AttributeError until `cde_loss` has stored a value. */
    function All(): (r: Result<MetricsTable, Exception>)
      reads this
      ensures r.Err? <==> cdeLoss.None?
      ensures r.Err? ==> r.error == AttributeError("_cde_loss")
      ensures r.Ok? ==> r.value.cdeLoss == cdeLoss.value && r.value.pitOutRate == pitOutRate
      ensures r.Ok? ==> r.value.ad == Ad(0.005, 0.995)
    {
      match cdeLoss
      case None => Err(AttributeError("_cde_loss"))
      case Some(loss) => Ok(MetricsTable(sample.name, pitOutRate, loss, Ks(), Cvm(), Ad(0.005, 0.995)))
    }
  }
}
