# Photo-z summarising and PIT metrics, modelled in Dafny

This project models three parts of the photo-z estimation and evaluation code:

- **The bootstrap N(z) summariser `PointEstimateHist`.** Its `run` builds `nzbins + 1` evenly
  spaced redshift edges and the bin centres. It histograms the chosen point estimate into the
  baseline `single_NZ` row. Then, for each of `nsamples` bootstrap rounds, it draws `npdf`
  object indices and collapses them with `np.unique` into (index, count) pairs. It expands the
  pairs into the array `zarr` with a moving cursor and stores the histogram of `zarr` in one
  row of `hist_vals`.
  - The class, its `Run` method and its two nested loops are in `bootstrap_nz.dfy`. The inner
    loop fills an `array<real>` and the outer loop fills an `array2<nat>`.
  - numpy's `linspace` and bin-centre arithmetic are in `numpy_grid.dfy`.
  - `numpy.histogram` with an array of edges is in `numpy_histogram.dfy`. Bin k is
    `[e[k], e[k+1])`, the last bin is closed, and values outside the edges are dropped.
- **The PIT metrics of `metrics/pit.py`.** The model covers:
  - the PIT values `cdf_i(ztrue_i)`;
  - the `PITMetaMetric` decorator, which records the defaults of `evaluate` in a module-level
    registry;
  - the fan-out of `PIT.evaluate` over every (class, option-set) pair;
  - the outlier fraction `F(pit_min) + 1 - F(pit_max)`;
  - the inclusive filter, removed count and reference sample that `PITAD.evaluate` builds
    before calling scipy.

  This is `pit_metrics.dfy`.
- **The legacy `Metrics` class of `metrics.py`.** The model covers:
  - the PIT vector, the QQ grid and the strict outlier rate computed at construction;
  - `AD`, which ignores its bounds;
  - the CDE loss `term1 - 2 * term2`, built from the trapezoid rule, `argmin` with
    first-index ties, and means;
  - `all()`, which fails until `cde_loss` has been read.

  This is `legacy_metrics.dfy`.

Distributions are modelled by their CDF or density as functions `real -> real`. The spline that qp
fits to the PIT samples is a caller-supplied CDF. The scipy tests and `np.quantile` are recorded
as symbolic calls in `library_calls.dfy`. Python exceptions become `Result`/`Option` values, in
`outcomes.dfy`. The random draws of `np.random.randint(npdf, size=npdf)` are parameters: one index
sequence per round, with every index in `[0, npdf)`.

Three behaviours of the code are worth stating up front:

- `PITAD.evaluate` keeps values with `pit_min <= p <= pit_max`, inclusively
  (`rail/evaluation/metrics/pit.py:155`), as its docstring says.
- A meta-metric that raises inside `PIT.evaluate` ends the whole call
  (`rail/evaluation/metrics/pit.py:43`); no partial result is returned.
- `cde_loss` only fails on an empty grid, where `argmin` raises
  (`rail/evaluation/metrics.py:177`); any other grid, sorted or not, gives a number.

## Model

| member | source | states |
|---|---|---|
| `NumpyGrid.LinSpace` | rail/estimation/algos/pointEstimateHist.py:35 | the grid has exactly `num` points, starts at `start`, ends at `stop` when it has two or more points, and consecutive points differ by `(stop - start) / (num - 1)` |
| `NumpyGrid.LinSpaceNonDecreasing` | rail/estimation/algos/pointEstimateHist.py:35-37 | the edge grid passes numpy's monotonicity test exactly when `zmin <= zmax` or it has fewer than two points; otherwise line 37 raises |
| `NumpyGrid.Midpoints` | rail/estimation/algos/pointEstimateHist.py:36 | the bin centres number one fewer than the edges |
| `BootstrapNz.CentresInBins` | rail/estimation/algos/pointEstimateHist.py:36 | bin centre k is half a step above edge k and lies strictly inside bin k |
| `NumpyHistogram.Histogram` | rail/estimation/algos/pointEstimateHist.py:37 | the histogram of non-decreasing edges has one count per bin |
| `NumpyHistogram.HistogramTotal` | rail/estimation/algos/pointEstimateHist.py:37 | the counts sum to the number of values in `[e[0], e[last]]`, so they never exceed the number of values; out-of-range values are dropped |
| `NumpyHistogram.HistogramPrefixTotal` | rail/estimation/algos/pointEstimateHist.py:37 | the first m bins count exactly the values in `[e[0], e[m])`, closed when m reaches the last edge |
| `NumpyHistogram.EndPointsBinned` | rail/estimation/algos/pointEstimateHist.py:37 | the lowest edge falls in the first bin and the highest edge in the last, closed bin |
| `NumpyHistogram.BinUnique` | rail/estimation/algos/pointEstimateHist.py:37 | with non-decreasing edges no value falls in two bins |
| `NumpyHistogram.CountWithinPermutation` | rail/estimation/algos/pointEstimateHist.py:51 | reordering the values does not change how many fall in an interval |
| `NumpyHistogram.HistogramPermutation` | rail/estimation/algos/pointEstimateHist.py:51 | two arrays holding the same values equally often have the same histogram |
| `BootstrapNz.Unique` | rail/estimation/algos/pointEstimateHist.py:45 | `np.unique(..., return_counts=True)`: strictly increasing drawn indices below `npdf`, each with its multiplicity in the draw (at least 1), and the counts sum to `npdf` |
| `BootstrapNz.UniqueFromSorted` | rail/estimation/algos/pointEstimateHist.py:45 | the unique/count table lists the drawn indices in strictly ascending order, as `np.unique` sorts them |
| `BootstrapNz.UniqueFromPermutation` | rail/estimation/algos/pointEstimateHist.py:45 | draws holding the same indices equally often give the same unique/count table |
| `BootstrapNz.ExpandAppend` | rail/estimation/algos/pointEstimateHist.py:48-50 | expanding two runs of pairs one after the other writes the first run's values and then the second's |
| `BootstrapNz.ExpansionIsResample` | rail/estimation/algos/pointEstimateHist.py:44-50 | the expanded array holds the same multiset as `{zb[j] : j in draw}`: an index drawn k times contributes k copies of its value |
| `BootstrapNz.ExpansionHistogram` | rail/estimation/algos/pointEstimateHist.py:45-51 | the histogram of `zarr` equals the histogram of the resampled values themselves |
| `BootstrapNz.FillExpanded` | rail/estimation/algos/pointEstimateHist.py:46-50 | the cursor loop writes exactly the expansion of the pairs into `zarr`: `npdf` entries, with the cursor within `[0, npdf]` and ending at `npdf` |
| `BootstrapNz.ResampleHistogram` | rail/estimation/algos/pointEstimateHist.py:44-51 | one bootstrap round yields the histogram of the values its draw selects |
| `BootstrapNz.BootstrapRowBounds` | rail/estimation/algos/pointEstimateHist.py:42-51 | every `hist_vals` row has `nzbins` counts and sums to at most `npdf` |
| `BootstrapNz.BootstrapSamples` | rail/estimation/algos/pointEstimateHist.py:42-51 | the outer loop fills a fresh `nsamp` by `nzbins` array whose row i is the histogram of the values draw i selects |
| `BootstrapNz.EmptyCatalogueCountsNothing` | rail/estimation/algos/pointEstimateHist.py:37-51 | with no objects every draw is empty, so every bin of the baseline and of every bootstrap row counts 0 |
| `BootstrapNz.PermutationDrawIsBaseline` | rail/estimation/algos/pointEstimateHist.py:33-51 | a draw that picks every object exactly once reproduces the histogram of the `zmode` column, which is the baseline only when `point_estimate` is `zmode` |
| `BootstrapNz.PointEstimateHist.constructor` | rail/estimation/algos/pointEstimateHist.py:17-28 | the configuration is stored and no grid or output exists yet |
| `BootstrapNz.PointEstimateHist.Default` | rail/estimation/algos/pointEstimateHist.py:18-28 | the defaults are zmin 0.0, zmax 3.0, nzbins 301, point_estimate `zmode` and nsamples 1000 |
| `BootstrapNz.PointEstimateHist.Edges` | rail/estimation/algos/pointEstimateHist.py:35 | the grid has `nzbins + 1` points from `zmin` to `zmax` |
| `BootstrapNz.PointEstimateHist.Run` | rail/estimation/algos/pointEstimateHist.py:30-55 | errors in source order: KeyError for a missing `zmode` column, then ValueError for a negative grid size, then KeyError for a missing point-estimate column, then ValueError for decreasing edges or negative `nsamples`. `zgrid`/`bincents` are set once line 35 is passed. An empty catalogue completes. On success `single_NZ` is the histogram of the point estimate, whatever the draws, and row r of the output is the histogram of the `zmode` values draw r selects. Failure leaves the outputs as they were |
| `PitMetrics.PitValues` | rail/evaluation/metrics/pit.py:26 | one PIT value per true redshift, entry i being `cdf_i(ztrue_i)`; IndexError exactly when the ensemble has fewer objects than `ztrue` |
| `PitMetrics.PitValuesInUnitInterval` | rail/evaluation/metrics/pit.py:26 | with proper CDFs every PIT value lies in [0, 1] |
| `PitMetrics.UniformPitIsIdentity` | rail/evaluation/metrics/pit.py:26 | for Uniform(0, 1) distributions the PIT values are the true redshifts |
| `PitMetrics.Pit.constructor` | rail/evaluation/metrics/pit.py:21-26 | the ensemble and `ztrue` are stored unchanged beside their PIT values |
| `PitMetrics.Pit.New` | rail/evaluation/metrics/pit.py:21-26 | constructing a `PIT` fails with IndexError exactly when `ztrue` outnumbers the ensemble |
| `PitMetrics.LastN` | rail/evaluation/metrics/pit.py:14 | Python's `args[-n:]`: the last n names, and all of them when n is 0 |
| `PitMetrics.ZipMapLookup` | rail/evaluation/metrics/pit.py:14 | the zipped dictionary has exactly the paired names, each bound to the value of its last pairing |
| `PitMetrics.DefaultKwargs` | rail/evaluation/metrics/pit.py:11-14 | a `"default"` entry is built exactly when `evaluate` has defaults |
| `PitMetrics.RegisterEffect` | rail/evaluation/metrics/pit.py:10-16 | decorating records the class only when it has defaults; it adds only the name `"default"` to that class's option sets, with the last `len(defaults)` argument names paired with the defaults, and leaves every other entry untouched |
| `PitMetrics.RegisterIdempotent` | rail/evaluation/metrics/pit.py:15 | decorating a class twice leaves the registry as decorating it once |
| `PitMetrics.ModuleRegistryContents` | rail/evaluation/metrics/pit.py:94-137 | after the module's four decorations only `PITOutRate` and `PITAD` are registered, each with `{"default": {pit_min: 0, pit_max: 1}}`; `PITKS` and `PITCvM` leave no entry |
| `PitMetrics.UnitIntervalDefaults` | rail/evaluation/metrics/pit.py:100-137 | `PITOutRate` and `PITAD` both record `{pit_min: 0, pit_max: 1}` as their defaults |
| `PitMetrics.Registry.constructor` | rail/evaluation/metrics/pit.py:9 | the registry starts empty |
| `PitMetrics.Registry.PitMetaMetric` | rail/evaluation/metrics/pit.py:10-16 | the decorator returns the class itself and updates the registry as `Register` says |
| `PitMetrics.Registry.DecorateModule` | rail/evaluation/metrics/pit.py:94-132 | importing the module applies the decorator to the four classes in source order |
| `PitMetrics.OutRateBounds` | rail/evaluation/metrics/pit.py:100-103 | for a proper CDF and `pit_min <= pit_max` the outlier fraction lies in [0, 1] |
| `PitMetrics.OutRateShrinks` | rail/evaluation/metrics/pit.py:100-103 | shrinking `[pit_min, pit_max]` never lowers the outlier fraction |
| `PitMetrics.InclusiveFilter` | rail/evaluation/metrics/pit.py:155-156 | the kept values lie in `[pit_min, pit_max]`, and every value in that interval is kept as often as it occurs |
| `PitMetrics.InclusiveFilterAppend` | rail/evaluation/metrics/pit.py:155-156 | the filter keeps the original order: filtering a concatenation concatenates the filtered parts |
| `PitMetrics.AdPrefilter` | rail/evaluation/metrics/pit.py:154-160 | removed count plus kept count is the input size; a notice with the removed count is produced exactly when something was removed; the reference sample has one point per kept value, evenly spaced from `pit_min` to `pit_max` |
| `PitMetrics.EvaluateMetric` | rail/evaluation/metrics/pit.py:100-164 | a keyword that is not an argument of the class's `evaluate` raises TypeError; `PITKS` and `PITCvM` accept no keywords |
| `PitMetrics.RegisteredDefaultsAreDefaults` | rail/evaluation/metrics/pit.py:10-16 | evaluating a registered class with its recorded `"default"` options gives the same result as passing no options |
| `PitMetrics.UnitIntervalIsNoOptions` | rail/evaluation/metrics/pit.py:100-164 | passing `pit_min=0, pit_max=1` to `PITOutRate` or `PITAD` gives the same result as passing nothing, and neither raises |
| `PitMetrics.FanOut` | rail/evaluation/metrics/pit.py:38-43 | exactly one result per (class, option-set) pair and no other key, each that pair's evaluation; otherwise the exception one of the pairs raises |
| `PitMetrics.DefaultRegistrySucceeds` | rail/evaluation/metrics/pit.py:28-43 | every option set the module's registry holds evaluates without raising |
| `PitMetrics.DefaultRegistryFanOut` | rail/evaluation/metrics/pit.py:28-43 | fanning out over the module's registry yields exactly the pairs `(PITOutRate, "default")` and `(PITAD, "default")`, each evaluated as with no options |
| `PitMetrics.Pit.Evaluate` | rail/evaluation/metrics/pit.py:28-46 | returns the fitted PIT with the PIT values as samples and the fan-out; with `meta_options=None` it raises UnboundLocalError |
| `PitMetrics.Pit.EvaluateDefault` | rail/evaluation/metrics/pit.py:28-46 | `evaluate()` with the default `meta_options`, the registry the decorators fill: it succeeds with the fitted PIT and exactly the two default results of `PITOutRate` and `PITAD` |
| `PitMetrics.Pit.EvaluateInitialised` | rail/evaluation/metrics/pit.py:38-46 | with `metamets` bound before the `if`, no options give the PIT and an empty result instead of an exception |
| `LegacyMetrics.CountOutliers` | rail/evaluation/metrics.py:32 | at most one outlier per PIT value |
| `LegacyMetrics.OutlierRate` | rail/evaluation/metrics.py:32-33 | ZeroDivisionError exactly on an empty PIT vector; otherwise a value in [0, 1] that, times the sample size, is the strict outlier count |
| `LegacyMetrics.OutliersComplementInclusive` | rail/evaluation/metrics.py:32 | the strict outliers and the values the inclusive AD filter keeps partition the PIT vector |
| `LegacyMetrics.OutlierRateExample` | rail/evaluation/metrics.py:32-33 | PIT values 0.1 to 0.5 with bounds 0.25 and 0.45 give a rate of 0.6 |
| `LegacyMetrics.UniformSampleOutlierRate` | rail/evaluation/metrics.py:27-33 | five Uniform(0, 1) objects at 0.1 to 0.5 have those PIT values and an outlier rate of 0.6 |
| `LegacyMetrics.QTheoryInUnitInterval` | rail/evaluation/metrics.py:29 | every theoretical quantile lies in [0, 1], point k being `k / (n_quant - 1)` |
| `LegacyMetrics.ArgMin` | rail/evaluation/metrics.py:177 | the position of a least value, and the first such position |
| `LegacyMetrics.Nearest` | rail/evaluation/metrics.py:177 | the nearest grid point to the true redshift, the lowest index on an exact tie; ValueError exactly on an empty grid |
| `LegacyMetrics.NearestIndices` | rail/evaluation/metrics.py:177 | one nearest index per true redshift |
| `LegacyMetrics.PdfMatrix` | rail/evaluation/metrics.py:169-171 | one row per object, one column per grid point |
| `LegacyMetrics.TrapzNonNegative` | rail/evaluation/metrics.py:174 | on an ascending grid the trapezoid integral of a non-negative function is non-negative |
| `LegacyMetrics.MeanAtLeast` | rail/evaluation/metrics.py:174-178 | a mean is at least any lower bound of its values |
| `LegacyMetrics.CdeLossOf` | rail/evaluation/metrics.py:165-180 | the loss on the sample's own grid fails, with ValueError, exactly when the grid is empty |
| `LegacyMetrics.CdeLossAtMostTerm1` | rail/evaluation/metrics.py:174-180 | with non-negative densities on an ascending grid `term1 >= 0`, and the loss `term1 - 2 * term2` never exceeds `term1` |
| `LegacyMetrics.Metrics.constructor` | rail/evaluation/metrics.py:24-33 | stores the PIT vector `cdf_i(ztrue_i)`, the QQ pair (`linspace(0, 1, n_quant)`, its quantiles of the PIT) and the strict outlier rate; no CDE loss yet |
| `LegacyMetrics.Metrics.New` | rail/evaluation/metrics.py:24-33 | construction fails exactly for a negative `n_quant` (ValueError) or an empty sample (IndexError from the quantile); otherwise it holds the PIT vector, the QQ pair and the strict outlier rate |
| `LegacyMetrics.Metrics.NewDefault` | rail/evaluation/metrics.py:24-33 | `Metrics(sample)` uses `n_quant=100`, `pit_min=0.0001`, `pit_max=0.9999`: a 100-point QQ grid and the strict outlier rate for those bounds; IndexError exactly on an empty sample |
| `LegacyMetrics.Metrics.AdIgnoresBounds` | rail/evaluation/metrics.py:120-153 | `AD` gives the same result whatever `vmin` and `vmax` are, and tests the whole PIT vector |
| `LegacyMetrics.Metrics.CdeLoss` | rail/evaluation/metrics.py:155-181 | the property always uses the sample's own grid, returns the loss, and stores it in `_cde_loss` on success |
| `LegacyMetrics.Metrics.All` | rail/evaluation/metrics.py:183-193 | AttributeError exactly while `_cde_loss` is unset; otherwise the table carries the stored loss, the outlier rate and `AD()` with its default bounds |

## Left out

- qp is not part of this model. `qp.Ensemble` construction (pointEstimateHist.py lines 38-39 and 52-53) and `spline_from_samples` are not modelled. The fitted PIT CDF is a parameter, and `eval_grid` only reaches the model through it.
- scipy's `kstest`, `cramervonmises`, `anderson` and `anderson_ksamp`, and numpy's `quantile`, are recorded as symbolic calls. Their values, and any error they raise (for example `anderson_ksamp` on a too-small sample), are not modelled. The one exception: `np.quantile` of an empty PIT vector is taken to raise IndexError.
- `stat_and_pval` and `stat_crit_sig` come from rail/evaluation/utils.py, which is not part of this model. Their results are the symbolic call they wrap.
- `np.random.randint` and its RNG state are not modelled. Each round's draw is a parameter. The unused draw at pointEstimateHist.py lines 40-41 contributes only its ValueError case (negative `nsamples`); with no objects it draws nothing, which numpy allows for an empty size.
- `get_data` and `add_data` are not modelled. The outputs are the fields `singleNz` and `output`, holding the histogram counts; the bins are `zgrid`.
- The `print` in `PITAD.evaluate` is the `notice` field of `AdPrefilter`. `PIT.evaluate` does not pass the notice on.
- Floats are exact reals. Rounding in `linspace`, `trapz` and the means, and NaN, are not modelled. Histogram counts are `nat` although `hist_vals` is a float array.
- The order of dictionary iteration in `PIT.evaluate` is not modelled. When several pairs would raise, the model guarantees only that the exception comes from one of them.
- BootstrapNz.PointEstimateHist.Run: requires every `ancil` column to have `npdf` entries, an invariant of the qp ensemble. For `nzbins == -1` the line 37 histogram on an empty grid and the qp call at line 38 are not modelled; the model raises the ValueError of line 42 directly.
- LegacyMetrics.Metrics.New: requires a sample that pairs each true redshift with one distribution. The `Sample` class (sample.py) is not part of this model, so `len(sample)` is taken to be the number of true redshifts.
- `Metrics.KS`, `Metrics.CvM` and `plot_pit_qq` are symbolic or plotting code. Plotting is not modelled.
- The text formatting of `all()` (`:8.4f`, Markdown) is not modelled. `All` returns the numbers and calls it formats.
- `inspect.getargspec` no longer exists in Python 3.11. Its result for each class is written out as `Signature`.

## Findings

| source | as written | input that shows it | evidently intended | confidence | as-written member | corrected member |
|---|---|---|---|---|---|---|
| rail/evaluation/metrics/pit.py:38-46 | `metamets` is bound only inside `if meta_options is not None`, and line 46 returns it unconditionally | `PIT(ens, ztrue).evaluate(meta_options=None)` raises UnboundLocalError | the `None` guard means "no meta-metrics": return the PIT with an empty result dictionary | medium; not executed | `PitMetrics.Pit.Evaluate` | `PitMetrics.Pit.EvaluateInitialised` |
