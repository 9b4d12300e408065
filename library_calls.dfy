/**
 * Calls into scipy.stats and numpy.quantile. Their floating-point results are not modelled:
 * a call is recorded as the value naming the function and the arguments it received.
 */
module LibraryCalls {
  datatype LibCall =
    | KsTest(samples: seq<real>)                       // stats.kstest(samples, "uniform")
    | CvmTest(samples: seq<real>)                      // stats.cramervonmises(samples, "uniform")
    | AndersonKsamp(first: seq<real>, second: seq<real>) // stats.anderson_ksamp([first, second])
    | Anderson(samples: seq<real>, dist: string)       // stats.anderson(samples, dist)
    | Quantile(values: seq<real>, quantiles: seq<real>) // np.quantile(values, quantiles)
}
