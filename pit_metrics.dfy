/**
 * The probability integral transform (PIT) of a photo-z ensemble and the meta-metrics computed
 * on it: the registry that the `PITMetaMetric` decorator fills with each metric's default
 * keyword arguments, the fan-out of `PIT.evaluate` over every registered option set, the
 * outlier fraction, and the filtering done before the Anderson-Darling test.
 *
 * A distribution is represented by its CDF, a function `real -> real`; the spline that qp fits
 * to the PIT samples is supplied by the caller in the same form.
 */
module PitMetrics {
  import opened Outcomes
  import opened NumpyGrid
  import opened LibraryCalls

  /** A cumulative distribution function: values in [0, 1] that never decrease. */
  ghost predicate IsCdf(F: real -> real) {
    (forall x :: 0.0 <= F(x) <= 1.0) && (forall x, y :: x <= y ==> F(x) <= F(y))
  }

  lemma CdfBounds(F: real -> real, x: real)
    requires IsCdf(F)
    ensures 0.0 <= F(x) <= 1.0
  {
  }

  // ---------------------------------------------------------------- PIT values

  /**
   * `[ens[i].cdf(ztrue[i]) for i in range(len(ztrue))]`: the CDF of each object's distribution
   * at its true redshift. An ensemble with fewer objects than `ztrue` raises IndexError.
   */
  function PitValues(cdfs: seq<real -> real>, ztrue: seq<real>): (r: Result<seq<real>, Exception>)
    ensures r.Err? <==> |ztrue| > |cdfs|
    ensures r.Err? ==> r.error == IndexError
    ensures r.Ok? ==> |r.value| == |ztrue|
    ensures r.Ok? ==> forall i :: 0 <= i < |ztrue| ==> r.value[i] == cdfs[i](ztrue[i])
  {
    if |ztrue| > |cdfs| then Err(IndexError)
    else Ok(seq(|ztrue|, i requires 0 <= i < |ztrue| => cdfs[i](ztrue[i])))
  }

  /** When every distribution has a proper CDF, every PIT value is a probability. */
  lemma PitValuesInUnitInterval(cdfs: seq<real -> real>, ztrue: seq<real>)
    requires |ztrue| <= |cdfs|
    requires forall i :: 0 <= i < |cdfs| ==> IsCdf(cdfs[i])
    ensures PitValues(cdfs, ztrue).Ok?
    ensures forall i :: 0 <= i < |ztrue| ==> 0.0 <= PitValues(cdfs, ztrue).value[i] <= 1.0
  {
    forall i | 0 <= i < |ztrue|
      ensures 0.0 <= PitValues(cdfs, ztrue).value[i] <= 1.0
    {
      CdfBounds(cdfs[i], ztrue[i]);
    }
  }

  /** The CDF of the uniform distribution on [0, 1]. */
  function UniformCdf(x: real): real {
    if x < 0.0 then 0.0 else if x > 1.0 then 1.0 else x
  }

  /** When every object's distribution is Uniform(0, 1), each PIT value is the true redshift itself. */
  lemma UniformPitIsIdentity(cdfs: seq<real -> real>, ztrue: seq<real>)
    requires |ztrue| <= |cdfs|
    requires forall i :: 0 <= i < |cdfs| ==> cdfs[i] == UniformCdf
    requires forall i :: 0 <= i < |ztrue| ==> 0.0 <= ztrue[i] <= 1.0
    ensures IsCdf(UniformCdf)
    ensures PitValues(cdfs, ztrue) == Ok(ztrue)
  {
    forall i | 0 <= i < |ztrue|
      ensures PitValues(cdfs, ztrue).value[i] == ztrue[i]
    {
      assert cdfs[i](ztrue[i]) == UniformCdf(ztrue[i]);
    }
    assert PitValues(cdfs, ztrue).value == ztrue;
  }

  // ---------------------------------------------------------------- the registry

  /** The metric classes defined in the module, each decorated with `PITMetaMetric`. */
  datatype MetricClass = PitOutRate | PitKs | PitCvm | PitAd

  /** What `inspect.getargspec` reports of an `evaluate` method: argument names and defaults. */
  datatype ArgSpec = ArgSpec(args: seq<string>, defaults: Option<seq<real>>)

  type Kwargs = map<string, real>

  /** Per class, the named keyword-argument sets to evaluate it with. */
  type Options = map<MetricClass, map<string, Kwargs>>

  /** The signature of each class's `evaluate`. */
  function Signature(cls: MetricClass): ArgSpec {
    match cls
    case PitOutRate => ArgSpec(["self", "pit_min", "pit_max"], Some([0.0, 1.0]))
    case PitKs => ArgSpec(["self"], None)
    case PitCvm => ArgSpec(["self"], None)
    case PitAd => ArgSpec(["self", "pit_min", "pit_max"], Some([0.0, 1.0]))
  }

  /** Python's `xs[-n:]`: the last n entries, and all of them when n is 0 or at least |xs|. */
  function LastN<T>(xs: seq<T>, n: nat): (r: seq<T>)
    ensures |r| == if n == 0 || n >= |xs| then |xs| else n
    ensures r == xs[|xs| - |r|..]
  {
    if n == 0 || n >= |xs| then xs else xs[|xs| - n..]
  }

  /** `{k: v for k, v in zip(keys, vals)}`: pairs up to the shorter length; a later key wins. */
  function ZipMap(keys: seq<string>, vals: seq<real>): (m: Kwargs)
    decreases |keys|
  {
    var n := if |keys| < |vals| then |keys| else |vals|;
    if n == 0 then map[]
    else ZipMap(keys[..n - 1], vals[..n - 1])[keys[n - 1] := vals[n - 1]]
  }

  /** The zipped dictionary has exactly the paired keys, and each key maps to its last paired value. */
  lemma {:induction false} ZipMapLookup(keys: seq<string>, vals: seq<real>, k: string)
    ensures k in ZipMap(keys, vals) <==> exists i :: 0 <= i < |keys| && i < |vals| && keys[i] == k
    ensures k in ZipMap(keys, vals) ==>
              exists i :: (0 <= i < |keys| && i < |vals| && keys[i] == k
                           && ZipMap(keys, vals)[k] == vals[i]
                           && forall j :: i < j < |keys| && j < |vals| ==> keys[j] != k)
    decreases |keys|
  {
    var n := if |keys| < |vals| then |keys| else |vals|;
    if n > 0 {
      var ks := keys[..n - 1];
      var vs := vals[..n - 1];
      ZipMapLookup(ks, vs, k);
      if k == keys[n - 1] {
        assert ZipMap(keys, vals)[k] == vals[n - 1];
      } else if k in ZipMap(ks, vs) {
        var i :| 0 <= i < |ks| && i < |vs| && ks[i] == k && ZipMap(ks, vs)[k] == vs[i]
                 && forall j :: i < j < |ks| && j < |vs| ==> ks[j] != k;
        assert keys[i] == k && ZipMap(keys, vals)[k] == vals[i];
        forall j | i < j < |keys| && j < |vals|
          ensures keys[j] != k
        {
          if j < n - 1 {
            assert ks[j] == keys[j];
          }
        }
      } else {
        assert forall i :: 0 <= i < n - 1 ==> ks[i] == keys[i];
      }
    }
  }

  /** The `"default"` entry the decorator builds: the last `len(defaults)` names paired with the defaults. */
  function DefaultKwargs(spec: ArgSpec): (r: Option<Kwargs>)
    ensures r.Some? <==> spec.defaults.Some?
  {
    match spec.defaults
    case None => None
    case Some(d) => Some(ZipMap(LastN(spec.args, |d|), d))
  }

  /** The registry after decorating `cls`: `setdefault(cls, {})["default"] = kwargs` when defaults exist. */
  function Register(reg: Options, cls: MetricClass, spec: ArgSpec): Options {
    match DefaultKwargs(spec)
    case None => reg
    case Some(kwargs) => reg[cls := (if cls in reg then reg[cls] else map[])["default" := kwargs]]
  }

  /**
   * Decorating records `cls` exactly when its `evaluate` has defaults, overwrites only its
   * `"default"` slot, and leaves every other class's entry as it was.
   */
  lemma RegisterEffect(reg: Options, cls: MetricClass, spec: ArgSpec)
    ensures spec.defaults.None? ==> Register(reg, cls, spec) == reg
    ensures spec.defaults.Some? ==> Register(reg, cls, spec).Keys == reg.Keys + {cls}
    ensures spec.defaults.Some? ==>
              Register(reg, cls, spec)[cls].Keys == (if cls in reg then reg[cls].Keys else {}) + {"default"}
    ensures spec.defaults.Some? ==>
              Register(reg, cls, spec)[cls]["default"] == ZipMap(LastN(spec.args, |spec.defaults.value|), spec.defaults.value)
    ensures spec.defaults.Some? && cls in reg ==>
              forall name :: name in reg[cls] && name != "default" ==>
                name in Register(reg, cls, spec)[cls] && Register(reg, cls, spec)[cls][name] == reg[cls][name]
    ensures forall c :: c != cls && c in reg ==> c in Register(reg, cls, spec) && Register(reg, cls, spec)[c] == reg[c]
  {
    if spec.defaults.Some? {
      RegisterSome(reg, cls, spec);
      NestedUpdate(reg, cls, "default", DefaultKwargs(spec).value);
    }
  }

  /** Writing `v` under `name` in the (possibly new) inner map of `k` touches nothing else. */
  lemma NestedUpdate<K, N, V>(m: map<K, map<N, V>>, k: K, name: N, v: V)
    ensures var after := m[k := (if k in m then m[k] else map[])[name := v]];
      && after.Keys == m.Keys + {k}
      && after[k].Keys == (if k in m then m[k].Keys else {}) + {name}
      && after[k][name] == v
      && (k in m ==> forall n :: n in m[k] && n != name ==> n in after[k] && after[k][n] == m[k][n])
      && (forall c :: c != k && c in m ==> c in after && after[c] == m[c])
  {
  }

  /** Decorating the same class twice leaves the registry as decorating it once. */
  lemma RegisterIdempotent(reg: Options, cls: MetricClass, spec: ArgSpec)
    ensures Register(Register(reg, cls, spec), cls, spec) == Register(reg, cls, spec)
  {
    if spec.defaults.Some? {
      var kwargs := DefaultKwargs(spec).value;
      var slot := if cls in reg then reg[cls] else map[];
      var entry := slot["default" := kwargs];
      RegisterSome(reg, cls, spec);
      RegisterSome(reg[cls := entry], cls, spec);
      UpdateTwice(slot, "default", kwargs);
      UpdateTwice(reg, cls, entry);
    }
  }

  /** When `spec` has defaults, decorating writes them to the `"default"` slot of `cls`. */
  lemma RegisterSome(reg: Options, cls: MetricClass, spec: ArgSpec)
    requires spec.defaults.Some?
    ensures Register(reg, cls, spec)
         == reg[cls := (if cls in reg then reg[cls] else map[])["default" := DefaultKwargs(spec).value]]
  {
  }

  /** Writing the same value to a key twice is writing it once. */
  lemma UpdateTwice<K, V>(m: map<K, V>, k: K, v: V)
    ensures m[k := v][k := v] == m[k := v]
  {
    assert m[k := v][k := v].Keys == m[k := v].Keys;
  }

  /** The defaults `PITOutRate` and `PITAD` declare: `pit_min=0.` and `pit_max=1.`. */
  const UnitInterval: Kwargs := map["pit_min" := 0.0, "pit_max" := 1.0]

  /** The registry after the module's four decorations, in source order. */
  function ModuleRegistry(): Options {
    Register(Register(Register(Register(map[], PitOutRate, Signature(PitOutRate)),
      PitKs, Signature(PitKs)), PitCvm, Signature(PitCvm)), PitAd, Signature(PitAd))
  }

  /** The registry holding `{"default": {pit_min: 0, pit_max: 1}}` for `PITOutRate` and `PITAD` only. */
  const Registered: Options := map[PitOutRate := map["default" := UnitInterval], PitAd := map["default" := UnitInterval]]

  /** Only `PITOutRate` and `PITAD` are registered, each with `{"default": {pit_min: 0, pit_max: 1}}`. */
  lemma ModuleRegistryContents()
    ensures ModuleRegistry() == Registered
  {
    var r1 := Register(map[], PitOutRate, Signature(PitOutRate));
    FirstRegistration();
    NoDefaultsKeep(r1, PitKs);
    NoDefaultsKeep(Register(r1, PitKs, Signature(PitKs)), PitCvm);
    UnitIntervalDefaults(PitAd);
    RegisterSome(r1, PitAd, Signature(PitAd));
  }

  /** Decorating `PITOutRate` first creates the registry's only entry. */
  lemma FirstRegistration()
    ensures Register(map[], PitOutRate, Signature(PitOutRate)) == map[PitOutRate := map["default" := UnitInterval]]
  {
    UnitIntervalDefaults(PitOutRate);
    RegisterSome(map[], PitOutRate, Signature(PitOutRate));
    var empty: map<string, Kwargs> := map[];
    assert empty["default" := UnitInterval] == map["default" := UnitInterval];
  }

  /** Classes whose `evaluate` has no defaults leave the registry alone. */
  lemma NoDefaultsKeep(reg: Options, cls: MetricClass)
    requires cls == PitKs || cls == PitCvm
    ensures Register(reg, cls, Signature(cls)) == reg
  {
  }

  /** `PITOutRate` and `PITAD` record `{pit_min: 0, pit_max: 1}` as their defaults. */
  lemma UnitIntervalDefaults(cls: MetricClass)
    requires cls == PitOutRate || cls == PitAd
    ensures DefaultKwargs(Signature(cls)) == Some(UnitInterval)
  {
    assert LastN(Signature(cls).args, 2) == ["pit_min", "pit_max"];
    ZipUnitInterval();
  }

  /** Zipping the two argument names with `(0., 1.)` gives the unit-interval options. */
  lemma ZipUnitInterval()
    ensures ZipMap(["pit_min", "pit_max"], [0.0, 1.0]) == UnitInterval
  {
    var keys: seq<string> := ["pit_min", "pit_max"];
    var vals := [0.0, 1.0];
    assert keys[..1] == ["pit_min"] && vals[..1] == [0.0];
    assert ZipMap(["pit_min"], [0.0]) == map["pit_min" := 0.0] by {
      assert ["pit_min"][..0] == [] && [0.0][..0] == [];
    }
  }

  /** The module-level dictionary `_pitMetaMetrics` that the decorator fills. */
  class Registry {
    var metrics: Options

    constructor ()
      ensures metrics == map[]
    {
      metrics := map[];
    }

    /** `PITMetaMetric(cls)`: records the defaults of `cls.evaluate` and returns `cls` itself. */
    method PitMetaMetric(cls: MetricClass) returns (decorated: MetricClass)
      modifies this
      ensures decorated == cls
      ensures metrics == Register(old(metrics), cls, Signature(cls))
    {
      var spec := Signature(cls);
      if spec.defaults.Some? {
        var numDefaults := |spec.defaults.value|;
        var kwargs := ZipMap(LastN(spec.args, numDefaults), spec.defaults.value);
        var slot := if cls in metrics then metrics[cls] else map[];
        metrics := metrics[cls := slot["default" := kwargs]];
      }
      decorated := cls;
    }

    /** Importing the module decorates the four classes in the order they are defined. */
    method DecorateModule()
      modifies this
      ensures metrics == Register(Register(Register(Register(old(metrics), PitOutRate, Signature(PitOutRate)),
                PitKs, Signature(PitKs)), PitCvm, Signature(PitCvm)), PitAd, Signature(PitAd))
    {
      var _ := PitMetaMetric(PitOutRate);
      var _ := PitMetaMetric(PitKs);
      var _ := PitMetaMetric(PitCvm);
      var _ := PitMetaMetric(PitAd);
    }
  }

  // ---------------------------------------------------------------- the metrics

  /** The fitted PIT distribution: the spline's CDF, with the raw PIT values as its `samples`. */
  datatype PitDist = PitDist(cdf: real -> real, samples: seq<real>)

  /** What a meta-metric's `evaluate` returns. */
  datatype MetricValue =
    | Fraction(value: real)       // PITOutRate: a number
    | StatPval(call: LibCall)     // stat_and_pval(...) of a scipy test
    | StatCritSig(call: LibCall)  // stat_crit_sig(...) of anderson_ksamp

  /** `PITOutRate.evaluate`: the mass below `pitMin` plus the mass above `pitMax`. */
  function OutRate(F: real -> real, pitMin: real, pitMax: real): real {
    F(pitMin) + (1.0 - F(pitMax))
  }

  /** For a proper CDF and an ordered interval the outlier fraction is a probability. */
  lemma OutRateBounds(F: real -> real, pitMin: real, pitMax: real)
    requires IsCdf(F) && pitMin <= pitMax
    ensures 0.0 <= OutRate(F, pitMin, pitMax) <= 1.0
  {
    assert 0.0 <= F(pitMin) <= F(pitMax) <= 1.0;
  }

  /** Shrinking the accepted interval never lowers the outlier fraction. */
  lemma OutRateShrinks(F: real -> real, lo: real, hi: real, lo': real, hi': real)
    requires IsCdf(F) && lo <= lo' && hi' <= hi
    ensures OutRate(F, lo, hi) <= OutRate(F, lo', hi')
  {
    assert F(lo) <= F(lo') && F(hi') <= F(hi);
  }

  /** The values with lo <= p <= hi, in their original order: `pits[(pits >= lo) & (pits <= hi)]`. */
  function InclusiveFilter(pits: seq<real>, lo: real, hi: real): (r: seq<real>)
    ensures |r| <= |pits|
    ensures forall i :: 0 <= i < |r| ==> lo <= r[i] <= hi
    ensures forall x :: multiset(r)[x] == if lo <= x <= hi then multiset(pits)[x] else 0
  {
    if pits == [] then []
    else
      assert pits == [pits[0]] + pits[1..];
      (if lo <= pits[0] <= hi then [pits[0]] else []) + InclusiveFilter(pits[1..], lo, hi)
  }

  /** Filtering a concatenation filters each part and keeps them in order. */
  lemma {:induction false} InclusiveFilterAppend(a: seq<real>, b: seq<real>, lo: real, hi: real)
    ensures InclusiveFilter(a + b, lo, hi) == InclusiveFilter(a, lo, hi) + InclusiveFilter(b, lo, hi)
  {
    if a == [] {
      assert a + b == b;
    } else {
      assert (a + b)[0] == a[0];
      assert (a + b)[1..] == a[1..] + b;
      InclusiveFilterAppend(a[1..], b, lo, hi);
    }
  }

  /** The inputs `PITAD.evaluate` hands to `anderson_ksamp`, and the notice it prints. */
  datatype AdInput = AdInput(clean: seq<real>, removed: nat, notice: Option<nat>, reference: seq<real>)

  /**
   * Lines 154-160 of `PITAD.evaluate`: the kept values, how many were removed, the printed
   * count when some were, and the reference sample spread evenly over [pitMin, pitMax].
   */
  function AdPrefilter(pits: seq<real>, pitMin: real, pitMax: real): (r: AdInput)
    ensures r.clean == InclusiveFilter(pits, pitMin, pitMax)
    ensures r.removed + |r.clean| == |pits|
    ensures r.notice.Some? <==> r.removed > 0
    ensures r.notice.Some? ==> r.notice.value == r.removed
    ensures |r.reference| == |r.clean|
    ensures |r.clean| >= 1 ==> r.reference[0] == pitMin
    ensures |r.clean| >= 2 ==> r.reference[|r.clean| - 1] == pitMax
    ensures |r.clean| >= 2 ==> forall k :: 0 <= k < |r.clean| - 1 ==>
              r.reference[k + 1] - r.reference[k] == (pitMax - pitMin) / (|r.clean| - 1) as real
  {
    var clean := InclusiveFilter(pits, pitMin, pitMax);
    var diff := |pits| - |clean|;
    AdInput(clean, diff, if diff > 0 then Some(diff) else None, LinSpace(pitMin, pitMax, |clean|))
  }

  /** The keyword arguments `evaluate` accepts: its arguments after `self`. */
  function Params(cls: MetricClass): set<string> {
    set a | a in Signature(cls).args[1..]
  }

  /** `kwargs[name]` when the caller passed it, else the declared default. */
  function KwargOr(kwargs: Kwargs, name: string, default: real): real {
    if name in kwargs then kwargs[name] else default
  }

  /**
   * `cls(pit).evaluate(**kwargs)`. A keyword that is not one of the method's arguments raises
   * TypeError; the scipy tests stay symbolic.
   */
  function EvaluateMetric(cls: MetricClass, pit: PitDist, kwargs: Kwargs): (r: Result<MetricValue, Exception>)
    ensures r.Err? <==> !(kwargs.Keys <= Params(cls))
    ensures r.Err? ==> r.error.TypeError?
    ensures (cls == PitKs || cls == PitCvm) && r.Ok? ==> kwargs == map[]
  {
    if !(kwargs.Keys <= Params(cls)) then Err(TypeError("evaluate() got an unexpected keyword argument"))
    else match cls
      case PitOutRate =>
        Ok(Fraction(OutRate(pit.cdf, KwargOr(kwargs, "pit_min", 0.0), KwargOr(kwargs, "pit_max", 1.0))))
      case PitKs => Ok(StatPval(KsTest(pit.samples)))
      case PitCvm => Ok(StatPval(CvmTest(pit.samples)))
      case PitAd =>
        var ad := AdPrefilter(pit.samples, KwargOr(kwargs, "pit_min", 0.0), KwargOr(kwargs, "pit_max", 1.0));
        Ok(StatCritSig(AndersonKsamp(ad.clean, ad.reference)))
  }

  /** Evaluating a class with its registered `"default"` options is evaluating it with no options. */
  lemma RegisteredDefaultsAreDefaults(cls: MetricClass, pit: PitDist)
    requires cls in ModuleRegistry()
    ensures "default" in ModuleRegistry()[cls]
    ensures EvaluateMetric(cls, pit, ModuleRegistry()[cls]["default"]) == EvaluateMetric(cls, pit, map[])
    ensures EvaluateMetric(cls, pit, map[]).Ok?
  {
    ModuleRegistryContents();
    RegisteredSlot(cls);
    UnitIntervalIsNoOptions(cls, pit);
  }

  /** Each class in the registry as the module leaves it is one of the two, with the unit interval as its defaults. */
  lemma RegisteredSlot(cls: MetricClass)
    requires cls in Registered
    ensures cls == PitOutRate || cls == PitAd
    ensures "default" in Registered[cls] && Registered[cls]["default"] == UnitInterval
  {
  }

  /** Passing `pit_min=0, pit_max=1` explicitly changes nothing: they are the declared defaults. */
  lemma UnitIntervalIsNoOptions(cls: MetricClass, pit: PitDist)
    requires cls == PitOutRate || cls == PitAd
    ensures EvaluateMetric(cls, pit, UnitInterval) == EvaluateMetric(cls, pit, map[])
    ensures EvaluateMetric(cls, pit, map[]).Ok?
  {
    UnitIntervalParams(cls);
    assert UnitInterval.Keys <= Params(cls);
    assert KwargOr(UnitInterval, "pit_min", 0.0) == 0.0 == KwargOr(map[], "pit_min", 0.0);
    assert KwargOr(UnitInterval, "pit_max", 1.0) == 1.0 == KwargOr(map[], "pit_max", 1.0);
  }

  /** Both bounds are keyword arguments of `PITOutRate.evaluate` and `PITAD.evaluate`. */
  lemma UnitIntervalParams(cls: MetricClass)
    requires cls == PitOutRate || cls == PitAd
    ensures "pit_min" in Params(cls) && "pit_max" in Params(cls)
  {
    assert Signature(cls).args[1..] == ["pit_min", "pit_max"];
  }

  // ---------------------------------------------------------------- the fan-out

  /** Every (class, option-set) pair evaluates without raising. */
  ghost predicate AllSucceed(opts: Options, pit: PitDist) {
    forall c, n :: c in opts && n in opts[c] ==> EvaluateMetric(c, pit, opts[c][n]).Ok?
  }

  /** `e` is what evaluating some (class, option-set) pair of `opts` raises. */
  ghost predicate Raises(opts: Options, pit: PitDist, e: Exception) {
    exists c, n :: c in opts && n in opts[c] && EvaluateMetric(c, pit, opts[c][n]) == Err(e)
  }

  /**
   * `m` holds a result for the pairs (c, n) with c in `done`, and for the names `curDone` of
   * class `cur`, and for no other pair; each is that pair's evaluation.
   */
  ghost predicate FannedOut(opts: Options, pit: PitDist, m: map<(MetricClass, string), MetricValue>,
                            done: set<MetricClass>, cur: MetricClass, curDone: set<string>)
  {
    (forall c, n :: (c, n) in m <==> c in opts && n in opts[c] && (c in done || (c == cur && n in curDone)))
    && (forall c, n :: (c, n) in m ==> c in opts && n in opts[c] && Ok(m[(c, n)]) == EvaluateMetric(c, pit, opts[c][n]))
  }

  /** `m` has one entry per (class, option-set) pair of `opts`, holding that pair's evaluation. */
  ghost predicate IsFanOut(opts: Options, pit: PitDist, m: map<(MetricClass, string), MetricValue>) {
    (forall c, n :: (c, n) in m <==> c in opts && n in opts[c])
    && (forall c, n :: (c, n) in m ==> Ok(m[(c, n)]) == EvaluateMetric(c, pit, opts[c][n]))
  }

  /**
   * The nested loop of `PIT.evaluate`: `meta = cls(pit)` for every class, then
   * `metamets[(cls, name)] = meta.evaluate(**kwargs)` for every option set of that class. The
   * first evaluation that raises ends the loop with its exception.
   */
  method FanOut(pit: PitDist, opts: Options) returns (r: Result<map<(MetricClass, string), MetricValue>, Exception>)
    ensures r.Ok? <==> AllSucceed(opts, pit)
    ensures r.Err? ==> Raises(opts, pit, r.error)
    ensures r.Ok? ==> IsFanOut(opts, pit, r.value)
  {
    var metamets: map<(MetricClass, string), MetricValue> := map[];
    var pending := opts.Keys;
    while pending != {}
      invariant pending <= opts.Keys
      invariant FannedOut(opts, pit, metamets, opts.Keys - pending, PitOutRate, {})
      decreases pending
    {
      var cls :| cls in pending;
      var names := opts[cls].Keys;
      while names != {}
        invariant names <= opts[cls].Keys
        invariant FannedOut(opts, pit, metamets, opts.Keys - pending, cls, opts[cls].Keys - names)
        decreases names
      {
        var name :| name in names;
        var out := EvaluateMetric(cls, pit, opts[cls][name]);
        if out.Err? {
          return Err(out.error);
        }
        metamets := metamets[(cls, name) := out.value];
        names := names - {name};
      }
      pending := pending - {cls};
    }
    return Ok(metamets);
  }

  /** Every option set in the module's registry evaluates without raising. */
  lemma DefaultRegistrySucceeds(pit: PitDist)
    ensures AllSucceed(ModuleRegistry(), pit)
  {
    forall c, n | c in ModuleRegistry() && n in ModuleRegistry()[c]
      ensures EvaluateMetric(c, pit, ModuleRegistry()[c][n]).Ok?
    {
      RegistryPairs(c, n);
      RegisteredDefaultsAreDefaults(c, pit);
    }
  }

  /**
   * Fanning out over the module's registry yields exactly the two pairs
   * `(PITOutRate, "default")` and `(PITAD, "default")`, each evaluated with its declared defaults.
   */
  lemma DefaultRegistryFanOut(pit: PitDist, m: map<(MetricClass, string), MetricValue>)
    requires IsFanOut(ModuleRegistry(), pit, m)
    ensures m.Keys == {(PitOutRate, "default"), (PitAd, "default")}
    ensures Ok(m[(PitOutRate, "default")]) == EvaluateMetric(PitOutRate, pit, map[])
    ensures Ok(m[(PitAd, "default")]) == EvaluateMetric(PitAd, pit, map[])
  {
    forall c, n ensures (c in ModuleRegistry() && n in ModuleRegistry()[c]) <==> (c, n) in {(PitOutRate, "default"), (PitAd, "default")} {
      RegistryPairs(c, n);
    }
    FanOutKeys(ModuleRegistry(), pit, m, {(PitOutRate, "default"), (PitAd, "default")});
    DefaultFanOutEntry(pit, m, PitOutRate);
    DefaultFanOutEntry(pit, m, PitAd);
  }

  /** A fan-out has exactly the registry's (class, option-set name) pairs as its keys. */
  lemma FanOutKeys(opts: Options, pit: PitDist, m: map<(MetricClass, string), MetricValue>,
                   pairs: set<(MetricClass, string)>)
    requires IsFanOut(opts, pit, m)
    requires forall c, n :: (c in opts && n in opts[c]) <==> (c, n) in pairs
    ensures m.Keys == pairs
  {
    forall key | key in m
      ensures key in pairs
    {
      assert (key.0, key.1) in m;
    }
    forall key | key in pairs
      ensures key in m
    {
      assert (key.0, key.1) in pairs;
    }
  }

  /** The (class, option-set name) pairs of the module's registry. */
  lemma RegistryPairs(c: MetricClass, n: string)
    ensures c in ModuleRegistry() && n in ModuleRegistry()[c] <==> (c == PitOutRate || c == PitAd) && n == "default"
  {
    ModuleRegistryContents();
    RegisteredPairs(c, n);
  }

  /** The pairs of the registry as the module leaves it. */
  lemma RegisteredPairs(c: MetricClass, n: string)
    ensures c in Registered && n in Registered[c] <==> (c == PitOutRate || c == PitAd) && n == "default"
  {
    if c in Registered {
      assert Registered[c] == map["default" := UnitInterval];
    }
  }

  /** The fan-out's entry for a registered class is its evaluation with the declared defaults. */
  lemma DefaultFanOutEntry(pit: PitDist, m: map<(MetricClass, string), MetricValue>, cls: MetricClass)
    requires IsFanOut(ModuleRegistry(), pit, m)
    requires cls == PitOutRate || cls == PitAd
    ensures (cls, "default") in m && Ok(m[(cls, "default")]) == EvaluateMetric(cls, pit, map[])
  {
    ModuleRegistryContents();
    RegisteredDefaultsAreDefaults(cls, pit);
  }

  /** The PIT evaluator: the ensemble, the true redshifts and the PIT value of each object. */
  class Pit {
    const cdfs: seq<real -> real>
    const ztrue: seq<real>
    const pitSamps: seq<real>

    constructor (cdfs: seq<real -> real>, ztrue: seq<real>)
      requires |ztrue| <= |cdfs|
      ensures this.cdfs == cdfs && this.ztrue == ztrue
      ensures PitValues(cdfs, ztrue) == Ok(pitSamps)
    {
      this.cdfs := cdfs;
      this.ztrue := ztrue;
      pitSamps := PitValues(cdfs, ztrue).value;
    }

    /** `PIT(qp_ens, ztrue)`, which raises IndexError when `ztrue` outnumbers the ensemble. */
    static method New(cdfs: seq<real -> real>, ztrue: seq<real>) returns (r: Result<Pit, Exception>)
      ensures r.Err? <==> |ztrue| > |cdfs|
      ensures r.Err? ==> r.error == IndexError
      ensures r.Ok? ==> fresh(r.value) && r.value.cdfs == cdfs && r.value.ztrue == ztrue
      ensures r.Ok? ==> PitValues(cdfs, ztrue) == Ok(r.value.pitSamps)
    {
      if |ztrue| > |cdfs| {
        return Err(IndexError);
      }
      var p := new Pit(cdfs, ztrue);
      return Ok(p);
    }

    /**
     * `evaluate(eval_grid, meta_options)`, with the spline fitted over `eval_grid` given as
     * `fitted` and the PIT values attached as its samples. Without options, `metamets` is
     * never bound and the return raises UnboundLocalError.
     */
    method Evaluate(fitted: real -> real, metaOptions: Option<Options>)
      returns (r: Result<(PitDist, map<(MetricClass, string), MetricValue>), Exception>)
      ensures metaOptions.None? ==> r == Err(UnboundLocalError("metamets"))
      ensures metaOptions.Some? ==> (r.Ok? <==> AllSucceed(metaOptions.value, PitDist(fitted, pitSamps)))
      ensures metaOptions.Some? && r.Err? ==> Raises(metaOptions.value, PitDist(fitted, pitSamps), r.error)
      ensures r.Ok? ==> r.value.0 == PitDist(fitted, pitSamps) && IsFanOut(metaOptions.value, r.value.0, r.value.1)
    {
      var pit := PitDist(fitted, pitSamps);
      if metaOptions.None? {
        return Err(UnboundLocalError("metamets"));
      }
      var metamets := FanOut(pit, metaOptions.value);
      if metamets.Err? {
        return Err(metamets.error);
      }
      return Ok((pit, metamets.value));
    }

    /**
     * `evaluate()` with the default `meta_options`: the module's registry dictionary itself,
     * as the decorators have filled it by the time the module is imported.
     */
    method EvaluateDefault(fitted: real -> real)
      returns (r: Result<(PitDist, map<(MetricClass, string), MetricValue>), Exception>)
      ensures r.Ok? && r.value.0 == PitDist(fitted, pitSamps)
      ensures r.value.1.Keys == {(PitOutRate, "default"), (PitAd, "default")}
      ensures Ok(r.value.1[(PitOutRate, "default")]) == EvaluateMetric(PitOutRate, r.value.0, map[])
      ensures Ok(r.value.1[(PitAd, "default")]) == EvaluateMetric(PitAd, r.value.0, map[])
    {
      DefaultRegistrySucceeds(PitDist(fitted, pitSamps));
      r := Evaluate(fitted, Some(ModuleRegistry()));
      DefaultRegistryFanOut(r.value.0, r.value.1);
    }

    /**
     * `evaluate` with `metamets = {}` bound before the `if`: without options it returns the
     * fitted PIT and no meta-metrics instead of raising.
     */
    method EvaluateInitialised(fitted: real -> real, metaOptions: Option<Options>)
      returns (r: Result<(PitDist, map<(MetricClass, string), MetricValue>), Exception>)
      ensures metaOptions.None? ==> r == Ok((PitDist(fitted, pitSamps), map[]))
      ensures metaOptions.Some? ==> (r.Ok? <==> AllSucceed(metaOptions.value, PitDist(fitted, pitSamps)))
      ensures metaOptions.Some? && r.Err? ==> Raises(metaOptions.value, PitDist(fitted, pitSamps), r.error)
      ensures r.Ok? ==> r.value.0 == PitDist(fitted, pitSamps)
      ensures r.Ok? && metaOptions.Some? ==> IsFanOut(metaOptions.value, r.value.0, r.value.1)
      ensures r.Err? ==> !r.error.UnboundLocalError?
    {
      var pit := PitDist(fitted, pitSamps);
      if metaOptions.None? {
        return Ok((pit, map[]));
      }
      var metamets := FanOut(pit, metaOptions.value);
      if metamets.Err? {
        return Err(metamets.error);
      }
      return Ok((pit, metamets.value));
    }
  }
}
