/**
 The estimator object: it holds the configuration, the truncation interval, the current
 sampled values and the trace, and extends the chain draw by draw.

 The update kernel that moves the sampled values is not part of this model; its outcome is
 an input. A draw receives the values the kernel leaves (`next`), and a run of `Sample`
 receives one such state per draw (`sweeps`), in order.
 */
module Sampler {
  import opened Results
  import opened Params
  import opened Traces
  import opened Setup

  /** The number of draws `Sample` performs: the loop runs while the countdown is positive. */
  function DrawCount(ndraws: int): (r: nat)
    ensures r >= ndraws && (r == 0 || r == ndraws)
  {
    if ndraws > 0 then ndraws else 0
  }

  /** The state after the draws leaving `sweeps`, starting from `p`. */
  function LastState(p: Params, sweeps: seq<Params>): Params
  {
    if sweeps == [] then p else sweeps[|sweeps| - 1]
  }

  /**
   The configuration fields the update kernel leaves alone: it may move the acceptance
   counters, the proposal scale and the adaptation flag, but not these.
   */
  predicate KernelKeeps(c0: Configs, c1: Configs)
  {
    && c1.truncate == c0.truncate
    && c1.rho.arLow == c0.rho.arLow && c1.rho.arHi == c0.rho.arHi
    && c1.rho.proposal == c0.rho.proposal && c1.rho.adaptStep == c0.rho.adaptStep
    && c1.rho.maxAdapt == c0.rho.maxAdapt
  }

  class BaseHSDM {
    const dims: Dims
    const tracedParams: seq<Param> := SAMPLERS
    var configs: Configs
    var rhoMin: real
    var rhoMax: real
    var params: Params
    var trace: Trace
    var cycles: int

    /** The trace has a list for every traced parameter, or none at all after a pop. */
    predicate Valid()
      reads this
    {
      FullOrEmpty(trace)
    }

    /**
     Builds the estimator and takes `nSamples` draws: the trace starts with an empty list
     per traced parameter and ends with one entry per draw in each. The configuration is
     `MakeConfigs(options)` before the draws; afterwards only the fields the kernel leaves
     alone are known.
     */
    constructor (dims: Dims, emin: real, emax: real, options: Options, nSamples: int, sweeps: seq<Params>)
      requires emin != 0.0 && emax != 0.0 && dims.J != 1
      requires |sweeps| == DrawCount(nSamples)
      ensures Valid()
      ensures this.dims == dims
      ensures KernelKeeps(MakeConfigs(options), configs)
      ensures TruncationBounds(emin, emax) == Success(Bounds(rhoMin, rhoMax))
      ensures params == LastState(InitialValues(dims).value, sweeps)
      ensures trace == RecordAll(EmptyTrace(SAMPLERS), sweeps)
      ensures forall n: Param :: n in trace && trace[n] == Column(sweeps, n)
      ensures nSamples <= 0 ==> configs == MakeConfigs(options) && cycles == 0
    {
      this.dims := dims;
      trace := EmptyTrace(SAMPLERS);
      new;
      SetupConfigs(options);
      SetupTruncation(emin, emax);
      SetupInitialValues();
      cycles := 0;
      SamplersCoverAllParams();
      assert AllPresent(trace, SAMPLERS);
      var popped := Sample(nSamples, false, sweeps);
      ConstructedTrace(sweeps);
    }

    /** Stores the configuration built from `options`; nothing else changes. */
    method SetupConfigs(options: Options)
      modifies this`configs
      ensures configs == MakeConfigs(options)
    {
      configs := MakeConfigs(options);
    }

    /**
     Sets the interval of the spatial parameter from the eigenvalue range of M, whatever
     `configs.truncate` says.
     */
    method SetupTruncation(emin: real, emax: real)
      requires emin != 0.0 && emax != 0.0
      modifies this`rhoMin, this`rhoMax
      ensures TruncationBounds(emin, emax) == Success(Bounds(rhoMin, rhoMax))
    {
      var bounds := TruncationBounds(emin, emax).value;
      rhoMin, rhoMax := bounds.rhoMin, bounds.rhoMax;
    }

    /** Sets the deterministic starting values. */
    method SetupInitialValues()
      requires dims.J != 1
      modifies this`params
      ensures InitialValues(dims) == Success(params)
    {
      params := InitialValues(dims).value;
    }

    /**
     One sweep of the update kernel: the sampled values become `next`; the kernel may also
     move its Metropolis bookkeeping and the cycle count, but nothing else.
     */
    method Advance(next: Params)
      modifies this`params, this`configs, this`cycles
      ensures params == next
      ensures KernelKeeps(old(configs), configs)
    {
      params := next;
    }

    /**
     One draw: the kernel moves the sampled values to `next`, then each traced parameter's
     new value is appended to its list, in order. A traced name with no list stops the
     draw (and is returned); the appends made before it stay.
     */
    method Draw(next: Params) returns (missing: Option<Param>)
      requires Valid()
      modifies this`params, this`configs, this`cycles, this`trace
      ensures Valid()
      ensures params == next
      ensures KernelKeeps(old(configs), configs)
      ensures missing == FirstMissing(old(trace), tracedParams)
      ensures trace == Record(old(trace), tracedParams, next)
      ensures missing.Some? ==> trace == old(trace) == map[]
    {
      RecordKeepsFullOrEmpty(trace, next);
      Advance(next);
      ghost var t0 := trace;
      var i := 0;
      while i < |tracedParams|
        invariant 0 <= i <= |tracedParams|
        invariant params == next && KernelKeeps(old(configs), configs) && trace.Keys == t0.Keys
        invariant FirstMissing(t0, tracedParams[i..]) == FirstMissing(t0, tracedParams)
        invariant Record(trace, tracedParams[i..], next) == Record(t0, tracedParams, next)
      {
        var name := tracedParams[i];
        if name !in trace {
          return Some(name);
        }
        assert tracedParams[i..][1..] == tracedParams[i + 1..];
        trace := trace[name := trace[name] + [Snapshot(params, name)]];
        i := i + 1;
      }
      missing := None;
    }

    /**
     Takes `ndraws` draws (none when `ndraws` is not positive). With `pop`, the accumulated
     trace is returned and the live trace is left with no lists at all; otherwise nothing is
     returned and the trace is kept. When the trace lacks a list for a traced parameter, the
     first draw fails and nothing is popped.
     */
    method Sample(ndraws: int, pop: bool, sweeps: seq<Params>) returns (r: Result<Option<Trace>, Error>)
      requires Valid()
      requires |sweeps| == DrawCount(ndraws)
      modifies this`params, this`configs, this`cycles, this`trace
      ensures Valid()
      ensures KernelKeeps(old(configs), configs)
      ensures sweeps == [] ==> configs == old(configs) && cycles == old(cycles)
      ensures sweeps != [] && !AllPresent(old(trace), tracedParams) ==>
        && r == Failure(MissingTraceKey(FirstMissing(old(trace), tracedParams).value))
        && params == sweeps[0]
        && trace == old(trace) == map[]
      ensures sweeps == [] || AllPresent(old(trace), tracedParams) ==>
        && params == LastState(old(params), sweeps)
        && (forall n :: n in old(trace) ==>
              |RecordAll(old(trace), sweeps)[n]| == |old(trace)[n]| + DrawCount(ndraws))
        && if pop then r == Success(Some(RecordAll(old(trace), sweeps))) && trace == map[]
           else r == Success(None) && trace == RecordAll(old(trace), sweeps)
    {
      ghost var t0 := trace;
      ghost var p0 := params;
      var left := ndraws;
      var k := 0;
      while left > 0
        invariant 0 <= k <= |sweeps| && k == |sweeps| - DrawCount(left)
        invariant params == LastState(p0, sweeps[..k])
        invariant trace == RecordAll(t0, sweeps[..k])
        invariant KernelKeeps(old(configs), configs)
        invariant k == 0 ==> configs == old(configs) && cycles == old(cycles)
        invariant FullOrEmpty(trace)
        invariant k > 0 ==> AllPresent(t0, tracedParams)
      {
        var missing := Draw(sweeps[k]);
        if missing.Some? {
          assert k == 0;
          return Failure(MissingTraceKey(missing.value));
        }
        assert sweeps[..k + 1][..k] == sweeps[..k];
        left := left - 1;
        k := k + 1;
      }
      assert sweeps[..k] == sweeps;
      if AllPresent(t0, tracedParams) {
        RecordAllAppendsColumns(t0, sweeps);
      }
      if pop {
        r := Success(Some(trace));
        trace := map[];
      } else {
        r := Success(None);
      }
    }
  }

  /** A fresh trace after the draws leaving `sweeps` holds exactly their values, one list per parameter. */
  lemma ConstructedTrace(sweeps: seq<Params>)
    ensures forall n: Param :: n in RecordAll(EmptyTrace(SAMPLERS), sweeps)
    ensures forall n: Param :: RecordAll(EmptyTrace(SAMPLERS), sweeps)[n] == Column(sweeps, n)
  {
    SamplersCoverAllParams();
    var t := EmptyTrace(SAMPLERS);
    assert AllPresent(t, SAMPLERS);
    RecordAllAppendsColumns(t, sweeps);
  }

  /**
   Construction as the estimator does it: the truncation interval is computed before the
   starting values, so a zero eigenvalue is reported before a single group.
   */
  method NewBaseHSDM(dims: Dims, emin: real, emax: real, options: Options, nSamples: int, sweeps: seq<Params>)
    returns (r: Result<BaseHSDM, Error>)
    requires |sweeps| == DrawCount(nSamples)
    ensures TruncationBounds(emin, emax).Failure? ==> r == Failure(ZeroEigenvalue)
    ensures TruncationBounds(emin, emax).Success? && dims.J == 1 ==> r == Failure(ZeroDivision)
    ensures r.Success? <==> TruncationBounds(emin, emax).Success? && dims.J != 1
    ensures r.Success? ==>
      && fresh(r.value)
      && r.value.dims == dims
      && r.value.Valid()
      && KernelKeeps(MakeConfigs(options), r.value.configs)
      && TruncationBounds(emin, emax) == Success(Bounds(r.value.rhoMin, r.value.rhoMax))
      && r.value.params == LastState(InitialValues(dims).value, sweeps)
      && r.value.trace == RecordAll(EmptyTrace(SAMPLERS), sweeps)
      && (forall n: Param :: n in r.value.trace && r.value.trace[n] == Column(sweeps, n))
      && (nSamples <= 0 ==> r.value.configs == MakeConfigs(options) && r.value.cycles == 0)
  {
    if TruncationBounds(emin, emax).Failure? {
      return Failure(ZeroEigenvalue);
    }
    if InitialValues(dims).Failure? {
      return Failure(ZeroDivision);
    }
    var m := new BaseHSDM(dims, emin, emax, options, nSamples, sweeps);
    r := Success(m);
  }

  /**
   The validating front end: X must have as many rows as W has units; then the estimator is
   built with N from X, J from M and p, q from the covariates.
   */
  method NewHSDM(xRows: nat, p: nat, wUnits: nat, mUnits: nat, q: nat,
                 emin: real, emax: real, options: Options, nSamples: int, sweeps: seq<Params>)
    returns (r: Result<BaseHSDM, Error>)
    requires |sweeps| == DrawCount(nSamples)
    ensures xRows != wUnits ==> r == Failure(ObservationCountMismatch(xRows, wUnits))
    ensures xRows == wUnits && TruncationBounds(emin, emax).Failure? ==> r == Failure(ZeroEigenvalue)
    ensures xRows == wUnits && TruncationBounds(emin, emax).Success? && mUnits == 1 ==>
      r == Failure(ZeroDivision)
    ensures r.Success? <==> xRows == wUnits && TruncationBounds(emin, emax).Success? && mUnits != 1
    ensures r.Success? ==>
      && fresh(r.value)
      && r.value.dims == Dims(xRows, mUnits, p, q)
      && r.value.Valid()
      && KernelKeeps(MakeConfigs(options), r.value.configs)
      && TruncationBounds(emin, emax) == Success(Bounds(r.value.rhoMin, r.value.rhoMax))
      && r.value.params == LastState(InitialValues(Dims(xRows, mUnits, p, q)).value, sweeps)
      && r.value.trace == RecordAll(EmptyTrace(SAMPLERS), sweeps)
      && (forall n: Param :: n in r.value.trace && r.value.trace[n] == Column(sweeps, n))
      && (nSamples <= 0 ==> r.value.configs == MakeConfigs(options) && r.value.cycles == 0)
  {
    var checked := CheckObservations(xRows, wUnits);
    if checked.Failure? {
      return Failure(checked.error);
    }
    r := NewBaseHSDM(Dims(xRows, mUnits, p, q), emin, emax, options, nSamples, sweeps);
  }
}
