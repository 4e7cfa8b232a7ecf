/**
 The setup rules of the estimator: its configuration, the truncation of the spatial
 parameter, the deterministic starting values and the construction-time dimension check.
 Floating-point numbers are modelled as reals.
 */
module Setup {
  import opened Results
  import opened Params

  /** How the domain of the spatial parameter is to be chosen. */
  datatype Truncation = Eigs | Stable | Interval(low: real, high: real)

  /** The random-walk proposal distribution of the spatial parameter. */
  datatype Proposal = StandardNormal | UserProposal(name: string)

  /** The configuration keywords accepted at construction, with their defaults. */
  datatype Options = Options(
    truncate: Truncation := Eigs,
    tuning: int := 0,
    rhoJump: real := 0.5,
    rhoArLow: real := 0.4,
    rhoArHi: real := 0.6,
    rhoProposal: Proposal := StandardNormal,
    rhoAdaptStep: real := 1.01)

  /** Control of the Metropolis step for the spatial parameter. */
  datatype RhoControl = RhoControl(
    jump: real,
    arLow: real,
    arHi: real,
    proposal: Proposal,
    adaptStep: real,
    rejected: nat,
    accepted: nat,
    maxAdapt: int,
    adapt: bool)

  datatype Configs = Configs(truncate: Truncation, rho: RhoControl)

  /** The admissible interval of the spatial parameter. */
  datatype Bounds = Bounds(rhoMin: real, rhoMax: real)

  /**
   The configuration built from the options: every option is kept, the acceptance counters
   start at zero, at most `tuning` adaptation cycles are allowed, and adaptation is on
   exactly when `tuning` is positive.
   */
  function MakeConfigs(o: Options): (c: Configs)
    ensures c.truncate == o.truncate
    ensures c.rho.jump == o.rhoJump && c.rho.arLow == o.rhoArLow && c.rho.arHi == o.rhoArHi
    ensures c.rho.proposal == o.rhoProposal && c.rho.adaptStep == o.rhoAdaptStep
    ensures c.rho.accepted == 0 && c.rho.rejected == 0
    ensures c.rho.maxAdapt == o.tuning
    ensures c.rho.adapt <==> o.tuning > 0
  {
    Configs(o.truncate,
      RhoControl(o.rhoJump, o.rhoArLow, o.rhoArHi, o.rhoProposal, o.rhoAdaptStep,
        0, 0, o.tuning, if o.tuning > 0 then true else false))
  }

  /** With no options given, the spatial parameter starts with the default corridor and no adaptation. */
  lemma DefaultConfigs()
    ensures MakeConfigs(Options()).truncate == Eigs
    ensures MakeConfigs(Options()).rho ==
      RhoControl(0.5, 0.4, 0.6, StandardNormal, 1.01, 0, 0, 0, false)
  {
  }

  /**
   The domain of the spatial parameter from the extremal eigenvalues of M: the reciprocal of
   each, failing when either is zero. The truncation option is not consulted.
   */
  function TruncationBounds(emin: real, emax: real): (r: Result<Bounds, Error>)
    ensures r.Success? <==> emin != 0.0 && emax != 0.0
    ensures r.Success? ==> r.value.rhoMin * emin == 1.0 && r.value.rhoMax * emax == 1.0
    ensures r.Failure? ==> r.error == ZeroEigenvalue
  {
    if emin == 0.0 || emax == 0.0 then Failure(ZeroEigenvalue)
    else Success(Bounds(1.0 / emin, 1.0 / emax))
  }

  /** A negative smallest and a positive largest eigenvalue give an interval around zero. */
  lemma BoundsStraddleZero(emin: real, emax: real)
    requires emin < 0.0 < emax
    ensures TruncationBounds(emin, emax).Success?
    ensures TruncationBounds(emin, emax).value.rhoMin < 0.0 < TruncationBounds(emin, emax).value.rhoMax
  {
  }

  function Zeros(n: nat): (z: seq<real>)
    ensures |z| == n && forall i :: 0 <= i < n ==> z[i] == 0.0
  {
    seq(n, _ => 0.0)
  }

  /**
   The starting state: zero coefficient and random-effect vectors of the data's dimensions,
   both variances 2, and the spatial parameter -1/(J-1), which fails for a single group.
   */
  function InitialValues(d: Dims): (r: Result<Params, Error>)
    ensures r.Success? <==> d.J != 1
    ensures r.Failure? ==> r.error == ZeroDivision
    ensures r.Success? ==>
      && |r.value.betas| == d.p && (forall i :: 0 <= i < d.p ==> r.value.betas[i] == 0.0)
      && |r.value.gammas| == d.q && (forall i :: 0 <= i < d.q ==> r.value.gammas[i] == 0.0)
      && |r.value.alphas| == d.J && (forall i :: 0 <= i < d.J ==> r.value.alphas[i] == 0.0)
      && r.value.sigma2 == 2.0 && r.value.tau2 == 2.0
      && r.value.rho * ((d.J - 1) as real) == -1.0
  {
    if d.J == 1 then Failure(ZeroDivision)
    else Success(Params(Zeros(d.J), Zeros(d.p), 2.0, 2.0, Zeros(d.q), -1.0 / ((d.J - 1) as real)))
  }

  /**
   For a row-standardised M (largest eigenvalue 1, smallest in [-1, 0)) with more than two
   groups, the starting spatial parameter lies strictly inside the truncation interval.
   */
  lemma StartInsideBounds(d: Dims, emin: real)
    requires d.J > 2 && -1.0 <= emin < 0.0
    ensures InitialValues(d).Success? && TruncationBounds(emin, 1.0).Success?
    ensures TruncationBounds(emin, 1.0).value.rhoMin < InitialValues(d).value.rho
    ensures InitialValues(d).value.rho < TruncationBounds(emin, 1.0).value.rhoMax
  {
    var rho := InitialValues(d).value.rho;
    var lo := TruncationBounds(emin, 1.0).value.rhoMin;
    var k := (d.J - 1) as real;
    assert k > 1.0;
    assert rho * k == -1.0;
    assert rho > -1.0;
    assert lo * emin == 1.0;
    assert lo <= -1.0;
  }

  /**
   With two groups and smallest eigenvalue -1 (any two-unit row-standardised M), the starting
   spatial parameter sits on the lower end of the interval, not inside it.
   */
  lemma StartOnLowerBoundForTwoGroups(d: Dims)
    requires d.J == 2
    ensures InitialValues(d).Success? && TruncationBounds(-1.0, 1.0).Success?
    ensures InitialValues(d).value.rho == TruncationBounds(-1.0, 1.0).value.rhoMin
  {
  }

  /** The construction check: as many rows of X as W has units, otherwise an error naming both. */
  function CheckObservations(xRows: nat, wUnits: nat): (r: Result<(), Error>)
    ensures r.Success? <==> xRows == wUnits
    ensures r.Failure? ==> r.error == ObservationCountMismatch(xRows, wUnits)
  {
    if xRows == wUnits then Success(()) else Failure(ObservationCountMismatch(xRows, wUnits))
  }
}
