/** Result and option wrappers shared by the model, and the error kinds of the estimator. */
module Results {
  import opened Params

  datatype Option<+T> = None | Some(value: T)

  datatype Result<+T, +E> = Success(value: T) | Failure(error: E)

  /** The ways construction or sampling fails. */
  datatype Error =
    | ObservationCountMismatch(xRows: nat, wUnits: nat)  // rows of X differ from the units of W
    | ZeroEigenvalue                                     // 1/e with an extremal eigenvalue of M equal to 0
    | ZeroDivision                                       // -1/(J-1) with J == 1
    | MissingTraceKey(name: Param)                       // a draw found no list for a traced name
}

/**
 The sampled state of the estimator: the six traced parameters, the values recorded for
 them, and the dimensions of the data.
 */
module Params {

  /** The traced parameters, in the order in which a draw records them. */
  datatype Param = Alphas | Betas | Sigma2 | Tau2 | Gammas | Rho

  /** The list of traced parameter names every estimator starts with. */
  const SAMPLERS: seq<Param> := [Alphas, Betas, Sigma2, Tau2, Gammas, Rho]

  /** A recorded value: a column vector of coefficients or a scalar. */
  datatype Value = Vector(entries: seq<real>) | Scalar(x: real)

  /** Current values of the sampled quantities. */
  datatype Params = Params(
    alphas: seq<real>,   // group random effects, J x 1
    betas: seq<real>,    // lower-level coefficients, p x 1
    sigma2: real,        // lower-level variance
    tau2: real,          // upper-level variance
    gammas: seq<real>,   // upper-level coefficients, q x 1
    rho: real)           // spatial dependence of the upper level

  /** Data dimensions: N units, J groups, p lower-level and q upper-level covariates. */
  datatype Dims = Dims(N: nat, J: nat, p: nat, q: nat)

  /** The value of parameter `n` in state `p`, as a draw appends it to the trace. */
  function Snapshot(p: Params, n: Param): (v: Value)
    ensures v.Vector? <==> n == Alphas || n == Betas || n == Gammas
  {
    match n
    case Alphas => Vector(p.alphas)
    case Betas => Vector(p.betas)
    case Sigma2 => Scalar(p.sigma2)
    case Tau2 => Scalar(p.tau2)
    case Gammas => Vector(p.gammas)
    case Rho => Scalar(p.rho)
  }

  /**
   The six recorded values determine the sampled state: states with the same values for
   every traced parameter are the same state, so the trace loses nothing of it.
   */
  lemma SnapshotsDetermineState(p: Params, q: Params)
    requires forall n: Param :: Snapshot(p, n) == Snapshot(q, n)
    ensures p == q
  {
    assert Snapshot(p, Alphas) == Snapshot(q, Alphas);
    assert Snapshot(p, Betas) == Snapshot(q, Betas);
    assert Snapshot(p, Sigma2) == Snapshot(q, Sigma2);
    assert Snapshot(p, Tau2) == Snapshot(q, Tau2);
    assert Snapshot(p, Gammas) == Snapshot(q, Gammas);
    assert Snapshot(p, Rho) == Snapshot(q, Rho);
  }

  predicate Distinct(names: seq<Param>)
  {
    forall i, j :: 0 <= i < j < |names| ==> names[i] != names[j]
  }

  /** Every parameter is traced, and each exactly once. */
  lemma SamplersCoverAllParams()
    ensures Distinct(SAMPLERS)
    ensures forall n: Param :: n in SAMPLERS
  {
    forall n: Param ensures n in SAMPLERS {
      match n
      case Alphas => assert SAMPLERS[0] == n;
      case Betas => assert SAMPLERS[1] == n;
      case Sigma2 => assert SAMPLERS[2] == n;
      case Tau2 => assert SAMPLERS[3] == n;
      case Gammas => assert SAMPLERS[4] == n;
      case Rho => assert SAMPLERS[5] == n;
    }
  }
}
