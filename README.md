# HSDM sampling driver, modelled in Dafny

This project models the driver of the `Base_HSDM` estimator from `hlm/lacombe_mcintyre/sdm/model.py`. The estimator fits a Hierarchical Spatial Durbin Model with a Metropolis-within-Gibbs sampler. The model covers the object's bookkeeping, not the statistics:

- **Setup.** The estimator builds its configuration namespace (the truncation choice and the Metropolis control of the spatial parameter `Rho`). It sets the interval `(Rho_min, Rho_max)` from the extremal eigenvalues of the group-level weights `M`. It assigns deterministic starting values. The `HSDM` front end checks that `X` has as many rows as `W` has units.
- **Sampling.** `sample(ndraws, pop)` counts `ndraws` down and takes one draw per step. Each draw runs the update kernel once. It then appends the current value of every traced parameter (`Alphas, Betas, Sigma2, Tau2, Gammas, Rho`, in that order) to that parameter's list in the trace. With `pop`, the accumulated trace is handed back and the live trace is replaced by one with no lists.

Layout:
- `params.dfy`: the traced parameters, recorded values and the sampled state (modules `Results`, `Params`).
- `trace.dfy`: the trace and what a draw does to it, as functions with lemmas (module `Traces`).
- `setup.dfy`: configuration, truncation, starting values and the dimension check (module `Setup`).
- `sampler.dfy`: the estimator class `BaseHSDM`. Its `Draw` and `Sample` loops are proved against `Traces.Record` and `Traces.RecordAll` (module `Sampler`).

The update kernel is imported by the source from a module that is not part of this model. Its outcome is an input here:
- `Draw(next)` receives the sampled values the kernel leaves behind.
- `Sample(ndraws, pop, sweeps)` receives one such state per draw, in order.

Floating-point numbers are modelled as reals. Column vectors are modelled as `seq<real>`.

Two behaviours of the code that look unintended are modelled as written:
- Truncation always uses the eigenvalue range. The `truncate` option is stored but never read (model.py:84, 111-113).
- Popping leaves a trace with no lists at all (model.py:165). A later draw therefore fails on the first traced name with a `KeyError`. The model returns `MissingTraceKey(Alphas)` in that case (`Traces.DrawOnPoppedTrace`, `Sampler.BaseHSDM.Sample`).

One behaviour is not modelled as written: the copy made by the pop branch. It is listed under "Left out".

The class invariant `Sampler.BaseHSDM.Valid` says that the trace has a list for every traced parameter, or no lists at all. The trace starts full (model.py:36). Appends never add or remove keys (model.py:174). A pop leaves no keys (model.py:165). So a draw that fails has appended nothing.

## Model

| member | source | states |
|---|---|---|
| Params.SamplersCoverAllParams | hlm/lacombe_mcintyre/sdm/model.py:16 | the traced-name list names each of the six sampled parameters exactly once |
| Traces.EmptyTrace | hlm/lacombe_mcintyre/sdm/model.py:31-36 | the initial trace has a list exactly for each traced name, and every list is empty |
| Params.Snapshot | hlm/lacombe_mcintyre/sdm/model.py:174 | the value a draw appends for a parameter is a vector exactly for `Alphas`, `Betas` and `Gammas`, and a scalar otherwise |
| Params.SnapshotsDetermineState | hlm/lacombe_mcintyre/sdm/model.py:172-174 | two states whose appended values agree for every traced parameter are the same state, so the trace records the whole sampled state |
| Traces.FirstMissing | hlm/lacombe_mcintyre/sdm/model.py:173-174 | the name at which a draw raises `KeyError` is the first traced name, in order, that has no list; there is none exactly when every traced name has a list |
| Traces.RecordKeepsFullOrEmpty | hlm/lacombe_mcintyre/sdm/model.py:164-174 | a draw keeps a trace that is full or key-less in that shape; a draw that fails (on a key-less trace) leaves it unchanged |
| Traces.Record | hlm/lacombe_mcintyre/sdm/model.py:173-174 | recording a draw never adds or removes trace keys |
| Traces.RecordAll | hlm/lacombe_mcintyre/sdm/model.py:155-159 | recording any number of draws never adds or removes trace keys |
| Traces.RecordAppendsOne | hlm/lacombe_mcintyre/sdm/model.py:172-174 | when every name has a list, a draw appends exactly one element to each named list, namely that parameter's current value, and leaves every other list unchanged |
| Traces.RecordDrawAppends | hlm/lacombe_mcintyre/sdm/model.py:173-174 | with a list for every traced parameter, one draw extends each list by that parameter's value |
| Traces.DrawOnPoppedTrace | hlm/lacombe_mcintyre/sdm/model.py:164-174 | after a pop, the next draw fails at `Alphas` and appends nothing |
| Traces.RecordAllAppendsColumns | hlm/lacombe_mcintyre/sdm/model.py:155-159 | from a trace with every list present, the draws append to each list exactly that parameter's values from those draws, in order, so each list grows by the number of draws |
| Setup.MakeConfigs | hlm/lacombe_mcintyre/sdm/model.py:72-97 | every option is stored, the acceptance counters start at 0, `max_adapt == tuning`, and adaptation is on iff `tuning > 0` |
| Setup.DefaultConfigs | hlm/lacombe_mcintyre/sdm/model.py:74-78 | the defaults are truncation `eigs`, jump 0.5, corridor 0.4/0.6, a standard-normal proposal, adaptation step 1.01, and no adaptation |
| Setup.TruncationBounds | hlm/lacombe_mcintyre/sdm/model.py:111-113 | `Rho_min` and `Rho_max` are the reciprocals of the smallest and largest eigenvalues; the step fails iff either eigenvalue is zero |
| Setup.BoundsStraddleZero | hlm/lacombe_mcintyre/sdm/model.py:111-113 | a negative smallest and a positive largest eigenvalue give `Rho_min < 0 < Rho_max` |
| Setup.InitialValues | hlm/lacombe_mcintyre/sdm/model.py:119-124 | `Betas`, `Gammas` and `Alphas` are zero vectors of lengths p, q and J; `Sigma2 == Tau2 == 2`; `Rho * (J - 1) == -1`; the step fails with a division by zero iff `J == 1` |
| Setup.StartInsideBounds | hlm/lacombe_mcintyre/sdm/model.py:111-124 | for a row-standardised M (largest eigenvalue 1, smallest in [-1, 0)) and J > 2, the starting `Rho` lies strictly inside `(Rho_min, Rho_max)` |
| Setup.StartOnLowerBoundForTwoGroups | hlm/lacombe_mcintyre/sdm/model.py:111-124 | with J == 2 and eigenvalues -1 and 1, the starting `Rho` equals `Rho_min`, so it is not inside the open interval |
| Setup.CheckObservations | hlm/lacombe_mcintyre/sdm/model.py:187-193 | construction proceeds iff the row count of X equals the unit count of W; otherwise the error names both counts |
| Sampler.DrawCount | hlm/lacombe_mcintyre/sdm/model.py:155-159 | the countdown loop takes the least non-negative count at least `ndraws`, that is `max(ndraws, 0)` |
| Sampler.BaseHSDM.constructor | hlm/lacombe_mcintyre/sdm/model.py:24-43 | after construction, the class invariant holds. The bounds come from the eigenvalues. The configuration fields the kernel never touches are those of `MakeConfigs(options)`. Every traced parameter has a list holding exactly the values of the `n_samples` construction draws. When `n_samples` is not positive, no draw runs, so the configuration is exactly `MakeConfigs(options)` and `cycles` is 0 |
| Sampler.BaseHSDM.SetupConfigs | hlm/lacombe_mcintyre/sdm/model.py:83-97 | only the configuration changes, and it becomes `MakeConfigs(options)` |
| Sampler.BaseHSDM.SetupTruncation | hlm/lacombe_mcintyre/sdm/model.py:99-113 | only the bounds change, and they are set from the eigenvalues whatever the truncation option says |
| Sampler.BaseHSDM.SetupInitialValues | hlm/lacombe_mcintyre/sdm/model.py:115-132 | only the sampled values change, and they become the deterministic starting values |
| Sampler.BaseHSDM.Advance | hlm/lacombe_mcintyre/sdm/model.py:172 | the kernel sets the sampled values. It may also change its Metropolis bookkeeping and the cycle count, but not the truncation choice, the acceptance corridor, the proposal, the adaptation step or `max_adapt`; the trace and the bounds are untouched |
| Sampler.BaseHSDM.Draw | hlm/lacombe_mcintyre/sdm/model.py:168-174 | the kernel runs, then the trace becomes `Record` of the old trace with the new values. The first traced name without a list is reported, and a failed draw leaves the (key-less) trace unchanged. The class invariant is kept |
| Sampler.BaseHSDM.Sample | hlm/lacombe_mcintyre/sdm/model.py:134-166 | takes `max(ndraws, 0)` draws, so each list grows by that many entries. With `pop`, it returns the accumulated trace and leaves no lists. Without `pop`, it returns nothing and keeps the trace. A key-less trace fails on the first draw and stays unchanged. With no draw to take, the configuration and `cycles` are untouched. The class invariant is kept |
| Sampler.ConstructedTrace | hlm/lacombe_mcintyre/sdm/model.py:36-43 | a fresh trace after the construction draws holds, per parameter, exactly the values of those draws |
| Sampler.NewBaseHSDM | hlm/lacombe_mcintyre/sdm/model.py:24-43 | construction fails with a zero-eigenvalue error first, then with a division by zero when J == 1, and succeeds exactly when neither happens; a success is a fresh estimator that satisfies the class invariant, has the kernel-fixed configuration fields of `MakeConfigs(options)`, the truncation interval from the eigenvalue range, the sampled values of the last draw (or the starting values when there is none), and for every traced parameter exactly the values of the draws, in order; with no draws, exactly the configuration `MakeConfigs(options)` and `cycles` 0 |
| Sampler.NewHSDM | hlm/lacombe_mcintyre/sdm/model.py:180-204 | a row-count mismatch between X and W is reported before anything is built; otherwise the base construction's errors follow in its order (zero eigenvalue, then a single group), and a success is a fresh estimator with N from X and J from M that has every property `Sampler.NewBaseHSDM` promises |

## Left out

- The update kernel `sample(self)` (model.py:11, 172) is not part of this model. Its conjugate draws, its Metropolis step for `Rho`, its updates of the `accepted`/`rejected` counters and its adaptation of `jump` are all outside the model. The model therefore proves nothing about the domain of `Rho` during sampling, the acceptance counts or how adaptation is bounded.
- Linear algebra (model.py:46-68, 125-129): the identity matrices, the prior products, `XtX`, `ZtZ`, `DeltatDelta`, `B`, `DeltaAlphas`, `XBetas`, `ZGammas` and `BZGammas`. These are floating-point matrix computations over numpy, scipy and pysal. The same goes for the prior hyperparameter keywords of `_setup_data`.
- `speigen_range` (model.py:111) is an eigenvalue solver outside this file. Its result `(emin, emax)` is an input.
- Validation collaborators `verify.weights`, `verify.Delta_members` and `verify.covariates` (model.py:184, 197, 199) are not part of this model. The model uses only the unit counts they produce.
- Progress printing (model.py:156-157) is I/O and is left out. So is the `_verbose` attribute it reads. Only `HSDM` sets that attribute, so a bare `Base_HSDM` with draws to take would fail there.
- `extra_tracked_params` (model.py:33-35) is left out. It refers to an undefined name and extends the shared `SAMPLERS` list in place, so it has no coherent behaviour to model. The traced list is always the six parameters.
- The trace appends value copies. The source appends references to the state's arrays. If the kernel mutated those arrays in place, earlier entries would change with them; the model does not capture that aliasing.
- Floating-point rounding, infinities and NaN are not modelled. `1./0.0` on a numpy float would give infinity rather than raise; the model reports any zero eigenvalue as an error.
- Sampler.BaseHSDM.constructor: requires non-zero eigenvalues and J != 1 (so that truncation and starting values succeed), because a Dafny constructor cannot fail. Those failures are modelled by `Sampler.NewBaseHSDM`, which checks them in the source's order before constructing.
- Sampler.BaseHSDM.Sample: with `pop`, the model returns an independent copy of the trace and empties the live trace. As written, the source calls `copy.deepcopy` (model.py:161) in a module that never imports `copy`. So the pop branch raises `NameError` after the draws, and the trace keeps its lists. The model follows the evident intent. Dafny maps are values, so later draws cannot alter a returned trace.
- Sampler.BaseHSDM.constructor: after at least one construction draw, the model does not say what the acceptance counters, the proposal scale `jump`, the adaptation flag or `cycles` are. The update kernel may change them, and it is not part of this model. Only the configuration fields the kernel leaves alone are stated.
- Sampler.NewBaseHSDM: as for the constructor, the acceptance counters, `jump`, the adaptation flag and `cycles` after at least one construction draw are not stated.
- Sampler.NewHSDM: the row-count check is a bare `assert` (model.py:190). Under `python -O` it is removed, and a mismatch then goes unreported. The model always performs the check.
