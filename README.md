# Metropolis sampler of ASMO-PODE, modelled in Dafny

ASMO-PODE estimates the posterior distribution of model parameters by Markov chain Monte
Carlo. Its sampler in `src/Metropolis.py` has three parts:

- `MChain` runs one random-walk Metropolis chain. It takes a -2 log likelihood, an optional -2 log
  prior, an inverse temperature `beta`, a box `[xlb, xub]`, a start point `X` and a proposal
  covariance `sigma`. At each step it proposes `X + z·chol(sigma)`, clips the proposal into
  the box, and accepts it when a uniform draw `u` is at most the acceptance ratio. The ratio
  is 1 when the proposal scores strictly better and `exp(0.5 (pX - pXt))` otherwise. The
  chain records every state and score and returns the fraction of accepted proposals.
- `ParaMC` unpacks a dictionary of the same arguments and calls `MChain` (the unit of work for
  a process pool).
- `sampler` builds the default proposal matrix (diagonal, `0.1 (xub - xlb)`) and the default
  start points (uniform in the box). For each of M chains it runs a burn-in of B steps and
  then N retained steps from the burn-in's last state, either one chain after another or as
  two pool batches. It stacks the retained chains and scores chain by chain into
  `ChainMerged` and `LogPostMerged`, and returns them with the per-chain rates `ACC`.

The model has four modules:

- `Wrappers` holds `Option` and `Result`.
- `Vectors` holds the numpy operations on real vectors: element-wise add, `clip` and the
  stacking of blocks of rows.
- `Kernel` holds `MChain`, `ParaMC`, one chain step and the trajectory `StateAfter` that a
  chain must follow.
- `Sampler` holds `sampler`, its defaults, its two execution branches and the functions that
  say what it must return: `Outcomes`, `MergedChain`, `MergedLogPost` and `EnsembleRates`.

Randomness and numerics are parameters:

- Every chain run receives its standard-normal vectors and uniform draws (`Draws`). A whole
  invocation receives the draws for the default start points (`SamplerDraws`).
- The product of a draw with the Cholesky factor of `sigma`, `np.exp` and `np.log` are
  supplied functions (`Numerics`). The only assumption about the first is that it keeps the
  vector's length.
- Three of the exceptions a well-shaped call can raise are modelled as `Failure` results:
  - `Accept /= N` with N = 0 (`EmptyChain`);
  - `1.0/T` with T = 0 (`ZeroTemperature`);
  - `Pool(processes)` with fewer than one process (`NoWorkers`).

  They come in the order the code reaches them. The exceptions raised inside `GRBfactor`
  are not modelled (see "Left out").

## Model

| member | source | states |
|---|---|---|
| `Kernel.Step` | src/Metropolis.py:99-114 | one loop iteration: the candidate is the clipped perturbed point; it is accepted exactly when u is at most the ratio (1 if the candidate is strictly better, else exp(0.5(pX - pXt))); then the new point and score are the candidate's, else unchanged |
| `Kernel.MChain` | src/Metropolis.py:82-118 | fails with EmptyChain exactly when N = 0; otherwise returns fresh arrays whose contents are the N states and scores of the chain's trajectory and whose rate is accepted/N; the rate lies in [0, 1], every recorded score is the posterior of the recorded row, and every recorded row lies in the box when the start does |
| `Kernel.ParaMC` | src/Metropolis.py:120-128 | returns what `MChain` returns for the unpacked arguments: the same error condition, the same trajectory |
| `Kernel.Rate` | src/Metropolis.py:117 | `Accept / N` is in [0, 1] when at most N proposals were accepted, and is 1 exactly when all were |
| `Kernel.AcceptanceRule` | src/Metropolis.py:105-111 | the ratio never exceeds 1; with u in [0, 1), a strictly better or equally scored candidate is always accepted |
| `Kernel.ScoreTracksState` | src/Metropolis.py:97-113 | after any number of steps the current score is the posterior of the current point |
| `Kernel.StateInBox` | src/Metropolis.py:100-112 | a chain started inside the box stays in it at every step |
| `Kernel.RowsAt` | src/Metropolis.py:115-116 | row k of the record and its score are the state after k + 1 steps |
| `Kernel.RecordedScores` | src/Metropolis.py:97-116 | every recorded score is the posterior of the row recorded beside it |
| `Kernel.RecordedRowInBox` | src/Metropolis.py:100-115 | one recorded row lies in the box when the start does |
| `Kernel.RecordedInBox` | src/Metropolis.py:100-115 | all recorded rows lie in the box when the start does |
| `Kernel.AcceptCountBound` | src/Metropolis.py:94-114 | the number of accepted proposals never exceeds the number of steps |
| `Kernel.RecordedStep` | src/Metropolis.py:100-114 | for any draws, each step either keeps the state, score and count, or moves to the clipped candidate with its score and one more acceptance; when the uniform draws lie in [0, 1), a strictly better candidate is always taken |
| `Kernel.FlatScore` | src/Metropolis.py:86-90 | a likelihood and prior that ignore the point give a constant posterior, with or without the default uniform prior |
| `Kernel.ConstantScoreAcceptsAll` | src/Metropolis.py:105-114 | under a constant posterior every proposal is accepted, so the count after n steps is n |
| `Kernel.ConstantScoreRate` | src/Metropolis.py:105-117 | under a constant posterior the reported rate is exactly 1 |
| `Kernel.RateInUnitInterval` | src/Metropolis.py:94-117 | the reported acceptance rate lies in [0, 1] |
| `Kernel.SumLog` | src/Metropolis.py:88 | `np.sum(np.log(xub - xlb))` as a fold that adds the log width of one dimension at a time; its partner `ScoreDifference` shows that this box term cancels in the score difference the ratio uses |
| `Kernel.FLogPost` | src/Metropolis.py:86-90 | `flogpost`: without a prior, the tempered likelihood minus twice the log volume of the box; with one, the tempered likelihood plus the prior; its properties are stated by `ScoreDifference` and `FlatScore` |
| `Kernel.ScoreDifference` | src/Metropolis.py:86-108 | the difference pX - pXt the ratio uses is beta times the likelihood difference plus the prior difference; the box term of the default uniform prior cancels |
| `Kernel.Score` | src/Metropolis.py:86-90 | `flogpost` built from one chain's arguments |
| `Kernel.Propose` | src/Metropolis.py:100-101 | the candidate, the perturbed point clipped into the box, has the point's dimension; `ClipInBox` puts it in a non-empty box |
| `Kernel.Ratio` | src/Metropolis.py:104-108 | the acceptance ratio with its r = 1 fast path; `AcceptanceRule` bounds it by 1 |
| `Kernel.Accepts` | src/Metropolis.py:110-111 | acceptance when u <= r; `AcceptanceRule` states when a candidate must be accepted |
| `Kernel.Transition` | src/Metropolis.py:99-114 | one step of the trajectory: the candidate with its score and one more acceptance, or the old state; `RecordedStep` states both outcomes |
| `Kernel.StateAfter` | src/Metropolis.py:94-114 | the state after n steps from X with score flogpost(X) and no acceptances; keeps dimension D; `ScoreTracksState`, `StateInBox` and `AcceptCountBound` are proved about it |
| `Kernel.Rows` | src/Metropolis.py:95-115 | the first n recorded rows, n of them; `RowsAt` says which state each is |
| `Kernel.LogPosts` | src/Metropolis.py:96-116 | the first n recorded scores, n of them; `RowsAt` says which score each is |
| `Kernel.ChainRows` | src/Metropolis.py:95-115 | all N recorded rows `Chain` |
| `Kernel.ChainLogPosts` | src/Metropolis.py:96-116 | all N recorded scores `LogPost` |
| `Kernel.AcceptRate` | src/Metropolis.py:117 | the acceptance count after N steps divided by N; `RateInUnitInterval` bounds it |
| `Vectors.Add` | src/Metropolis.py:100 | the component-wise sum `np.dot(...) + X` of two vectors of one length |
| `Vectors.Concat` | src/Metropolis.py:54-55 | blocks of rows stacked chain 0 first; `ConcatLength`, `ConcatBlock` and `ConcatIndex` state its layout |
| `Vectors.ConcatLength` | src/Metropolis.py:54-55 | stacking m blocks of n rows gives m*n rows |
| `Vectors.Clip` | src/Metropolis.py:101 | `np.clip` keeps the length of the vector |
| `Vectors.ClipInBox` | src/Metropolis.py:101 | a clipped point lies in a box whose bounds are ordered |
| `Vectors.ClipInside` | src/Metropolis.py:101 | clipping leaves a point already in the box unchanged |
| `Vectors.ConcatBlock` | src/Metropolis.py:54-55 | stacking m blocks of n rows gives m*n rows, and row r of block i sits at i*n + r |
| `Vectors.ConcatIndex` | src/Metropolis.py:54-55 | every row of the stack is at i*n + r for some block i and row r in range |
| `Sampler.SamplerError` | src/Metropolis.py:29-117 | the first of the modelled exceptions the code reaches: T = 0 at line 29, then `Pool` with processes < 1 at line 57 in parallel mode, then `Accept /= N` at line 117 for an empty burn-in or sampling run when M > 0 |
| `Sampler.DefaultCov` | src/Metropolis.py:32-35 | the default proposal matrix as a value; `DefaultCovDiagonal` states its shape and `DefaultSigma` computes it |
| `Sampler.ProposalCov` | src/Metropolis.py:31-35 | the caller's `sigma`, or the default matrix |
| `Sampler.Start` | src/Metropolis.py:37-43 | start point i has dimension D: the caller's row i, or the uniform draw |
| `Sampler.BurnParams` | src/Metropolis.py:47-48 | chain i's burn-in arguments fit its burn-in draws: B steps from start point i |
| `Sampler.SampleParams` | src/Metropolis.py:49-50 | chain i's sampling-run arguments fit its sampling draws and have N steps |
| `Sampler.Contents` | src/Metropolis.py:118 | the rows, rate and scores a returned run holds, with the arrays' lengths |
| `Sampler.Outcome` | src/Metropolis.py:115-118 | what a run with given arguments records: N rows, its rate and N scores |
| `Sampler.ContentsOfRun` | src/Metropolis.py:115-118 | a returned run that follows its trajectory holds that run's outcome |
| `Sampler.BurnOutcomes` | src/Metropolis.py:63 | one burn-in outcome per chain, in chain order |
| `Sampler.Outcomes` | src/Metropolis.py:49-69 | one sampling-run outcome per chain, in chain order |
| `Sampler.Retained` | src/Metropolis.py:49-51 | chain i's retained trajectory `iChain`, N rows |
| `Sampler.RetainedLogPosts` | src/Metropolis.py:49-53 | chain i's retained scores `iLogPost`, N entries |
| `Sampler.EnsembleRows` | src/Metropolis.py:49-51 | the M retained trajectories `iChain` of N rows each, in chain order: the contents the `Chain` array would hold, carried as values |
| `Sampler.EnsembleLogPosts` | src/Metropolis.py:49-53 | the M retained score sequences `iLogPost` of N entries each, in chain order: the contents the `LogPost` array would hold, carried as values |
| `Sampler.EnsembleRates` | src/Metropolis.py:52 | `ACC`: one sampling-run rate per chain; `RatesInUnitInterval` bounds them |
| `Sampler.MergedChain` | src/Metropolis.py:54 | `ChainMerged`: M*N rows, the retained trajectories stacked; `MergedLayout` states where each row sits |
| `Sampler.MergedLogPost` | src/Metropolis.py:55 | `LogPostMerged`: M*N scores stacked the same way; `MergedScores` relates them to the rows |
| `Sampler.DefaultSigma` | src/Metropolis.py:32-35 | the default matrix is `np.eye(D)` with diagonal entry i scaled by 0.1 (xub[i] - xlb[i]) |
| `Sampler.DefaultCovDiagonal` | src/Metropolis.py:32-35 | the default matrix is D by D, symmetric and zero off the diagonal, and its diagonal is positive where the box has positive width |
| `Sampler.UniformStart` | src/Metropolis.py:41 | a default start point has dimension D and lies in the box when the draws are in [0, 1) and the box is not empty |
| `Sampler.DefaultStarts` | src/Metropolis.py:37-41 | row i of the default start matrix is the uniform start from chain i's draws |
| `Sampler.Starts` | src/Metropolis.py:37-43 | the start points are the caller's `Xinit` or the default uniform starts |
| `Sampler.Proposal` | src/Metropolis.py:31-35 | the proposal matrix is the caller's `sigma` or the default one |
| `Sampler.HandOn` | src/Metropolis.py:47-50 | the arguments of a run from a finished run's last row are its own, with the new length, started from the state after its last step |
| `Sampler.HandOff` | src/Metropolis.py:47-50 | chain i's sampling run starts from the last row of chain i's own burn-in run, with the burn-in's proposal matrix, posterior and box |
| `Sampler.BurnHandsOn` | src/Metropolis.py:64-68 | the burn-in batch's outcome i has B rows, and `ipara[i]` built from its last row is chain i's sampling-run arguments |
| `Sampler.MergedLayout` | src/Metropolis.py:51-55 | row i*N + r of `ChainMerged` is row r of chain i's retained trajectory, and entry i*N + r of `LogPostMerged` is its score |
| `Sampler.RetainedScore` | src/Metropolis.py:49-53 | each retained score is the tempered posterior of the retained row beside it |
| `Sampler.MergedScores` | src/Metropolis.py:51-55 | every entry of `LogPostMerged` is the tempered posterior of the row of `ChainMerged` beside it |
| `Sampler.RetainedInBox` | src/Metropolis.py:37-50 | with the box not empty and the start points in it (the caller's rows, or default starts from draws in [0, 1)), every retained row lies in the box |
| `Sampler.MergedInBox` | src/Metropolis.py:37-55 | under the same conditions, every row of `ChainMerged` lies in the box |
| `Sampler.RatesInUnitInterval` | src/Metropolis.py:52 | every entry of `ACC` lies in [0, 1] |
| `Sampler.FlatPosteriorAcceptsAll` | src/Metropolis.py:86-114 | with a flat likelihood and prior, every entry of `ACC` is exactly 1 |
| `Sampler.RunPair` | src/Metropolis.py:47-50 | the burn-in run and then the run from its last row; fails exactly when either length is 0, otherwise yields the outcome of the second run's arguments |
| `Sampler.RunPairs` | src/Metropolis.py:46-50 | the loop over chains yields every chain's outcome in order, or fails exactly when some chain has an empty run |
| `Sampler.BurnBatchParams` | src/Metropolis.py:58-62 | `bpara[i]` holds the sampler's arguments with B steps from start point i |
| `Sampler.SequentialRuns` | src/Metropolis.py:45-55 | the sequential branch fails exactly when M > 0 and B or N is 0, otherwise yields every chain's sampling outcome |
| `Sampler.MapParaMC` | src/Metropolis.py:63-69 | `p.map(ParaMC, para)` yields each run's outcome in order, or fails exactly when some run has no steps |
| `Sampler.BurnBatch` | src/Metropolis.py:58-63 | the burn-in batch fails exactly when M > 0 and B = 0, otherwise yields every chain's burn-in outcome |
| `Sampler.SampleBatchParams` | src/Metropolis.py:64-68 | `ipara[i]` holds the sampler's arguments with N steps from the last row of burn-in result i |
| `Sampler.SampleBatch` | src/Metropolis.py:64-69 | the sampling batch fails exactly when M > 0 and N = 0, otherwise yields every chain's sampling outcome |
| `Sampler.ParallelRuns` | src/Metropolis.py:56-69 | the parallel branch fails with NoWorkers when processes < 1, else as the chains do, and otherwise yields the same outcomes as the sequential branch |
| `Sampler.EnsembleRuns` | src/Metropolis.py:29-69 | both branches fail exactly on the sampler's error and otherwise yield every chain's sampling outcome |
| `Sampler.StoreBlock` | src/Metropolis.py:51-55 | storing block i after blocks 0 .. i-1 leaves blocks 0 .. i of the merged arrays and of `ACC` in place, and every later row of the merged arrays and later entry of `ACC` unchanged |
| `Sampler.MergeRuns` | src/Metropolis.py:70-75 | storing every run leaves the merged arrays equal to the runs' blocks stacked in chain order, and `ACC` equal to their rates |
| `Sampler.Merge` | src/Metropolis.py:26-75 | fresh merged arrays holding `MergedChain`, `MergedLogPost` and `EnsembleRates` |
| `Sampler.Sampler` | src/Metropolis.py:5-80 | of the three modelled exceptions, fails exactly with the first one the code reaches (T = 0, then no workers in parallel mode, then an empty burn-in or sampling run); otherwise returns fresh arrays holding the retained chains stacked chain by chain, their scores, and their rates, in either mode for the same per-chain draws |

## Left out

- `GRBfactor` (lines 130-153), and the call to it at line 77, are not modelled. GRB is an
  eigenvalue computation on floating-point covariances, and the sampler's other results do
  not depend on it. The `Chain` array of shape M×N×D (lines 24, 51, 71) only feeds it, and is
  not modelled either. The `LogPost` array of shape M×N (lines 25, 53, 73) is filled and never
  read, so it is not modelled.
- `Sampler.Sampler`: returns `Success` in the cases where `GRBfactor` raises, because that
  function is not modelled. These cases are:
  - M = 0;
  - M = 1, where `np.cov` of one chain mean gives NaN and `np.linalg.eig` raises;
  - N = 1, where each within-chain covariance has one observation;
  - a singular within-chain covariance, where `np.linalg.inv` raises;
  - D = 0, where `np.max` of an empty array raises.
- The numeric defaults of `sampler` (`T=1`, `B=10000`, `N=10000`, `M=5`, `parallel=False`,
  `processes=4`, lines 5-7) are not modelled: every field of `Config` is supplied by the
  caller. The `None` defaults of `Xinit`, `flogprior` and `sigma` are modelled as `Option`.
- `src/mpdf.py` (the likelihood objects behind `floglike.evaluate`) is not part of this
  model. Likelihood and prior are arbitrary functions from vectors to reals.
- `np.linalg.cholesky` and `np.dot` are one supplied perturbation function, so a
  non-positive-definite `sigma` (LinAlgError) is not modelled.
- The random number generator is replaced by explicit draws passed in as parameters. Its
  global state, and the order in which the code consumes it, are not modelled.
- The process pool is a sequential map in chain order. Concurrency, pickling and the
  order of worker scheduling are left out; `p.map` returns results in input order, and so
  does the model.
- Floating point is modelled as exact real arithmetic. `exp` and `log` are supplied
  functions, constrained only where a lemma says so: `ExpBounds` (exp(0) = 1, and exp(t) <= 1 for t <= 0), or exp(0) = 1 alone.
- Array shape errors (bounds, start points or `Xinit` of the wrong size) are preconditions
  (`ChainShaped`, `ConfigShaped`), not modelled errors.
- `Sampler.RunPairs` and `Sampler.MergeRuns`: in the sequential branch the code stores each
  chain's block as soon as its run returns. The model collects the blocks and stores them
  after the loop. The arrays end up the same, and no exception can occur between storing
  and the next run, but the interleaving differs.
- Once a run has returned, its arrays are read as values (`Contents`, a `Block`). Nothing
  writes them afterwards, so aliasing between runs is not modelled.
- The default proposal matrix uses `0.1 (xub[i] - xlb[i])` itself as the diagonal variance,
  not its square, and the model follows the code.
- The docstring calls `Xinit` a single D-vector, but the code indexes it as `X[i,:]`. The
  model follows the code: an M×D matrix (at least M rows of dimension D).
