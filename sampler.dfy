/** The multi-chain orchestration `sampler`: default proposal matrix and start points, a burn-in
    run and a sampling run per chain (one after the other, or as two batches of `ParaMC` calls),
    and the merge of the retained chains into flat arrays, chain 0 first.

    `EnsembleRows`, `MergedChain`, `MergedLogPost` and `EnsembleRates` are what the sampler must
    return; `Sampler` is proved to return exactly that in both execution modes. */
module Sampler {
  import opened Wrappers
  import opened Vectors
  import opened Kernel

  /** The arguments of `sampler`, defaults written out by the caller. */
  datatype Config = Config(
    floglike: Vector -> real,
    D: nat,
    xlb: Vector,
    xub: Vector,
    Xinit: Option<Matrix>,
    flogprior: Option<Vector -> real>,
    T: real,
    B: nat,
    N: nat,
    M: nat,
    sigma: Option<Matrix>,
    parallel: bool,
    processes: int)

  /** The random draws of a whole invocation: `np.random.rand(D)` for each default start point,
      and each chain's draws for its burn-in run and for its sampling run. */
  datatype SamplerDraws = SamplerDraws(init: seq<Vector>, burn: seq<Draws>, samp: seq<Draws>)

  /** What `sampler` returns (its GRB value is not part of this model). */
  datatype SamplerOut = SamplerOut(chainMerged: array<Vector>, logPostMerged: array<real>, acc: array<real>)

  /** The shapes `sampler` relies on: D-dimensional bounds, M start points of dimension D (given,
      or drawn), and B burn-in and N sampling draws of dimension D for each of the M chains. */
  predicate ConfigShaped(c: Config, draws: SamplerDraws)
  {
    && |c.xlb| == c.D && |c.xub| == c.D
    && (c.Xinit.Some? ==> |c.Xinit.value| >= c.M && forall i :: 0 <= i < c.M ==> |c.Xinit.value[i]| == c.D)
    && (c.Xinit.None? ==> |draws.init| == c.M && forall i :: 0 <= i < c.M ==> |draws.init[i]| == c.D)
    && |draws.burn| == c.M && |draws.samp| == c.M
    && (forall i :: 0 <= i < c.M ==> DrawsFit(draws.burn[i], c.B, c.D))
    && (forall i :: 0 <= i < c.M ==> DrawsFit(draws.samp[i], c.N, c.D))
  }

  /** The exception a well-shaped invocation raises, in the order the code reaches them:
      `1.0/T`, then `Pool(processes)`, then the first chain's `Accept /= B` or `Accept /= N`. */
  function SamplerError(c: Config): Option<Error>
  {
    if c.T == 0.0 then Some(ZeroTemperature)
    else if c.parallel && c.processes < 1 then Some(NoWorkers)
    else if c.M > 0 && (c.B == 0 || c.N == 0) then Some(EmptyChain)
    else None
  }

  // ---------------------------------------------------------------------------------------
  // Defaults

  /** The default proposal matrix: diagonal, entry i is 0.1 * (xub[i] - xlb[i]) (used as the
      variance itself, not squared), zero elsewhere. */
  function DefaultCov(d: nat, xlb: Vector, xub: Vector): Matrix
    requires |xlb| == |xub| == d
  {
    seq(d, i requires 0 <= i < d => seq(d, j requires 0 <= j < d => if i == j then 0.1 * (xub[i] - xlb[i]) else 0.0))
  }

  /** The default matrix is a symmetric diagonal matrix with a positive diagonal on a box of
      positive width. */
  lemma DefaultCovDiagonal(d: nat, xlb: Vector, xub: Vector)
    requires |xlb| == |xub| == d
    ensures |DefaultCov(d, xlb, xub)| == d
    ensures forall i :: 0 <= i < d ==> |DefaultCov(d, xlb, xub)[i]| == d
    ensures forall i, j :: 0 <= i < d && 0 <= j < d ==>
      DefaultCov(d, xlb, xub)[i][j] == DefaultCov(d, xlb, xub)[j][i]
    ensures forall i, j :: 0 <= i < d && 0 <= j < d && i != j ==> DefaultCov(d, xlb, xub)[i][j] == 0.0
    ensures forall i :: 0 <= i < d && xlb[i] < xub[i] ==> DefaultCov(d, xlb, xub)[i][i] > 0.0
  {
  }

  /** The row of `np.eye(d)` for index i. */
  function EyeRow(d: nat, i: nat): Vector
  {
    seq(d, j => if i == j then 1.0 else 0.0)
  }

  /** `sigma = np.eye(D)`, then `sigma[i,i] *= (xub[i] - xlb[i]) * 0.1` for each i. */
  method DefaultSigma(D: nat, xlb: Vector, xub: Vector) returns (sigma: array<Vector>)
    requires |xlb| == |xub| == D
    ensures fresh(sigma)
    ensures sigma[..] == DefaultCov(D, xlb, xub)
  {
    sigma := new Vector[D](i => EyeRow(D, i));
    for i := 0 to D
      invariant forall k :: 0 <= k < i ==> sigma[k] == DefaultCov(D, xlb, xub)[k]
      invariant forall k :: i <= k < D ==> sigma[k] == EyeRow(D, k)
    {
      sigma[i] := sigma[i][i := sigma[i][i] * ((xub[i] - xlb[i]) * 0.1)];
      assert sigma[i] == DefaultCov(D, xlb, xub)[i];
    }
    assert sigma[..] == DefaultCov(D, xlb, xub);
  }

  /** `np.random.rand(D) * (xub - xlb) + xlb`: with draws in [0, 1) the point lies in the box. */
  function UniformStart(u: Vector, xlb: Vector, xub: Vector): (x: Vector)
    requires |u| == |xlb| == |xub|
    ensures |x| == |u|
    ensures UnitDraws(u) && Ordered(xlb, xub) ==> InBox(x, xlb, xub)
  {
    var x := seq(|u|, j requires 0 <= j < |u| => u[j] * (xub[j] - xlb[j]) + xlb[j]);
    assert UnitDraws(u) && Ordered(xlb, xub) ==> InBox(x, xlb, xub) by {
      if UnitDraws(u) && Ordered(xlb, xub) {
        forall j | 0 <= j < |u| ensures xlb[j] <= x[j] <= xub[j] {
          var v := u[j] * (xub[j] - xlb[j]) + xlb[j];
          assert x[j] == v;
          ScaleWithin(u[j], xlb[j], xub[j]);
          assert xlb[j] <= v <= xub[j];
        }
      }
    }
    x
  }

  lemma ScaleWithin(u: real, lo: real, hi: real)
    requires 0.0 <= u <= 1.0 && lo <= hi
    ensures lo <= u * (hi - lo) + lo <= hi
  {
    var w, v := hi - lo, 1.0 - u;
    assert 0.0 <= u * w;
    assert 0.0 <= v * w;
    assert v * w == w - u * w;
  }

  /** `X[i,:] = np.random.rand(D) * (xub - xlb) + xlb` for each of the M chains. */
  method DefaultStarts(M: nat, D: nat, xlb: Vector, xub: Vector, init: seq<Vector>) returns (X: array<Vector>)
    requires |xlb| == |xub| == D && |init| == M
    requires forall i :: 0 <= i < M ==> |init[i]| == D
    ensures fresh(X) && X.Length == M
    ensures forall i :: 0 <= i < M ==> X[i] == UniformStart(init[i], xlb, xub)
  {
    X := new Vector[M](_ => Zeros(D));
    for i := 0 to M
      invariant forall k :: 0 <= k < i ==> X[k] == UniformStart(init[k], xlb, xub)
    {
      X[i] := UniformStart(init[i], xlb, xub);
    }
  }

  // ---------------------------------------------------------------------------------------
  // What the sampler computes

  /** The proposal matrix every chain uses. */
  function ProposalCov(c: Config): Matrix
    requires |c.xlb| == c.D && |c.xub| == c.D
  {
    match c.sigma
    case None => DefaultCov(c.D, c.xlb, c.xub)
    case Some(s) => s
  }

  /** The start point of chain i: the caller's row i, or a uniform draw in the box. */
  function Start(c: Config, draws: SamplerDraws, i: nat): (x: Vector)
    requires ConfigShaped(c, draws) && i < c.M
    ensures |x| == c.D
  {
    match c.Xinit
    case None => UniformStart(draws.init[i], c.xlb, c.xub)
    case Some(X) => X[i]
  }

  /** The arguments of chain i's burn-in run. */
  function BurnParams(c: Config, draws: SamplerDraws, i: nat): (p: ChainParams)
    requires ConfigShaped(c, draws) && c.T != 0.0 && i < c.M
    ensures ChainShaped(p, draws.burn[i])
  {
    ChainParams(c.floglike, c.flogprior, 1.0 / c.T, c.B, c.D, c.xlb, c.xub, Start(c, draws, i), ProposalCov(c))
  }

  /** What a finished run holds, read out of its arrays once it has returned: its rows, its
      acceptance rate and its scores. Nothing writes a run's arrays after it returns. */
  datatype Block = Block(chain: seq<Vector>, accept: real, logPost: seq<real>)

  /** The values in a run's arrays. */
  function Contents(run: ChainRun): (b: Block)
    reads run.chain, run.logPost
    ensures |b.chain| == run.chain.Length && |b.logPost| == run.logPost.Length
  {
    Block(run.chain[..], run.accept, run.logPost[..])
  }

  /** What a run with arguments p and draws d records. */
  function Outcome(p: ChainParams, num: Numerics, d: Draws): (b: Block)
    requires ChainShaped(p, d) && p.N > 0
    ensures |b.chain| == p.N && |b.logPost| == p.N
  {
    Block(ChainRows(p, num, d), AcceptRate(p, num, d), ChainLogPosts(p, num, d))
  }

  /** A run that `Describes` its arguments holds their outcome. */
  lemma ContentsOfRun(run: ChainRun, p: ChainParams, num: Numerics, d: Draws)
    requires ChainShaped(p, d) && p.N > 0 && Describes(run, p, num, d)
    ensures Contents(run) == Outcome(p, num, d)
  {
  }

  /** The arguments of a run of n steps from the last row of a finished run with arguments bp:
      the same arguments, with n steps, started from the state after bp's last step. */
  function HandOn(bp: ChainParams, n: nat, num: Numerics, bd: Draws): (p: ChainParams)
    requires ChainShaped(bp, bd) && bp.N > 0
    ensures p == bp.(N := n, X := StateAfter(bp, num, bd, bp.N).x)
    ensures |p.X| == bp.D
  {
    RowsAt(bp, num, bd, bp.N, bp.N - 1);
    bp.(N := n, X := Outcome(bp, num, bd).chain[bp.N - 1])
  }

  /** The arguments of chain i's sampling run: those of its burn-in run, with N steps, started
      from the last row `bChain[-1,:]` of its own burn-in chain. */
  function SampleParams(c: Config, num: Numerics, draws: SamplerDraws, i: nat): (p: ChainParams)
    requires ConfigShaped(c, draws) && c.T != 0.0 && c.B > 0 && i < c.M
    ensures ChainShaped(p, draws.samp[i]) && p.N == c.N
  {
    HandOn(BurnParams(c, draws, i), c.N, num, draws.burn[i])
  }

  /** The outcome of each chain's burn-in run, in chain order. */
  function BurnOutcomes(c: Config, num: Numerics, draws: SamplerDraws): (o: seq<Block>)
    requires ConfigShaped(c, draws) && c.T != 0.0 && (c.M > 0 ==> c.B > 0)
    ensures |o| == c.M
  {
    seq(c.M, i requires 0 <= i < c.M => Outcome(BurnParams(c, draws, i), num, draws.burn[i]))
  }

  /** The outcome of each chain's sampling run, in chain order: what the runs hand to the merge. */
  function Outcomes(c: Config, num: Numerics, draws: SamplerDraws): (o: seq<Block>)
    requires ConfigShaped(c, draws) && c.T != 0.0 && (c.M > 0 ==> c.B > 0 && c.N > 0)
    ensures |o| == c.M
  {
    seq(c.M, i requires 0 <= i < c.M => Outcome(SampleParams(c, num, draws, i), num, draws.samp[i]))
  }

  /** Chain i's retained trajectory: its sampling run's N recorded states. */
  function Retained(c: Config, num: Numerics, draws: SamplerDraws, i: nat): (rows: seq<Vector>)
    requires ConfigShaped(c, draws) && SamplerError(c).None? && i < c.M
    ensures |rows| == c.N
  {
    ChainRows(SampleParams(c, num, draws, i), num, draws.samp[i])
  }

  /** Chain i's retained scores. */
  function RetainedLogPosts(c: Config, num: Numerics, draws: SamplerDraws, i: nat): (lps: seq<real>)
    requires ConfigShaped(c, draws) && SamplerError(c).None? && i < c.M
    ensures |lps| == c.N
  {
    ChainLogPosts(SampleParams(c, num, draws, i), num, draws.samp[i])
  }

  /** The retained chains, in chain order. */
  function EnsembleRows(c: Config, num: Numerics, draws: SamplerDraws): (e: seq<seq<Vector>>)
    requires ConfigShaped(c, draws) && SamplerError(c).None?
    ensures |e| == c.M && forall i :: 0 <= i < c.M ==> |e[i]| == c.N
  {
    seq(c.M, i requires 0 <= i < c.M => Retained(c, num, draws, i))
  }

  /** The retained scores, in chain order. */
  function EnsembleLogPosts(c: Config, num: Numerics, draws: SamplerDraws): (e: seq<seq<real>>)
    requires ConfigShaped(c, draws) && SamplerError(c).None?
    ensures |e| == c.M && forall i :: 0 <= i < c.M ==> |e[i]| == c.N
  {
    seq(c.M, i requires 0 <= i < c.M => RetainedLogPosts(c, num, draws, i))
  }

  /** `ACC`: the acceptance rate of each chain's sampling run. */
  function EnsembleRates(c: Config, num: Numerics, draws: SamplerDraws): (a: seq<real>)
    requires ConfigShaped(c, draws) && SamplerError(c).None?
    ensures |a| == c.M
  {
    seq(c.M, i requires 0 <= i < c.M => AcceptRate(SampleParams(c, num, draws, i), num, draws.samp[i]))
  }

  /** `ChainMerged`: the retained chains stacked, chain 0 first. */
  function MergedChain(c: Config, num: Numerics, draws: SamplerDraws): (m: seq<Vector>)
    requires ConfigShaped(c, draws) && SamplerError(c).None?
    ensures |m| == c.M * c.N
  {
    ConcatLength(EnsembleRows(c, num, draws), c.N);
    Concat(EnsembleRows(c, num, draws))
  }

  /** `LogPostMerged`: the retained scores stacked, chain 0 first. */
  function MergedLogPost(c: Config, num: Numerics, draws: SamplerDraws): (m: seq<real>)
    requires ConfigShaped(c, draws) && SamplerError(c).None?
    ensures |m| == c.M * c.N
  {
    ConcatLength(EnsembleLogPosts(c, num, draws), c.N);
    Concat(EnsembleLogPosts(c, num, draws))
  }

  // ---------------------------------------------------------------------------------------
  // Properties of the merged result

  /** Row k = i*N + r of `ChainMerged` is row r of chain i's retained trajectory, and entry k of
      `LogPostMerged` is its score: block i of the merged arrays is chain i. */
  lemma MergedLayout(c: Config, num: Numerics, draws: SamplerDraws, i: nat, r: nat, k: nat)
    requires ConfigShaped(c, draws) && SamplerError(c).None?
    requires i < c.M && r < c.N && k == i * c.N + r
    ensures k < c.M * c.N
    ensures MergedChain(c, num, draws)[k] == Retained(c, num, draws, i)[r]
    ensures MergedLogPost(c, num, draws)[k] == RetainedLogPosts(c, num, draws, i)[r]
  {
    var rows, lps := EnsembleRows(c, num, draws), EnsembleLogPosts(c, num, draws);
    ConcatBlock(rows, c.N, i, r);
    ConcatBlock(lps, c.N, i, r);
    assert MergedChain(c, num, draws) == Concat(rows);
    assert MergedLogPost(c, num, draws) == Concat(lps);
    assert rows[i] == Retained(c, num, draws, i);
    assert lps[i] == RetainedLogPosts(c, num, draws, i);
  }

  /** Chain i's sampling run starts from the last row of chain i's own burn-in run, with the
      burn-in's proposal matrix, posterior and bounds. */
  lemma HandOff(c: Config, num: Numerics, draws: SamplerDraws, i: nat)
    requires ConfigShaped(c, draws) && SamplerError(c).None? && i < c.M
    ensures var bp := BurnParams(c, draws, i);
            && SampleParams(c, num, draws, i) == bp.(N := c.N, X := StateAfter(bp, num, draws.burn[i], c.B).x)
            && StateAfter(SampleParams(c, num, draws, i), num, draws.samp[i], 0).x
               == ChainRows(bp, num, draws.burn[i])[c.B - 1]
  {
    RowsAt(BurnParams(c, draws, i), num, draws.burn[i], c.B, c.B - 1);
  }

  /** Row r of chain i's retained scores is the posterior score of row r of its trajectory. */
  lemma RetainedScore(c: Config, num: Numerics, draws: SamplerDraws, i: nat, r: nat)
    requires ConfigShaped(c, draws) && SamplerError(c).None? && i < c.M && r < c.N
    ensures RetainedLogPosts(c, num, draws, i)[r]
      == FLogPost(c.floglike, c.flogprior, 1.0 / c.T, c.xlb, c.xub, num.log, Retained(c, num, draws, i)[r])
  {
    RecordedScores(SampleParams(c, num, draws, i), num, draws.samp[i]);
  }

  /** Every entry of `LogPostMerged` is the posterior score of the row beside it. */
  lemma MergedScores(c: Config, num: Numerics, draws: SamplerDraws)
    requires ConfigShaped(c, draws) && SamplerError(c).None?
    ensures forall k :: 0 <= k < c.M * c.N ==>
      MergedLogPost(c, num, draws)[k]
        == FLogPost(c.floglike, c.flogprior, 1.0 / c.T, c.xlb, c.xub, num.log, MergedChain(c, num, draws)[k])
  {
    var rows := EnsembleRows(c, num, draws);
    ConcatLength(rows, c.N);
    forall k | 0 <= k < c.M * c.N
      ensures MergedLogPost(c, num, draws)[k]
        == FLogPost(c.floglike, c.flogprior, 1.0 / c.T, c.xlb, c.xub, num.log, MergedChain(c, num, draws)[k])
    {
      var i, r := ConcatIndex(rows, c.N, k);
      MergedLayout(c, num, draws, i, r, k);
      RetainedScore(c, num, draws, i, r);
    }
  }

  /** The start points lie in the box: the caller's rows, or default starts from draws in [0, 1). */
  predicate StartsInBox(c: Config, draws: SamplerDraws)
    requires ConfigShaped(c, draws)
  {
    match c.Xinit
    case None => forall i :: 0 <= i < c.M ==> UnitDraws(draws.init[i])
    case Some(X) => forall i :: 0 <= i < c.M ==> InBox(X[i], c.xlb, c.xub)
  }

  /** With start points in a non-empty box, every row of chain i's retained trajectory lies in the box. */
  lemma RetainedInBox(c: Config, num: Numerics, draws: SamplerDraws, i: nat, r: nat)
    requires ConfigShaped(c, draws) && SamplerError(c).None? && i < c.M && r < c.N
    requires Ordered(c.xlb, c.xub) && StartsInBox(c, draws)
    ensures InBox(Retained(c, num, draws, i)[r], c.xlb, c.xub)
  {
    RecordedInBox(BurnParams(c, draws, i), num, draws.burn[i]);
    RecordedInBox(SampleParams(c, num, draws, i), num, draws.samp[i]);
  }

  /** With start points in a non-empty box, every row of `ChainMerged` lies in the box. */
  lemma MergedInBox(c: Config, num: Numerics, draws: SamplerDraws)
    requires ConfigShaped(c, draws) && SamplerError(c).None?
    requires Ordered(c.xlb, c.xub) && StartsInBox(c, draws)
    ensures forall k :: 0 <= k < |MergedChain(c, num, draws)| ==> InBox(MergedChain(c, num, draws)[k], c.xlb, c.xub)
  {
    var rows := EnsembleRows(c, num, draws);
    ConcatLength(rows, c.N);
    forall k | 0 <= k < |MergedChain(c, num, draws)|
      ensures InBox(MergedChain(c, num, draws)[k], c.xlb, c.xub)
    {
      var i, r := ConcatIndex(rows, c.N, k);
      MergedLayout(c, num, draws, i, r, k);
      RetainedInBox(c, num, draws, i, r);
    }
  }

  /** Every entry of `ACC` lies in [0, 1]. */
  lemma RatesInUnitInterval(c: Config, num: Numerics, draws: SamplerDraws)
    requires ConfigShaped(c, draws) && SamplerError(c).None?
    ensures forall i :: 0 <= i < c.M ==> 0.0 <= EnsembleRates(c, num, draws)[i] <= 1.0
  {
    forall i | 0 <= i < c.M
      ensures 0.0 <= EnsembleRates(c, num, draws)[i] <= 1.0
    {
      RateInUnitInterval(SampleParams(c, num, draws, i), num, draws.samp[i]);
    }
  }

  /** A flat likelihood and a flat (or default) prior: every proposal is accepted, so every
      entry of `ACC` is exactly 1. */
  lemma FlatPosteriorAcceptsAll(c: Config, num: Numerics, draws: SamplerDraws)
    requires ConfigShaped(c, draws) && SamplerError(c).None?
    requires forall x: Vector :: c.floglike(x) == c.floglike([])
    requires c.flogprior.Some? ==> forall x: Vector :: c.flogprior.value(x) == c.flogprior.value([])
    requires num.exp(0.0) == 1.0
    requires forall i :: 0 <= i < c.M ==> UnitDraws(draws.samp[i].u)
    ensures forall i :: 0 <= i < c.M ==> EnsembleRates(c, num, draws)[i] == 1.0
  {
    forall i | 0 <= i < c.M
      ensures EnsembleRates(c, num, draws)[i] == 1.0
    {
      var p := SampleParams(c, num, draws, i);
      assert p.floglike == c.floglike && p.flogprior == c.flogprior;
      FlatScore(p, num.log);
      ConstantScoreRate(p, num, draws.samp[i]);
    }
  }

  // ---------------------------------------------------------------------------------------
  // The sampler

  /** Writes block i, which starts at row `lo` = i*N, of the merged arrays and entry i of `ACC`
      (`ChainMerged[(i*N):((i+1)*N),:] = iChain`, `LogPostMerged[(i*N):((i+1)*N)] = iLogPost`,
      `ACC[i] = iAccept`): with blocks 0 .. i-1 already in place, blocks 0 .. i are. */
  method StoreBlock(i: nat, lo: nat, N: nat,
                    ghost rowBlocks: seq<seq<Vector>>, ghost lpBlocks: seq<seq<real>>, ghost rates: seq<real>,
                    rows: seq<Vector>, lps: seq<real>, rate: real,
                    chainMerged: array<Vector>, logPostMerged: array<real>, acc: array<real>)
    requires |rowBlocks| == |lpBlocks| == |rates| == acc.Length && i < |rates|
    requires |rows| == |lps| == N && rows == rowBlocks[i] && lps == lpBlocks[i] && rate == rates[i]
    requires chainMerged.Length == logPostMerged.Length && lo + N <= chainMerged.Length && logPostMerged != acc
    requires chainMerged[..lo] == Concat(rowBlocks[..i])
    requires logPostMerged[..lo] == Concat(lpBlocks[..i])
    requires acc[..i] == rates[..i]
    modifies chainMerged, logPostMerged, acc
    ensures chainMerged[..lo + N] == Concat(rowBlocks[..i + 1])
    ensures logPostMerged[..lo + N] == Concat(lpBlocks[..i + 1])
    ensures acc[..i + 1] == rates[..i + 1]
    ensures chainMerged[lo + N..] == old(chainMerged[lo + N..])
    ensures logPostMerged[lo + N..] == old(logPostMerged[lo + N..])
    ensures acc[i + 1..] == old(acc[i + 1..])
  {
    ghost var chain0, lp0 := chainMerged[..lo], logPostMerged[..lo];
    acc[i] := rate;
    forall r | 0 <= r < N {
      chainMerged[lo + r] := rows[r];
    }
    forall r | 0 <= r < N {
      logPostMerged[lo + r] := lps[r];
    }
    assert rowBlocks[..i + 1] == rowBlocks[..i] + [rows] && rowBlocks[..i + 1][..i] == rowBlocks[..i];
    assert lpBlocks[..i + 1] == lpBlocks[..i] + [lps] && lpBlocks[..i + 1][..i] == lpBlocks[..i];
    assert chainMerged[..lo + N] == chain0 + rows;
    assert logPostMerged[..lo + N] == lp0 + lps;
    assert acc[..i + 1] == rates[..i] + [rate];
  }

  /** Chain i's sampling run has the arguments of its burn-in run, with N steps, started from
      the last row of chain i's burn-in outcome. */
  lemma BurnHandsOn(c: Config, num: Numerics, draws: SamplerDraws, i: nat)
    requires ConfigShaped(c, draws) && c.T != 0.0 && c.B > 0 && i < c.M
    ensures |BurnOutcomes(c, num, draws)[i].chain| == c.B
    ensures BurnParams(c, draws, i).(N := c.N, X := BurnOutcomes(c, num, draws)[i].chain[c.B - 1])
      == SampleParams(c, num, draws, i)
  {
  }

  /** The two runs of one chain in the sequential loop: the burn-in run with arguments bp, then
      the run of n steps from the burn-in's last row `bChain[-1,:]`. */
  method RunPair(bp: ChainParams, n: nat, num: Numerics, bd: Draws, sd: Draws) returns (res: Result<Block, Error>)
    requires ChainShaped(bp, bd) && DrawsFit(sd, n, bp.D)
    ensures res.Failure? <==> bp.N == 0 || n == 0
    ensures res.Failure? ==> res.error == EmptyChain
    ensures res.Success? ==> bp.N > 0 && n > 0 && res.value == Outcome(HandOn(bp, n, num, bd), num, sd)
  {
    var b := MChain(bp.floglike, bp.flogprior, bp.beta, bp.N, bp.D, bp.xlb, bp.xub, bp.X, bp.sigma, num, bd);
    if b.Failure? {
      return Failure(b.error);
    }
    var bChain := b.value.chain;
    ContentsOfRun(b.value, bp, num, bd);
    assert bChain[bp.N - 1] == HandOn(bp, n, num, bd).X;
    var s := MChain(bp.floglike, bp.flogprior, bp.beta, n, bp.D, bp.xlb, bp.xub, bChain[bp.N - 1], bp.sigma, num, sd);
    if s.Failure? {
      return Failure(s.error);
    }
    ContentsOfRun(s.value, HandOn(bp, n, num, bd), num, sd);
    res := Success(Contents(s.value));
  }

  /** `for i in range(M)`: the two runs of chain i, one chain after the other, chain i's burn-in
      run having the arguments `bpara[i]`; the first failing run's exception is raised. The
      ghost `outs` names the outcomes the runs are expected to hand back. */
  method RunPairs(bpara: seq<ChainParams>, n: nat, num: Numerics, bdraws: seq<Draws>, sdraws: seq<Draws>,
                  ghost outs: seq<Block>)
    returns (res: Result<seq<Block>, Error>)
    requires |bpara| == |bdraws| == |sdraws| == |outs|
    requires forall k :: 0 <= k < |bpara| ==> ChainShaped(bpara[k], bdraws[k]) && DrawsFit(sdraws[k], n, bpara[k].D)
    requires forall k {:trigger Outcome(HandOn(bpara[k], n, num, bdraws[k]), num, sdraws[k])} ::
      0 <= k < |bpara| && bpara[k].N > 0 && n > 0 ==>
      outs[k] == Outcome(HandOn(bpara[k], n, num, bdraws[k]), num, sdraws[k])
    ensures res.Failure? <==> exists k :: 0 <= k < |bpara| && (bpara[k].N == 0 || n == 0)
    ensures res.Failure? ==> res.error == EmptyChain
    ensures res.Success? ==> res.value == outs
  {
    var runs: seq<Block> := [];
    for i := 0 to |bpara|
      invariant |runs| == i && forall k :: 0 <= k < i ==> runs[k] == outs[k]
      invariant forall k :: 0 <= k < i ==> bpara[k].N > 0 && n > 0
    {
      var r := RunPair(bpara[i], n, num, bdraws[i], sdraws[i]);
      if r.Failure? {
        assert bpara[i].N == 0 || n == 0;
        return Failure(r.error);
      }
      runs := runs + [r.value];
    }
    return Success(runs);
  }

  /** The arguments of chain i's burn-in run, `MChain(floglike, flogprior, beta, B, D, xlb, xub,
      X[i,:], sigma)`, one per chain; they are also the parallel branch's `bpara`. */
  method BurnBatchParams(c: Config, beta: real, sigma: Matrix, X: seq<Vector>) returns (bpara: seq<ChainParams>)
    requires |X| >= c.M
    ensures |bpara| == c.M
    ensures forall k :: 0 <= k < c.M ==>
      bpara[k] == ChainParams(c.floglike, c.flogprior, beta, c.B, c.D, c.xlb, c.xub, X[k], sigma)
  {
    bpara := [];
    for i := 0 to c.M
      invariant |bpara| == i
      invariant forall k :: 0 <= k < i ==>
        bpara[k] == ChainParams(c.floglike, c.flogprior, beta, c.B, c.D, c.xlb, c.xub, X[k], sigma)
    {
      bpara := bpara + [ChainParams(c.floglike, c.flogprior, beta, c.B, c.D, c.xlb, c.xub, X[i], sigma)];
    }
  }

  /** The sequential branch: chain after chain, the burn-in run and the sampling run. */
  method SequentialRuns(c: Config, num: Numerics, draws: SamplerDraws, beta: real, sigma: Matrix, X: seq<Vector>)
    returns (res: Result<seq<Block>, Error>)
    requires ConfigShaped(c, draws) && c.T != 0.0
    requires beta == 1.0 / c.T && sigma == ProposalCov(c)
    requires |X| >= c.M && forall i :: 0 <= i < c.M ==> X[i] == Start(c, draws, i)
    ensures res.Failure? <==> c.M > 0 && (c.B == 0 || c.N == 0)
    ensures res.Failure? ==> res.error == EmptyChain
    ensures res.Success? ==> (c.M > 0 ==> c.B > 0 && c.N > 0) && res.value == Outcomes(c, num, draws)
  {
    var bpara := BurnBatchParams(c, beta, sigma, X);
    assert forall k :: 0 <= k < c.M ==> bpara[k] == BurnParams(c, draws, k);
    if c.M > 0 && (c.B == 0 || c.N == 0) {
      res := RunPairs(bpara, c.N, num, draws.burn, draws.samp, seq(c.M, _ => Block([], 0.0, [])));
      assert bpara[0].N == c.B;
    } else {
      res := RunPairs(bpara, c.N, num, draws.burn, draws.samp, Outcomes(c, num, draws));
    }
  }

  /** `p.map(ParaMC, para)`: one run per parameter set, in order; the first failing run's
      exception is raised. The ghost `outs` names the outcomes the runs are expected to hand back. */
  method MapParaMC(para: seq<ChainParams>, num: Numerics, draws: seq<Draws>, ghost outs: seq<Block>)
    returns (res: Result<seq<Block>, Error>)
    requires |para| == |draws| == |outs|
    requires forall k :: 0 <= k < |para| ==> ChainShaped(para[k], draws[k])
    requires forall k {:trigger Outcome(para[k], num, draws[k])} ::
      0 <= k < |para| && para[k].N > 0 ==> outs[k] == Outcome(para[k], num, draws[k])
    ensures res.Failure? <==> exists k :: 0 <= k < |para| && para[k].N == 0
    ensures res.Failure? ==> res.error == EmptyChain
    ensures res.Success? ==> res.value == outs
  {
    var runs: seq<Block> := [];
    for i := 0 to |para|
      invariant |runs| == i && forall k :: 0 <= k < i ==> runs[k] == outs[k]
      invariant forall k :: 0 <= k < i ==> para[k].N > 0
    {
      var r := ParaMC(para[i], num, draws[i]);
      if r.Failure? {
        assert para[i].N == 0;
        return Failure(r.error);
      }
      ContentsOfRun(r.value, para[i], num, draws[i]);
      runs := runs + [Contents(r.value)];
    }
    return Success(runs);
  }

  /** The burn-in batch: `bres = p.map(ParaMC, bpara)`. */
  method BurnBatch(c: Config, num: Numerics, draws: SamplerDraws, beta: real, sigma: Matrix, X: seq<Vector>)
    returns (res: Result<seq<Block>, Error>)
    requires ConfigShaped(c, draws) && c.T != 0.0
    requires beta == 1.0 / c.T && sigma == ProposalCov(c)
    requires |X| >= c.M && forall i :: 0 <= i < c.M ==> X[i] == Start(c, draws, i)
    ensures res.Failure? <==> c.M > 0 && c.B == 0
    ensures res.Failure? ==> res.error == EmptyChain
    ensures res.Success? ==> (c.M > 0 ==> c.B > 0) && res.value == BurnOutcomes(c, num, draws)
  {
    var bpara := BurnBatchParams(c, beta, sigma, X);
    assert forall k :: 0 <= k < c.M ==> bpara[k] == BurnParams(c, draws, k);
    if c.M > 0 && c.B == 0 {
      res := MapParaMC(bpara, num, draws.burn, seq(c.M, _ => Block([], 0.0, [])));
      assert bpara[0].N == c.B;
    } else {
      res := MapParaMC(bpara, num, draws.burn, BurnOutcomes(c, num, draws));
    }
  }

  /** `ipara[i]`: the arguments of chain i's burn-in run with N steps, started from the last row
      `bres[i]['Chain'][-1,:]` of its burn-in chain. */
  method SampleBatchParams(c: Config, beta: real, sigma: Matrix, bres: seq<Block>) returns (ipara: seq<ChainParams>)
    requires forall k :: 0 <= k < |bres| ==> 0 < c.B == |bres[k].chain|
    ensures |ipara| == |bres|
    ensures forall k :: 0 <= k < |bres| ==>
      ipara[k] == ChainParams(c.floglike, c.flogprior, beta, c.N, c.D, c.xlb, c.xub, bres[k].chain[c.B - 1], sigma)
  {
    ipara := [];
    for i := 0 to |bres|
      invariant |ipara| == i
      invariant forall k :: 0 <= k < i ==>
        ipara[k] == ChainParams(c.floglike, c.flogprior, beta, c.N, c.D, c.xlb, c.xub, bres[k].chain[c.B - 1], sigma)
    {
      ipara := ipara + [ChainParams(c.floglike, c.flogprior, beta, c.N, c.D, c.xlb, c.xub, bres[i].chain[c.B - 1], sigma)];
    }
  }

  /** The sampling batch: `ires = p.map(ParaMC, ipara)`. */
  method SampleBatch(c: Config, num: Numerics, draws: SamplerDraws, beta: real, sigma: Matrix, bres: seq<Block>)
    returns (res: Result<seq<Block>, Error>)
    requires ConfigShaped(c, draws) && c.T != 0.0 && (c.M > 0 ==> c.B > 0)
    requires beta == 1.0 / c.T && sigma == ProposalCov(c)
    requires bres == BurnOutcomes(c, num, draws)
    ensures res.Failure? <==> c.M > 0 && c.N == 0
    ensures res.Failure? ==> res.error == EmptyChain
    ensures res.Success? ==> (c.M > 0 ==> c.N > 0) && res.value == Outcomes(c, num, draws)
  {
    forall k | 0 <= k < c.M
      ensures 0 < c.B == |bres[k].chain|
    {
      BurnHandsOn(c, num, draws, k);
    }
    var ipara := SampleBatchParams(c, beta, sigma, bres);
    forall k | 0 <= k < c.M
      ensures ipara[k] == SampleParams(c, num, draws, k)
    {
      BurnHandsOn(c, num, draws, k);
    }
    if c.M > 0 && c.N == 0 {
      res := MapParaMC(ipara, num, draws.samp, seq(c.M, _ => Block([], 0.0, [])));
      assert ipara[0].N == c.N;
    } else {
      res := MapParaMC(ipara, num, draws.samp, Outcomes(c, num, draws));
    }
  }

  /** The parallel branch: `p = Pool(processes)`, the burn-in runs of all chains as one batch,
      then the sampling runs, each from the last row of its own burn-in, as a second batch. */
  method ParallelRuns(c: Config, num: Numerics, draws: SamplerDraws, beta: real, sigma: Matrix, X: seq<Vector>)
    returns (res: Result<seq<Block>, Error>)
    requires ConfigShaped(c, draws) && c.T != 0.0
    requires beta == 1.0 / c.T && sigma == ProposalCov(c)
    requires |X| >= c.M && forall i :: 0 <= i < c.M ==> X[i] == Start(c, draws, i)
    ensures res.Failure? <==> c.processes < 1 || (c.M > 0 && (c.B == 0 || c.N == 0))
    ensures res.Failure? ==> res.error == if c.processes < 1 then NoWorkers else EmptyChain
    ensures res.Success? ==> (c.M > 0 ==> c.B > 0 && c.N > 0) && res.value == Outcomes(c, num, draws)
  {
    if c.processes < 1 {
      return Failure(NoWorkers);
    }
    var bres := BurnBatch(c, num, draws, beta, sigma, X);
    if bres.Failure? {
      return Failure(bres.error);
    }
    res := SampleBatch(c, num, draws, beta, sigma, bres.value);
  }

  /** The proposal matrix of `sampler`: the caller's, or the default one. */
  method Proposal(c: Config) returns (sigma: Matrix)
    requires |c.xlb| == c.D && |c.xub| == c.D
    ensures sigma == ProposalCov(c)
  {
    if c.sigma.None? {
      var s := DefaultSigma(c.D, c.xlb, c.xub);
      sigma := s[..];
    } else {
      sigma := c.sigma.value;
    }
  }

  /** The start points of `sampler`: the caller's `Xinit`, or the default uniform draws. */
  method Starts(c: Config, draws: SamplerDraws) returns (X: seq<Vector>)
    requires ConfigShaped(c, draws)
    ensures |X| >= c.M && forall i :: 0 <= i < c.M ==> X[i] == Start(c, draws, i)
  {
    if c.Xinit.None? {
      var x := DefaultStarts(c.M, c.D, c.xlb, c.xub, draws.init);
      X := x[..];
    } else {
      X := c.Xinit.value;
    }
  }

  /** The runs of all chains once `beta = 1.0/T` is known: in the sequential loop or in the two
      parallel batches, as `parallel` says. */
  method EnsembleRuns(c: Config, num: Numerics, draws: SamplerDraws) returns (res: Result<seq<Block>, Error>)
    requires ConfigShaped(c, draws) && c.T != 0.0
    ensures res.Failure? <==> SamplerError(c).Some?
    ensures res.Failure? ==> res.error == SamplerError(c).value
    ensures res.Success? ==> SamplerError(c).None? && res.value == Outcomes(c, num, draws)
  {
    var beta := 1.0 / c.T;
    var sigma := Proposal(c);
    var X := Starts(c, draws);
    if !c.parallel {
      res := SequentialRuns(c, num, draws, beta, sigma, X);
    } else {
      res := ParallelRuns(c, num, draws, beta, sigma, X);
    }
  }

  /** Storing the runs into the merged arrays: block i of `ChainMerged` and `LogPostMerged` and
      entry i of `ACC` from run i. Stated over the blocks the runs hold, so that the merged
      arrays are their stacking. */
  method MergeRuns(N: nat, runs: seq<Block>,
                   ghost rowBlocks: seq<seq<Vector>>, ghost lpBlocks: seq<seq<real>>, ghost rates: seq<real>,
                   chainMerged: array<Vector>, logPostMerged: array<real>, acc: array<real>)
    requires |runs| == |rowBlocks| == |lpBlocks| == |rates| == acc.Length
    requires forall k :: 0 <= k < |runs| ==> |rowBlocks[k]| == N && |lpBlocks[k]| == N
    requires forall k :: 0 <= k < |runs| ==>
      runs[k].chain == rowBlocks[k] && runs[k].logPost == lpBlocks[k] && runs[k].accept == rates[k]
    requires chainMerged.Length == logPostMerged.Length == |runs| * N && logPostMerged != acc
    modifies chainMerged, logPostMerged, acc
    ensures chainMerged[..] == Concat(rowBlocks)
    ensures logPostMerged[..] == Concat(lpBlocks)
    ensures acc[..] == rates
  {
    var M := |runs|;
    var lo: nat := 0;
    for i := 0 to M
      invariant lo == i * N && lo <= chainMerged.Length
      invariant chainMerged[..lo] == Concat(rowBlocks[..i])
      invariant logPostMerged[..lo] == Concat(lpBlocks[..i])
      invariant acc[..i] == rates[..i]
    {
      MulSucc(i, N);
      MulMono(i + 1, M, N);
      StoreBlock(i, lo, N, rowBlocks, lpBlocks, rates,
                 runs[i].chain, runs[i].logPost, runs[i].accept, chainMerged, logPostMerged, acc);
      lo := lo + N;
    }
    assert chainMerged[..] == chainMerged[..lo] && logPostMerged[..] == logPostMerged[..lo] && acc[..] == acc[..M];
    assert rowBlocks[..M] == rowBlocks && lpBlocks[..M] == lpBlocks && rates[..M] == rates;
  }

  /** The merged arrays `ChainMerged`, `LogPostMerged` and `ACC` filled from the runs of all chains. */
  method Merge(c: Config, num: Numerics, draws: SamplerDraws, ires: seq<Block>) returns (out: SamplerOut)
    requires ConfigShaped(c, draws) && SamplerError(c).None?
    requires ires == Outcomes(c, num, draws)
    ensures fresh(out.chainMerged) && fresh(out.logPostMerged) && fresh(out.acc)
    ensures out.chainMerged[..] == MergedChain(c, num, draws)
    ensures out.logPostMerged[..] == MergedLogPost(c, num, draws)
    ensures out.acc[..] == EnsembleRates(c, num, draws)
  {
    var chainMerged := new Vector[c.M * c.N](_ => Zeros(c.D));
    var logPostMerged := new real[c.M * c.N](_ => 0.0);
    var acc := new real[c.M](_ => 0.0);
    MergeRuns(c.N, ires, EnsembleRows(c, num, draws), EnsembleLogPosts(c, num, draws), EnsembleRates(c, num, draws),
              chainMerged, logPostMerged, acc);
    out := SamplerOut(chainMerged, logPostMerged, acc);
  }

  /** `sampler`: runs M chains, each a burn-in of B steps and a retained run of N steps from the
      burn-in's last row, and returns the merged chains, merged scores and the per-chain rates.
      The sequential and the parallel branch return the same result for the same per-chain
      draws. */
  method Sampler(c: Config, num: Numerics, draws: SamplerDraws) returns (r: Result<SamplerOut, Error>)
    requires ConfigShaped(c, draws)
    ensures r.Failure? <==> SamplerError(c).Some?
    ensures r.Failure? ==> r.error == SamplerError(c).value
    ensures r.Success? ==>
      && fresh(r.value.chainMerged) && fresh(r.value.logPostMerged) && fresh(r.value.acc)
      && r.value.chainMerged[..] == MergedChain(c, num, draws)
      && r.value.logPostMerged[..] == MergedLogPost(c, num, draws)
      && r.value.acc[..] == EnsembleRates(c, num, draws)
  {
    if c.T == 0.0 {
      return Failure(ZeroTemperature);
    }
    var runs := EnsembleRuns(c, num, draws);
    if runs.Failure? {
      return Failure(runs.error);
    }
    var out := Merge(c, num, draws, runs.value);
    r := Success(out);
  }
}
