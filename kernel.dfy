/** The single-chain random-walk Metropolis kernel `MChain` and its dictionary wrapper `ParaMC`.

    Scores are on the -2 log scale: lower is better. Randomness and numerics come from outside:
    each run gets its standard-normal vectors `z` and uniform draws `u` (`Draws`), and the
    product of a draw with the Cholesky factor of the proposal matrix, `exp` and `log` are
    supplied functions (`Numerics`). `StateAfter` is the trajectory the kernel must follow;
    `MChain` is proved to record exactly that trajectory. */
module Kernel {
  import opened Wrappers
  import opened Vectors

  /** `z -> np.dot(z, np.linalg.cholesky(sigma))`: the perturbation has the length of the draw. */
  type Perturbation = f: (Matrix, Vector) -> Vector | forall s: Matrix, z: Vector :: |f(s, z)| == |z|
    witness (s: Matrix, z: Vector) => z

  /** The numerics the kernel calls: the Gaussian perturbation, `np.exp` and `np.log`. */
  datatype Numerics = Numerics(perturb: Perturbation, exp: real -> real, log: real -> real)

  /** The random draws of one chain run: `np.random.randn(D)` and `np.random.rand()`, one of each per step. */
  datatype Draws = Draws(z: seq<Vector>, u: seq<real>)

  /** The arguments of `MChain`, which are also the keys of the dictionary `ParaMC` unpacks. */
  datatype ChainParams = ChainParams(
    floglike: Vector -> real,
    flogprior: Option<Vector -> real>,
    beta: real,
    N: nat,
    D: nat,
    xlb: Vector,
    xub: Vector,
    X: Vector,
    sigma: Matrix)

  /** What `MChain` returns: the N recorded states, the acceptance rate and the N recorded scores. */
  datatype ChainRun = ChainRun(chain: array<Vector>, accept: real, logPost: array<real>)

  /** The exceptions the sampler can raise on well-shaped inputs. */
  datatype Error =
    | EmptyChain       // `Accept /= N` with N == 0 (ZeroDivisionError)
    | ZeroTemperature  // `beta = 1.0/T` with T == 0 (ZeroDivisionError)
    | NoWorkers        // `Pool(processes)` with processes < 1 (ValueError)

  /** The current point, its score and the number of accepted proposals so far. */
  datatype State = State(x: Vector, px: real, accepted: nat)

  /** n draws of dimension d. */
  predicate DrawsFit(d: Draws, n: nat, dim: nat)
  {
    |d.z| == n && |d.u| == n && forall k :: 0 <= k < n ==> |d.z[k]| == dim
  }

  /** The shapes `MChain` relies on: bounds and start point of dimension D, one draw per step. */
  predicate ChainShaped(p: ChainParams, d: Draws)
  {
    |p.xlb| == p.D && |p.xub| == p.D && |p.X| == p.D && DrawsFit(d, p.N, p.D)
  }

  /** Draws of `np.random.rand`, which lie in [0, 1). */
  predicate UnitDraws(u: seq<real>)
  {
    forall k :: 0 <= k < |u| ==> 0.0 <= u[k] < 1.0
  }

  /** The least an implementation of `np.exp` must satisfy for the acceptance rule. */
  ghost predicate ExpBounds(exp: real -> real)
  {
    exp(0.0) == 1.0 && forall t :: t <= 0.0 ==> exp(t) <= 1.0
  }

  /** `np.sum(np.log(xub - xlb))`. */
  function SumLog(log: real -> real, lo: Vector, hi: Vector): real
    requires |lo| == |hi|
  {
    if |lo| == 0 then 0.0
    else SumLog(log, lo[..|lo| - 1], hi[..|hi| - 1]) + log(hi[|hi| - 1] - lo[|lo| - 1])
  }

  /** The -2 log posterior `flogpost`: the tempered likelihood plus the prior, or, without a
      prior, minus twice the log volume of the box (a uniform prior on it). */
  function FLogPost(floglike: Vector -> real, flogprior: Option<Vector -> real>, beta: real,
                    xlb: Vector, xub: Vector, log: real -> real, x: Vector): real
    requires |xlb| == |xub|
  {
    match flogprior
    case None => floglike(x) * beta - 2.0 * SumLog(log, xlb, xub)
    case Some(prior) => floglike(x) * beta + prior(x)
  }

  /** The difference of two scores, which the acceptance ratio depends on, is the tempered
      difference of the likelihoods plus that of the priors; the box term of the default
      uniform prior cancels. */
  lemma ScoreDifference(floglike: Vector -> real, flogprior: Option<Vector -> real>, beta: real,
                        xlb: Vector, xub: Vector, log: real -> real, x: Vector, y: Vector)
    requires |xlb| == |xub|
    ensures FLogPost(floglike, flogprior, beta, xlb, xub, log, x) - FLogPost(floglike, flogprior, beta, xlb, xub, log, y)
      == beta * (floglike(x) - floglike(y)) + (if flogprior.Some? then flogprior.value(x) - flogprior.value(y) else 0.0)
  {
  }

  /** `flogpost` of one chain's parameters. */
  function Score(p: ChainParams, log: real -> real, x: Vector): real
    requires |p.xlb| == |p.xub|
  {
    FLogPost(p.floglike, p.flogprior, p.beta, p.xlb, p.xub, log, x)
  }

  /** The proposal: the perturbation added to the current point, clipped into the box. */
  function Propose(p: ChainParams, num: Numerics, x: Vector, z: Vector): (xt: Vector)
    requires |x| == |z| == |p.xlb| == |p.xub|
    ensures |xt| == |x|
  {
    Clip(Add(num.perturb(p.sigma, z), x), p.xlb, p.xub)
  }

  /** The acceptance ratio; a strictly better candidate takes the fast path r = 1. */
  function Ratio(exp: real -> real, px: real, pxt: real): real
  {
    if px > pxt then 1.0 else exp(0.5 * (px - pxt))
  }

  predicate Accepts(exp: real -> real, px: real, pxt: real, u: real)
  {
    u <= Ratio(exp, px, pxt)
  }

  /** One step of the chain: propose, score, and accept or keep the current state. */
  function Transition(p: ChainParams, num: Numerics, s: State, z: Vector, u: real): State
    requires |s.x| == |z| == |p.xlb| == |p.xub|
  {
    var xt := Propose(p, num, s.x, z);
    var pxt := Score(p, num.log, xt);
    if Accepts(num.exp, s.px, pxt, u) then State(xt, pxt, s.accepted + 1) else s
  }

  /** The state after the first n steps of the chain started at p.X. */
  function StateAfter(p: ChainParams, num: Numerics, d: Draws, n: nat): (s: State)
    requires ChainShaped(p, d) && n <= p.N
    ensures |s.x| == p.D
  {
    if n == 0 then State(p.X, Score(p, num.log, p.X), 0)
    else Transition(p, num, StateAfter(p, num, d, n - 1), d.z[n - 1], d.u[n - 1])
  }

  /** The first n recorded states: `Chain[i,:]` is the state after step i + 1. */
  function Rows(p: ChainParams, num: Numerics, d: Draws, n: nat): (rows: seq<Vector>)
    requires ChainShaped(p, d) && n <= p.N
    ensures |rows| == n
  {
    if n == 0 then [] else Rows(p, num, d, n - 1) + [StateAfter(p, num, d, n).x]
  }

  /** The first n recorded scores `LogPost[i]`, parallel to `Rows`. */
  function LogPosts(p: ChainParams, num: Numerics, d: Draws, n: nat): (lps: seq<real>)
    requires ChainShaped(p, d) && n <= p.N
    ensures |lps| == n
  {
    if n == 0 then [] else LogPosts(p, num, d, n - 1) + [StateAfter(p, num, d, n).px]
  }

  /** All N recorded states of the chain. */
  function ChainRows(p: ChainParams, num: Numerics, d: Draws): (rows: seq<Vector>)
    requires ChainShaped(p, d)
    ensures |rows| == p.N
  {
    Rows(p, num, d, p.N)
  }

  /** All N recorded scores of the chain. */
  function ChainLogPosts(p: ChainParams, num: Numerics, d: Draws): (lps: seq<real>)
    requires ChainShaped(p, d)
    ensures |lps| == p.N
  {
    LogPosts(p, num, d, p.N)
  }

  /** `Accept / N` for an accept counter kept as a float; it is a fraction of the steps. */
  function Rate(count: nat, n: nat): (r: real)
    requires n > 0
    ensures count <= n ==> 0.0 <= r <= 1.0
    ensures r == 1.0 <==> count == n
  {
    var r := count as real / n as real;
    FractionBounds(count as real, n as real, r);
    r
  }

  lemma FractionBounds(a: real, d: real, r: real)
    requires 0.0 <= a && 0.0 < d && r == a / d
    ensures 0.0 <= r && (a <= d ==> r <= 1.0) && (r == 1.0 <==> a == d)
  {
    assert r * d == a;
  }

  /** The acceptance rate the kernel reports. */
  function AcceptRate(p: ChainParams, num: Numerics, d: Draws): real
    requires ChainShaped(p, d) && p.N > 0
  {
    Rate(StateAfter(p, num, d, p.N).accepted, p.N)
  }

  /** The arrays and rate of `run` are the trajectory of the chain given by p and d. */
  ghost predicate Describes(run: ChainRun, p: ChainParams, num: Numerics, d: Draws)
    requires ChainShaped(p, d) && p.N > 0
    reads run.chain, run.logPost
  {
    && run.chain[..] == ChainRows(p, num, d)
    && run.logPost[..] == ChainLogPosts(p, num, d)
    && run.accept == AcceptRate(p, num, d)
  }

  // ---------------------------------------------------------------------------------------
  // Properties of the trajectory

  /** Row k of the record is the state after k + 1 steps, and so is its score. */
  lemma {:induction false} RowsAt(p: ChainParams, num: Numerics, d: Draws, n: nat, k: nat)
    requires ChainShaped(p, d) && k < n <= p.N
    ensures Rows(p, num, d, n)[k] == StateAfter(p, num, d, k + 1).x
    ensures LogPosts(p, num, d, n)[k] == StateAfter(p, num, d, k + 1).px
  {
    if k < n - 1 {
      RowsAt(p, num, d, n - 1, k);
    }
  }

  /** The acceptance rule: with u in [0, 1), a strictly better candidate is always accepted, and
      so is one of equal score (exp(0) = 1); the ratio never exceeds 1. */
  lemma AcceptanceRule(exp: real -> real, px: real, pxt: real, u: real)
    requires ExpBounds(exp) && 0.0 <= u < 1.0
    ensures Ratio(exp, px, pxt) <= 1.0
    ensures px > pxt ==> Accepts(exp, px, pxt, u)
    ensures px == pxt ==> Accepts(exp, px, pxt, u)
  {
    assert px == pxt ==> 0.5 * (px - pxt) == 0.0;
  }

  /** The kernel's loop invariant: the current score is the score of the current point. */
  lemma {:induction false} ScoreTracksState(p: ChainParams, num: Numerics, d: Draws, n: nat)
    requires ChainShaped(p, d) && n <= p.N
    ensures StateAfter(p, num, d, n).px == Score(p, num.log, StateAfter(p, num, d, n).x)
  {
    if n > 0 {
      ScoreTracksState(p, num, d, n - 1);
    }
  }

  /** A chain started in the box never leaves it. */
  lemma {:induction false} StateInBox(p: ChainParams, num: Numerics, d: Draws, n: nat)
    requires ChainShaped(p, d) && n <= p.N
    requires InBox(p.X, p.xlb, p.xub)
    ensures InBox(StateAfter(p, num, d, n).x, p.xlb, p.xub)
  {
    if n > 0 {
      StateInBox(p, num, d, n - 1);
      var s := StateAfter(p, num, d, n - 1);
      InBoxOrdered(p.X, p.xlb, p.xub);
      ClipInBox(Add(num.perturb(p.sigma, d.z[n - 1]), s.x), p.xlb, p.xub);
    }
  }

  /** Every recorded score is the score of the state recorded beside it. */
  lemma RecordedScores(p: ChainParams, num: Numerics, d: Draws)
    requires ChainShaped(p, d)
    ensures |ChainRows(p, num, d)| == |ChainLogPosts(p, num, d)| == p.N
    ensures forall i :: 0 <= i < p.N ==>
      ChainLogPosts(p, num, d)[i] == Score(p, num.log, ChainRows(p, num, d)[i])
  {
    forall i | 0 <= i < p.N
      ensures ChainLogPosts(p, num, d)[i] == Score(p, num.log, ChainRows(p, num, d)[i])
    {
      RowsAt(p, num, d, p.N, i);
      ScoreTracksState(p, num, d, i + 1);
    }
  }

  lemma RecordedRowInBox(p: ChainParams, num: Numerics, d: Draws, i: nat)
    requires ChainShaped(p, d) && i < p.N
    requires InBox(p.X, p.xlb, p.xub)
    ensures InBox(ChainRows(p, num, d)[i], p.xlb, p.xub)
  {
    RowsAt(p, num, d, p.N, i);
    StateInBox(p, num, d, i + 1);
    assert ChainRows(p, num, d)[i] == StateAfter(p, num, d, i + 1).x;
  }

  /** If the start point is in the box, so is every recorded row. */
  lemma RecordedInBox(p: ChainParams, num: Numerics, d: Draws)
    requires ChainShaped(p, d)
    requires InBox(p.X, p.xlb, p.xub)
    ensures forall i :: 0 <= i < p.N ==> InBox(ChainRows(p, num, d)[i], p.xlb, p.xub)
  {
    forall i | 0 <= i < p.N
      ensures InBox(ChainRows(p, num, d)[i], p.xlb, p.xub)
    {
      RecordedRowInBox(p, num, d, i);
    }
  }

  /** At most one acceptance per step. */
  lemma {:induction false} AcceptCountBound(p: ChainParams, num: Numerics, d: Draws, n: nat)
    requires ChainShaped(p, d) && n <= p.N
    ensures StateAfter(p, num, d, n).accepted <= n
  {
    if n > 0 {
      AcceptCountBound(p, num, d, n - 1);
    }
  }

  /** Whatever the draws, each step either keeps state, score and count, or moves to the step's
      clipped candidate with the candidate's score and one more acceptance; with uniform draws
      in [0, 1) a strictly better candidate is taken. */
  lemma RecordedStep(p: ChainParams, num: Numerics, d: Draws, n: nat)
    requires ChainShaped(p, d) && n < p.N
    ensures var s := StateAfter(p, num, d, n);
            var xt := Propose(p, num, s.x, d.z[n]);
            var s' := StateAfter(p, num, d, n + 1);
            && (s' == s || s' == State(xt, Score(p, num.log, xt), s.accepted + 1))
            && (UnitDraws(d.u) && s.px > Score(p, num.log, xt) ==> s'.x == xt)
  {
  }

  /** Predicts the same score for every point. */
  ghost predicate ConstantScore(p: ChainParams, log: real -> real)
    requires |p.xlb| == |p.xub|
  {
    forall x: Vector :: Score(p, log, x) == Score(p, log, p.X)
  }

  /** A likelihood and a prior that do not depend on the point make the score constant. */
  lemma FlatScore(p: ChainParams, log: real -> real)
    requires |p.xlb| == |p.xub|
    requires forall x: Vector :: p.floglike(x) == p.floglike(p.X)
    requires p.flogprior.Some? ==> forall x: Vector :: p.flogprior.value(x) == p.flogprior.value(p.X)
    ensures ConstantScore(p, log)
  {
  }

  /** Under a constant score every proposal is accepted: pX == pXt, so r = exp(0) = 1 >= u. */
  lemma {:induction false} ConstantScoreAcceptsAll(p: ChainParams, num: Numerics, d: Draws, n: nat)
    requires ChainShaped(p, d) && n <= p.N
    requires ConstantScore(p, num.log) && num.exp(0.0) == 1.0 && UnitDraws(d.u)
    ensures StateAfter(p, num, d, n).accepted == n
  {
    if n > 0 {
      ConstantScoreAcceptsAll(p, num, d, n - 1);
      var s := StateAfter(p, num, d, n - 1);
      var xt := Propose(p, num, s.x, d.z[n - 1]);
      ScoreTracksState(p, num, d, n - 1);
      assert s.px == Score(p, num.log, s.x) == Score(p, num.log, p.X) == Score(p, num.log, xt);
      assert 0.5 * (s.px - Score(p, num.log, xt)) == 0.0;
    }
  }

  /** A constant score gives an acceptance rate of exactly 1. */
  lemma ConstantScoreRate(p: ChainParams, num: Numerics, d: Draws)
    requires ChainShaped(p, d) && p.N > 0
    requires ConstantScore(p, num.log) && num.exp(0.0) == 1.0 && UnitDraws(d.u)
    ensures AcceptRate(p, num, d) == 1.0
  {
    ConstantScoreAcceptsAll(p, num, d, p.N);
  }

  /** Every reported acceptance rate lies in [0, 1]. */
  lemma RateInUnitInterval(p: ChainParams, num: Numerics, d: Draws)
    requires ChainShaped(p, d) && p.N > 0
    ensures 0.0 <= AcceptRate(p, num, d) <= 1.0
  {
    AcceptCountBound(p, num, d, p.N);
  }

  // ---------------------------------------------------------------------------------------
  // The kernel

  /** Steps 1 to 3 of one iteration of the kernel's loop: propose a clipped candidate, compute
      the acceptance ratio with its r = 1 fast path, and accept when u <= r. */
  method Step(p: ChainParams, num: Numerics, x: Vector, px: real, z: Vector, u: real)
    returns (x': Vector, px': real, accepted: bool)
    requires |x| == |z| == |p.xlb| == |p.xub|
    ensures var xt := Propose(p, num, x, z);
            && accepted == Accepts(num.exp, px, Score(p, num.log, xt), u)
            && (accepted ==> x' == xt && px' == Score(p, num.log, xt))
            && (!accepted ==> x' == x && px' == px)
  {
    // step 1: the proposed point
    var xt := Clip(Add(num.perturb(p.sigma, z), x), p.xlb, p.xub);
    var pxt := Score(p, num.log, xt);
    // step 2: the acceptance ratio
    var ratio;
    if px > pxt {
      ratio := 1.0;
    } else {
      ratio := num.exp(0.5 * (px - pxt));
    }
    // step 3: accept or decline
    if u <= ratio {
      x', px', accepted := xt, pxt, true;
    } else {
      x', px', accepted := x, px, false;
    }
  }

  /** Runs exactly N Metropolis steps from X and records every state and score. With N == 0 the
      final `Accept /= N` raises. */
  method MChain(floglike: Vector -> real, flogprior: Option<Vector -> real>, beta: real,
                N: nat, D: nat, xlb: Vector, xub: Vector, X: Vector, sigma: Matrix,
                num: Numerics, draws: Draws)
    returns (r: Result<ChainRun, Error>)
    requires ChainShaped(ChainParams(floglike, flogprior, beta, N, D, xlb, xub, X, sigma), draws)
    ensures r.Failure? <==> N == 0
    ensures r.Failure? ==> r.error == EmptyChain
    ensures r.Success? ==>
      var p := ChainParams(floglike, flogprior, beta, N, D, xlb, xub, X, sigma);
      && fresh(r.value.chain) && fresh(r.value.logPost)
      && Describes(r.value, p, num, draws)
      && 0.0 <= r.value.accept <= 1.0
      && (forall i :: 0 <= i < N ==> r.value.logPost[i] == Score(p, num.log, r.value.chain[i]))
      && (InBox(X, xlb, xub) ==>
            forall i :: 0 <= i < N ==> InBox(r.value.chain[i], xlb, xub))
  {
    var p := ChainParams(floglike, flogprior, beta, N, D, xlb, xub, X, sigma);
    var accept := 0.0;
    var chain := new Vector[N](_ => Zeros(D));
    var logPost := new real[N](_ => 0.0);
    var x := X;
    var px := Score(p, num.log, x);
    ghost var s := StateAfter(p, num, draws, 0);
    for i := 0 to N
      invariant s == StateAfter(p, num, draws, i)
      invariant x == s.x && px == s.px && accept == s.accepted as real
      invariant chain[..i] == Rows(p, num, draws, i)
      invariant logPost[..i] == LogPosts(p, num, draws, i)
    {
      var accepted;
      x, px, accepted := Step(p, num, x, px, draws.z[i], draws.u[i]);
      if accepted {
        accept := accept + 1.0;
      }
      s := Transition(p, num, s, draws.z[i], draws.u[i]);
      chain[i] := x;
      logPost[i] := px;
      assert chain[..i + 1] == chain[..i] + [x];
      assert logPost[..i + 1] == logPost[..i] + [px];
    }
    if N == 0 {
      return Failure(EmptyChain);
    }
    assert chain[..] == chain[..N] && logPost[..] == logPost[..N];
    RateInUnitInterval(p, num, draws);
    RecordedScores(p, num, draws);
    if InBox(X, xlb, xub) {
      RecordedInBox(p, num, draws);
    }
    r := Success(ChainRun(chain, accept / N as real, logPost));
  }

  /** `ParaMC`: unpacks the parameter dictionary and runs `MChain`; its result is `MChain`'s. */
  method ParaMC(xpara: ChainParams, num: Numerics, draws: Draws) returns (res: Result<ChainRun, Error>)
    requires ChainShaped(xpara, draws)
    ensures res.Failure? <==> xpara.N == 0
    ensures res.Failure? ==> res.error == EmptyChain
    ensures res.Success? ==>
      fresh(res.value.chain) && fresh(res.value.logPost) && Describes(res.value, xpara, num, draws)
  {
    res := MChain(xpara.floglike, xpara.flogprior, xpara.beta, xpara.N, xpara.D,
                  xpara.xlb, xpara.xub, xpara.X, xpara.sigma, num, draws);
  }
}
