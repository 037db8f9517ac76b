/**
 * The staged-fit bookkeeping of MySGDRegressor.
 *
 * The regressor trains a linear model in steps of n_iter_per_step
 * iterations, keeps a snapshot (cumulative iterations, coefficients,
 * intercept) after every step, and replays those snapshots to predict and to
 * score at every stage.  The numerical work belongs to the linear-model
 * library and is taken here as given functions over abstract types: one SGD
 * run, the raw linear prediction, the rescaling of a prediction batch into
 * [0, 1], and the area under the ROC curve.
 */
module StagedSGD {

  /** The (transformed) feature matrix handed to fit and predict. */
  type Features
  /** The target vector. */
  type Labels
  /** A coefficient vector, coef_. */
  type Coef
  /** An intercept, intercept_. */
  type Intercept
  /** A batch of predictions. */
  type Prediction
  /** The extra keyword options passed through to the library. */
  type SolverOptions

  datatype Option<T> = None | Some(value: T)

  datatype Error =
    | StepSizeZero        // max_iter % n_iter_per_step divides by zero
    | StepSizeNotAFactor  // max_iter is not a multiple of n_iter_per_step
    | InterceptMissing    // predict was given coefficients but no intercept
    | NotFitted           // predict found no stored coefficients

  datatype Result<T> = Ok(value: T) | Err(error: Error)

  /** What reset_args hands to the library's SGD regressor. */
  datatype SolverParams = SolverParams(
    alpha: real,
    learningRate: string,
    eta0: real,
    penalty: string,
    nIter: nat,
    options: SolverOptions)

  /** Where one SGD run starts: from scratch, or warm from earlier coefficients. */
  datatype Start = Scratch | Warm(coef: Coef, intercept: Intercept)

  /** The coefficients and intercept one SGD run ends with. */
  datatype Fitted = Fitted(coef: Coef, intercept: Intercept)

  /** One recorded stage: cumulative iterations and copies of the state. */
  datatype Stage = Stage(iterations: int, coef: Coef, intercept: Intercept)

  /** The numerical collaborators, as functions. */
  datatype Library = Library(
    sgdFit: (SolverParams, Features, Labels, Start) -> Fitted,
    decision: (Features, Coef, Intercept) -> Prediction,
    scale: Prediction -> Prediction,
    auc: (Labels, Prediction) -> real)

  /** Two parallel columns, or nothing at all when there were no rows. */
  datatype Unzipped<A, B> = Nothing | Columns(firsts: seq<A>, seconds: seq<B>)

  const LearningRate: string := "constant"
  const Eta0: real := 0.001

  /**
   * reset_args: the divisibility check on the iteration budget, then the
   * parameters of one constant-learning-rate SGD step of n_iter_per_step
   * iterations.
   */
  function ResetArgs(nIterPerStep: nat, maxIter: int, alpha: real, penalty: string,
                     options: SolverOptions): (r: Result<SolverParams>)
    ensures r.Ok? <==> nIterPerStep > 0 && maxIter % nIterPerStep == 0
    ensures nIterPerStep == 0 ==> r == Err(StepSizeZero)
    ensures nIterPerStep > 0 && maxIter % nIterPerStep != 0 ==> r == Err(StepSizeNotAFactor)
    ensures r.Ok? ==> r.value == SolverParams(alpha, LearningRate, Eta0, penalty, nIterPerStep, options)
  {
    if nIterPerStep == 0 then Err(StepSizeZero)
    else if maxIter % nIterPerStep != 0 then Err(StepSizeNotAFactor)
    else Ok(SolverParams(alpha, LearningRate, Eta0, penalty, nIterPerStep, options))
  }

  /**
   * The number of SGD steps fit runs: the number of values in
   * range(0, max_iter, n_iter) once n_iter divides max_iter.
   */
  function StepCount(maxIter: int, nIter: nat): nat
    requires nIter > 0
  {
    if maxIter <= 0 then 0 else maxIter / nIter
  }

  /** Where the next step starts, given the stages recorded so far. */
  function StartFrom(stages: seq<Stage>): Start
  {
    if stages == [] then Scratch
    else Warm(stages[|stages| - 1].coef, stages[|stages| - 1].intercept)
  }

  /**
   * The stage list after k steps of fit: the first step fits from scratch,
   * every later step warm-starts from the previous snapshot, and the step
   * that ends at iteration j * nIter records stage j - 1.
   */
  function Schedule(lib: Library, p: SolverParams, X: Features, y: Labels, k: nat): (r: seq<Stage>)
    ensures |r| == k
    ensures forall j :: 0 <= j < k ==> r[j].iterations == (j + 1) * p.nIter
  {
    if k == 0 then []
    else
      var prev := Schedule(lib, p, X, y, k - 1);
      var f := lib.sgdFit(p, X, y, StartFrom(prev));
      prev + [Stage(k * p.nIter, f.coef, f.intercept)]
  }

  /** The scaled prediction of the library for given coefficients. */
  function Predicted(lib: Library, X: Features, coef: Coef, intercept: Intercept): Prediction
  {
    lib.scale(lib.decision(X, coef, intercept))
  }

  /** Python's zip(*pairs): no rows give no columns at all. */
  function Unzip<A, B>(pairs: seq<(A, B)>): (r: Unzipped<A, B>)
    ensures r.Nothing? <==> pairs == []
    ensures r.Columns? ==> |r.firsts| == |r.seconds| == |pairs|
  {
    if pairs == [] then Nothing
    else Columns(seq(|pairs|, k requires 0 <= k < |pairs| => pairs[k].0),
                 seq(|pairs|, k requires 0 <= k < |pairs| => pairs[k].1))
  }

  /** Python's zip(firsts, seconds) over columns of equal length. */
  function Zip<A, B>(firsts: seq<A>, seconds: seq<B>): (r: seq<(A, B)>)
    requires |firsts| == |seconds|
    ensures |r| == |firsts|
  {
    seq(|firsts|, k requires 0 <= k < |firsts| => (firsts[k], seconds[k]))
  }

  /** Unzipping loses nothing: zipping the columns back gives the rows. */
  lemma {:induction false} ZipUnzip<A, B>(pairs: seq<(A, B)>)
    requires pairs != []
    ensures Unzip(pairs).Columns?
    ensures Zip(Unzip(pairs).firsts, Unzip(pairs).seconds) == pairs
  {
    var u := Unzip(pairs);
    var z := Zip(u.firsts, u.seconds);
    forall k | 0 <= k < |pairs|
      ensures z[k] == pairs[k]
    {
      assert z[k] == (u.firsts[k], u.seconds[k]);
    }
  }

  /** A step size that divides the budget makes the last step end exactly at max_iter. */
  lemma StepCountExact(maxIter: int, nIter: nat)
    requires nIter > 0 && maxIter % nIter == 0
    ensures StepCount(maxIter, nIter) * nIter == if maxIter <= 0 then 0 else maxIter
  {
    if maxIter > 0 {
      assert maxIter == (maxIter / nIter) * nIter + maxIter % nIter;
    }
  }

  /** A shorter run of fit is a prefix of a longer one: stages are never rewritten. */
  lemma {:induction false} SchedulePrefix(lib: Library, p: SolverParams, X: Features, y: Labels,
                                          j: nat, k: nat)
    requires j <= k
    ensures Schedule(lib, p, X, y, k)[..j] == Schedule(lib, p, X, y, j)
    decreases k
  {
    if j < k {
      SchedulePrefix(lib, p, X, y, j, k - 1);
      assert Schedule(lib, p, X, y, k)[..k - 1] == Schedule(lib, p, X, y, k - 1);
      assert Schedule(lib, p, X, y, k)[..j] == Schedule(lib, p, X, y, k - 1)[..j];
    } else {
      assert Schedule(lib, p, X, y, k)[..j] == Schedule(lib, p, X, y, k);
    }
  }

  /** The first stage is the result of one SGD run from scratch. */
  lemma {:induction false} ScheduleFirstFromScratch(lib: Library, p: SolverParams, X: Features, y: Labels, k: nat)
    requires k >= 1
    ensures var f := lib.sgdFit(p, X, y, Scratch);
            Schedule(lib, p, X, y, k)[0] == Stage(p.nIter, f.coef, f.intercept)
  {
    SchedulePrefix(lib, p, X, y, 1, k);
    assert Schedule(lib, p, X, y, k)[0] == Schedule(lib, p, X, y, k)[..1][0];
  }

  /** Every later stage is one SGD run warm-started from the stage before it. */
  lemma {:induction false} ScheduleWarmStart(lib: Library, p: SolverParams, X: Features, y: Labels, k: nat, j: nat)
    requires 0 < j < k
    ensures var s := Schedule(lib, p, X, y, k);
            var f := lib.sgdFit(p, X, y, Warm(s[j - 1].coef, s[j - 1].intercept));
            s[j] == Stage((j + 1) * p.nIter, f.coef, f.intercept)
  {
    var s := Schedule(lib, p, X, y, k);
    SchedulePrefix(lib, p, X, y, j + 1, k);
    SchedulePrefix(lib, p, X, y, j, j + 1);
    assert s[j] == s[..j + 1][j];
    assert s[j - 1] == s[..j + 1][j - 1];
  }

  /**
   * Iteration counts n, 2n, ..., max_iter: strictly increasing, and the last
   * one is the whole budget.
   */
  lemma {:induction false} ScheduleIterations(lib: Library, p: SolverParams, X: Features, y: Labels, maxIter: int)
    requires p.nIter > 0 && maxIter % p.nIter == 0
    ensures var s := Schedule(lib, p, X, y, StepCount(maxIter, p.nIter));
            && (forall a, b :: 0 <= a < b < |s| ==> s[a].iterations < s[b].iterations)
            && (s == [] <==> maxIter <= 0)
            && (s != [] ==> s[|s| - 1].iterations == maxIter)
  {
    var s := Schedule(lib, p, X, y, StepCount(maxIter, p.nIter));
    StepCountExact(maxIter, p.nIter);
    forall a, b | 0 <= a < b < |s|
      ensures s[a].iterations < s[b].iterations
    {
      MulStrictlyMonotone(a + 1, b + 1, p.nIter);
    }
  }

  lemma MulStrictlyMonotone(a: int, b: int, n: int)
    requires a < b && n > 0
    ensures a * n < b * n
  {
    assert b * n - a * n == (b - a) * n;
  }

  lemma MulCancelLess(a: int, b: int, n: int)
    requires n > 0 && a * n < b * n
    ensures a < b
  {
  }

  /**
   * MySGDRegressor: its configuration, the parameters reset_args gave the
   * library, the live coefficients and intercept, and the stage list.
   */
  class MySGDRegressor {
    const nIterPerStep: nat
    const maxIter: int
    const alpha: real
    const penalty: string
    const options: SolverOptions
    const lib: Library
    const params: SolverParams
    var coef: Option<Coef>
    var intercept: Option<Intercept>
    var stages: seq<Stage>

    /**
     * The configuration passed the check of reset_args, coefficients and
     * intercept are present together, and the stages recorded so far carry
     * iteration counts n, 2n, ... within the budget.
     */
    ghost predicate Valid()
      reads this
    {
      && ResetArgs(nIterPerStep, maxIter, alpha, penalty, options) == Ok(params)
      && (coef.Some? <==> intercept.Some?)
      && |stages| <= StepCount(maxIter, nIterPerStep)
      && forall k :: 0 <= k < |stages| ==> stages[k].iterations == (k + 1) * nIterPerStep
    }

    /** The constructor, once reset_args has accepted the configuration. */
    constructor (nIterPerStep: nat, maxIter: int, alpha: real, penalty: string,
                 options: SolverOptions, lib: Library)
      requires ResetArgs(nIterPerStep, maxIter, alpha, penalty, options).Ok?
      ensures Valid()
      ensures this.nIterPerStep == nIterPerStep && this.maxIter == maxIter
      ensures this.alpha == alpha && this.penalty == penalty && this.options == options
      ensures this.lib == lib
      ensures params == ResetArgs(nIterPerStep, maxIter, alpha, penalty, options).value
      ensures coef == None && intercept == None && stages == []
    {
      this.nIterPerStep := nIterPerStep;
      this.maxIter := maxIter;
      this.alpha := alpha;
      this.penalty := penalty;
      this.options := options;
      this.lib := lib;
      this.params := ResetArgs(nIterPerStep, maxIter, alpha, penalty, options).value;
      coef := None;
      intercept := None;
      stages := [];
    }

    /** __init__: fails, building nothing, unless reset_args accepts the configuration. */
    static method Create(nIterPerStep: nat, maxIter: int, alpha: real, penalty: string,
                         options: SolverOptions, lib: Library)
      returns (r: Result<MySGDRegressor>)
      ensures r.Ok? <==> nIterPerStep > 0 && maxIter % nIterPerStep == 0
      ensures r.Err? ==> r.error == ResetArgs(nIterPerStep, maxIter, alpha, penalty, options).error
      ensures r.Ok? ==> && fresh(r.value) && r.value.Valid()
                        && r.value.nIterPerStep == nIterPerStep && r.value.maxIter == maxIter
                        && r.value.alpha == alpha && r.value.penalty == penalty
                        && r.value.options == options && r.value.lib == lib
                        && r.value.params == ResetArgs(nIterPerStep, maxIter, alpha, penalty, options).value
                        && r.value.coef == None && r.value.intercept == None
                        && r.value.stages == []
    {
      var checked := ResetArgs(nIterPerStep, maxIter, alpha, penalty, options);
      if checked.Err? {
        return Err(checked.error);
      }
      var regressor := new MySGDRegressor(nIterPerStep, maxIter, alpha, penalty, options, lib);
      r := Ok(regressor);
    }

    /**
     * fit: clear the state, then run max_iter / n_iter_per_step SGD steps,
     * the first from scratch and each later one warm from the live
     * coefficients, and record a snapshot after each.
     */
    method Fit(X: Features, y: Labels)
      requires Valid()
      modifies this
      ensures Valid()
      ensures stages == Schedule(lib, params, X, y, StepCount(maxIter, nIterPerStep))
      ensures coef == (if stages == [] then None else Some(stages[|stages| - 1].coef))
      ensures intercept == (if stages == [] then None else Some(stages[|stages| - 1].intercept))
    {
      coef := None;
      intercept := None;
      stages := [];
      var steps := StepCount(maxIter, params.nIter);
      StepCountExact(maxIter, params.nIter);
      var i := 0;
      ghost var k: nat := 0;
      while i < maxIter
        invariant i == k * params.nIter
        invariant k <= steps
        invariant stages == Schedule(lib, params, X, y, k)
        invariant coef == (if stages == [] then None else Some(stages[|stages| - 1].coef))
        invariant intercept == (if stages == [] then None else Some(stages[|stages| - 1].intercept))
      {
        MulCancelLess(k, steps, params.nIter);
        var fitted;
        if coef.Some? {
          fitted := lib.sgdFit(params, X, y, Warm(coef.value, intercept.value));
        } else {
          fitted := lib.sgdFit(params, X, y, Scratch);
        }
        assert fitted == lib.sgdFit(params, X, y, StartFrom(stages));
        coef, intercept := Some(fitted.coef), Some(fitted.intercept);
        assert i + params.nIter == (k + 1) * params.nIter;
        stages := stages + [Stage(i + params.nIter, fitted.coef, fitted.intercept)];
        i := i + params.nIter;
        k := k + 1;
      }
      if maxIter > 0 {
        MulCancelLess(steps - 1, k, params.nIter);
      }
    }

    /**
     * predict: explicit coefficients need an intercept too, and they replace
     * the stored state for good; the prediction then uses the stored state.
     */
    method Predict(X: Features, c: Option<Coef>, b: Option<Intercept>)
      returns (r: Result<Prediction>)
      requires Valid()
      modifies this
      ensures Valid() && stages == old(stages)
      ensures c.Some? && b.None? ==>
                r == Err(InterceptMissing) && coef == old(coef) && intercept == old(intercept)
      ensures c.Some? && b.Some? ==>
                coef == c && intercept == b && r == Ok(Predicted(lib, X, c.value, b.value))
      ensures c.None? ==> coef == old(coef) && intercept == old(intercept)
      ensures c.None? && coef.None? ==> r == Err(NotFitted)
      ensures c.None? && coef.Some? ==> r == Ok(Predicted(lib, X, coef.value, intercept.value))
    {
      if c.Some? {
        if b.None? {
          return Err(InterceptMissing);
        }
        intercept := b;
        coef := c;
      }
      if coef.None? {
        return Err(NotFitted);
      }
      r := Ok(Predicted(lib, X, coef.value, intercept.value));
    }

    /** auc: the area under the curve of the current prediction. */
    method Auc(X: Features, y: Labels) returns (r: Result<real>)
      requires Valid()
      modifies this
      ensures Valid()
      ensures coef == old(coef) && intercept == old(intercept) && stages == old(stages)
      ensures coef.None? ==> r == Err(NotFitted)
      ensures coef.Some? ==> r == Ok(lib.auc(y, Predicted(lib, X, coef.value, intercept.value)))
    {
      var yhat := Predict(X, None, None);
      if yhat.Err? {
        return Err(yhat.error);
      }
      r := Ok(lib.auc(y, yhat.value));
    }

    /**
     * staged_predict: one (iterations, prediction) pair per stage, in stage
     * order.  Each prediction goes through predict with that stage's
     * snapshot, so afterwards the stored state is the last stage's.
     */
    method StagedPredict(X: Features) returns (r: seq<(int, Prediction)>)
      requires Valid()
      modifies this
      ensures Valid() && stages == old(stages)
      ensures |r| == |stages|
      ensures forall k :: 0 <= k < |r| ==>
                r[k] == (stages[k].iterations, Predicted(lib, X, stages[k].coef, stages[k].intercept))
      ensures stages == [] ==> coef == old(coef) && intercept == old(intercept)
      ensures stages != [] ==> && coef == Some(stages[|stages| - 1].coef)
                               && intercept == Some(stages[|stages| - 1].intercept)
    {
      r := [];
      var k := 0;
      while k < |stages|
        invariant 0 <= k <= |stages|
        invariant Valid() && stages == old(stages)
        invariant |r| == k
        invariant forall j :: 0 <= j < k ==>
                    r[j] == (stages[j].iterations, Predicted(lib, X, stages[j].coef, stages[j].intercept))
        invariant k == 0 ==> coef == old(coef) && intercept == old(intercept)
        invariant k > 0 ==> coef == Some(stages[k - 1].coef) && intercept == Some(stages[k - 1].intercept)
      {
        var s := stages[k];
        var p := Predict(X, Some(s.coef), Some(s.intercept));
        r := r + [(s.iterations, p.value)];
        k := k + 1;
      }
    }

    /**
     * staged_auc: the area under the curve after each stage, unzipped into
     * the iteration counts and the matching scores.
     */
    method StagedAuc(X: Features, y: Labels) returns (r: Unzipped<int, real>)
      requires Valid()
      modifies this
      ensures Valid() && stages == old(stages)
      ensures r.Nothing? <==> stages == []
      ensures r.Columns? ==> && |r.firsts| == |stages| && |r.seconds| == |stages|
                             && (forall k :: 0 <= k < |stages| ==> r.firsts[k] == stages[k].iterations)
                             && (forall k :: 0 <= k < |stages| ==>
                                   r.seconds[k] == lib.auc(y, Predicted(lib, X, stages[k].coef, stages[k].intercept)))
      ensures stages == [] ==> coef == old(coef) && intercept == old(intercept)
      ensures stages != [] ==> && coef == Some(stages[|stages| - 1].coef)
                               && intercept == Some(stages[|stages| - 1].intercept)
    {
      var predictions := StagedPredict(X);
      var results := seq(|predictions|, k requires 0 <= k < |predictions| =>
                           (predictions[k].0, lib.auc(y, predictions[k].1)));
      r := Unzip(results);
    }
  }

  /**
   * Fitting and then replaying every stage leaves the live coefficients and
   * intercept exactly where fit left them: the replay ends on the last
   * snapshot, which is the state the last step of fit produced.
   */
  method FitThenStagedPredict(m: MySGDRegressor, X: Features, y: Labels, Xtest: Features)
    returns (r: seq<(int, Prediction)>)
    requires m.Valid()
    modifies m
    ensures m.Valid()
    ensures |r| == StepCount(m.maxIter, m.nIterPerStep)
    ensures m.stages == Schedule(m.lib, m.params, X, y, |r|)
    ensures forall k :: 0 <= k < |r| ==>
              r[k] == (m.stages[k].iterations, Predicted(m.lib, Xtest, m.stages[k].coef, m.stages[k].intercept))
    ensures m.coef == (if m.stages == [] then None else Some(m.stages[|m.stages| - 1].coef))
    ensures m.intercept == (if m.stages == [] then None else Some(m.stages[|m.stages| - 1].intercept))
  {
    m.Fit(X, y);
    r := m.StagedPredict(Xtest);
  }
}
