# Insults: character n-grams and a staged SGD regressor, in Dafny

This project models the two pieces of logic of the Kaggle "insults" experiment
(`Insults/vectorize.py`) that the repository writes itself, not borrows from
its libraries:

- **`MyCountVectorizer._char_ngrams`**: the character n-gram tokenizer
  (module `NGramTokenizer`, file `ngram_tokenizer.dfy`). For every size `n`
  from `min_n` up to `min(max_n, len(text))` it emits every contiguous substring
  of size `n`, by increasing start offset. The method `CharNGrams` keeps the
  source's two nested loops. It is proved equal to the specification function
  `NGrams`. Lemmas then describe that output completely:
  - which strings it holds (`NGramsAt`, `NGramsAreSubstrings`);
  - how many (`NGramsLength`, `CountClosedForm`);
  - in what order (`PositionOrder`).
- **`MySGDRegressor`**: the staged-fit bookkeeping (module `StagedSGD`, file
  `staged_sgd.dfy`). The class `MySGDRegressor` has the source's fields:
  - the configuration (`n_iter_per_step`, `max_iter`, `alpha`, `penalty`,
    keyword options);
  - the parameters `reset_args` gives the library;
  - the live `coef_` and `intercept_`;
  - the append-only stage list `stages_`.

  Its methods:
  - `Fit` runs the source's loop. It first clears the state. The first step
    fits from scratch and every later step warm-starts from the live
    coefficients. A snapshot is appended after each step.
  - `Predict` lets explicit coefficients overwrite the stored ones, for good.
  - `StagedPredict` and `StagedAuc` replay the snapshots through `Predict`.

  `Fit` is proved against the specification function `Schedule`. Lemmas about
  `Schedule` state the schedule `n, 2n, …, max_iter` and warm start versus
  scratch. They also show that a stage, once recorded, is never rewritten.

The numerical collaborators are fields of the datatype `Library`, a constant
of the regressor. They are functions over abstract types (`Features`, `Labels`,
`Coef`, `Intercept`, `Prediction`):
- `sgdFit`: one run of the library's SGD regressor, from scratch or warm;
- `decision`: the library's raw linear prediction;
- `scale`: the repository's `scale_predictions`;
- `auc`: `ml_metrics.auc`.

The white-space normalisation of the tokenizer is the function parameter
`whiteSpaces`. Snapshots are immutable values, so the `.copy()` calls at line 87
need nothing further: a stage can never alias the live coefficients.

Two behaviours of the code are easy to misread, and the model follows the code:
- `predict` with explicit coefficients overwrites the stored state permanently.
  It is not a temporary override (vectorize.py:118-121).
- `staged_auc` returns `zip(*results)`. With no stages that is an empty list,
  not two empty columns. It is modelled as `Unzipped.Nothing`.

## Model

| member | source | states |
|---|---|---|
| `NGramTokenizer.CharNGrams` | Insults/vectorize.py:129-142 | the nested loops return exactly `NGrams` of the normalised document: sizes `min_n .. min(max_n, len)`, each size in offset order |
| `NGramTokenizer.NGramsAt` | Insults/vectorize.py:137-139 | completeness: for every size `min_n <= n <= max_n` and offset `0 <= i <= len - n`, `text[i:i+n]` is emitted, at index `Position(n, i)` |
| `NGramTokenizer.NGramsAreSubstrings` | Insults/vectorize.py:137-139 | soundness: every emitted string equals `text[i:i+n]` for some `min_n <= n <= min(max_n, len)` and `0 <= i <= len - n`, and it stands at `Position(n, i)` |
| `NGramTokenizer.PositionOrder` | Insults/vectorize.py:137-140 | order: every n-gram of size `n` comes before every one of size `n+1`, and within one size offsets increase |
| `NGramTokenizer.NGramsLength` | Insults/vectorize.py:137-140 | the output length is the sum over `n` of `len - n + 1`, and the output is empty when the text is shorter than `min_n` |
| `NGramTokenizer.SizesLength` | Insults/vectorize.py:137-140 | the number of n-grams of sizes `lo..hi` is `Count(len, lo, hi)` |
| `NGramTokenizer.CountClosedForm` | Insults/vectorize.py:137-138 | that count in closed form: `2 * Count == (hi - lo + 1) * (2 * len - lo - hi + 2)` |
| `NGramTokenizer.SizesAt` | Insults/vectorize.py:137-139 | for sizes `lo..hi`, the n-gram of size `n` at offset `i` sits at index `Position(n, i)`, within bounds |
| `NGramTokenizer.SizesAreNGrams` | Insults/vectorize.py:137-139 | for sizes `lo..hi`, each output index is the `Position` of an admissible size and offset whose n-gram it holds |
| `StagedSGD.ResetArgs` | Insults/vectorize.py:65-74 | accepted iff `n_iter_per_step > 0` and `max_iter % n_iter_per_step == 0` (a zero step is the division error); when accepted, the solver gets constant learning rate, `eta0 = 0.001`, `n_iter = n_iter_per_step` and the given alpha, penalty and options |
| `StagedSGD.MySGDRegressor.Create` | Insults/vectorize.py:58-67 | construction succeeds exactly when `reset_args` accepts; on failure no regressor exists, on success it is fresh, valid and empty, stores every configuration argument (`n_iter_per_step`, `max_iter`, `alpha`, `penalty`, options) and holds the solver parameters `reset_args` produced |
| `StagedSGD.MySGDRegressor.constructor` | Insults/vectorize.py:58-64 | stores the configuration and the parameters `reset_args` produced; no coefficients and no stages yet |
| `StagedSGD.Schedule` | Insults/vectorize.py:79-87 | after `k` steps there are exactly `k` stages, and stage `j` records `(j+1) * n_iter` iterations |
| `StagedSGD.StepCountExact` | Insults/vectorize.py:67-79 | with `n_iter` dividing `max_iter`, the last of the `range(0, max_iter, n_iter)` steps ends exactly at `max_iter` |
| `StagedSGD.SchedulePrefix` | Insults/vectorize.py:78-87 | append-only: the stages of a `j`-step run are the first `j` stages of any longer run |
| `StagedSGD.ScheduleFirstFromScratch` | Insults/vectorize.py:81-87 | the first stage is one SGD run from scratch, recorded at `n_iter` iterations |
| `StagedSGD.ScheduleWarmStart` | Insults/vectorize.py:81-87 | every later stage is one SGD run warm-started from the previous stage's coefficients and intercept |
| `StagedSGD.ScheduleIterations` | Insults/vectorize.py:79-87 | the iteration counts of a fit strictly increase, the list is empty iff `max_iter <= 0`, and otherwise the last count is `max_iter` |
| `StagedSGD.MySGDRegressor.Fit` | Insults/vectorize.py:75-89 | clears the state, then leaves `stages_ == Schedule(max_iter / n_iter steps)` and the live coefficients and intercept equal to the last snapshot; the regressor stays valid |
| `StagedSGD.MySGDRegressor.Predict` | Insults/vectorize.py:112-123 | coefficients without an intercept fail and change nothing; given both, they replace the stored state and the prediction uses them; otherwise the stored state is used, or the call fails when there is none |
| `StagedSGD.MySGDRegressor.Auc` | Insults/vectorize.py:90-92 | the AUC of the current prediction; fails when not fitted; changes nothing |
| `StagedSGD.MySGDRegressor.StagedPredict` | Insults/vectorize.py:94-98 | one `(iterations, prediction)` pair per stage, in stage order, each predicted from that stage's snapshot; afterwards the stored state is the last stage's snapshot, or unchanged when there are no stages |
| `StagedSGD.MySGDRegressor.StagedAuc` | Insults/vectorize.py:100-110 | two parallel columns, as long as the stage list: the stage iteration counts and the AUC at each stage; nothing at all, and the stored state unchanged, when there are no stages; otherwise the stored state ends as the last stage's snapshot |
| `StagedSGD.Unzip` | Insults/vectorize.py:110 | `zip(*pairs)`: no columns for no rows, otherwise two columns as long as the rows |
| `StagedSGD.ZipUnzip` | Insults/vectorize.py:110 | unzipping loses nothing: zipping the two columns back gives the original pairs |
| `StagedSGD.FitThenStagedPredict` | Insults/vectorize.py:75-121 | fit followed by staged_predict: one pair per step, in stage order, each the iteration count and the prediction from that stage's snapshot; and the overwrites by predict leave the live state where fit left it |

## Left out

- `scale_predictions` (vectorize.py:37-49) is floating-point min/max rescaling. It is the uninterpreted `Library.scale`. Its range guarantee and its division by zero on a constant batch are not modelled.
- The SGD run, the library's raw `predict` and `ml_metrics.auc` (vectorize.py:83, 85, 92, 108, 123) are foreign numerical code. They are the uninterpreted `Library.sgdFit`, `Library.decision` and `Library.auc`.
- The library's white-space regex (vectorize.py:132) is not visible. It is the function parameter `whiteSpaces`.
- `MyPipeline.staged_auc` and the `clf` pipeline (vectorize.py:155-183) only delegate to library transforms.
- CSV and file-system I/O are not modelled: `initialize`, `save_fold_info`, `collect_fold_info` and the file-name probing in `predict()` (vectorize.py:28-35, 187-200, 236-251).
- `training()` (vectorize.py:202-233) is not modelled. It is library k-fold cross-validation, and its selection of the best iteration count sorts and indexes a list that is never filled.
- Logging is left out, including the training-set AUC logged after each step of fit (vectorize.py:88-89). That call predicts without explicit coefficients and changes no state.
- NGramTokenizer.CharNGrams: `min_n` is a natural number, so negative n-gram sizes and Python's negative-index slicing are not modelled. `ngram_range` is passed as two arguments instead of being read from the object.
- StagedSGD.MySGDRegressor.Create: `n_iter_per_step` is a natural number, so a negative step is not modelled. The library's own parameter validation is not part of this model.
- StagedSGD.MySGDRegressor.StagedPredict: before the first fit the source has no `stages_` attribute at all. The model starts from an empty stage list.
- StagedSGD.MySGDRegressor.Fit: the configuration fields are constants, so the divisibility that `reset_args` checks holds for the object's whole life. In the source `max_iter` and `n_iter_per_step` are plain attributes; `training()` reassigns `max_iter` directly (vectorize.py:231) without calling `reset_args` again. After such a reassignment `range(0, max_iter, n_iter)` (line 79) runs ceil(max_iter / n_iter) steps, and the last recorded count can overshoot `max_iter`. The model does not cover that case.
- StagedSGD.MySGDRegressor.Fit: the source decides between warm start and scratch with `self.coef_ != None` on a numpy array (line 81). The model reads that test as "coefficients are stored".
- StagedSGD.ResetArgs: "accepted" covers only the checks written at line 67. The call at lines 68-74 also raises Python's `TypeError` when the keyword options repeat `alpha`, `learning_rate`, `eta0`, `penalty` or `n_iter`; options are opaque here, so that failure is not modelled.
- StagedSGD.MySGDRegressor.Predict: the source tests `coef != None` on a numpy array. The model reads that test as "coefficients were given".
