# userfm training core: a Dafny model

This project models the training core of the `userfm` package, a flow/diffusion
model trained with JAX under PyTorch Lightning, and proves properties of that
model. It covers:

- the exponential moving average (EMA) kept beside the trained parameters;
- the low-variance time grid drawn by the score-matching loss;
- the functional training `step`;
- the time coercion that the sampler's score closure applies;
- the Lightning module (`JaxLightning`), whose hooks split the random key and
  store the results of each step;
- the checkpoint coordinator, which saves, removes and links a checkpoint as a
  pair of directories, the raw one and the `_ema` one;
- the logging callback, which names every logged quantity.

Modules, in dependency order:

| module | file | what it holds |
|---|---|---|
| `Wrappers` | wrappers.dfy | `Option`, `Result` and `Outcome` (success, or failure with an error) |
| `Prng` | prng.dfy | JAX keys, identified by their derivation path from the root seed; `split`; when two keys are independent; the split-before-use discipline |
| `Tensors` | tensors.dfy | arrays as a shape plus a row-major element list |
| `Ema` | ema.dfy | `ema_ts = epochs / ema_folding_count`; the leaf rule `ema + (p - ema) / ema_ts`; its key-wise map over a parameter tree |
| `TimeGrid` | timegrid.dfy | `jnp.remainder(·, 1)`, `jnp.linspace(0, 1, N)`, the grid `frac(u0 + linspace)`, and its affine map into `[tmin, tmax)` |
| `Diffusion` | diffusion.dfy | `loss`, `step`, the optimiser state, the time coercion, the `sample` and `compute_nll` calls, and the `JaxLightning` class with its hooks |
| `Paths` | paths.dfy | the part of `pathlib.PurePosixPath` the coordinator uses: parsing, `parent`, `name`, `stem`, and `/` with one more name |
| `Checkpoint` | checkpoint.dfy | storage as a map from directory to parameter tree; the `Storage`, `Logger`, `Trainer` and `ModelCheckpoint` classes |
| `LogStats` | logstats.dfy | the `LogStats` callback and the sequence of `log` calls it makes |

The network, the SDE's flow loss, the optimiser's update rule, the uniform
draw and validation's sample-then-measure relative error are opaque
collaborators. They are the function-valued fields of a `Network` value. The
samplers are not called at all: `sample`, `compute_nll` and `predict_step`
return the request they would hand to the sampler, as the records
`SamplerCall`, `NllRequest` and `Prediction`. The only things assumed about
the collaborators are what the core relies on, in `Diffusion.NetValid`:

- the uniform draw lies in `[0, 1)`;
- a gradient has the structure of the parameters;
- an update has the structure of the gradient.

The hooks that change the module's fields are methods of a class. So are the
checkpoint operations that change storage and loggers. `loss`, `step`, the EMA
map and path derivation are functions.

Four behaviours of the code differ from what a reader might expect; the
model follows the code in each:

- Grid stride. The usual low-variance time grid adds `i/N` to one uniform
  draw. The code adds `jnp.linspace(0, 1, N)` (diffusion.py:154), whose stride
  is `1/(N-1)`. For a batch of two or more, the last element therefore repeats
  the first one's fraction (`TimeGrid.GridEndsCoincide`). The first `N-1`
  elements fall into `N-1` distinct strata (`TimeGrid.GridStratum`,
  `TimeGrid.GridDistinct`).
- Stage names. Lightning names the validation stage `'validate'`; `setup`
  (diffusion.py:41-51) accepts `'val'` and raises ValueError for
  `'validate'`.
- Ignored `tmax`. `sample` and `compute_nll` take `tmax` but never pass it on
  (`Diffusion.SampleIgnoresTmax`).
- Save is not atomic. `_save_checkpoint` writes the raw directory and then the
  EMA directory, and stops at the first failure. A failure on the second write
  leaves a torn pair (`Checkpoint.SaveTornPair`).

## Model

| member | source | states |
|---|---|---|
| Prng.Split | Aligning-Flow-Div-User-Defined-Sampling/src/userfm/diffusion.py:43 | the two halves of a split differ, and each extends the parent key by one step |
| Prng.ExtensionsIndependent | Aligning-Flow-Div-User-Defined-Sampling/src/userfm/diffusion.py:152-158 | keys derived from two independent keys are still independent |
| Prng.SplitHalvesIndependent | Aligning-Flow-Div-User-Defined-Sampling/src/userfm/diffusion.py:43 | the kept half and the handed-out half of a split are independent |
| Prng.SplitKeepsIndependence | Aligning-Flow-Div-User-Defined-Sampling/src/userfm/diffusion.py:69 | a key independent of the module key is independent of both halves of its split |
| Prng.SplitPreservesDiscipline | Aligning-Flow-Div-User-Defined-Sampling/src/userfm/diffusion.py:69 | keep one half and hand out the other: afterwards every handed-out key is independent of the kept key and of every other handed-out key |
| Tensors.Filled | Aligning-Flow-Div-User-Defined-Sampling/src/userfm/diffusion.py:54-55 | `jnp.ones(shape) * v` has the requested shape, the right element count, and `v` everywhere |
| Tensors.Column | Aligning-Flow-Div-User-Defined-Sampling/src/userfm/diffusion.py:156 | `t[:, None, None]` has shape `(n, 1, 1)` and keeps the elements in order |
| Ema.EmaTs | Aligning-Flow-Div-User-Defined-Sampling/src/userfm/diffusion.py:34 | fails exactly when the folding count is zero; otherwise `ema_ts * folding_count == epochs` |
| Ema.EmaLeaf | Aligning-Flow-Div-User-Defined-Sampling/src/userfm/diffusion.py:185 | the leaf rule `ema + (p - ema) / ema_ts`; a definition without a contract of its own: what it promises is stated by `Ema.LeafContraction` and `Ema.LeafBetween` |
| Ema.EmaTree | Aligning-Flow-Div-User-Defined-Sampling/src/userfm/diffusion.py:185-186 | succeeds exactly when both trees have the same keys; the result has those keys, and every leaf follows the EMA rule |
| Ema.LeafContraction | Aligning-Flow-Div-User-Defined-Sampling/src/userfm/diffusion.py:185 | `ema' - p == (1 - 1/ema_ts) * (ema - p)` |
| Ema.LeafBetween | Aligning-Flow-Div-User-Defined-Sampling/src/userfm/diffusion.py:185 | for `ema_ts >= 1` the new leaf lies between the old EMA leaf and the parameter, in either order |
| Ema.TreeFixedPoint | Aligning-Flow-Div-User-Defined-Sampling/src/userfm/diffusion.py:185-186 | a shadow copy equal to the parameters is left unchanged |
| Ema.TreeUnitTimeConstant | Aligning-Flow-Div-User-Defined-Sampling/src/userfm/diffusion.py:185-186 | with `ema_ts = 1` the shadow copy becomes the parameters |
| Ema.TreeContraction | Aligning-Flow-Div-User-Defined-Sampling/src/userfm/diffusion.py:185-186 | for `ema_ts >= 1` the map succeeds on equal structures; every leaf contracts by `1 - 1/ema_ts` towards the parameter and lies between its old value and the parameter |
| Ema.IterateStep | Aligning-Flow-Div-User-Defined-Sampling/src/userfm/diffusion.py:185 | one more update towards a fixed parameter multiplies the remaining distance by `1 - 1/ema_ts` |
| Ema.LeafIterateDistance | Aligning-Flow-Div-User-Defined-Sampling/src/userfm/diffusion.py:185 | after k updates towards a fixed parameter the distance is `(1 - 1/ema_ts)^k` times the starting distance |
| TimeGrid.Frac | Aligning-Flow-Div-User-Defined-Sampling/src/userfm/diffusion.py:154 | `remainder(x, 1)` lies in `[0, 1)` |
| TimeGrid.FracRemovesWhole | Aligning-Flow-Div-User-Defined-Sampling/src/userfm/diffusion.py:154 | `x - remainder(x, 1)` is a whole number |
| TimeGrid.FracShift | Aligning-Flow-Div-User-Defined-Sampling/src/userfm/diffusion.py:154 | shifting by an integer leaves the remainder unchanged |
| TimeGrid.FracOfSplit | Aligning-Flow-Div-User-Defined-Sampling/src/userfm/diffusion.py:154 | an integer plus a fraction in `[0, 1)` has exactly that fraction as its remainder |
| TimeGrid.Linspace | Aligning-Flow-Div-User-Defined-Sampling/src/userfm/diffusion.py:154 | `linspace(0, 1, n)` has n points in `[0, 1]`, starts at 0 and, for n >= 2, ends at 1 |
| TimeGrid.LowVarGrid | Aligning-Flow-Div-User-Defined-Sampling/src/userfm/diffusion.py:153-154 | one fraction in `[0, 1)` per batch element |
| TimeGrid.Times | Aligning-Flow-Div-User-Defined-Sampling/src/userfm/diffusion.py:155 | one time per fraction; when `tmin < tmax`, each lies in `[tmin, tmax)` |
| TimeGrid.AffineTime | Aligning-Flow-Div-User-Defined-Sampling/src/userfm/diffusion.py:155 | `u * (tmax - tmin) + tmin` maps `[0, 1)` into `[tmin, tmax)` |
| TimeGrid.GridSingle | Aligning-Flow-Div-User-Defined-Sampling/src/userfm/diffusion.py:153-154 | a batch of one gets the draw `u0` itself |
| TimeGrid.GridEndsCoincide | Aligning-Flow-Div-User-Defined-Sampling/src/userfm/diffusion.py:153-154 | for n >= 2 the first and the last fraction are both `u0` |
| TimeGrid.GridStride | Aligning-Flow-Div-User-Defined-Sampling/src/userfm/diffusion.py:153-154 | consecutive fractions are `1/(n-1)` apart, modulo 1 |
| TimeGrid.Stratum | Aligning-Flow-Div-User-Defined-Sampling/src/userfm/diffusion.py:154 | the stratum index of element i is one of the m strata |
| TimeGrid.GridStratum | Aligning-Flow-Div-User-Defined-Sampling/src/userfm/diffusion.py:153-154 | element i < n-1 lies in stratum `(floor(u0 (n-1)) + i) mod (n-1)`, of width `1/(n-1)` |
| TimeGrid.StratumInjective | Aligning-Flow-Div-User-Defined-Sampling/src/userfm/diffusion.py:153-154 | distinct elements among the first n-1 get distinct strata |
| TimeGrid.StratumOnto | Aligning-Flow-Div-User-Defined-Sampling/src/userfm/diffusion.py:153-154 | every stratum gets one of the first n-1 elements |
| TimeGrid.FracStratum | Aligning-Flow-Div-User-Defined-Sampling/src/userfm/diffusion.py:154 | `frac(u0 + i/m)` lies in the stratum `Stratum(u0, m, i)` |
| TimeGrid.GridDistinct | Aligning-Flow-Div-User-Defined-Sampling/src/userfm/diffusion.py:153-154 | the first n-1 fractions are pairwise distinct |
| Diffusion.TimeDraw | Aligning-Flow-Div-User-Defined-Sampling/src/userfm/diffusion.py:152-158 | the time key and the noise key descend from the loss key and are independent; `t` has shape `(n, 1, 1)`, with every time in `[tmin, tmax)` |
| Diffusion.AffineInjective | Aligning-Flow-Div-User-Defined-Sampling/src/userfm/diffusion.py:155 | for `tmin < tmax`, equal times come from equal fractions |
| Diffusion.DrawTimesSpread | Aligning-Flow-Div-User-Defined-Sampling/src/userfm/diffusion.py:152-156 | the first n-1 drawn times are pairwise distinct, and the last one equals the first |
| Diffusion.Loss | Aligning-Flow-Div-User-Defined-Sampling/src/userfm/diffusion.py:148-166 | raises IndexError exactly for a batch without axes; otherwise the loss is the flow loss at the draw fixed by the key and the batch size, and the monitors are exactly `{'flow_loss': loss}` |
| Diffusion.Zeros | Aligning-Flow-Div-User-Defined-Sampling/src/userfm/diffusion.py:62 | a tree of the same keys with every leaf zero |
| Diffusion.AdamInit | Aligning-Flow-Div-User-Defined-Sampling/src/userfm/diffusion.py:62 | Adam starts at step 0 with both moment trees zero and shaped like the parameters |
| Diffusion.ApplyUpdates | Aligning-Flow-Div-User-Defined-Sampling/src/userfm/diffusion.py:184 | succeeds exactly on trees of equal keys; each new leaf differs from the old one by its update |
| Diffusion.UpdatesUndone | Aligning-Flow-Div-User-Defined-Sampling/src/userfm/diffusion.py:184 | applying the negated updates after the updates gives the parameters back |
| Diffusion.Step | Aligning-Flow-Div-User-Defined-Sampling/src/userfm/diffusion.py:181-187 | on success: the loss is the loss at the old parameters; the new parameters are the old ones plus the optimiser's updates; the new optimiser state is the optimiser's; every EMA leaf follows the EMA rule against the new parameter; the three trees share their keys |
| Diffusion.StepSucceeds | Aligning-Flow-Div-User-Defined-Sampling/src/userfm/diffusion.py:181-187 | with well-behaved collaborators a step succeeds exactly when the batch has a leading axis and the shadow copy has the parameters' keys; the keys are kept |
| Diffusion.StepEmaBetween | Aligning-Flow-Div-User-Defined-Sampling/src/userfm/diffusion.py:185-186 | for `ema_ts >= 1` each new EMA leaf lies between the old EMA leaf and the new parameter |
| Diffusion.CoerceTime | Aligning-Flow-Div-User-Defined-Sampling/src/userfm/diffusion.py:129-130 | an array with axes passes unchanged; a number or 0-d array becomes a `(x_shape[0], 1, 1)` array filled with that value; IndexError exactly when `x_shape` has no axes |
| Diffusion.SamplerScore | Aligning-Flow-Div-User-Defined-Sampling/src/userfm/diffusion.py:128-131 | the closure fails exactly when the coercion fails; otherwise it scores at the coerced time with the closure's `cond` and `params` |
| Diffusion.SampleCall | Aligning-Flow-Div-User-Defined-Sampling/src/userfm/diffusion.py:124-133 | the sampler gets the given parameters, or the EMA parameters when none are given; it fails exactly when both are missing; key, shape, cond, step count and `keep_path` are passed through |
| Diffusion.SampleIgnoresTmax | Aligning-Flow-Div-User-Defined-Sampling/src/userfm/diffusion.py:124-133 | any two calls that differ only in `tmax` make the same sampler call |
| Diffusion.NllCall | Aligning-Flow-Div-User-Defined-Sampling/src/userfm/diffusion.py:168-178 | fails with a missing `params_ema` exactly when neither parameters nor EMA parameters exist; otherwise the likelihood request carries the data itself, the key as given, no condition, and the given parameters or else the EMA parameters |
| Diffusion.ModelInit | Aligning-Flow-Div-User-Defined-Sampling/src/userfm/diffusion.py:53-58 | IndexError exactly for a shape without axes; otherwise the network is initialised on ones of `x_shape`, with times of length `x_shape[0]` and `cond_fn(x)` |
| Diffusion.JaxLightning.constructor | Aligning-Flow-Div-User-Defined-Sampling/src/userfm/diffusion.py:19-34 | `ema_ts` is `epochs / ema_folding_count`; the event flag, the event constraint and the checkpoint monitor are kept as given; no parameters, no optimiser state, step 0, nothing consumed; the invariant holds |
| Diffusion.JaxLightning.SplitKey | Aligning-Flow-Div-User-Defined-Sampling/src/userfm/diffusion.py:69 | `self.key, k = split(self.key)`: the module keeps the first half and hands out the second, and the split discipline is preserved |
| Diffusion.JaxLightning.Setup | Aligning-Flow-Div-User-Defined-Sampling/src/userfm/diffusion.py:41-51 | fails exactly for a stage other than `'fit'`, `'val'`, `'predict'` (ValueError) or for `'fit'` without a batch axis; only `'fit'` splits the key and sets params and params_ema to the same initialised tree; other stages change nothing |
| Diffusion.JaxLightning.ConfigureOptimizers | Aligning-Flow-Div-User-Defined-Sampling/src/userfm/diffusion.py:60-62 | AttributeError exactly when there are no parameters; otherwise the optimiser state is Adam's initial state for them |
| Diffusion.JaxLightning.TrainingStep | Aligning-Flow-Div-User-Defined-Sampling/src/userfm/diffusion.py:67-84 | splits the key; fails exactly without params, without opt state or without a batch axis, leaving the state unchanged; otherwise stores the step's params, params_ema and opt state; the EMA loss uses the same training key and the new shadow copy; the global step advances by one |
| Diffusion.JaxLightning.ValidationStep | Aligning-Flow-Div-User-Defined-Sampling/src/userfm/diffusion.py:90-101 | splits the key; the EMA-sample monitor samples with params_ema at `tmax = 1` and reports the relative error; otherwise the sanity check reports -1, and after it the trainer's metric or a KeyError |
| Diffusion.JaxLightning.PredictStep | Aligning-Flow-Div-User-Defined-Sampling/src/userfm/diffusion.py:106-122 | splits the key; samples the batch's shape unconditioned with params_ema and the handed-out key, through the event sampler exactly when configured, handing it the configured constraint and regularisation `1e-3`; fails with a missing `constraint` when the event branch is on without a constraint, otherwise exactly without params_ema |
| Paths.SplitSlash | Aligning-Flow-Div-User-Defined-Sampling/src/userfm/callbacks.py:34 | at least one piece, none containing a separator |
| Paths.SplitJoin | Aligning-Flow-Div-User-Defined-Sampling/src/userfm/callbacks.py:34 | joining the pieces with `/` gives the string back |
| Paths.Components | Aligning-Flow-Div-User-Defined-Sampling/src/userfm/callbacks.py:34 | what is kept are proper components, and a piece is kept exactly when it is one (not empty, not `.`, no separator) |
| Paths.Anchor | Aligning-Flow-Div-User-Defined-Sampling/src/userfm/callbacks.py:34 | a path is relative exactly when it does not start with `/` |
| Paths.Parse | Aligning-Flow-Div-User-Defined-Sampling/src/userfm/callbacks.py:34 | a parsed path has a POSIX anchor and proper components |
| Paths.SplitOfJoin | Aligning-Flow-Div-User-Defined-Sampling/src/userfm/callbacks.py:34 | splitting separator-free pieces joined with `/` gives the pieces back |
| Paths.ComponentsOfParts | Aligning-Flow-Div-User-Defined-Sampling/src/userfm/callbacks.py:34 | a list of proper components is kept whole, in order |
| Paths.JoinStartsWithPart | Aligning-Flow-Div-User-Defined-Sampling/src/userfm/callbacks.py:34 | joined components start with the first one, not with a separator |
| Paths.ParseAnchorOnly | Aligning-Flow-Div-User-Defined-Sampling/src/userfm/callbacks.py:34 | `''`, `/` and `//` parse to themselves with no components |
| Paths.DropEmptyPieces | Aligning-Flow-Div-User-Defined-Sampling/src/userfm/callbacks.py:34 | empty pieces in front add no component |
| Paths.SplitAfterAnchor | Aligning-Flow-Div-User-Defined-Sampling/src/userfm/callbacks.py:34 | the anchor contributes one empty piece per separator |
| Paths.AnchorOfPrefix | Aligning-Flow-Div-User-Defined-Sampling/src/userfm/callbacks.py:34 | the anchor is read back from an anchored string whose rest does not start with a separator |
| Paths.Format | Aligning-Flow-Div-User-Defined-Sampling/src/userfm/callbacks.py:34 | `str(path)`: the string starts with the anchor; a bare anchor is written as itself and the empty relative path as `.`; `Paths.ParseFormat` makes it the inverse of parsing |
| Paths.ParseFormat | Aligning-Flow-Div-User-Defined-Sampling/src/userfm/callbacks.py:34 | every parsed path, written out as `str` does and parsed again, is the same path |
| Paths.Name | Aligning-Flow-Div-User-Defined-Sampling/src/userfm/callbacks.py:35 | the name is empty exactly when the path has no components |
| Paths.Parent | Aligning-Flow-Div-User-Defined-Sampling/src/userfm/callbacks.py:35 | same anchor, components a prefix one shorter (or the same path for a root) |
| Paths.RFindDot | Aligning-Flow-Div-User-Defined-Sampling/src/userfm/callbacks.py:35 | the index of a dot with no dot after it, or -1 |
| Paths.Stem | Aligning-Flow-Div-User-Defined-Sampling/src/userfm/callbacks.py:35 | the stem is a prefix of the name |
| Paths.Suffix | Aligning-Flow-Div-User-Defined-Sampling/src/userfm/callbacks.py:35 | `path.suffix`: a tail of the name that is empty or a dot followed by no further dot; `Paths.StemAndSuffix` pins it against the stem |
| Paths.StemAndSuffix | Aligning-Flow-Div-User-Defined-Sampling/src/userfm/callbacks.py:35 | name == stem + suffix; a non-empty suffix is a dot and one or more non-dots after a non-empty stem |
| Paths.RFindLastDot | Aligning-Flow-Div-User-Defined-Sampling/src/userfm/callbacks.py:35 | the last dot of `a.b`, for a dotless b, is the one after a |
| Paths.RFindNoDot | Aligning-Flow-Div-User-Defined-Sampling/src/userfm/callbacks.py:35 | a dotless string has no last dot |
| Paths.StemExamples | Aligning-Flow-Div-User-Defined-Sampling/src/userfm/callbacks.py:35 | pathlib's stems of `ckpt.tmp`, `x.y.ckpt`, `.hidden`, `ckpt.` and `..x` |
| Paths.JoinName | Aligning-Flow-Div-User-Defined-Sampling/src/userfm/callbacks.py:35 | `p / name` appends the name as the last component, or leaves p when the name is empty or `.` |
| Paths.NoSlashInStem | Aligning-Flow-Div-User-Defined-Sampling/src/userfm/callbacks.py:35 | neither the stem nor stem + `_ema` contains a separator |
| Paths.CheckpointDirectories | Aligning-Flow-Div-User-Defined-Sampling/src/userfm/callbacks.py:32-35 | the EMA directory is a sibling of the file, named stem + `_ema` |
| Paths.DirectoriesDistinct | Aligning-Flow-Div-User-Defined-Sampling/src/userfm/callbacks.py:32-35 | the raw and the EMA directory are never the same |
| Paths.DirectoriesAreSiblings | Aligning-Flow-Div-User-Defined-Sampling/src/userfm/callbacks.py:32-35 | for an ordinary stem both directories sit in the file's directory, named `stem` and `stem_ema` |
| Paths.RawDirectoryCollapses | Aligning-Flow-Div-User-Defined-Sampling/src/userfm/callbacks.py:32-35 | when the stem is empty or `.` the raw directory is the file's parent itself |
| Paths.SplitNoSlash | Aligning-Flow-Div-User-Defined-Sampling/src/userfm/callbacks.py:34 | a string without separator is one piece |
| Paths.SplitAtFirst | Aligning-Flow-Div-User-Defined-Sampling/src/userfm/callbacks.py:34 | splitting `a/b` for a separator-free a gives a, then the pieces of b |
| Paths.ParseThree | Aligning-Flow-Div-User-Defined-Sampling/src/userfm/callbacks.py:34 | `/x/y/z` parses to the root with components x, y, z |
| Paths.ParseTwo | Aligning-Flow-Div-User-Defined-Sampling/src/userfm/callbacks.py:34 | `x/y` parses to a relative path with components x, y |
| Paths.StemOfDotted | Aligning-Flow-Div-User-Defined-Sampling/src/userfm/callbacks.py:35 | the stem of `z.e` is z |
| Paths.DirectoriesOfFile | Aligning-Flow-Div-User-Defined-Sampling/src/userfm/callbacks.py:32-35 | `/x/y/z.e` gives `/x/y/z` and `/x/y/z_ema` |
| Paths.DirectoriesExample | Aligning-Flow-Div-User-Defined-Sampling/src/userfm/callbacks.py:32-35 | `/a/b/ckpt.tmp` gives `/a/b/ckpt` and `/a/b/ckpt_ema` |
| Paths.PairsOverlap | Aligning-Flow-Div-User-Defined-Sampling/src/userfm/callbacks.py:32-35 | for ordinary stems, two checkpoints share a directory exactly when they sit in the same directory and their stems are equal or one is the other plus `_ema` |
| Paths.SameLast | Aligning-Flow-Div-User-Defined-Sampling/src/userfm/callbacks.py:35 | `p / a == q / b` exactly when p == q and a == b |
| Paths.OverlapExample | Aligning-Flow-Div-User-Defined-Sampling/src/userfm/callbacks.py:32-35 | the raw directory of `d/x_ema.ckpt` is the EMA directory of `d/x.ckpt` |
| Checkpoint.Removed | Aligning-Flow-Div-User-Defined-Sampling/src/userfm/callbacks.py:56 | exactly the entries outside the removed directory remain, unchanged, and the directory is no longer present |
| Checkpoint.Written | Aligning-Flow-Div-User-Defined-Sampling/src/userfm/callbacks.py:43 | a forced write holds the tree at the directory, drops what was below it, and keeps everything else |
| Checkpoint.SaveAll | Aligning-Flow-Div-User-Defined-Sampling/src/userfm/callbacks.py:41-43 | writes succeed exactly when no directory is faulty; a failure names a faulty directory |
| Checkpoint.RemoveAll | Aligning-Flow-Div-User-Defined-Sampling/src/userfm/callbacks.py:55-56 | a failure names one of the directories; removal never adds or changes an entry |
| Checkpoint.SaveFailureSticks | Aligning-Flow-Div-User-Defined-Sampling/src/userfm/callbacks.py:41-43 | after the first failed write the remaining writes do nothing |
| Checkpoint.RemoveFailureSticks | Aligning-Flow-Div-User-Defined-Sampling/src/userfm/callbacks.py:55-56 | after the first failed removal the remaining removals do nothing |
| Checkpoint.RawNotWithinEma | Aligning-Flow-Div-User-Defined-Sampling/src/userfm/callbacks.py:33-35 | the raw directory never lies below the EMA directory |
| Checkpoint.SavePairSteps | Aligning-Flow-Div-User-Defined-Sampling/src/userfm/callbacks.py:41-43 | saving a pair is the first write, then the second unless the first failed |
| Checkpoint.RemovePairSteps | Aligning-Flow-Div-User-Defined-Sampling/src/userfm/callbacks.py:55-56 | removing a pair is the first removal, then the second unless the first failed |
| Checkpoint.PresentAt | Aligning-Flow-Div-User-Defined-Sampling/src/userfm/callbacks.py:56 | a directory holding a stored entry at or below it is present |
| Checkpoint.SaveRoundTrip | Aligning-Flow-Div-User-Defined-Sampling/src/userfm/callbacks.py:37-43 | after a completed save, the raw directory holds params and the EMA directory holds params_ema; every other directory outside the two subtrees keeps its tree, and no other directory appears |
| Checkpoint.SaveTornPair | Aligning-Flow-Div-User-Defined-Sampling/src/userfm/callbacks.py:41-43 | when only the EMA write fails, the raw directory holds the new params while the EMA directory keeps its old contents (unless it lies below the raw one) |
| Checkpoint.RemoveAfterSave | Aligning-Flow-Div-User-Defined-Sampling/src/userfm/callbacks.py:53-56 | removing a freshly saved pair with an ordinary stem succeeds, deletes both directories, and keeps every entry outside them |
| Checkpoint.RemoveCollapsedPairFails | Aligning-Flow-Div-User-Defined-Sampling/src/userfm/callbacks.py:53-56 | with an empty or `.` stem, removing the raw directory also removes the EMA one, so the second rmtree fails |
| Checkpoint.RemoveTwice | Aligning-Flow-Div-User-Defined-Sampling/src/userfm/callbacks.py:53-56 | removing a pair again fails at once on the raw directory and changes nothing |
| Checkpoint.Storage.Write | Aligning-Flow-Div-User-Defined-Sampling/src/userfm/callbacks.py:43 | a forced save replaces the directory, or fails and leaves storage as it was |
| Checkpoint.Storage.WriteAll | Aligning-Flow-Div-User-Defined-Sampling/src/userfm/callbacks.py:41-43 | the loop over the pairs leaves storage and outcome as `SaveAll` describes |
| Checkpoint.Storage.RemoveTree | Aligning-Flow-Div-User-Defined-Sampling/src/userfm/callbacks.py:56 | removes the directory subtree when it is present; otherwise fails and changes nothing |
| Checkpoint.ModelCheckpoint.Save | Aligning-Flow-Div-User-Defined-Sampling/src/userfm/callbacks.py:37-51 | AttributeError for missing params, then for missing params_ema, with storage untouched; otherwise storage and outcome follow `SaveAll`; bookkeeping happens only on success; each logger is notified once per registration only on success on rank zero |
| Checkpoint.ModelCheckpoint.Commit | Aligning-Flow-Div-User-Defined-Sampling/src/userfm/callbacks.py:45-51 | records the global step and the path, then notifies the loggers on rank zero only |
| Checkpoint.ModelCheckpoint.NotifyAll | Aligning-Flow-Div-User-Defined-Sampling/src/userfm/callbacks.py:50-51 | each logger receives the checkpoint once for every time it appears in the list |
| Checkpoint.ModelCheckpoint.Remove | Aligning-Flow-Div-User-Defined-Sampling/src/userfm/callbacks.py:53-56 | the loop leaves storage and outcome as `RemoveAll` of the raw and then the EMA directory |
| Checkpoint.LinkCheckpoint | Aligning-Flow-Div-User-Defined-Sampling/src/userfm/callbacks.py:58-64 | the aliases computed inline from the link path are that path's checkpoint directories; links are raw to raw alias, then EMA to EMA alias |
| LogStats.MonitorName | Aligning-Flow-Div-User-Defined-Sampling/src/userfm/callbacks.py:15-18 | a string key is logged under itself, any other key under its class name |
| LogStats.LogName | Aligning-Flow-Div-User-Defined-Sampling/src/userfm/callbacks.py:19-23 | starts with the monitor's name and is four characters longer exactly for the EMA monitors; that those characters are `_ema` is stated by `LogStats.TrainLogShape` |
| LogStats.LogNameInjective | Aligning-Flow-Div-User-Defined-Sampling/src/userfm/callbacks.py:14-23 | two monitors of the same parameter set share a logged name exactly when their names agree |
| LogStats.TrainLogCalls | Aligning-Flow-Div-User-Defined-Sampling/src/userfm/callbacks.py:11-23 | the `log` calls of `on_train_batch_end`: two losses plus one call per monitor and per EMA monitor; their order and names are stated by `LogStats.TrainLogShape` |
| LogStats.MonitorCalls | Aligning-Flow-Div-User-Defined-Sampling/src/userfm/callbacks.py:14-23 | one call per monitor, in order, under its string or class name, with `_ema` appended for the EMA monitors |
| LogStats.TrainLogShape | Aligning-Flow-Div-User-Defined-Sampling/src/userfm/callbacks.py:11-23 | `train_loss` and `train_loss_ema` first, then each monitor under its name, then each EMA monitor under its name plus `_ema` |
| LogStats.TrainLogFlags | Aligning-Flow-Div-User-Defined-Sampling/src/userfm/callbacks.py:11-23 | every call uses the batch size, and is aggregated per epoch and shown in the progress bar |
| LogStats.TrainLogNamesOfStep | Aligning-Flow-Div-User-Defined-Sampling/src/userfm/callbacks.py:11-23 | for a training step's outputs the logged names are exactly `train_loss`, `train_loss_ema`, `flow_loss`, `flow_loss_ema`, with the raw and the EMA losses |
| LogStats.BatchLen | Aligning-Flow-Div-User-Defined-Sampling/src/userfm/callbacks.py:12 | `len(batch)` is the leading dimension, and raises for an array without axes |
| LogStats.LogStatsCallback.OnTrainBatchEnd | Aligning-Flow-Div-User-Defined-Sampling/src/userfm/callbacks.py:11-23 | fails exactly for a batch without axes, logging nothing; otherwise appends the calls `TrainLogCalls` lists |
| LogStats.LogStatsCallback.LogMonitors | Aligning-Flow-Div-User-Defined-Sampling/src/userfm/callbacks.py:14-23 | the loop appends exactly `MonitorCalls` |
| LogStats.LogStatsCallback.OnValidationBatchEnd | Aligning-Flow-Div-User-Defined-Sampling/src/userfm/callbacks.py:25-26 | logs `loss_val` with the batch size, or fails for a batch without axes |

## Left out

- Numeric bodies. The network, `noise_input`, `noise_score`, `sigma`, `scale`,
  the covariance whitening and the weighted mean are opaque collaborators.
  `score`'s input and output scaling (diffusion.py:136-145) is not modelled.
- Optimiser. Optax's Adam update rule is a collaborator; only its initial state
  and `apply_updates` are modelled. JAX autodiff is a collaborator too.
- Samplers. `samplers.sde_sample`, `samplers.event_scores` and
  `samplers.compute_nll` are not modelled. The model records the call the core
  makes (key, shape, parameters, cond, step count, path flag). The score
  closure it hands over is not stored in that record; it is modelled on its
  own by `Diffusion.SamplerScore`.
- Relative error. The sample-then-measure relative error used in
  `validation_step` is one collaborator.
- Checkpoint I/O. Orbax's save arguments and its on-disk format, `shutil.rmtree`
  beyond removing a subtree, and Lightning's base `_link_checkpoint` are not
  modelled. Storage maps directories to parameter trees; a write either
  completes or fails; the link is the list of (directory, alias) requests handed
  to the base class.
- Lightning glue. Dataloaders, `__hash__`, the conversion of outputs to torch
  tensors (diffusion.py:84) and the weak proxy given to loggers are not
  modelled; the logger receives the checkpoint object itself.
  `self.optimizers().step()` is modelled as incrementing the global step, and
  `x_shape` (taken from the first training batch) is a constructor argument.
- Floating point. IEEE arithmetic is not modelled; everything is over reals.
- Diffusion.JaxLightning.constructor: requires `ema_folding_count != 0` and
  `epochs != 0`. A zero folding count raises ZeroDivisionError (as
  `Ema.EmaTs` models); zero epochs give `ema_ts = 0`, and the float EMA update
  then produces inf/nan instead of raising.
- Diffusion.JaxLightning.PredictStep: the event-constrained branch reads the
  constraint at once but `params_ema` lazily, inside the score closure. The
  model checks the constraint first and then `params_ema`, and reports either
  missing attribute when the prediction is made.
- Paths.Stem: follows pathlib up to Python 3.13; from 3.14 a trailing dot
  counts as a suffix. Only POSIX paths are modelled.
- Prng: a key stands for its derivation path from the root seed; the
  threefry bits and the uniform draw's distribution are not modelled.
- Processes. Multi-process training is reduced to the `is_global_zero` flag.
- Monitor order. The monitors dictionary is a sequence in insertion order.
  `jax.tree.map` (diffusion.py:84) rebuilds the dictionaries with sorted keys,
  so the logging hooks see the monitors in key order. With the single
  `flow_loss` monitor the loss produces, the two orders are the same.
- Path resolution. Storage is keyed by parsed but unresolved POSIX paths: `/`
  and `//` are different anchors, a relative and an absolute spelling of one
  directory are different keys, and `..` is an ordinary component (the stem of
  `...x` is `..`). Symbolic links and the working directory are not
  consulted.
