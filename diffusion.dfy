/**
 * The training core of the diffusion model: the score-matching loss with its
 * low-variance time draw, the functional training step with its EMA shadow
 * copy, the time coercion of the sampler's score closure, and the module
 * whose Lightning hooks split the random key and store the step's results.
 *
 * The network, the SDE's flow loss, its gradient, the optimiser's update
 * rule, the initialiser, the condition function, the uniform draw and
 * validation's sample-then-measure error are opaque collaborators:
 * function-valued fields of a `Network` value, about which only what the
 * core relies on is assumed.  The samplers are not called: `sample`,
 * `compute_nll` and `predict_step` give the request they would hand over,
 * as `SamplerCall`, `NllRequest` and `Prediction` values.
 */
module Diffusion {
  import opened Wrappers
  import opened Prng
  import opened Tensors
  import opened Ema
  import opened TimeGrid

  /** The exceptions the core raises. */
  datatype Error =
    | UnknownStage(stage: string)     // ValueError for a stage it does not know
    | MissingAttribute(name: string)  // AttributeError: a slot read before it was set
    | IndexError                      // `shape[0]` of a shape with no axes
    | StructureMismatch               // `jax.tree.map` over trees of different structure
    | KeyError(name: string)          // a metric absent from the trainer's metrics

  /** Conditioning input: `None` or an array. */
  type Cond = Option<Tensor>

  /** A key of the monitors dictionary: a string or some other object. */
  datatype MonitorKey = StrKey(s: string) | ObjKey(className: string)

  type Monitors = seq<(MonitorKey, real)>

  /** The state of `optax.adam`: a step count and the two moment trees. */
  datatype OptState = OptState(count: nat, mu: Tree, nu: Tree)

  /** What a sampler is asked to do: the arguments of `samplers.sde_sample`. */
  datatype SamplerCall = SamplerCall(
    key: Key, xShape: seq<nat>, nsteps: nat, keepPath: bool,
    cond: Cond, params: Tree, eventConstrained: bool)

  /** The opaque collaborators of the core. */
  datatype Network = Network(
    tmin: real,
    tmax: real,
    nsteps: nat,
    uniform: Key -> real,                              // jax.random.uniform
    flowLoss: (Key, Tensor, Cond, Tensor, Tree) -> real, // noise, score and weighted mean error
    grad: (Key, Tensor, Cond, Tree) -> Tree,           // gradient of the loss in the parameters
    adamUpdate: (Tree, OptState) -> (Tree, OptState),  // optimizer.update
    init: (Key, Tensor, Tensor, Cond) -> Tree,         // model.init on a probe batch
    condFn: Tensor -> Cond,
    score: (Tensor, Tensor, Cond, Tree) -> Tensor,     // the scaled network output
    relErr: (SamplerCall, Tensor) -> real)             // sample, then mean relative error

  /**
   * What the core relies on: the uniform draw lies in [0, 1), a gradient has
   * the structure of the parameters, and updates have that of the gradient.
   */
  ghost predicate NetValid(net: Network) {
    && (forall k :: 0.0 <= net.uniform(k) < 1.0)
    && (forall k, b, c, p :: net.grad(k, b, c, p).Keys == p.Keys)
    && (forall g, s :: net.adamUpdate(g, s).0.Keys == g.Keys)
  }

  // ---------------------------------------------------------------- loss

  /** The random draw of one loss evaluation. */
  datatype Draw = Draw(keyTime: Key, keyNoise: Key, t: Tensor)

  /**
   * The draw of `loss` for a batch of n: split off a time key, spread one
   * uniform draw over the batch on the low-variance grid, map it into
   * [tmin, tmax), reshape to (n, 1, 1), then split off the noise key.
   */
  function TimeDraw(net: Network, key: Key, n: nat): (d: Draw)
    ensures key < d.keyTime && key < d.keyNoise && Independent(d.keyTime, d.keyNoise)
    ensures WellFormed(d.t) && d.t.shape == [n, 1, 1] && |d.t.data| == n
    ensures net.tmin < net.tmax ==> forall i :: 0 <= i < n ==> net.tmin <= d.t.data[i] < net.tmax
  {
    var (key1, keyTime) := Split(key);
    var u := LowVarGrid(net.uniform(keyTime), n);
    var (_, keyNoise) := Split(key1);
    assert keyTime[|key|] != keyNoise[|key|];
    Draw(keyTime, keyNoise, Column(Times(u, net.tmin, net.tmax)))
  }

  /** Two times of the grid coincide only if they come from the same fraction. */
  lemma AffineInjective(u: real, v: real, tmin: real, tmax: real)
    requires tmin < tmax && AffineTime(u, tmin, tmax) == AffineTime(v, tmin, tmax)
    ensures u == v
  {
    assert u * (tmax - tmin) == v * (tmax - tmin);
    MulCancel(u, v, tmax - tmin);
  }

  lemma MulCancel(u: real, v: real, d: real)
    requires d != 0.0 && u * d == v * d
    ensures u == v
  {
    assert (u - v) * d == 0.0;
  }

  /**
   * The low-variance property of the draw: for a batch of n >= 2 the first
   * n - 1 times are pairwise distinct, and the last repeats the first.
   */
  lemma DrawTimesSpread(net: Network, key: Key, n: nat, i: nat, j: nat)
    requires NetValid(net) && net.tmin < net.tmax && n >= 2
    requires i < n - 1 && j < n - 1 && i != j
    ensures TimeDraw(net, key, n).t.data[i] != TimeDraw(net, key, n).t.data[j]
    ensures TimeDraw(net, key, n).t.data[0] == TimeDraw(net, key, n).t.data[n - 1]
  {
    var keyTime := Split(key).1;
    var u0 := net.uniform(keyTime);
    var u := LowVarGrid(u0, n);
    var t := TimeDraw(net, key, n).t.data;
    assert t == Times(u, net.tmin, net.tmax);
    GridDistinct(u0, n, i, j);
    if t[i] == t[j] {
      AffineInjective(u[i], u[j], net.tmin, net.tmax);
    }
    GridEndsCoincide(u0, n);
  }

  /** The loss and its monitors. */
  datatype LossOut = LossOut(loss: real, monitors: Monitors)

  /**
   * `loss(key, x_data, cond, params)`: the flow loss at the draw fixed by
   * the key and the batch size alone, reported also as the monitor
   * 'flow_loss'; a batch without a leading axis has no size.
   */
  function Loss(net: Network, key: Key, batch: Tensor, cond: Cond, params: Tree): (r: Result<LossOut, Error>)
    ensures r.Err? <==> batch.shape == []
    ensures r.Err? ==> r.error == IndexError
    ensures r.Ok? ==> r.value.monitors == [(StrKey("flow_loss"), r.value.loss)]
    ensures r.Ok? ==> var d := TimeDraw(net, key, batch.shape[0]);
      r.value.loss == net.flowLoss(d.keyNoise, batch, cond, d.t, params)
  {
    if batch.shape == [] then Err(IndexError)
    else
      var d := TimeDraw(net, key, batch.shape[0]);
      var l := net.flowLoss(d.keyNoise, batch, cond, d.t, params);
      Ok(LossOut(l, [(StrKey("flow_loss"), l)]))
  }

  // ------------------------------------------------------ optimiser state

  /** A tree of the given structure with every leaf zero. */
  function Zeros(t: Tree): (z: Tree)
    ensures z.Keys == t.Keys && forall n :: n in z ==> z[n] == 0.0
  {
    map n | n in t :: 0.0
  }

  /** `optax.adam(...).init(params)`: step count 0, both moments zero. */
  function AdamInit(params: Tree): (s: OptState)
    ensures s.count == 0 && s.mu.Keys == params.Keys && s.nu.Keys == params.Keys
    ensures forall n :: n in params ==> s.mu[n] == 0.0 && s.nu[n] == 0.0
  {
    OptState(0, Zeros(params), Zeros(params))
  }

  /**
   * `optax.apply_updates(params, updates)`: leaf-wise sum; trees of
   * different structure cannot be combined.
   */
  function ApplyUpdates(params: Tree, updates: Tree): (r: Result<Tree, Error>)
    ensures r.Ok? <==> params.Keys == updates.Keys
    ensures r.Err? ==> r.error == Error.StructureMismatch
    ensures r.Ok? ==> r.value.Keys == params.Keys
    ensures r.Ok? ==> forall n :: n in r.value ==> r.value[n] - params[n] == updates[n]
  {
    if params.Keys != updates.Keys then Err(Error.StructureMismatch)
    else Ok(map n | n in params :: params[n] + updates[n])
  }

  function Negated(t: Tree): (r: Tree)
    ensures r.Keys == t.Keys && forall n :: n in r ==> r[n] == -t[n]
  {
    map n | n in t :: -t[n]
  }

  /** Applying the negated updates undoes an update. */
  lemma UpdatesUndone(params: Tree, updates: Tree)
    requires params.Keys == updates.Keys
    ensures ApplyUpdates(params, updates).Ok?
    ensures ApplyUpdates(ApplyUpdates(params, updates).value, Negated(updates)) == Ok(params)
  {
    var p' := ApplyUpdates(params, updates).value;
    var back := ApplyUpdates(p', Negated(updates));
    assert back.Ok?;
    assert back.value.Keys == params.Keys;
    forall n | n in params ensures back.value[n] == params[n] {
      assert back.value[n] - p'[n] == -updates[n];
      assert p'[n] - params[n] == updates[n];
    }
    assert back.value == params;
  }

  // ---------------------------------------------------------- train step

  /** What `step` returns. */
  datatype StepOut = StepOut(loss: real, monitors: Monitors, params: Tree, paramsEma: Tree, opt: OptState)

  /**
   * `step(key, batch, cond, params, params_ema, opt_state)`: loss and
   * gradient at `params`, the optimiser's update applied, then the EMA rule
   * `ema + (p - ema) / ema_ts` mapped over the new parameters and the old
   * shadow copy.  A function: nothing it is given is changed.
   */
  function Step(net: Network, emaTs: real, key: Key, batch: Tensor, cond: Cond,
                params: Tree, paramsEma: Tree, opt: OptState): (r: Result<StepOut, Error>)
    requires emaTs != 0.0
    ensures r.Ok? ==> Loss(net, key, batch, cond, params) == Ok(LossOut(r.value.loss, r.value.monitors))
    ensures r.Ok? ==> r.value.paramsEma.Keys == r.value.params.Keys == paramsEma.Keys
    ensures r.Ok? ==> forall n :: n in r.value.paramsEma ==>
      r.value.paramsEma[n] == EmaLeaf(r.value.params[n], paramsEma[n], emaTs)
    ensures r.Ok? ==> var (updates, opt') := net.adamUpdate(net.grad(key, batch, cond, params), opt);
      r.value.opt == opt' && ApplyUpdates(params, updates) == Ok(r.value.params)
  {
    match Loss(net, key, batch, cond, params)
    case Err(e) => Err(e)
    case Ok(lo) =>
      var (updates, opt') := net.adamUpdate(net.grad(key, batch, cond, params), opt);
      match ApplyUpdates(params, updates)
      case Err(e) => Err(e)
      case Ok(p') =>
        match EmaTree(p', paramsEma, emaTs)
        case Err(_) => Err(Error.StructureMismatch)
        case Ok(ema') => Ok(StepOut(lo.loss, lo.monitors, p', ema', opt'))
  }

  /**
   * With well-behaved collaborators a step fails exactly when the batch has
   * no leading axis or the shadow copy has a different structure, and it
   * keeps the structure of the parameters.
   */
  lemma StepSucceeds(net: Network, emaTs: real, key: Key, batch: Tensor, cond: Cond,
                     params: Tree, paramsEma: Tree, opt: OptState)
    requires NetValid(net) && emaTs != 0.0
    ensures var r := Step(net, emaTs, key, batch, cond, params, paramsEma, opt);
      && (r.Ok? <==> batch.shape != [] && paramsEma.Keys == params.Keys)
      && (r.Ok? ==> r.value.params.Keys == params.Keys)
  {
    var g := net.grad(key, batch, cond, params);
    assert g.Keys == params.Keys;
    assert net.adamUpdate(g, opt).0.Keys == g.Keys;
  }

  /**
   * For ema_ts >= 1 every leaf of the new shadow copy lies between its old
   * value and the new parameter: the EMA never overshoots.
   */
  lemma StepEmaBetween(net: Network, emaTs: real, key: Key, batch: Tensor, cond: Cond,
                       params: Tree, paramsEma: Tree, opt: OptState, n: Name)
    requires emaTs >= 1.0
    requires Step(net, emaTs, key, batch, cond, params, paramsEma, opt).Ok?
    requires n in paramsEma
    ensures var s := Step(net, emaTs, key, batch, cond, params, paramsEma, opt).value;
      && (paramsEma[n] <= s.params[n] ==> paramsEma[n] <= s.paramsEma[n] <= s.params[n])
      && (s.params[n] <= paramsEma[n] ==> s.params[n] <= s.paramsEma[n] <= paramsEma[n])
  {
    var s := Step(net, emaTs, key, batch, cond, params, paramsEma, opt).value;
    LeafBetween(s.params[n], paramsEma[n], emaTs);
  }

  // ------------------------------------------------------------ sampling

  /** The time argument the sampler passes to the score closure. */
  datatype TimeArg = Scalar(v: real) | Array(a: Tensor)

  /**
   * The closure's coercion: a Python number, or an array with no axes,
   * becomes an array of shape (x_shape[0], 1, 1) filled with that value;
   * an array with axes is passed on as it is.
   */
  function CoerceTime(t: TimeArg, xShape: seq<nat>): (r: Result<Tensor, Error>)
    requires t.Array? ==> WellFormed(t.a)
    ensures t.Array? && t.a.shape != [] ==> r == Ok(t.a)
    ensures (t.Scalar? || t.a.shape == []) ==> (r.Err? <==> xShape == [])
    ensures r.Err? ==> r.error == IndexError
    ensures r.Ok? && (t.Scalar? || t.a.shape == []) ==>
      && WellFormed(r.value) && r.value.shape == [xShape[0], 1, 1]
      && forall i :: 0 <= i < |r.value.data| ==>
           r.value.data[i] == (if t.Scalar? then t.v else t.a.data[0])
  {
    if t.Array? && t.a.shape != [] then Ok(t.a)
    else if xShape == [] then Err(IndexError)
    else
      var v := if t.Scalar? then t.v else t.a.data[0];
      Ok(Filled([xShape[0], 1, 1], v))
  }

  /** The score closure handed to a sampler: coerce the time, then score. */
  function SamplerScore(net: Network, cond: Cond, params: Tree, xShape: seq<nat>,
                        x: Tensor, t: TimeArg): (r: Result<Tensor, Error>)
    requires t.Array? ==> WellFormed(t.a)
    ensures r.Err? <==> CoerceTime(t, xShape).Err?
    ensures r.Ok? ==> r.value == net.score(x, CoerceTime(t, xShape).value, cond, params)
  {
    match CoerceTime(t, xShape)
    case Err(e) => Err(e)
    case Ok(t') => Ok(net.score(x, t', cond, params))
  }

  /**
   * `sample(key, tmax, cond, x_shape, params, keep_path)`: the sampler call,
   * with the EMA parameters when no parameters are given.  `tmax` is not
   * passed on.
   */
  function SampleCall(net: Network, paramsEma: Option<Tree>, key: Key, tmax: real, cond: Cond,
                      xShape: seq<nat>, params: Option<Tree>, keepPath: bool): (r: Result<SamplerCall, Error>)
    ensures r.Err? <==> params.None? && paramsEma.None?
    ensures r.Err? ==> r.error == MissingAttribute("params_ema")
    ensures r.Ok? ==> r.value.params == (if params.Some? then params.value else paramsEma.value)
    ensures r.Ok? ==> r.value.key == key && r.value.xShape == xShape && r.value.cond == cond
    ensures r.Ok? ==> r.value.nsteps == net.nsteps && r.value.keepPath == keepPath && !r.value.eventConstrained
  {
    var p := if params.Some? then params else paramsEma;
    if p.None? then Err(MissingAttribute("params_ema"))
    else Ok(SamplerCall(key, xShape, net.nsteps, keepPath, cond, p.value, false))
  }

  /** The requested end time has no effect on what is sampled. */
  lemma SampleIgnoresTmax(net: Network, paramsEma: Option<Tree>, key: Key, tmax: real, tmax': real,
                          cond: Cond, xShape: seq<nat>, params: Option<Tree>, keepPath: bool)
    ensures SampleCall(net, paramsEma, key, tmax, cond, xShape, params, keepPath)
         == SampleCall(net, paramsEma, key, tmax', cond, xShape, params, keepPath)
  {
  }

  /**
   * What `samplers.compute_nll` is given: the key, the data array itself,
   * and the score closure, which is unconditioned and scores with `params`.
   */
  datatype NllRequest = NllRequest(key: Key, data: Tensor, cond: Cond, params: Tree)

  /**
   * `compute_nll(key, tmax, x_data, params)`: the likelihood of the data,
   * with the EMA parameters by default; `tmax` is not passed on.
   */
  function NllCall(paramsEma: Option<Tree>, key: Key, tmax: real, xData: Tensor, params: Option<Tree>)
    : (r: Result<NllRequest, Error>)
    ensures r.Err? <==> params.None? && paramsEma.None?
    ensures r.Err? ==> r.error == MissingAttribute("params_ema")
    ensures r.Ok? ==> r.value.data == xData && r.value.key == key && r.value.cond.None?
    ensures r.Ok? ==> r.value.params == (if params.Some? then params.value else paramsEma.value)
  {
    var p := if params.Some? then params else paramsEma;
    if p.None? then Err(MissingAttribute("params_ema"))
    else Ok(NllRequest(key, xData, None, p.value))
  }

  // ------------------------------------------------------ the Lightning module

  /** `model_init`: the network initialised on a probe batch of ones. */
  function ModelInit(net: Network, key: Key, xShape: seq<nat>): (r: Result<Tree, Error>)
    ensures r.Err? <==> xShape == []
    ensures r.Err? ==> r.error == IndexError
    ensures r.Ok? ==> var x := Filled(xShape, 1.0);
      r.value == net.init(key, x, Filled([xShape[0]], 1.0), net.condFn(x))
  {
    var x := Filled(xShape, 1.0);
    if xShape == [] then Err(IndexError)
    else Ok(net.init(key, x, Filled([xShape[0]], 1.0), net.condFn(x)))
  }

  /** The metric the checkpoints are chosen by. */
  datatype CkptMonitor = ValRelativeErrorEma | Metric(name: string)

  /** What `training_step` returns. */
  datatype TrainOutputs = TrainOutputs(loss: real, lossEma: real, monitors: Monitors, monitorsEma: Monitors)

  /** The event the event-conditioned sampler is constrained to. */
  datatype EventConstraint = EventConstraint(constraint: Tensor -> real)

  /** The regularisation `predict_step` passes to `samplers.event_scores`. */
  const EventReg: real := 0.001

  /**
   * What `predict_step` returns: the call of the plain sampler, or that of
   * the event sampler with the constraint and regularisation its scores use.
   */
  datatype Prediction =
    | Sampled(call: SamplerCall)
    | EventSampled(call: SamplerCall, constraint: Tensor -> real, reg: real)

  const Stages: set<string> := {"fit", "val", "predict"}

  /**
   * The Lightning module.  Every hook that draws randomness first splits
   * the module's key, keeps one half and consumes the other; the ghost
   * `consumed` lists every key handed out, and the split discipline holds
   * between them and the kept key.
   */
  class JaxLightning {
    const net: Network
    const emaTs: real
    const xShape: seq<nat>
    const eventConditioned: bool
    const eventConstraint: Option<EventConstraint>
    const monitor: CkptMonitor
    var key: Key
    var params: Option<Tree>
    var paramsEma: Option<Tree>
    var optState: Option<OptState>
    var globalStep: nat
    ghost var consumed: seq<Key>

    ghost predicate Valid()
      reads this
    {
      && Disciplined(key, consumed)
      && emaTs != 0.0
      && NetValid(net)
      && params.Some? == paramsEma.Some?
      && (params.Some? ==> params.value.Keys == paramsEma.value.Keys)
    }

    /** `__init__`: the EMA time constant is epochs / ema_folding_count. */
    constructor (net: Network, key: Key, xShape: seq<nat>, epochs: int, foldingCount: int,
                 eventConditioned: bool, eventConstraint: Option<EventConstraint>, monitor: CkptMonitor)
      requires NetValid(net) && foldingCount != 0 && epochs != 0
      ensures Valid()
      ensures this.net == net && this.key == key && this.xShape == xShape && consumed == []
      ensures emaTs == EmaTs(epochs, foldingCount).value
      ensures this.eventConditioned == eventConditioned && this.eventConstraint == eventConstraint
      ensures this.monitor == monitor
      ensures params.None? && paramsEma.None? && optState.None? && globalStep == 0
    {
      this.net := net;
      this.emaTs := epochs as real / foldingCount as real;
      this.xShape := xShape;
      this.eventConditioned := eventConditioned;
      this.eventConstraint := eventConstraint;
      this.monitor := monitor;
      this.key := key;
      params := None;
      paramsEma := None;
      optState := None;
      globalStep := 0;
      consumed := [];
    }

    /** Keep the first half of a split of the key and hand out the second. */
    method SplitKey() returns (k: Key)
      requires Valid()
      modifies this`key, this`consumed
      ensures Valid()
      ensures (key, k) == Split(old(key)) && consumed == old(consumed) + [k]
    {
      SplitPreservesDiscipline(key, consumed);
      var (kept, out) := Split(key);
      key := kept;
      k := out;
      consumed := consumed + [k];
    }

    /**
     * `setup(stage)`: for 'fit', split the key and initialise the parameters
     * and their shadow copy; 'val' and 'predict' do nothing; any other stage
     * is refused.
     */
    method Setup(stage: string) returns (o: Outcome<Error>)
      requires Valid()
      modifies this
      ensures Valid()
      ensures o.Fail? <==> stage !in Stages || (stage == "fit" && xShape == [])
      ensures stage !in Stages ==> o == Fail(UnknownStage(stage))
      ensures stage == "fit" ==> key == Split(old(key)).0 && consumed == old(consumed) + [Split(old(key)).1]
      ensures stage == "fit" && o.Pass? ==>
        params == paramsEma == Some(ModelInit(net, Split(old(key)).1, xShape).value)
      ensures stage != "fit" ==> key == old(key) && consumed == old(consumed)
      ensures stage != "fit" || o.Fail? ==> params == old(params) && paramsEma == old(paramsEma)
      ensures optState == old(optState) && globalStep == old(globalStep)
    {
      if stage == "fit" {
        var keyTrain := SplitKey();
        match ModelInit(net, keyTrain, xShape)
        case Err(e) =>
          o := Fail(e);
        case Ok(p) =>
          params := Some(p);
          paramsEma := params;
          o := Pass;
      } else if stage == "val" {
        o := Pass;
      } else if stage == "predict" {
        o := Pass;
      } else {
        o := Fail(UnknownStage(stage));
      }
    }

    /** `configure_optimizers`: Adam's state initialised from the parameters. */
    method ConfigureOptimizers() returns (o: Outcome<Error>)
      requires Valid()
      modifies this`optState
      ensures Valid()
      ensures o.Fail? <==> params.None?
      ensures o.Fail? ==> o.error == MissingAttribute("params") && optState == old(optState)
      ensures o.Pass? ==> optState == Some(AdamInit(params.value))
    {
      if params.None? {
        o := Fail(MissingAttribute("params"));
      } else {
        optState := Some(AdamInit(params.value));
        o := Pass;
      }
    }

    /**
     * `training_step(batch)`: split the key, run the step on the stored
     * state and store its results, then evaluate the loss of the new shadow
     * copy with the same key, and advance the global step.
     */
    method TrainingStep(batch: Tensor) returns (r: Result<TrainOutputs, Error>)
      requires Valid()
      modifies this
      ensures Valid()
      ensures key == Split(old(key)).0
      ensures consumed == old(consumed) + [Split(old(key)).1]
      ensures r.Err? <==> old(params).None? || old(optState).None? || batch.shape == []
      ensures r.Err? ==>
        && params == old(params) && paramsEma == old(paramsEma)
        && optState == old(optState) && globalStep == old(globalStep)
      ensures r.Ok? ==>
        var keyTrain := Split(old(key)).1;
        var cond := net.condFn(batch);
        var s := Step(net, emaTs, keyTrain, batch, cond,
                      old(params).value, old(paramsEma).value, old(optState).value).value;
        && params == Some(s.params) && paramsEma == Some(s.paramsEma) && optState == Some(s.opt)
        && r.value.loss == s.loss && r.value.monitors == s.monitors
        && Loss(net, keyTrain, batch, cond, s.paramsEma) == Ok(LossOut(r.value.lossEma, r.value.monitorsEma))
        && globalStep == old(globalStep) + 1
    {
      var cond := net.condFn(batch);
      var keyTrain := SplitKey();
      if params.None? {
        r := Err(MissingAttribute("params"));
        return;
      }
      if optState.None? {
        r := Err(MissingAttribute("opt_state"));
        return;
      }
      StepSucceeds(net, emaTs, keyTrain, batch, cond, params.value, paramsEma.value, optState.value);
      match Step(net, emaTs, keyTrain, batch, cond, params.value, paramsEma.value, optState.value)
      case Err(e) =>
        r := Err(e);
      case Ok(s) =>
        params, paramsEma, optState := Some(s.params), Some(s.paramsEma), Some(s.opt);
        var lossEma := Loss(net, keyTrain, batch, cond, s.paramsEma).value;
        globalStep := globalStep + 1;
        r := Ok(TrainOutputs(s.loss, lossEma.loss, s.monitors, lossEma.monitors));
    }

    /**
     * `validation_step(batch)`: split the key; when checkpoints follow the
     * EMA sample error, sample with the shadow copy and report the error;
     * during the sanity check report -1; otherwise report the trainer's
     * metric named by the monitor.
     */
    method ValidationStep(batch: Tensor, sanityChecking: bool, callbackMetrics: map<string, real>)
      returns (r: Result<real, Error>)
      requires Valid()
      modifies this`key, this`consumed
      ensures Valid()
      ensures key == Split(old(key)).0
      ensures consumed == old(consumed) + [Split(old(key)).1]
      ensures monitor.ValRelativeErrorEma? ==>
        r == match SampleCall(net, paramsEma, Split(old(key)).1, 1.0, net.condFn(batch), batch.shape, paramsEma, false)
             case Err(e) => Err(e)
             case Ok(call) => Ok(net.relErr(call, batch))
      ensures monitor.Metric? && sanityChecking ==> r == Ok(-1.0)
      ensures monitor.Metric? && !sanityChecking ==>
        r == if monitor.name in callbackMetrics then Ok(callbackMetrics[monitor.name]) else Err(KeyError(monitor.name))
    {
      var keyVal := SplitKey();
      if monitor.ValRelativeErrorEma? {
        var cond := net.condFn(batch);
        match SampleCall(net, paramsEma, keyVal, 1.0, cond, batch.shape, paramsEma, false)
        case Err(e) =>
          r := Err(e);
        case Ok(call) =>
          r := Ok(net.relErr(call, batch));
      } else if sanityChecking {
        r := Ok(-1.0);
      } else if monitor.name in callbackMetrics {
        r := Ok(callbackMetrics[monitor.name]);
      } else {
        r := Err(KeyError(monitor.name));
      }
    }

    /**
     * `predict_step(batch)`: the batch is the shape to sample; split the
     * key and sample unconditioned with the shadow copy, through the
     * event-constrained sampler when the module was built for it.  That
     * sampler needs the module's event constraint.
     */
    method PredictStep(shape: seq<nat>) returns (r: Result<Prediction, Error>)
      requires Valid()
      modifies this`key, this`consumed
      ensures Valid()
      ensures key == Split(old(key)).0
      ensures consumed == old(consumed) + [Split(old(key)).1]
      ensures r.Err? <==> paramsEma.None? || (eventConditioned && eventConstraint.None?)
      ensures r.Err? && eventConditioned && eventConstraint.None? ==> r.error == MissingAttribute("constraint")
      ensures r.Err? && !(eventConditioned && eventConstraint.None?) ==> r.error == MissingAttribute("params_ema")
      ensures r.Ok? ==> r.value.call.params == paramsEma.value && r.value.call.cond.None?
      ensures r.Ok? ==> r.value.call.key == Split(old(key)).1 && r.value.call.xShape == shape
      ensures r.Ok? ==> r.value.call.nsteps == net.nsteps && !r.value.call.keepPath
      ensures r.Ok? ==> (r.value.EventSampled? <==> eventConditioned)
      ensures r.Ok? && r.value.EventSampled? ==>
        r.value.constraint == eventConstraint.value.constraint && r.value.reg == EventReg
    {
      var keyPred := SplitKey();
      if eventConditioned {
        if eventConstraint.None? {
          r := Err(MissingAttribute("constraint"));
        } else if paramsEma.None? {
          r := Err(MissingAttribute("params_ema"));
        } else {
          var call := SamplerCall(keyPred, shape, net.nsteps, false, None, paramsEma.value, true);
          r := Ok(EventSampled(call, eventConstraint.value.constraint, EventReg));
        }
      } else {
        match SampleCall(net, paramsEma, keyPred, 1.0, None, shape, None, false)
        case Err(e) =>
          r := Err(e);
        case Ok(call) =>
          r := Ok(Sampled(call));
      }
    }
  }
}
