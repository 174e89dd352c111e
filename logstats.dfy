/**
 * The logging callback: after each training batch it logs the loss, the EMA
 * loss and every monitor of both, the EMA ones with the suffix "_ema";
 * after each validation batch it logs the validation loss.
 */
module LogStats {
  import opened Wrappers
  import opened Tensors
  import opened Diffusion

  /** One `self.log(name, value, batch_size=..., on_epoch=True, prog_bar=True)`. */
  datatype LogCall = LogCall(name: string, value: real, batchSize: nat, onEpoch: bool, progBar: bool)

  /** `len(batch)` of an array with no axes raises TypeError. */
  datatype LogError = UnsizedBatch

  /** The name a monitor is logged under: the key itself, or its class name. */
  function MonitorName(k: MonitorKey): (r: string)
    ensures k.StrKey? ==> r == k.s
    ensures k.ObjKey? ==> r == k.className
  {
    match k
    case StrKey(s) => s
    case ObjKey(c) => c
  }

  function Logged(name: string, value: real, b: nat): LogCall {
    LogCall(name, value, b, true, true)
  }

  /** The name a monitor of the raw or of the EMA parameters is logged under. */
  function LogName(k: MonitorKey, ema: bool): (r: string)
    ensures MonitorName(k) <= r
    ensures |r| == |MonitorName(k)| + (if ema then 4 else 0)
  {
    if ema then MonitorName(k) + "_ema" else MonitorName(k)
  }

  /** The calls for a list of monitors, in order. */
  function MonitorCalls(m: Monitors, ema: bool, b: nat): (r: seq<LogCall>)
    ensures |r| == |m|
    ensures forall i :: 0 <= i < |m| ==> r[i] == Logged(LogName(m[i].0, ema), m[i].1, b)
  {
    if m == [] then [] else MonitorCalls(m[..|m| - 1], ema, b) + [Logged(LogName(m[|m| - 1].0, ema), m[|m| - 1].1, b)]
  }

  /** Two monitors of the same kind are logged under one name exactly when their names agree. */
  lemma LogNameInjective(k1: MonitorKey, k2: MonitorKey, ema: bool)
    ensures LogName(k1, ema) == LogName(k2, ema) <==> MonitorName(k1) == MonitorName(k2)
  {
    if LogName(k1, ema) == LogName(k2, ema) {
      assert MonitorName(k1) == LogName(k1, ema)[..|MonitorName(k1)|];
      assert MonitorName(k2) == LogName(k2, ema)[..|MonitorName(k2)|];
    }
  }

  /** Everything `on_train_batch_end` logs, in order. */
  function TrainLogCalls(out: TrainOutputs, b: nat): (r: seq<LogCall>)
    ensures |r| == 2 + |out.monitors| + |out.monitorsEma|
  {
    [Logged("train_loss", out.loss, b), Logged("train_loss_ema", out.lossEma, b)]
      + MonitorCalls(out.monitors, false, b) + MonitorCalls(out.monitorsEma, true, b)
  }

  /**
   * What is logged per training batch: the two losses first, then one call
   * per monitor under its name, then one per EMA monitor under its name
   * followed by "_ema".
   */
  lemma TrainLogShape(out: TrainOutputs, b: nat)
    ensures var calls := TrainLogCalls(out, b);
      && |calls| == 2 + |out.monitors| + |out.monitorsEma|
      && calls[0] == Logged("train_loss", out.loss, b)
      && calls[1] == Logged("train_loss_ema", out.lossEma, b)
      && (forall i :: 0 <= i < |out.monitors| ==>
            calls[2 + i] == Logged(MonitorName(out.monitors[i].0), out.monitors[i].1, b))
      && (forall i :: 0 <= i < |out.monitorsEma| ==>
            calls[2 + |out.monitors| + i] == Logged(MonitorName(out.monitorsEma[i].0) + "_ema", out.monitorsEma[i].1, b))
  {
    var h := [Logged("train_loss", out.loss, b), Logged("train_loss_ema", out.lossEma, b)];
    var m1 := MonitorCalls(out.monitors, false, b);
    var m2 := MonitorCalls(out.monitorsEma, true, b);
    var calls := TrainLogCalls(out, b);
    assert calls == (h + m1) + m2;
    forall i | 0 <= i < |out.monitors|
      ensures calls[2 + i] == Logged(MonitorName(out.monitors[i].0), out.monitors[i].1, b)
    {
      assert calls[2 + i] == (h + m1)[2 + i] == m1[i];
    }
    forall i | 0 <= i < |out.monitorsEma|
      ensures calls[2 + |out.monitors| + i] == Logged(MonitorName(out.monitorsEma[i].0) + "_ema", out.monitorsEma[i].1, b)
    {
      assert |h + m1| == 2 + |out.monitors|;
      assert calls[2 + |out.monitors| + i] == m2[i];
      assert LogName(out.monitorsEma[i].0, true) == MonitorName(out.monitorsEma[i].0) + "_ema";
    }
  }

  /** Every call is made at the batch's size, aggregated over the epoch and shown in the progress bar. */
  lemma TrainLogFlags(out: TrainOutputs, b: nat)
    ensures forall c :: c in TrainLogCalls(out, b) ==> c.batchSize == b && c.onEpoch && c.progBar
  {
    var h := [Logged("train_loss", out.loss, b), Logged("train_loss_ema", out.lossEma, b)];
    var m1 := MonitorCalls(out.monitors, false, b);
    var m2 := MonitorCalls(out.monitorsEma, true, b);
    forall c | c in TrainLogCalls(out, b) ensures c.batchSize == b && c.onEpoch && c.progBar {
      assert c in h || c in m1 || c in m2;
    }
  }

  /**
   * For a training step's outputs the monitors of the two parameter sets
   * carry the same keys, so what is logged is "train_loss",
   * "train_loss_ema", "flow_loss" and "flow_loss_ema" with the raw and the
   * EMA flow loss.
   */
  lemma TrainLogNamesOfStep(out: TrainOutputs, b: nat, net: Network, key: Prng.Key, batch: Tensor,
                            cond: Cond, params: Ema.Tree, paramsEma: Ema.Tree)
    requires Loss(net, key, batch, cond, params) == Ok(LossOut(out.loss, out.monitors))
    requires Loss(net, key, batch, cond, paramsEma) == Ok(LossOut(out.lossEma, out.monitorsEma))
    ensures TrainLogCalls(out, b) == [
      Logged("train_loss", out.loss, b), Logged("train_loss_ema", out.lossEma, b),
      Logged("flow_loss", out.loss, b), Logged("flow_loss_ema", out.lossEma, b)]
  {
    assert out.monitors == [(StrKey("flow_loss"), out.loss)];
    assert out.monitorsEma == [(StrKey("flow_loss"), out.lossEma)];
    assert "flow_loss" + "_ema" == "flow_loss_ema";
    assert MonitorCalls(out.monitors, false, b) == [Logged("flow_loss", out.loss, b)];
    assert MonitorCalls(out.monitorsEma, true, b) == [Logged("flow_loss_ema", out.lossEma, b)];
  }

  /** The batch size Lightning is given: `len(batch)`. */
  function BatchLen(batch: Tensor): (r: Result<nat, LogError>)
    ensures r.Ok? <==> batch.shape != []
    ensures r.Ok? ==> r.value == batch.shape[0]
  {
    if batch.shape == [] then Err(UnsizedBatch) else Ok(batch.shape[0])
  }

  /** The callback, holding what it has logged. */
  class LogStatsCallback {
    var logged: seq<LogCall>

    constructor ()
      ensures logged == []
    {
      logged := [];
    }

    /** `on_train_batch_end`: the two losses, then each monitor, then each EMA monitor. */
    method OnTrainBatchEnd(out: TrainOutputs, batch: Tensor) returns (r: Outcome<LogError>)
      modifies this
      ensures r.Fail? <==> batch.shape == []
      ensures logged == old(logged) + (if r.Pass? then TrainLogCalls(out, batch.shape[0]) else [])
    {
      if batch.shape == [] {
        r := Fail(UnsizedBatch);
        return;
      }
      var b := batch.shape[0];
      var h := [Logged("train_loss", out.loss, b), Logged("train_loss_ema", out.lossEma, b)];
      logged := logged + h;
      LogMonitors(out.monitors, false, b);
      LogMonitors(out.monitorsEma, true, b);
      ghost var m1, m2 := MonitorCalls(out.monitors, false, b), MonitorCalls(out.monitorsEma, true, b);
      assert logged == old(logged) + h + m1 + m2;
      assert TrainLogCalls(out, b) == h + m1 + m2;
      r := Pass;
    }

    /** One loop of `on_train_batch_end`: each monitor under its string or class name. */
    method LogMonitors(m: Monitors, ema: bool, b: nat)
      modifies this
      ensures logged == old(logged) + MonitorCalls(m, ema, b)
    {
      var i := 0;
      while i < |m|
        invariant 0 <= i <= |m|
        invariant logged == old(logged) + MonitorCalls(m[..i], ema, b)
      {
        var (k, v) := m[i];
        assert m[..i + 1][..i] == m[..i];
        logged := logged + [Logged(LogName(k, ema), v, b)];
        i := i + 1;
      }
      assert m[..i] == m;
    }

    /** `on_validation_batch_end`: the validation loss. */
    method OnValidationBatchEnd(lossVal: real, batch: Tensor) returns (r: Outcome<LogError>)
      modifies this
      ensures r.Fail? <==> batch.shape == []
      ensures logged == old(logged) + (if r.Pass? then [Logged("loss_val", lossVal, batch.shape[0])] else [])
    {
      if batch.shape == [] {
        r := Fail(UnsizedBatch);
      } else {
        logged := logged + [Logged("loss_val", lossVal, batch.shape[0])];
        r := Pass;
      }
    }
  }
}
