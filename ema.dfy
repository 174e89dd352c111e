/**
 * The exponential moving average kept beside the trained parameters.
 * A parameter tree is a mapping from leaf names to values; the update is
 * element-wise, so one real per leaf stands for every element of a leaf.
 */
module Ema {
  import opened Wrappers

  type Name = string
  type Tree = map<Name, real>

  datatype TreeError = StructureMismatch | ZeroDivision

  /**
   * The EMA time constant: total epochs divided by the number of folds.
   * Python's true division raises for a zero divisor.
   */
  function EmaTs(epochs: int, foldingCount: int): (r: Result<real, TreeError>)
    ensures r.Err? <==> foldingCount == 0
    ensures r.Ok? ==> r.value * foldingCount as real == epochs as real
  {
    if foldingCount == 0 then Err(ZeroDivision)
    else Ok(epochs as real / foldingCount as real)
  }

  /** One leaf of the update: move `ema` a fraction 1/ts of the way to `p`. */
  function EmaLeaf(p: real, ema: real, ts: real): real
    requires ts != 0.0
  {
    ema + (p - ema) / ts
  }

  /**
   * `jax.tree.map(ema_update, params, params_ema)`: the leaf rule applied to
   * matching leaves; mapping over two trees of different structure raises.
   */
  function EmaTree(params: Tree, ema: Tree, ts: real): (r: Result<Tree, TreeError>)
    requires ts != 0.0
    ensures r.Ok? <==> params.Keys == ema.Keys
    ensures r.Ok? ==> r.value.Keys == params.Keys
    ensures r.Ok? ==> forall n :: n in r.value ==> r.value[n] == EmaLeaf(params[n], ema[n], ts)
    ensures r.Err? ==> r.error == StructureMismatch
  {
    if params.Keys != ema.Keys then Err(StructureMismatch)
    else Ok(map n | n in params :: EmaLeaf(params[n], ema[n], ts))
  }

  /** The leaf step shrinks the distance to `p` by the factor 1 - 1/ts. */
  lemma LeafContraction(p: real, ema: real, ts: real)
    requires ts != 0.0
    ensures EmaLeaf(p, ema, ts) - p == (1.0 - 1.0 / ts) * (ema - p)
  {
    calc {
      EmaLeaf(p, ema, ts) - p;
      ema - p + (p - ema) * (1.0 / ts);
      (1.0 - 1.0 / ts) * (ema - p);
    }
  }

  /** For ts >= 1 the new leaf lies between the old EMA and the parameter. */
  lemma LeafBetween(p: real, ema: real, ts: real)
    requires ts >= 1.0
    ensures ema <= p ==> ema <= EmaLeaf(p, ema, ts) <= p
    ensures p <= ema ==> p <= EmaLeaf(p, ema, ts) <= ema
  {
    var a := 1.0 / ts;
    assert 0.0 < a <= 1.0;
    assert (p - ema) / ts == (p - ema) * a;
    if ema <= p {
      ScaleDown(p - ema, a);
    } else {
      ScaleDown(ema - p, a);
      assert (p - ema) * a == -((ema - p) * a);
    }
  }

  lemma ScaleDown(d: real, a: real)
    requires 0.0 <= d && 0.0 < a <= 1.0
    ensures 0.0 <= d * a <= d
  {
    assert d - d * a == d * (1.0 - a);
  }

  /** A tree already equal to the parameters is a fixed point of the update. */
  lemma TreeFixedPoint(params: Tree, ts: real)
    requires ts != 0.0
    ensures EmaTree(params, params, ts) == Ok(params)
  {
    var r := EmaTree(params, params, ts).value;
    assert r.Keys == params.Keys;
    assert forall n :: n in r ==> r[n] == params[n];
    assert r == params;
  }

  /** With ts = 1 the EMA jumps onto the parameters. */
  lemma TreeUnitTimeConstant(params: Tree, ema: Tree)
    requires params.Keys == ema.Keys
    ensures EmaTree(params, ema, 1.0) == Ok(params)
  {
    var r := EmaTree(params, ema, 1.0).value;
    assert r.Keys == params.Keys;
    assert forall n :: n in r ==> r[n] == params[n];
    assert r == params;
  }

  /**
   * For ts >= 1 every leaf of the new EMA lies between the old EMA leaf and
   * the parameter leaf, at distance (1 - 1/ts) times the old distance.
   */
  lemma TreeContraction(params: Tree, ema: Tree, ts: real)
    requires ts >= 1.0 && params.Keys == ema.Keys
    ensures EmaTree(params, ema, ts).Ok?
    ensures var r := EmaTree(params, ema, ts).value;
      forall n :: n in r ==>
        && r[n] - params[n] == (1.0 - 1.0 / ts) * (ema[n] - params[n])
        && (ema[n] <= params[n] ==> ema[n] <= r[n] <= params[n])
        && (params[n] <= ema[n] ==> params[n] <= r[n] <= ema[n])
  {
    var r := EmaTree(params, ema, ts).value;
    forall n | n in r
      ensures r[n] - params[n] == (1.0 - 1.0 / ts) * (ema[n] - params[n])
      ensures ema[n] <= params[n] ==> ema[n] <= r[n] <= params[n]
      ensures params[n] <= ema[n] ==> params[n] <= r[n] <= ema[n]
    {
      LeafContraction(params[n], ema[n], ts);
      LeafBetween(params[n], ema[n], ts);
    }
  }

  lemma MulAssoc(a: real, q: real, c: real)
    ensures a * (q * c) == (a * q) * c
  {
  }

  function Pow(x: real, k: nat): real {
    if k == 0 then 1.0 else x * Pow(x, k - 1)
  }

  /** k updates of one leaf towards a parameter that stays at `p`. */
  function LeafIterate(p: real, ema: real, ts: real, k: nat): real
    requires ts != 0.0
  {
    if k == 0 then ema else EmaLeaf(p, LeafIterate(p, ema, ts, k - 1), ts)
  }

  /** One more iteration shrinks the distance to `p` by 1 - 1/ts. */
  lemma IterateStep(p: real, ema: real, ts: real, k: nat)
    requires ts != 0.0 && k > 0
    ensures LeafIterate(p, ema, ts, k) - p == (1.0 - 1.0 / ts) * (LeafIterate(p, ema, ts, k - 1) - p)
  {
    LeafContraction(p, LeafIterate(p, ema, ts, k - 1), ts);
  }

  /**
   * The EMA is a first-order filter with time constant ts: after k steps
   * towards a fixed `p` the remaining distance is (1 - 1/ts)^k of the start.
   */
  lemma {:induction false} LeafIterateDistance(p: real, ema: real, ts: real, k: nat)
    requires ts != 0.0
    ensures LeafIterate(p, ema, ts, k) - p == Pow(1.0 - 1.0 / ts, k) * (ema - p)
  {
    if k > 0 {
      var a, c := 1.0 - 1.0 / ts, ema - p;
      var d, d' := LeafIterate(p, ema, ts, k) - p, LeafIterate(p, ema, ts, k - 1) - p;
      var q := Pow(a, k - 1);
      IterateStep(p, ema, ts, k);
      LeafIterateDistance(p, ema, ts, k - 1);
      assert d == a * d' && d' == q * c;
      MulAssoc(a, q, c);
    }
  }
}
