/**
 * Dense arrays as the model sees them: a shape and the row-major list of
 * elements.  Only what the core does with shapes is modelled; the numeric
 * work on tensors belongs to opaque collaborators.
 */
module Tensors {

  datatype Tensor = Tensor(shape: seq<nat>, data: seq<real>)

  /** Number of elements of an array of the given shape (1 for a 0-d array). */
  function Size(shape: seq<nat>): nat {
    if shape == [] then 1 else shape[0] * Size(shape[1..])
  }

  /** The element list has one entry per position of the shape. */
  predicate WellFormed(t: Tensor) {
    |t.data| == Size(t.shape)
  }

  /** `jnp.ones(shape) * v`: an array of the given shape filled with `v`. */
  function Filled(shape: seq<nat>, v: real): (r: Tensor)
    ensures WellFormed(r) && r.shape == shape
    ensures forall i :: 0 <= i < |r.data| ==> r.data[i] == v
  {
    Tensor(shape, seq(Size(shape), _ => v))
  }

  /** `v[:, None, None]`: a vector of length n reshaped to `(n, 1, 1)`. */
  function Column(v: seq<real>): (r: Tensor)
    ensures WellFormed(r) && r.shape == [|v|, 1, 1]
    ensures r.data == v
  {
    assert Size([|v|, 1, 1]) == |v| by {
      assert [|v|, 1, 1][1..] == [1, 1];
      assert [1, 1][1..] == [1];
      assert [1][1..] == [];
    }
    Tensor([|v|, 1, 1], v)
  }
}
