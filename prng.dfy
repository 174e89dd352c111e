/**
 * JAX's splittable pseudo-random keys.  A key is identified by the path of
 * splits that produced it from the root seed: `jax.random.split(k)` yields
 * the two children `k + [0]` and `k + [1]`.  Two keys generate independent
 * streams exactly when neither is an ancestor of the other, that is when
 * neither sequence is a prefix of the other.
 */
module Prng {

  type Key = seq<nat>

  /** `jax.random.split(key)`: the pair of children of `key`. */
  function Split(key: Key): (r: (Key, Key))
    ensures r.0 != r.1 && key < r.0 && key < r.1
    ensures |r.0| == |r.1| == |key| + 1
  {
    var r := (key + [0], key + [1]);
    assert r.0[|key|] != r.1[|key|];
    r
  }

  /** Neither key is derived from the other: their streams never overlap. */
  predicate Independent(a: Key, b: Key) {
    !(a <= b) && !(b <= a)
  }

  /**
   * The split-before-use discipline: `current` is the key the owner keeps,
   * `consumed` lists every key it has handed out.  Each handed-out key is
   * independent of the kept key and of every other handed-out key.
   */
  predicate Disciplined(current: Key, consumed: seq<Key>) {
    && (forall i :: 0 <= i < |consumed| ==> Independent(consumed[i], current))
    && (forall i, j :: 0 <= i < j < |consumed| ==> Independent(consumed[i], consumed[j]))
  }

  /** Keys derived from two independent keys stay independent. */
  lemma {:induction false} ExtensionsIndependent(a: Key, b: Key, a': Key, b': Key)
    requires Independent(a, b) && a <= a' && b <= b'
    ensures Independent(a', b')
  {
    var k :| 0 <= k < |a| && k < |b| && a[k] != b[k];
    assert a'[k] == a[k] && b'[k] == b[k];
  }

  /** The two halves of a split are independent of each other. */
  lemma SplitHalvesIndependent(key: Key)
    ensures Independent(Split(key).0, Split(key).1)
  {
    var (l, r) := Split(key);
    assert l[|key|] != r[|key|];
  }

  /**
   * A key independent of `key` is independent of both halves of its split:
   * splitting never reaches back into streams already handed out.
   */
  lemma {:induction false} SplitKeepsIndependence(c: Key, key: Key)
    requires Independent(c, key)
    ensures Independent(c, Split(key).0) && Independent(c, Split(key).1)
  {
  }

  /**
   * One hook of the module: keep the first half of a split and hand out the
   * second.  The discipline holds afterwards.
   */
  lemma {:induction false} SplitPreservesDiscipline(current: Key, consumed: seq<Key>)
    requires Disciplined(current, consumed)
    ensures Disciplined(Split(current).0, consumed + [Split(current).1])
  {
    var (l, r) := Split(current);
    var consumed' := consumed + [r];
    forall i | 0 <= i < |consumed'|
      ensures Independent(consumed'[i], l)
    {
      if i < |consumed| {
        SplitKeepsIndependence(consumed[i], current);
      } else {
        SplitHalvesIndependent(current);
      }
    }
    forall i, j | 0 <= i < j < |consumed'|
      ensures Independent(consumed'[i], consumed'[j])
    {
      if j == |consumed| {
        SplitKeepsIndependence(consumed[i], current);
      }
    }
  }
}
