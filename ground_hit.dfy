/**
 * What the three ground detectors share: the result of one scene trace and
 * the two ways they pick the nearest of a fan of traces. Each detector keys
 * its hits (a fraction, an implied wheel height, a squared distance), starts
 * from a large bound, and keeps a hit whose key beats the best so far:
 * strictly (`<`, the earliest of equal keys wins) or not (`<=`, the latest
 * wins).
 */
module GroundHits {
  import opened Common

  /** A `SceneTraceResult`, reduced to what the detectors read; `collider` names what was hit. */
  datatype SceneTrace = SceneTrace(hit: bool, startPosition: Vec3, hitPosition: Vec3, normal: Vec3,
                                   fraction: real, collider: nat)

  /** Trace `i` of the fan is the selected nearest hit under a strict `<` from `bound`. */
  predicate IsEarliestMin(keys: seq<Option<real>>, bound: real, i: nat)
  {
    && i < |keys| && keys[i].Some? && keys[i].value < bound
    && (forall j :: 0 <= j < i && keys[j].Some? ==> keys[j].value > keys[i].value)
    && (forall j :: i < j < |keys| && keys[j].Some? ==> keys[j].value >= keys[i].value)
  }

  /** Trace `i` of the fan is the selected nearest hit under `<=` from `bound`. */
  predicate IsLatestMin(keys: seq<Option<real>>, bound: real, i: nat)
  {
    && i < |keys| && keys[i].Some? && keys[i].value <= bound
    && (forall j :: 0 <= j < i && keys[j].Some? ==> keys[j].value >= keys[i].value)
    && (forall j :: i < j < |keys| && keys[j].Some? ==> keys[j].value > keys[i].value)
  }

  /** No hit has a key below the bound (strictly below, for the strict rule). */
  predicate NoneBelow(keys: seq<Option<real>>, bound: real)
  {
    forall j :: 0 <= j < |keys| && keys[j].Some? ==> keys[j].value >= bound
  }

  predicate NoneAtOrBelow(keys: seq<Option<real>>, bound: real)
  {
    forall j :: 0 <= j < |keys| && keys[j].Some? ==> keys[j].value > bound
  }

  /** The selected hit is determined: the strict rule picks exactly one trace. */
  lemma EarliestMinUnique(keys: seq<Option<real>>, bound: real, i: nat, k: nat)
    requires IsEarliestMin(keys, bound, i) && IsEarliestMin(keys, bound, k)
    ensures i == k
  {
  }

  /** The `<=` rule picks exactly one trace too. */
  lemma LatestMinUnique(keys: seq<Option<real>>, bound: real, i: nat, k: nat)
    requires IsLatestMin(keys, bound, i) && IsLatestMin(keys, bound, k)
    ensures i == k
  {
  }

  /** The selected key is the smallest key of any hit. */
  lemma SelectedIsMinimal(keys: seq<Option<real>>, bound: real, i: nat)
    requires IsEarliestMin(keys, bound, i) || IsLatestMin(keys, bound, i)
    ensures forall j :: 0 <= j < |keys| && keys[j].Some? ==> keys[i].value <= keys[j].value
  {
  }

  /**
   * One step of the strict scan: from the selection over the first `z`
   * keys, key `z` takes over exactly when it is a hit below the best so far.
   */
  lemma EarliestStep(keys: seq<Option<real>>, bound: real, z: nat, best: Option<nat>, nearest: real)
    requires z < |keys|
    requires best.None? ==> nearest == bound && NoneBelow(keys[..z], bound)
    requires best.Some? ==> IsEarliestMin(keys[..z], bound, best.value) && nearest == keys[best.value].value
    ensures keys[z].Some? && keys[z].value < nearest ==> IsEarliestMin(keys[..z + 1], bound, z)
    ensures !(keys[z].Some? && keys[z].value < nearest) ==>
              (best.None? ==> NoneBelow(keys[..z + 1], bound))
              && (best.Some? ==> IsEarliestMin(keys[..z + 1], bound, best.value))
  {
    assert forall j :: 0 <= j < z ==> keys[..z + 1][j] == keys[..z][j];
  }

  /** One step of the `<=` scan: key `z` takes over exactly when it is a hit at or below the best so far. */
  lemma LatestStep(keys: seq<Option<real>>, bound: real, z: nat, best: Option<nat>, nearest: real)
    requires z < |keys|
    requires best.None? ==> nearest == bound && NoneAtOrBelow(keys[..z], bound)
    requires best.Some? ==> IsLatestMin(keys[..z], bound, best.value) && nearest == keys[best.value].value
    ensures keys[z].Some? && keys[z].value <= nearest ==> IsLatestMin(keys[..z + 1], bound, z)
    ensures !(keys[z].Some? && keys[z].value <= nearest) ==>
              (best.None? ==> NoneAtOrBelow(keys[..z + 1], bound))
              && (best.Some? ==> IsLatestMin(keys[..z + 1], bound, best.value))
  {
    assert forall j :: 0 <= j < z ==> keys[..z + 1][j] == keys[..z][j];
  }
}
