// The occluder bookkeeping of a stereo render pass. Every object listed in
// ignoreWhenRender is moved onto the ignore layer for the capture and moved
// back afterwards. Object layers are a sequence indexed by object id; the
// occluder list holds ids and may name the same object more than once.

module Occluders {
  import opened InvocationList

  /** Every listed object exists. */
  predicate InRange(ids: seq<nat>, n: nat) {
    forall i :: 0 <= i < |ids| ==> ids[i] < n
  }

  /** No object is listed twice. */
  predicate Distinct(ids: seq<nat>) {
    forall i, j :: 0 <= i < j < |ids| ==> ids[i] != ids[j]
  }

  /** One step of the masking loop: the object is moved onto the ignore layer
      when that layer exists (its number is positive). */
  function Mask(layers: seq<int>, id: nat, ignoreLayer: int): (r: seq<int>)
    requires id < |layers|
    ensures |r| == |layers|
  {
    if ignoreLayer > 0 then layers[id := ignoreLayer] else layers
  }

  /** The layers once the masking loop has handled ids[..k]. */
  function MaskedPrefix(layers: seq<int>, ids: seq<nat>, ignoreLayer: int, k: nat): (r: seq<int>)
    requires InRange(ids, |layers|) && k <= |ids|
    ensures |r| == |layers|
  {
    if k == 0 then layers
    else Mask(MaskedPrefix(layers, ids, ignoreLayer, k - 1), ids[k - 1], ignoreLayer)
  }

  /** The layers during the capture. */
  function Masked(layers: seq<int>, ids: seq<nat>, ignoreLayer: int): seq<int>
    requires InRange(ids, |layers|)
  {
    MaskedPrefix(layers, ids, ignoreLayer, |ids|)
  }

  /** The first k entries the masking loop writes into the saved-layer list:
      each occluder's layer at the moment the loop reaches it. */
  function SavedPrefix(layers: seq<int>, ids: seq<nat>, ignoreLayer: int, k: nat): (r: seq<int>)
    requires InRange(ids, |layers|) && k <= |ids|
    ensures |r| == k
  {
    if k == 0 then []
    else SavedPrefix(layers, ids, ignoreLayer, k - 1) + [MaskedPrefix(layers, ids, ignoreLayer, k - 1)[ids[k - 1]]]
  }

  lemma {:induction false} SavedPrefixAt(layers: seq<int>, ids: seq<nat>, ignoreLayer: int, k: nat, i: nat)
    requires InRange(ids, |layers|) && i < k <= |ids|
    ensures SavedPrefix(layers, ids, ignoreLayer, k)[i] == MaskedPrefix(layers, ids, ignoreLayer, i)[ids[i]]
  {
    if i < k - 1 {
      SavedPrefixAt(layers, ids, ignoreLayer, k - 1, i);
    }
  }

  /** The saved-layer list ignoreObjOriginalLayer after the masking loop. */
  function Saved(layers: seq<int>, ids: seq<nat>, ignoreLayer: int): seq<int>
    requires InRange(ids, |layers|)
  {
    SavedPrefix(layers, ids, ignoreLayer, |ids|)
  }

  // ---------------------------------------------------------------------------
  // what the capture sees

  lemma {:induction false} MaskedPrefixAt(layers: seq<int>, ids: seq<nat>, ignoreLayer: int, k: nat, j: nat)
    requires InRange(ids, |layers|) && k <= |ids| && j < |layers|
    ensures MaskedPrefix(layers, ids, ignoreLayer, k)[j]
         == if ignoreLayer > 0 && j in ids[..k] then ignoreLayer else layers[j]
  {
    if k > 0 {
      MaskedPrefixAt(layers, ids, ignoreLayer, k - 1, j);
      assert ids[..k] == ids[..k - 1] + [ids[k - 1]];
    }
  }

  /** During the capture a listed object sits on the ignore layer when that
      layer exists and keeps its own layer otherwise; no other object moves. */
  lemma MaskedAt(layers: seq<int>, ids: seq<nat>, ignoreLayer: int, j: nat)
    requires InRange(ids, |layers|) && j < |layers|
    ensures j in ids && ignoreLayer > 0 ==> Masked(layers, ids, ignoreLayer)[j] == ignoreLayer
    ensures j !in ids || ignoreLayer <= 0 ==> Masked(layers, ids, ignoreLayer)[j] == layers[j]
  {
    MaskedPrefixAt(layers, ids, ignoreLayer, |ids|, j);
    assert ids[..|ids|] == ids;
  }

  /** The saved entry of an occluder is its original layer, unless an earlier
      entry of the list named the same object and already moved it. */
  lemma SavedAt(layers: seq<int>, ids: seq<nat>, ignoreLayer: int, k: nat)
    requires InRange(ids, |layers|) && k < |ids|
    ensures Saved(layers, ids, ignoreLayer)[k]
         == if ignoreLayer > 0 && ids[k] in ids[..k] then ignoreLayer else layers[ids[k]]
  {
    SavedPrefixAt(layers, ids, ignoreLayer, |ids|, k);
    MaskedPrefixAt(layers, ids, ignoreLayer, k, ids[k]);
  }

  // ---------------------------------------------------------------------------
  // restoring, corrected: the saved entries written back last to first

  /** The saved list holds, for each of the first k occluders, its layer at
      the moment the masking loop reached it. */
  predicate SavedUpTo(layers: seq<int>, ids: seq<nat>, ignoreLayer: int, saved: seq<int>, k: nat)
    requires InRange(ids, |layers|) && k <= |ids|
  {
    k <= |saved| &&
    forall i :: 0 <= i < k ==> saved[i] == MaskedPrefix(layers, ids, ignoreLayer, i)[ids[i]]
  }

  lemma SavedIsSavedUpTo(layers: seq<int>, ids: seq<nat>, ignoreLayer: int)
    requires InRange(ids, |layers|)
    ensures SavedUpTo(layers, ids, ignoreLayer, Saved(layers, ids, ignoreLayer), |ids|)
  {
    forall i | 0 <= i < |ids|
      ensures Saved(layers, ids, ignoreLayer)[i] == MaskedPrefix(layers, ids, ignoreLayer, i)[ids[i]]
    {
      SavedPrefixAt(layers, ids, ignoreLayer, |ids|, i);
    }
  }

  /** Writing back the saved entry of ids[k-1] undoes the k-th masking step. */
  lemma UnmaskStep(layers: seq<int>, ids: seq<nat>, ignoreLayer: int, saved: seq<int>, k: nat)
    requires InRange(ids, |layers|) && 0 < k <= |ids|
    requires SavedUpTo(layers, ids, ignoreLayer, saved, k)
    ensures MaskedPrefix(layers, ids, ignoreLayer, k)[ids[k - 1] := saved[k - 1]]
         == MaskedPrefix(layers, ids, ignoreLayer, k - 1)
  {
    assert saved[k - 1] == MaskedPrefix(layers, ids, ignoreLayer, k - 1)[ids[k - 1]];
  }

  /** UnmaskStep for the list the masking loop saved. */
  lemma UnmaskSavedStep(layers: seq<int>, ids: seq<nat>, ignoreLayer: int, k: nat)
    requires InRange(ids, |layers|) && 0 < k <= |ids|
    ensures MaskedPrefix(layers, ids, ignoreLayer, k)[ids[k - 1] := Saved(layers, ids, ignoreLayer)[k - 1]]
         == MaskedPrefix(layers, ids, ignoreLayer, k - 1)
  {
    SavedPrefixAt(layers, ids, ignoreLayer, |ids|, k - 1);
  }

  /** Restore ids[..k] from the saved list, last entry first. */
  function RestoreReverse(layers: seq<int>, ids: seq<nat>, saved: seq<int>, k: nat): (r: seq<int>)
    requires InRange(ids, |layers|) && k <= |ids| && k <= |saved|
    ensures |r| == |layers|
    decreases k
  {
    if k == 0 then layers
    else RestoreReverse(layers[ids[k - 1] := saved[k - 1]], ids, saved, k - 1)
  }

  lemma {:induction false} RestoreReversePrefix(layers: seq<int>, ids: seq<nat>, ignoreLayer: int, saved: seq<int>, k: nat)
    requires InRange(ids, |layers|) && k <= |ids|
    requires SavedUpTo(layers, ids, ignoreLayer, saved, k)
    ensures RestoreReverse(MaskedPrefix(layers, ids, ignoreLayer, k), ids, saved, k) == layers
  {
    if k > 0 {
      UnmaskStep(layers, ids, ignoreLayer, saved, k);
      assert SavedUpTo(layers, ids, ignoreLayer, saved, k - 1);
      RestoreReversePrefix(layers, ids, ignoreLayer, saved, k - 1);
    }
  }

  /** Masking, then restoring last to first, gives back every layer exactly,
      whatever the list holds. */
  lemma RestoreReverseUndoesMask(layers: seq<int>, ids: seq<nat>, ignoreLayer: int)
    requires InRange(ids, |layers|)
    ensures RestoreReverse(Masked(layers, ids, ignoreLayer), ids, Saved(layers, ids, ignoreLayer), |ids|) == layers
  {
    SavedIsSavedUpTo(layers, ids, ignoreLayer);
    RestoreReversePrefix(layers, ids, ignoreLayer, Saved(layers, ids, ignoreLayer), |ids|);
  }

  // ---------------------------------------------------------------------------
  // restoring as the source writes it: first entry first

  /** Restore ids[..k] from the saved list, first entry first. */
  function RestoreForward(layers: seq<int>, ids: seq<nat>, saved: seq<int>, k: nat): (r: seq<int>)
    requires InRange(ids, |layers|) && k <= |ids| && k <= |saved|
    ensures |r| == |layers|
  {
    if k == 0 then layers
    else RestoreForward(layers, ids, saved, k - 1)[ids[k - 1] := saved[k - 1]]
  }

  /** The forward restore leaves each listed object with the saved entry of
      its last listing. */
  lemma {:induction false} RestoreForwardAt(layers: seq<int>, ids: seq<nat>, saved: seq<int>, k: nat, j: nat)
    requires InRange(ids, |layers|) && k <= |ids| && k <= |saved| && j < |layers|
    ensures j in ids[..k] ==> RestoreForward(layers, ids, saved, k)[j] == saved[LastIndexOf(ids[..k], j)]
    ensures j !in ids[..k] ==> RestoreForward(layers, ids, saved, k)[j] == layers[j]
  {
    if k > 0 {
      RestoreForwardAt(layers, ids, saved, k - 1, j);
      assert ids[..k] == ids[..k - 1] + [ids[k - 1]];
      assert ids[..k][..k - 1] == ids[..k - 1];
    }
  }

  /** The object layers after a capture as the source writes it: masked,
      then restored first entry first from the saved list. */
  function Restored(layers: seq<int>, ids: seq<nat>, ignoreLayer: int): (r: seq<int>)
    requires InRange(ids, |layers|)
    ensures |r| == |layers|
  {
    RestoreForward(Masked(layers, ids, ignoreLayer), ids, Saved(layers, ids, ignoreLayer), |ids|)
  }

  /** The condition under which the forward restore gives every layer back. */
  predicate RestoresExactly(ids: seq<nat>, ignoreLayer: int) {
    ignoreLayer <= 0 || Distinct(ids)
  }

  /** The forward restore is right when the ignore layer is missing or no
      object is listed twice. */
  lemma RestoreForwardCorrectWhen(layers: seq<int>, ids: seq<nat>, ignoreLayer: int)
    requires InRange(ids, |layers|)
    requires RestoresExactly(ids, ignoreLayer)
    ensures Restored(layers, ids, ignoreLayer) == layers
  {
    forall j | 0 <= j < |layers|
      ensures Restored(layers, ids, ignoreLayer)[j] == layers[j]
    {
      RestoredAt(layers, ids, ignoreLayer, j);
    }
  }

  /** The same, one object at a time. */
  lemma RestoredAt(layers: seq<int>, ids: seq<nat>, ignoreLayer: int, j: nat)
    requires InRange(ids, |layers|) && j < |layers|
    requires RestoresExactly(ids, ignoreLayer)
    ensures Restored(layers, ids, ignoreLayer)[j] == layers[j]
  {
    var masked, saved := Masked(layers, ids, ignoreLayer), Saved(layers, ids, ignoreLayer);
    assert ids[..|ids|] == ids;
    RestoreForwardAt(masked, ids, saved, |ids|, j);
    MaskedAt(layers, ids, ignoreLayer, j);
    if j in ids {
      var x := LastIndexOf(ids, j);
      SavedAt(layers, ids, ignoreLayer, x);
      if ignoreLayer > 0 {
        forall i | 0 <= i < x
          ensures ids[..x][i] != ids[x]
        {
          assert ids[i] != ids[x];
        }
        assert ids[x] !in ids[..x];
      }
    }
  }

  /** An object listed twice ends the forward restore on the ignore layer:
      object 0 on layer 5, listed twice, ignore layer 9. */
  lemma RestoreForwardCounterexample()
    ensures Masked([5], [0, 0], 9) == [9]
    ensures Saved([5], [0, 0], 9) == [5, 9]
    ensures Restored([5], [0, 0], 9) == [9]
    ensures !RestoresExactly([0, 0], 9)
  {
    assert MaskedPrefix([5], [0, 0], 9, 1) == [9];
    assert MaskedPrefix([5], [0, 0], 9, 2) == [9];
    assert SavedPrefix([5], [0, 0], 9, 1) == [5];
  }
}
