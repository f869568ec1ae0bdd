/**
 * The deferred render scheduler `window.renderQueue`. Its source is not part of this model; what
 * the pipeline relies on is modelled: a FIFO of face actions and a list of callbacks, both only
 * ever appended to by the stages.
 */
module RenderQueue {

  /** One closure passed to `addAction`: render face `face` of the six-face rig `rig` (the object
      the closure captured as `this`) at the `resolution` captured when it was enqueued. */
  datatype Action = Action(rig: object, face: nat, resolution: int)

  /** One closure passed to `addCallback`: `Planet.updateMaterial` on `planet`. */
  datatype Callback = RebindPlanetMaterials(planet: object)

  /** The actions for faces `0..n-1` of `rig`, in ascending order. */
  function FaceActions(rig: object, resolution: int, n: nat): (r: seq<Action>)
    ensures |r| == n
  {
    if n == 0 then [] else FaceActions(rig, resolution, n - 1) + [Action(rig, n - 1, resolution)]
  }

  /** The six actions one `render` call enqueues. */
  function SixActions(rig: object, resolution: int): (r: seq<Action>)
    ensures |r| == 6
  {
    FaceActions(rig, resolution, 6)
  }

  /** Action `i` of the first `n` is face `i` of the rig, at the same resolution. */
  lemma {:induction false} FaceActionsAt(rig: object, resolution: int, n: nat, i: nat)
    requires i < n
    ensures FaceActions(rig, resolution, n)[i] == Action(rig, i, resolution)
  {
    if i < n - 1 {
      FaceActionsAt(rig, resolution, n - 1, i);
    }
  }

  /** One `render` enqueues faces 0..5 in ascending order, all at one resolution. */
  lemma SixActionsFaces(rig: object, resolution: int)
    ensures forall i :: 0 <= i < 6 ==> SixActions(rig, resolution)[i] == Action(rig, i, resolution)
  {
    forall i | 0 <= i < 6
      ensures SixActions(rig, resolution)[i] == Action(rig, i, resolution)
    {
      FaceActionsAt(rig, resolution, 6, i);
    }
  }

  class RenderQueue {
    var actions: seq<Action>
    var callbacks: seq<Callback>

    constructor ()
      ensures actions == [] && callbacks == []
    {
      actions, callbacks := [], [];
    }

    /** `addAction`: append to the tail of the action FIFO. */
    method AddAction(a: Action)
      modifies this
      ensures actions == old(actions) + [a] && callbacks == old(callbacks)
    {
      actions := actions + [a];
    }

    /** `addCallback`: append to the callback list. */
    method AddCallback(c: Callback)
      modifies this
      ensures callbacks == old(callbacks) + [c] && actions == old(actions)
    {
      callbacks := callbacks + [c];
    }
  }
}
