/**
 * What the two six-face rigs (`AbstractEnvMap` and `AbstractMapTexture`) share: the creation
 * resolution, the initial face camera, the six texture handles, and what a face action does to
 * a render target and a camera.
 */
module Rig {
  import opened Three

  /** `texResolution`: the size every render target and initial camera is created with. */
  const TexResolution: int := 1024

  /** The camera each face starts with: `OrthographicCamera(-512, 512, 512, -512, -100, 100)` at
      `position.z = 10`. */
  function InitialCamera(): (c: OrthographicCamera)
    ensures c.left == -(TexResolution as real) / 2.0 && c.right == TexResolution as real / 2.0
    ensures c.top == TexResolution as real / 2.0 && c.bottom == -(TexResolution as real) / 2.0
    ensures c.near == -100.0 && c.far == 100.0 && c.z == 10.0
  {
    OrthographicCamera(-512.0, 512.0, 512.0, -512.0, -100.0, 100.0, 10.0)
  }

  /** A face action's camera update: the four bounds become ±resolution/2; near, far and
      position are kept. */
  function Framed(c: OrthographicCamera, resolution: int): (r: OrthographicCamera)
    ensures r.right - r.left == resolution as real && r.top - r.bottom == resolution as real
    ensures r.left == -r.right && r.bottom == -r.top
    ensures r.near == c.near && r.far == c.far && r.z == c.z
  {
    var half := resolution as real / 2.0;
    c.(left := -half, right := half, top := half, bottom := -half)
  }

  /** The initial camera is the one a face action at `TexResolution` would produce. */
  lemma InitialCameraIsFramed()
    ensures Framed(InitialCamera(), TexResolution) == InitialCamera()
  {
  }

  /** A face action's target update, `setSize(res, res)` then `needsUpdate = true`: the texture
      handle the target renders into is kept. */
  function Resized(t: RenderTarget, resolution: int): (r: RenderTarget)
    ensures r.width == resolution && r.height == resolution && r.needsUpdate
    ensures r.texture == t.texture
  {
    t.(width := resolution, height := resolution, needsUpdate := true)
  }

  /** The material plane `i` is built with, given how many materials its rig holds: past the end
      of the array `this.materials[i]` is `undefined` and the mesh gets three.js's default. */
  function MaterialOf(count: nat, i: nat): (r: MaterialRef)
    ensures r == OwnMaterial(i) <==> i < count
    ensures r != OwnMaterial(i) ==> r == DefaultMaterial
  {
    if i < count then OwnMaterial(i) else DefaultMaterial
  }

  /** The constructors' loop allocates one new texture handle per face. */
  method NewHandles() returns (hs: seq<Texture>)
    ensures |hs| == 6
    ensures forall i :: 0 <= i < 6 ==> fresh(hs[i])
    ensures forall i, j :: 0 <= i < j < 6 ==> hs[i] != hs[j]
  {
    hs := [];
    for i := 0 to 6
      invariant |hs| == i
      invariant forall j :: 0 <= j < i ==> fresh(hs[j])
      invariant forall j, k :: 0 <= j < k < i ==> hs[j] != hs[k]
    {
      var t := new Texture();
      hs := hs + [t];
    }
  }
}
