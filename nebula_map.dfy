/**
 * `NebulaMap`: the sky-box noise stage on `Map` (taken to be the `AbstractMapTexture` scheme, as
 * for `NormalMap`). Like `CloudEnvMap` it gives every face its `index`; it adds the gradient
 * texture `nebulaeMap`.
 */
module NebulaMap {
  import opened Materials
  import opened ShaderUniforms
  import Three
  import MapTexture
  import RenderQueue

  class NebulaMap {
    /** The `Map` part of the object. */
    const base: MapTexture.AbstractMapTexture

    ghost predicate Valid()
      reads base, base.Repr()
    {
      && base.Valid() && |base.mats| == 6 && HaveKeys(base.mats, NebulaKeys)
      && forall i :: 0 <= i < 6 ==> base.mats[i].uniforms[Index] == I(i)
    }

    /** `this.setup()` assigns the six materials, then `super.setup()` builds the rig from them. */
    constructor ()
      ensures Valid() && fresh(base) && fresh(base.Repr())
      ensures forall i :: 0 <= i < 6 ==> base.mats[i] == NebulaMaterial(i)
      ensures forall i :: 0 <= i < 6 ==> base.planes[i].material == Three.OwnMaterial(i)
    {
      var ms := SetupNebulaMaterials();
      base := new MapTexture.AbstractMapTexture(ms);
    }

    /** `updateMaterial(props)`: on every face the six noise uniforms and `nebulaeMap`, then
        `needsUpdate`; `index` is not written. */
    method UpdateMaterial(p: NebulaProps)
      requires Valid()
      modifies base`mats
      ensures Valid()
      ensures forall i :: 0 <= i < 6 ==> base.mats[i] == NebulaUpdated(old(base.mats[i]), p)
      ensures forall k :: k in NoiseShared ==> Agree(base.mats, k)
      ensures Agree(base.mats, NebulaeMap) && AllNeedUpdate(base.mats)
    {
      ghost var before := base.mats;
      for i := 0 to 6
        invariant |base.mats| == 6
        invariant forall j :: 0 <= j < i ==> base.mats[j] == NebulaUpdated(before[j], p)
        invariant forall j :: i <= j < 6 ==> base.mats[j] == before[j]
      {
        var m := base.mats[i];
        m := Write(m, Seed, F(p.noise.seed));
        m := Write(m, Resolution, F(p.noise.resolution as real));
        m := Write(m, Res1, F(p.noise.res1));
        m := Write(m, Res2, F(p.noise.res2));
        m := Write(m, ResMix, F(p.noise.resMix));
        m := Write(m, MixScale, F(p.noise.mixScale));
        m := Write(m, NebulaeMap, T(p.nebulaeMap));
        m := Touch(m);
        base.mats := base.mats[i := m];
      }
      NebulaFaces(before, base.mats, p);
    }

    /** `render(props)`: `updateMaterial`, then `Map`'s render (its own `updateMaterial` call and
        the six face actions). The uniforms end as after a single update. */
    method Render(p: NebulaProps, q: RenderQueue.RenderQueue)
      requires Valid()
      modifies base`mats, q
      ensures Valid()
      ensures forall i :: 0 <= i < 6 ==> base.mats[i] == NebulaUpdated(old(base.mats[i]), p)
      ensures q.actions == old(q.actions) + RenderQueue.SixActions(base, p.noise.resolution)
      ensures q.callbacks == old(q.callbacks)
    {
      ghost var before := base.mats;
      UpdateMaterial(p);
      UpdateMaterial(p);
      forall i | 0 <= i < 6 {
        NebulaUpdatedIdempotent(before[i], p);
      }
      base.Render(p.noise.resolution, q);
    }
  }
}
