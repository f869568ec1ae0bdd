/**
 * `RoughnessMap`: the roughness stage on `Map` (taken to be the `AbstractMapTexture` scheme, as
 * for `NormalMap`), the one the planet uses.
 */
module RoughnessMap {
  import opened Materials
  import opened ShaderUniforms
  import Three
  import MapTexture
  import RenderQueue

  class RoughnessMap {
    /** The `Map` part of the object. */
    const base: MapTexture.AbstractMapTexture

    /** Six materials, each declaring the stage's uniforms: what the uniform updates need. */
    ghost predicate Shaped()
      reads base`mats
    {
      |base.mats| == 6 && HaveKeys(base.mats, RoughnessKeys)
    }

    ghost predicate Valid()
      reads base, base.Repr()
    {
      base.Valid() && Shaped()
    }

    /** `this.setup()` pushes the six materials, then `super.setup()` builds the rig from them. */
    constructor ()
      ensures Valid() && fresh(base) && fresh(base.Repr())
      ensures forall i :: 0 <= i < 6 ==> base.mats[i] == RoughnessMaterial()
      ensures forall i :: 0 <= i < 6 ==> base.planes[i].material == Three.OwnMaterial(i)
    {
      var ms := SetupRoughnessMaterials();
      base := new MapTexture.AbstractMapTexture(ms);
    }

    /** `updateMaterial(props)`: per face `resolution`, `waterLevel`, `heightMap`, then
        `needsUpdate`. */
    method UpdateMaterial(p: RoughnessProps)
      requires Shaped()
      modifies base`mats
      ensures Shaped() && (old(Valid()) ==> Valid())
      ensures forall i :: 0 <= i < 6 ==> base.mats[i] == RoughnessUpdated(old(base.mats[i]), p, i)
      ensures Agree(base.mats, Resolution) && Agree(base.mats, WaterLevel)
      ensures AllNeedUpdate(base.mats)
    {
      ghost var before := base.mats;
      for i := 0 to 6
        invariant |base.mats| == 6
        invariant forall j :: 0 <= j < i ==> base.mats[j] == RoughnessUpdated(before[j], p, j)
        invariant forall j :: i <= j < 6 ==> base.mats[j] == before[j]
      {
        var m := base.mats[i];
        m := Write(m, Resolution, F(p.resolution as real));
        m := Write(m, WaterLevel, F(p.waterLevel));
        m := Write(m, HeightMap, T(At(p.heightMaps, i)));
        m := Touch(m);
        base.mats := base.mats[i := m];
      }
      RoughnessFaces(before, base.mats, p);
    }

    /** `render(props)`: `updateMaterial`, then `Map`'s render (its own `updateMaterial` call and
        the six face actions). The uniforms end as after a single update. */
    method Render(p: RoughnessProps, q: RenderQueue.RenderQueue)
      requires Shaped()
      modifies base`mats, q
      ensures Shaped() && (old(Valid()) ==> Valid())
      ensures forall i :: 0 <= i < 6 ==> base.mats[i] == RoughnessUpdated(old(base.mats[i]), p, i)
      ensures q.actions == old(q.actions) + RenderQueue.SixActions(base, p.resolution)
      ensures q.callbacks == old(q.callbacks)
    {
      ghost var before := base.mats;
      UpdateMaterial(p);
      UpdateMaterial(p);
      forall i | 0 <= i < 6 {
        RoughnessUpdatedIdempotent(before[i], p, i);
      }
      base.Render(p.resolution, q);
    }
  }
}
