/**
 * `NormalMap`: the normal-map stage on `Map`. `Map`'s source is not part of this model; it is
 * taken to be the `AbstractMapTexture` scheme, whose `setup` builds the six-face rig from `mats`
 * and whose `render` calls `updateMaterial` and then enqueues the six face actions. `render` here
 * therefore writes the uniforms twice, which the idempotence of the update makes harmless.
 */
module NormalMap {
  import opened Materials
  import opened ShaderUniforms
  import Three
  import MapTexture
  import RenderQueue

  class NormalMap {
    /** The `Map` part of the object. */
    const base: MapTexture.AbstractMapTexture

    /** Six materials, each declaring the stage's uniforms: what the uniform updates need. */
    ghost predicate Shaped()
      reads base`mats
    {
      |base.mats| == 6 && HaveKeys(base.mats, NormalKeys)
    }

    ghost predicate Valid()
      reads base, base.Repr()
    {
      base.Valid() && Shaped()
    }

    /** `this.setup()` assigns the six materials, then `super.setup()` builds the rig from them. */
    constructor ()
      ensures Valid() && fresh(base) && fresh(base.Repr())
      ensures forall i :: 0 <= i < 6 ==> base.mats[i] == NormalMaterial()
      ensures forall i :: 0 <= i < 6 ==> base.planes[i].material == Three.OwnMaterial(i)
    {
      var ms := SetupNormalMaterials();
      base := new MapTexture.AbstractMapTexture(ms);
    }

    /** `updateMaterial(props)`: per face `resolution`, `waterLevel`, `heightMap`, `textureMap`,
        then `needsUpdate`. */
    method UpdateMaterial(p: NormalProps)
      requires Shaped()
      modifies base`mats
      ensures Shaped() && (old(Valid()) ==> Valid())
      ensures forall i :: 0 <= i < 6 ==> base.mats[i] == NormalUpdated(old(base.mats[i]), p, i)
      ensures Agree(base.mats, Resolution) && Agree(base.mats, WaterLevel)
      ensures AllNeedUpdate(base.mats)
    {
      ghost var before := base.mats;
      for i := 0 to 6
        invariant |base.mats| == 6
        invariant forall j :: 0 <= j < i ==> base.mats[j] == NormalUpdated(before[j], p, j)
        invariant forall j :: i <= j < 6 ==> base.mats[j] == before[j]
      {
        var m := base.mats[i];
        m := Write(m, Resolution, F(p.resolution as real));
        m := Write(m, WaterLevel, F(p.waterLevel));
        m := Write(m, HeightMap, T(At(p.heightMaps, i)));
        m := Write(m, TextureMap, T(At(p.textureMaps, i)));
        m := Touch(m);
        base.mats := base.mats[i := m];
      }
      NormalFaces(before, base.mats, p);
    }

    /** `render(props)`: `updateMaterial`, then `Map`'s render (its own `updateMaterial` call and
        the six face actions). The uniforms end as after a single update. */
    method Render(p: NormalProps, q: RenderQueue.RenderQueue)
      requires Shaped()
      modifies base`mats, q
      ensures Shaped() && (old(Valid()) ==> Valid())
      ensures forall i :: 0 <= i < 6 ==> base.mats[i] == NormalUpdated(old(base.mats[i]), p, i)
      ensures q.actions == old(q.actions) + RenderQueue.SixActions(base, p.resolution)
      ensures q.callbacks == old(q.callbacks)
    {
      ghost var before := base.mats;
      UpdateMaterial(p);
      UpdateMaterial(p);
      forall i | 0 <= i < 6 {
        NormalUpdatedIdempotent(before[i], p, i);
      }
      base.Render(p.resolution, q);
    }
  }
}
