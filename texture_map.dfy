/**
 * `TextureMap`: the colour stage on an `AbstractMapTexture`, the one the planet uses. Same
 * uniforms as `TextureEnvMap`, kept in `mats`, the array its base class reads.
 */
module TextureMap {
  import opened Materials
  import opened ShaderUniforms
  import Three
  import MapTexture
  import RenderQueue

  class TextureMap {
    /** The `AbstractMapTexture` part of the object. */
    const base: MapTexture.AbstractMapTexture

    /** Six materials, each declaring the stage's uniforms: what the uniform updates need. */
    ghost predicate Shaped()
      reads base`mats
    {
      |base.mats| == 6 && HaveKeys(base.mats, TextureKeys)
    }

    ghost predicate Valid()
      reads base, base.Repr()
    {
      base.Valid() && Shaped()
    }

    /** The base constructor runs `setupMaterials` (filling `mats`) before building the planes,
        so plane `i` is built with `mats[i]`. */
    constructor ()
      ensures Valid() && fresh(base) && fresh(base.Repr())
      ensures forall i :: 0 <= i < 6 ==> base.mats[i] == TextureMaterial()
      ensures forall i :: 0 <= i < 6 ==> base.planes[i].material == Three.OwnMaterial(i)
    {
      var ms := SetupTextureMaterials();
      base := new MapTexture.AbstractMapTexture(ms);
    }

    /** `updateMaterial(props)`: per face `heightMap`, `moistureMap`, `biomeMap`, then
        `needsUpdate`. */
    method UpdateMaterial(p: TextureProps)
      requires Shaped()
      modifies base`mats
      ensures Shaped() && (old(Valid()) ==> Valid())
      ensures forall i :: 0 <= i < 6 ==> base.mats[i] == TextureUpdated(old(base.mats[i]), p, i)
      ensures Agree(base.mats, BiomeMap) && AllNeedUpdate(base.mats)
    {
      ghost var before := base.mats;
      for i := 0 to 6
        invariant |base.mats| == 6
        invariant forall j :: 0 <= j < i ==> base.mats[j] == TextureUpdated(before[j], p, j)
        invariant forall j :: i <= j < 6 ==> base.mats[j] == before[j]
      {
        var m := base.mats[i];
        m := Write(m, HeightMap, T(At(p.heightMaps, i)));
        m := Write(m, MoistureMap, T(At(p.moistureMaps, i)));
        m := Write(m, BiomeMap, T(p.biomeMap));
        m := Touch(m);
        base.mats := base.mats[i := m];
      }
      TextureFaces(before, base.mats, p);
    }

    /** `render(props)` inherited from `AbstractMapTexture`: the update, then six face actions at
        `props.resolution`. */
    method Render(p: TextureProps, q: RenderQueue.RenderQueue)
      requires Shaped()
      modifies base`mats, q
      ensures Shaped() && (old(Valid()) ==> Valid())
      ensures forall i :: 0 <= i < 6 ==> base.mats[i] == TextureUpdated(old(base.mats[i]), p, i)
      ensures q.actions == old(q.actions) + RenderQueue.SixActions(base, p.resolution)
      ensures q.callbacks == old(q.callbacks)
    {
      UpdateMaterial(p);
      base.Render(p.resolution, q);
    }
  }
}
