/**
 * `TextureEnvMap`: the colour stage on an `AbstractEnvMap`. Face `i` samples entry `i` of the
 * height and moisture handle arrays and the one shared biome map.
 */
module TextureEnvMap {
  import opened Materials
  import opened ShaderUniforms
  import EnvMap
  import RenderQueue

  class TextureEnvMap {
    /** The `AbstractEnvMap` part of the object. */
    const base: EnvMap.AbstractEnvMap

    ghost predicate Valid()
      reads base, base.Repr()
    {
      base.Valid() && |base.materials| == 6 && HaveKeys(base.materials, TextureKeys)
    }

    constructor ()
      ensures Valid() && fresh(base) && fresh(base.Repr())
      ensures forall i :: 0 <= i < 6 ==> base.materials[i] == TextureMaterial()
    {
      var ms := SetupTextureMaterials();
      base := new EnvMap.AbstractEnvMap(ms);
    }

    /** `updateMaterials(props)`: per face `heightMap`, `moistureMap`, `biomeMap`, then
        `needsUpdate`. */
    method UpdateMaterials(p: TextureProps)
      requires Valid()
      modifies base`materials
      ensures Valid()
      ensures forall i :: 0 <= i < 6 ==> base.materials[i] == TextureUpdated(old(base.materials[i]), p, i)
      ensures Agree(base.materials, BiomeMap) && AllNeedUpdate(base.materials)
    {
      ghost var before := base.materials;
      for i := 0 to 6
        invariant |base.materials| == 6
        invariant forall j :: 0 <= j < i ==> base.materials[j] == TextureUpdated(before[j], p, j)
        invariant forall j :: i <= j < 6 ==> base.materials[j] == before[j]
      {
        var m := base.materials[i];
        m := Write(m, HeightMap, T(At(p.heightMaps, i)));
        m := Write(m, MoistureMap, T(At(p.moistureMaps, i)));
        m := Write(m, BiomeMap, T(p.biomeMap));
        m := Touch(m);
        base.materials := base.materials[i := m];
      }
      TextureFaces(before, base.materials, p);
    }

    /** `render(props)`: the uniform update, then six face actions at `props.resolution`, the only
        place the resolution goes. */
    method Render(p: TextureProps, q: RenderQueue.RenderQueue)
      requires Valid()
      modifies base`materials, q
      ensures Valid()
      ensures forall i :: 0 <= i < 6 ==> base.materials[i] == TextureUpdated(old(base.materials[i]), p, i)
      ensures q.actions == old(q.actions) + RenderQueue.SixActions(base, p.resolution)
      ensures q.callbacks == old(q.callbacks)
    {
      UpdateMaterials(p);
      base.Render(p.resolution, q);
    }
  }
}
