/**
 * `RoughnessEnvMap`: the roughness stage on an `AbstractEnvMap`. All faces share `resolution`
 * and `waterLevel`; face `i` samples `heightMaps[i]`.
 */
module RoughnessEnvMap {
  import opened Materials
  import opened ShaderUniforms
  import EnvMap
  import RenderQueue

  class RoughnessEnvMap {
    /** The `AbstractEnvMap` part of the object. */
    const base: EnvMap.AbstractEnvMap

    ghost predicate Valid()
      reads base, base.Repr()
    {
      base.Valid() && |base.materials| == 6 && HaveKeys(base.materials, RoughnessKeys)
    }

    constructor ()
      ensures Valid() && fresh(base) && fresh(base.Repr())
      ensures forall i :: 0 <= i < 6 ==> base.materials[i] == RoughnessMaterial()
    {
      var ms := SetupRoughnessMaterials();
      base := new EnvMap.AbstractEnvMap(ms);
    }

    /** `updateMaterials(props)`: per face `resolution`, `waterLevel`, `heightMap`, then
        `needsUpdate`. */
    method UpdateMaterials(p: RoughnessProps)
      requires Valid()
      modifies base`materials
      ensures Valid()
      ensures forall i :: 0 <= i < 6 ==> base.materials[i] == RoughnessUpdated(old(base.materials[i]), p, i)
      ensures Agree(base.materials, Resolution) && Agree(base.materials, WaterLevel)
      ensures AllNeedUpdate(base.materials)
    {
      ghost var before := base.materials;
      for i := 0 to 6
        invariant |base.materials| == 6
        invariant forall j :: 0 <= j < i ==> base.materials[j] == RoughnessUpdated(before[j], p, j)
        invariant forall j :: i <= j < 6 ==> base.materials[j] == before[j]
      {
        var m := base.materials[i];
        m := Write(m, Resolution, F(p.resolution as real));
        m := Write(m, WaterLevel, F(p.waterLevel));
        m := Write(m, HeightMap, T(At(p.heightMaps, i)));
        m := Touch(m);
        base.materials := base.materials[i := m];
      }
      RoughnessFaces(before, base.materials, p);
    }

    /** `render(props)`: the uniform update, then six face actions at `props.resolution`. */
    method Render(p: RoughnessProps, q: RenderQueue.RenderQueue)
      requires Valid()
      modifies base`materials, q
      ensures Valid()
      ensures forall i :: 0 <= i < 6 ==> base.materials[i] == RoughnessUpdated(old(base.materials[i]), p, i)
      ensures q.actions == old(q.actions) + RenderQueue.SixActions(base, p.resolution)
      ensures q.callbacks == old(q.callbacks)
    {
      UpdateMaterials(p);
      base.Render(p.resolution, q);
    }
  }
}
