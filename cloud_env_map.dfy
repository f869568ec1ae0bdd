/**
 * `CloudEnvMap`: the cloud-cover stage, an `AbstractEnvMap` whose six materials carry the noise
 * uniforms. `index` tells each face which cube side it draws; every other uniform is shared.
 */
module CloudEnvMap {
  import opened Materials
  import opened ShaderUniforms
  import EnvMap
  import RenderQueue

  class CloudEnvMap {
    /** The `AbstractEnvMap` part of the object. */
    const base: EnvMap.AbstractEnvMap

    /** Six materials, each declaring the noise uniforms: what the uniform update needs. */
    ghost predicate Shaped()
      reads base`materials
    {
      |base.materials| == 6 && HaveKeys(base.materials, NoiseKeys)
    }

    ghost predicate Valid()
      reads base, base.Repr()
    {
      && base.Valid() && Shaped()
      && forall i :: 0 <= i < 6 ==> base.materials[i].uniforms[Index] == I(i)
    }

    constructor ()
      ensures Valid() && fresh(base) && fresh(base.Repr())
      ensures forall i :: 0 <= i < 6 ==> base.materials[i] == NoiseMaterial(i)
    {
      var ms := SetupNoiseMaterials();
      base := new EnvMap.AbstractEnvMap(ms);
    }

    /** `updateMaterials(props)`: on every face, the six shared uniforms, then `needsUpdate`. */
    method UpdateMaterials(p: NoiseProps)
      requires Shaped()
      modifies base`materials
      ensures Shaped() && (old(Valid()) ==> Valid())
      ensures forall i :: 0 <= i < 6 ==> base.materials[i] == NoiseUpdated(old(base.materials[i]), p)
      ensures forall k :: k in NoiseShared ==> Agree(base.materials, k)
      ensures AllNeedUpdate(base.materials)
    {
      ghost var before := base.materials;
      for i := 0 to 6
        invariant |base.materials| == 6
        invariant forall j :: 0 <= j < i ==> base.materials[j] == NoiseUpdated(before[j], p)
        invariant forall j :: i <= j < 6 ==> base.materials[j] == before[j]
      {
        var m := base.materials[i];
        m := Write(m, Seed, F(p.seed));
        m := Write(m, Resolution, F(p.resolution as real));
        m := Write(m, Res1, F(p.res1));
        m := Write(m, Res2, F(p.res2));
        m := Write(m, ResMix, F(p.resMix));
        m := Write(m, MixScale, F(p.mixScale));
        m := Touch(m);
        base.materials := base.materials[i := m];
      }
      NoiseFaces(before, base.materials, p);
    }

    /** `render(props)`: the uniform update, then six face actions at `props.resolution`. */
    method Render(p: NoiseProps, q: RenderQueue.RenderQueue)
      requires Shaped()
      modifies base`materials, q
      ensures Shaped() && (old(Valid()) ==> Valid())
      ensures forall i :: 0 <= i < 6 ==> base.materials[i] == NoiseUpdated(old(base.materials[i]), p)
      ensures q.actions == old(q.actions) + RenderQueue.SixActions(base, p.resolution)
      ensures q.callbacks == old(q.callbacks)
    {
      UpdateMaterials(p);
      base.Render(p.resolution, q);
    }
  }
}
