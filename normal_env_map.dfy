/**
 * `NormalEnvMap`: the normal-map stage on an `AbstractEnvMap`, as written. Its `setupMaterials`
 * and `updateMaterials` use `this.mats`, while the base constructor builds the planes from
 * `this.materials`, which stays empty. The six planes therefore render with three.js's default
 * material, and no uniform the stage writes reaches a face.
 *
 * `CorrectedNormalEnvMap` is the same stage with `this.materials` in place of `this.mats`, the
 * shape of every other `AbstractEnvMap` stage.
 */
module NormalEnvMap {
  import opened Wrappers
  import opened Three
  import opened Materials
  import opened ShaderUniforms
  import Rig
  import EnvMap
  import RenderQueue

  class NormalEnvMap {
    /** The `AbstractEnvMap` part of the object. */
    const base: EnvMap.AbstractEnvMap
    /** `this.mats`, which nothing in the base class reads. */
    var mats: seq<ShaderMaterial>

    ghost predicate Valid()
      reads this, base, base.Repr()
    {
      base.Valid() && base.materials == [] && |mats| == 6 && HaveKeys(mats, NormalKeys)
    }

    /** The base constructor empties `this.materials`, runs `setupMaterials` (which fills
        `this.mats`), then builds the planes from the still empty `this.materials`. */
    constructor ()
      ensures Valid() && fresh(base) && fresh(base.Repr())
      ensures forall i :: 0 <= i < 6 ==> mats[i] == NormalMaterial()
      ensures forall i :: 0 <= i < 6 ==> base.planes[i].material == DefaultMaterial
    {
      var ms := SetupNormalMaterials();
      base := new EnvMap.AbstractEnvMap([]);
      mats := ms;
    }

    /** `updateMaterials(props)`: the normal uniforms of `this.mats`; the rig's materials stay
        empty. */
    method UpdateMaterials(p: NormalProps)
      requires Valid()
      modifies this`mats
      ensures Valid()
      ensures forall i :: 0 <= i < 6 ==> mats[i] == NormalUpdated(old(mats[i]), p, i)
      ensures base.materials == []
    {
      ghost var before := mats;
      for i := 0 to 6
        invariant |mats| == 6
        invariant forall j :: 0 <= j < i ==> mats[j] == NormalUpdated(before[j], p, j)
        invariant forall j :: i <= j < 6 ==> mats[j] == before[j]
      {
        var m := mats[i];
        m := Write(m, Resolution, F(p.resolution as real));
        m := Write(m, WaterLevel, F(p.waterLevel));
        m := Write(m, HeightMap, T(At(p.heightMaps, i)));
        m := Write(m, TextureMap, T(At(p.textureMaps, i)));
        m := Touch(m);
        mats := mats[i := m];
      }
      NormalFaces(before, mats, p);
    }

    /** `render(props)` inherited from `AbstractEnvMap`: the update, then six face actions. */
    method Render(p: NormalProps, q: RenderQueue.RenderQueue)
      requires Valid()
      modifies this`mats, q
      ensures Valid()
      ensures forall i :: 0 <= i < 6 ==> mats[i] == NormalUpdated(old(mats[i]), p, i)
      ensures q.actions == old(q.actions) + RenderQueue.SixActions(base, p.resolution)
      ensures q.callbacks == old(q.callbacks)
    {
      UpdateMaterials(p);
      base.Render(p.resolution, q);
    }
  }

  class CorrectedNormalEnvMap {
    /** The `AbstractEnvMap` part of the object. */
    const base: EnvMap.AbstractEnvMap

    ghost predicate Valid()
      reads base, base.Repr()
    {
      base.Valid() && |base.materials| == 6 && HaveKeys(base.materials, NormalKeys)
    }

    /** `setupMaterials` filling `this.materials`: plane `i` is built with material `i`. */
    constructor ()
      ensures Valid() && fresh(base) && fresh(base.Repr())
      ensures forall i :: 0 <= i < 6 ==> base.materials[i] == NormalMaterial()
      ensures forall i :: 0 <= i < 6 ==> base.planes[i].material == OwnMaterial(i)
    {
      var ms := SetupNormalMaterials();
      base := new EnvMap.AbstractEnvMap(ms);
    }

    /** `updateMaterials(props)` on `this.materials`. */
    method UpdateMaterials(p: NormalProps)
      requires Valid()
      modifies base`materials
      ensures Valid()
      ensures forall i :: 0 <= i < 6 ==> base.materials[i] == NormalUpdated(old(base.materials[i]), p, i)
      ensures Agree(base.materials, Resolution) && Agree(base.materials, WaterLevel)
      ensures AllNeedUpdate(base.materials)
    {
      ghost var before := base.materials;
      for i := 0 to 6
        invariant |base.materials| == 6
        invariant forall j :: 0 <= j < i ==> base.materials[j] == NormalUpdated(before[j], p, j)
        invariant forall j :: i <= j < 6 ==> base.materials[j] == before[j]
      {
        var m := base.materials[i];
        m := Write(m, Resolution, F(p.resolution as real));
        m := Write(m, WaterLevel, F(p.waterLevel));
        m := Write(m, HeightMap, T(At(p.heightMaps, i)));
        m := Write(m, TextureMap, T(At(p.textureMaps, i)));
        m := Touch(m);
        base.materials := base.materials[i := m];
      }
      NormalFaces(before, base.materials, p);
    }

    method Render(p: NormalProps, q: RenderQueue.RenderQueue)
      requires Valid()
      modifies base`materials, q
      ensures Valid()
      ensures forall i :: 0 <= i < 6 ==> base.materials[i] == NormalUpdated(old(base.materials[i]), p, i)
      ensures q.actions == old(q.actions) + RenderQueue.SixActions(base, p.resolution)
      ensures q.callbacks == old(q.callbacks)
    {
      UpdateMaterials(p);
      base.Render(p.resolution, q);
    }
  }

  /** As written: render, then run the first face action. The face is drawn with the default
      material, and the rig holds no material the update could have reached. */
  method AsWrittenFaceIgnoresUniforms(p: NormalProps) returns (drawn: MaterialRef, rigMaterials: nat)
    ensures drawn == DefaultMaterial && rigMaterials == 0
  {
    var stage := new NormalEnvMap();
    var q := new RenderQueue.RenderQueue();
    stage.Render(p, q);
    RenderQueue.SixActionsFaces(stage.base, p.resolution);
    assert q.actions[0] == RenderQueue.Action(stage.base, 0, p.resolution);
    var o := stage.base.Execute(q.actions[0]);
    drawn := stage.base.planes[0].material;
    rigMaterials := |stage.base.materials|;
  }

  /** Corrected: the first face action draws with material 0, which holds the props' resolution,
      water level and face-0 handles. */
  method CorrectedFaceUsesUniforms(p: NormalProps) returns (drawn: MaterialRef, m: ShaderMaterial)
    ensures drawn == OwnMaterial(0) && m.uniforms.Keys == NormalKeys
    ensures m.uniforms[Resolution] == F(p.resolution as real) && m.uniforms[WaterLevel] == F(p.waterLevel)
    ensures m.uniforms[HeightMap] == T(At(p.heightMaps, 0)) && m.uniforms[TextureMap] == T(At(p.textureMaps, 0))
  {
    var stage := new CorrectedNormalEnvMap();
    var q := new RenderQueue.RenderQueue();
    stage.Render(p, q);
    RenderQueue.SixActionsFaces(stage.base, p.resolution);
    assert q.actions[0] == RenderQueue.Action(stage.base, 0, p.resolution);
    var o := stage.base.Execute(q.actions[0]);
    drawn := stage.base.planes[0].material;
    m := stage.base.materials[drawn.index];
    NormalUpdatedSpec(NormalMaterial(), p, 0);
  }
}
