/**
 * `Nebula`: the sky-box shell. Its noise scales are drawn once, at construction; each `render`
 * draws a new seed, submits the `NebulaMap` with those stored scales, and at once binds the six
 * sky faces to its six basic materials (before the queued face actions have run).
 */
module Nebula {
  import opened Wrappers
  import opened Three
  import opened Rng
  import Materials
  import ShaderUniforms
  import NebulaMap
  import RenderQueue

  /** The settings the constructor draws, starting at draw `k`: the four noise scales, each in
      [1.0, 3.0), with speed 0.1 and opacity 1.0. */
  function DrawnSettings(s: nat -> real, k: nat): (r: ShaderUniforms.SkySettings)
    requires UnitStream(s)
    ensures r.speed == 0.1 && r.opacity == 1.0
    ensures 1.0 <= r.res1 < 3.0 && 1.0 <= r.res2 < 3.0 && 1.0 <= r.resMix < 3.0 && 1.0 <= r.mixScale < 3.0
  {
    ShaderUniforms.SkySettings(0.1, Draw(s, k, 1.0, 3.0), Draw(s, k + 1, 1.0, 3.0),
                               Draw(s, k + 2, 1.0, 3.0), Draw(s, k + 3, 1.0, 3.0), 1.0)
  }

  /** A sky material as `setup` builds it: white, transparent, at the settings' opacity. */
  function InitialMaterial(st: ShaderUniforms.SkySettings): (m: BasicMaterial)
    ensures m.color == Color(1.0, 1.0, 1.0) && m.transparent && m.opacity == st.opacity && m.baseMap == None
  {
    BasicMaterial(Color(1.0, 1.0, 1.0), true, st.opacity, None)
  }

  class Nebula {
    var resolution: int
    var settings: ShaderUniforms.SkySettings
    /** `this.seed`: `undefined` until the first `render`. */
    var seed: Option<real>
    const skyMap: NebulaMap.NebulaMap
    /** `this.skyMaps`, the sky map's own `maps` array. */
    const skyMaps: seq<Texture>
    var materials: seq<BasicMaterial>

    ghost predicate Valid()
      reads this`materials, skyMap.base, skyMap.base.Repr()
    {
      skyMap.Valid() && skyMaps == skyMap.base.maps && |materials| == 6
    }

    /** The settings draws come first, then `setup` builds the sky map and six materials. */
    constructor (rng: Rng)
      requires rng.Valid()
      modifies rng
      ensures Valid() && fresh(skyMap) && fresh(skyMap.base) && fresh(skyMap.base.Repr())
      ensures settings == DrawnSettings(rng.stream, old(rng.cursor)) && rng.cursor == old(rng.cursor) + 4
      ensures resolution == 1024 && seed == None
      ensures forall i :: 0 <= i < 6 ==> materials[i] == InitialMaterial(settings)
    {
      var res1 := rng.RandRange(1.0, 3.0);
      var res2 := rng.RandRange(1.0, 3.0);
      var resMix := rng.RandRange(1.0, 3.0);
      var mixScale := rng.RandRange(1.0, 3.0);
      var st := ShaderUniforms.SkySettings(0.1, res1, res2, resMix, mixScale, 1.0);
      resolution := 1024;
      settings := st;
      seed := None;
      var sky := new NebulaMap.NebulaMap();
      skyMap := sky;
      skyMaps := sky.base.maps;
      var ms: seq<BasicMaterial> := [];
      for i := 0 to 6
        invariant |ms| == i
        invariant forall j :: 0 <= j < i ==> ms[j] == InitialMaterial(st)
      {
        ms := ms + [InitialMaterial(st)];
      }
      materials := ms;
    }

    /** `update()` does nothing. */
    method Update()
    {
    }

    /** `updateMaterial()`: face `i` shows `skyMaps[i]`, every face at the shared opacity. */
    method UpdateMaterial()
      requires Valid()
      modifies this`materials
      ensures Valid()
      ensures forall i :: 0 <= i < 6 ==>
                materials[i] == old(materials[i]).(baseMap := Some(skyMaps[i]), opacity := settings.opacity)
    {
      for i := 0 to 6
        invariant |materials| == 6
        invariant forall j :: 0 <= j < i ==>
                    materials[j] == old(materials[j]).(baseMap := Some(skyMaps[j]), opacity := settings.opacity)
        invariant forall j :: i <= j < 6 ==> materials[j] == old(materials[j])
      {
        var m := materials[i];
        m := m.(baseMap := Some(skyMaps[i]));
        m := m.(opacity := settings.opacity);
        materials := materials[i := m];
      }
    }

    /** `render(props)`: one draw for the seed, the sky map's render with the stored settings,
        then the material binding. */
    method Render(nebulaeMap: Materials.TexRef, rng: Rng, q: RenderQueue.RenderQueue)
      requires Valid() && rng.Valid()
      modifies this`seed, this`materials, skyMap.base`mats, rng, q
      ensures Valid()
      ensures seed == Some(Draw(rng.stream, old(rng.cursor), 0.0, 1000.0))
      ensures rng.cursor == old(rng.cursor) + 1
      ensures forall i :: 0 <= i < 6 ==>
                skyMap.base.mats[i] ==
                ShaderUniforms.NebulaUpdated(old(skyMap.base.mats[i]),
                                             ShaderUniforms.SkyProps(settings, seed.value, resolution, nebulaeMap))
      ensures q.actions == old(q.actions) + RenderQueue.SixActions(skyMap.base, resolution)
      ensures q.callbacks == old(q.callbacks)
      ensures forall i :: 0 <= i < 6 ==>
                materials[i] == old(materials[i]).(baseMap := Some(skyMaps[i]), opacity := settings.opacity)
    {
      var s := rng.RandRange(0.0, 1000.0);
      seed := Some(s);
      skyMap.Render(ShaderUniforms.SkyProps(settings, s, resolution, nebulaeMap), q);
      UpdateMaterial();
    }
  }
}
