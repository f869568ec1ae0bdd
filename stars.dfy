/**
 * `Stars`: the star-field shell. Like `Nebula` it draws its noise scales once, at construction,
 * and each `render` draws a new seed, submits its `StarMap` and at once binds the six faces.
 */
module Stars {
  import opened Wrappers
  import opened Three
  import opened Rng
  import Materials
  import ShaderUniforms
  import StandIns
  import RenderQueue

  /** The settings the constructor draws, starting at draw `k`: the four noise scales, each in
      [0.5, 2.0), with speed 0.1 and opacity 1.0. */
  function DrawnSettings(s: nat -> real, k: nat): (r: ShaderUniforms.SkySettings)
    requires UnitStream(s)
    ensures r.speed == 0.1 && r.opacity == 1.0
    ensures 0.5 <= r.res1 < 2.0 && 0.5 <= r.res2 < 2.0 && 0.5 <= r.resMix < 2.0 && 0.5 <= r.mixScale < 2.0
  {
    ShaderUniforms.SkySettings(0.1, Draw(s, k, 0.5, 2.0), Draw(s, k + 1, 0.5, 2.0),
                               Draw(s, k + 2, 0.5, 2.0), Draw(s, k + 3, 0.5, 2.0), 1.0)
  }

  /** A star material as `setup` builds it: white, opaque, no map yet. */
  function InitialMaterial(): (m: BasicMaterial)
    ensures m.color == Color(1.0, 1.0, 1.0) && !m.transparent && m.opacity == 1.0 && m.baseMap == None
  {
    BasicMaterial(Color(1.0, 1.0, 1.0), false, 1.0, None)
  }

  class Stars {
    var resolution: int
    var settings: ShaderUniforms.SkySettings
    /** `this.seed`: `undefined` until the first `render`. */
    var seed: Option<real>
    const starMap: StandIns.StarMap
    /** `this.starMaps`, the star map's own `maps` array. */
    const starMaps: seq<Texture>
    var materials: seq<BasicMaterial>

    ghost predicate Valid()
      reads this`materials, starMap.base, starMap.base.Repr()
    {
      starMap.Valid() && starMaps == starMap.base.maps && |materials| == 6
    }

    /** The settings draws come first, then `setup` builds the star map and six materials. */
    constructor (rng: Rng)
      requires rng.Valid()
      modifies rng
      ensures Valid() && fresh(starMap) && fresh(starMap.base) && fresh(starMap.base.Repr())
      ensures settings == DrawnSettings(rng.stream, old(rng.cursor)) && rng.cursor == old(rng.cursor) + 4
      ensures resolution == 1024 && seed == None && starMap.received == []
      ensures forall i :: 0 <= i < 6 ==> materials[i] == InitialMaterial()
    {
      var res1 := rng.RandRange(0.5, 2.0);
      var res2 := rng.RandRange(0.5, 2.0);
      var resMix := rng.RandRange(0.5, 2.0);
      var mixScale := rng.RandRange(0.5, 2.0);
      resolution := 1024;
      settings := ShaderUniforms.SkySettings(0.1, res1, res2, resMix, mixScale, 1.0);
      seed := None;
      var sm := new StandIns.StarMap();
      starMap := sm;
      starMaps := sm.base.maps;
      var ms: seq<BasicMaterial> := [];
      for i := 0 to 6
        invariant |ms| == i
        invariant forall j :: 0 <= j < i ==> ms[j] == InitialMaterial()
      {
        ms := ms + [InitialMaterial()];
      }
      materials := ms;
    }

    /** `update()` does nothing. */
    method Update()
    {
    }

    /** `updateMaterial()`: face `i` shows `starMaps[i]`; nothing else is written. */
    method UpdateMaterial()
      requires Valid()
      modifies this`materials
      ensures Valid()
      ensures forall i :: 0 <= i < 6 ==> materials[i] == old(materials[i]).(baseMap := Some(starMaps[i]))
    {
      for i := 0 to 6
        invariant |materials| == 6
        invariant forall j :: 0 <= j < i ==> materials[j] == old(materials[j]).(baseMap := Some(starMaps[j]))
        invariant forall j :: i <= j < 6 ==> materials[j] == old(materials[j])
      {
        materials := materials[i := materials[i].(baseMap := Some(starMaps[i]))];
      }
    }

    /** `render(props)`: one draw for the seed, the star map's render with the stored settings,
        then the material binding. */
    method Render(nebulaeMap: Materials.TexRef, rng: Rng, q: RenderQueue.RenderQueue)
      requires Valid() && rng.Valid()
      modifies this`seed, this`materials, starMap`received, rng, q
      ensures Valid()
      ensures seed == Some(Draw(rng.stream, old(rng.cursor), 0.0, 1000.0))
      ensures rng.cursor == old(rng.cursor) + 1
      ensures starMap.received == old(starMap.received)
                                  + [ShaderUniforms.SkyProps(settings, seed.value, resolution, nebulaeMap)]
      ensures q.actions == old(q.actions) + RenderQueue.SixActions(starMap.base, resolution)
      ensures q.callbacks == old(q.callbacks)
      ensures forall i :: 0 <= i < 6 ==> materials[i] == old(materials[i]).(baseMap := Some(starMaps[i]))
    {
      var s := rng.RandRange(0.0, 1000.0);
      seed := Some(s);
      starMap.Render(ShaderUniforms.SkyProps(settings, s, resolution, nebulaeMap), q);
      UpdateMaterial();
    }
  }
}
