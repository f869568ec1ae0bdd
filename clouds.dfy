/**
 * `Clouds`: the cloud shell around the planet. Its six standard materials show the six faces of
 * its `CloudEnvMap` (as colour, alpha and bump map at once) with shared surface settings; each
 * `render` draws a new seed and four noise scales and submits the cloud map.
 */
module Clouds {
  import opened Wrappers
  import opened Three
  import opened Rng
  import ShaderUniforms
  import CloudEnvMap
  import RenderQueue

  /** `this.params`. */
  datatype CloudParams = CloudParams(visible: bool, rotate: bool, rotationSpeed: real, color: Color,
                                     opacity: real, roughness: real, metalness: real, bumpScale: real)

  /** The constructor's settings: white, fully opaque, rotating at 0.0009 per frame. */
  function InitialParams(): (p: CloudParams)
    ensures p.visible && p.rotate && p.rotationSpeed == 0.0009 && p.color == Color(1.0, 1.0, 1.0)
    ensures p.opacity == 1.0 && p.roughness == 0.9 && p.metalness == 0.5 && p.bumpScale == 1.0
  {
    CloudParams(true, true, 0.0009, Color(1.0, 1.0, 1.0), 1.0, 0.9, 0.5, 1.0)
  }

  /** A material as the constructor builds it from `params`: transparent, no maps yet. */
  function InitialMaterial(p: CloudParams): (m: StandardMaterial)
    ensures m.transparent && m.color == p.color && m.opacity == p.opacity
    ensures m.roughness == p.roughness && m.metalness == p.metalness && m.bumpScale == p.bumpScale
    ensures m.baseMap == None && m.alphaMap == None && m.bumpMap == None
  {
    WhiteStandardMaterial().(color := p.color, transparent := true, roughness := p.roughness,
                             metalness := p.metalness, opacity := p.opacity, bumpScale := p.bumpScale)
  }

  /** Material `m` after one pass of `updateMaterial` shows face handle `face`. */
  function Bound(m: StandardMaterial, p: CloudParams, face: Texture): StandardMaterial
  {
    m.(roughness := p.roughness, metalness := p.metalness, opacity := p.opacity,
       bumpScale := p.bumpScale, color := p.color,
       baseMap := Some(face), alphaMap := Some(face), bumpMap := Some(face))
  }

  /** A bound material carries the shared settings and shows its face in all three map slots; the
      slots `updateMaterial` does not write keep their values. */
  lemma BoundSpec(m: StandardMaterial, p: CloudParams, face: Texture)
    ensures var r := Bound(m, p, face);
            && r.roughness == p.roughness && r.metalness == p.metalness && r.opacity == p.opacity
            && r.bumpScale == p.bumpScale && r.color == p.color
            && r.baseMap == Some(face) && r.alphaMap == r.baseMap && r.bumpMap == r.baseMap
            && r.transparent == m.transparent && r.normalMap == m.normalMap
            && r.roughnessMap == m.roughnessMap && r.normalScale == m.normalScale
            && r.needsUpdate == m.needsUpdate
  {
  }

  /** Binding twice is binding once. */
  lemma BoundIdempotent(m: StandardMaterial, p: CloudParams, face: Texture)
    ensures Bound(Bound(m, p, face), p, face) == Bound(m, p, face)
  {
  }

  /** The props `render` hands the cloud map when its draws start at `k`: `seed` in [0, 1000) and
      then `res1`, `res2`, `resMix`, `mixScale`, each in [0.1, 1.0). */
  function CloudProps(s: nat -> real, k: nat, resolution: int): (p: ShaderUniforms.NoiseProps)
    requires UnitStream(s)
    ensures p.resolution == resolution
    ensures 0.0 <= p.seed < 1000.0
    ensures 0.1 <= p.res1 < 1.0 && 0.1 <= p.res2 < 1.0
    ensures 0.1 <= p.resMix < 1.0 && 0.1 <= p.mixScale < 1.0
  {
    ShaderUniforms.NoiseProps(Draw(s, k, 0.0, 1000.0), resolution, Draw(s, k + 1, 0.1, 1.0),
                              Draw(s, k + 2, 0.1, 1.0), Draw(s, k + 3, 0.1, 1.0),
                              Draw(s, k + 4, 0.1, 1.0))
  }

  /** The cloud props depend only on the five draws they are made of. */
  lemma CloudPropsLocal(s: nat -> real, t: nat -> real, k: nat, resolution: int)
    requires UnitStream(s) && UnitStream(t) && AgreeOn(s, t, k, 5)
    ensures CloudProps(s, k, resolution) == CloudProps(t, k, resolution)
  {
    assert s(k) == t(k) && s(k + 1) == t(k + 1) && s(k + 2) == t(k + 2);
    assert s(k + 3) == t(k + 3) && s(k + 4) == t(k + 4);
  }

  /** `params` after `randomize` with draws starting at `k`: opacity in [0.25, 1.0), then the
      red, green and blue channels, each in [0.5, 1.0). */
  function Randomized(p: CloudParams, s: nat -> real, k: nat): (r: CloudParams)
    requires UnitStream(s)
    ensures 0.25 <= r.opacity < 1.0
    ensures 0.5 <= r.color.r < 1.0 && 0.5 <= r.color.g < 1.0 && 0.5 <= r.color.b < 1.0
    ensures r.(opacity := p.opacity, color := p.color) == p
  {
    p.(opacity := Draw(s, k, 0.25, 1.0),
       color := Color(Draw(s, k + 1, 0.5, 1.0), Draw(s, k + 2, 0.5, 1.0), Draw(s, k + 3, 0.5, 1.0)))
  }

  /** `map_range(value, low1, high1, low2, high2)`: the affine map sending `low1` to `low2` and
      `high1` to `high2`. With `low1 == high1` JavaScript divides by zero; that case is `None`. */
  function MapRange(value: real, low1: real, high1: real, low2: real, high2: real): (r: Option<real>)
    ensures r.Some? <==> high1 != low1
    ensures r.Some? && value == low1 ==> r.value == low2
    ensures r.Some? && value == high1 ==> r.value == high2
  {
    if high1 == low1 then None else Some(low2 + (high2 - low2) * (value - low1) / (high1 - low1))
  }

  /** `map_range` is affine: a point a fraction `t` of the way from `low1` to `high1` lands the
      same fraction of the way from `low2` to `high2`. */
  lemma MapRangeAffine(t: real, low1: real, high1: real, low2: real, high2: real)
    requires high1 != low1
    ensures MapRange(low1 + t * (high1 - low1), low1, high1, low2, high2) == Some(low2 + t * (high2 - low2))
  {
    var d := high1 - low1;
    assert (low1 + t * d) - low1 == t * d;
    assert (high2 - low2) * (t * d) / d == t * (high2 - low2);
  }

  class Clouds {
    /** `this.resolution`, which `Planet` overwrites with its own. */
    var resolution: int
    var params: CloudParams
    /** `this.seed`: `undefined` until the first `render`. */
    var seed: Option<real>
    var rotationY: real
    var rotationZ: real
    const cloudMap: CloudEnvMap.CloudEnvMap
    /** `this.cloudMaps`, the cloud map's own `maps` array. */
    const cloudMaps: seq<Texture>
    var materials: seq<StandardMaterial>

    /** The cloud map's materials and this object's six materials in the shape the updates need. */
    ghost predicate Shaped()
      reads this`materials, cloudMap.base`materials
    {
      cloudMap.Shaped() && cloudMaps == cloudMap.base.maps && |cloudMaps| == 6 && |materials| == 6
    }

    ghost predicate Valid()
      reads this`materials, cloudMap.base, cloudMap.base.Repr()
    {
      cloudMap.Valid() && Shaped()
    }

    constructor ()
      ensures Valid() && fresh(cloudMap) && fresh(cloudMap.base) && fresh(cloudMap.base.Repr())
      ensures resolution == 1024 && params == InitialParams() && seed == None
      ensures rotationY == 0.0 && rotationZ == 0.0
      ensures forall i :: 0 <= i < 6 ==> materials[i] == InitialMaterial(params)
    {
      resolution := 1024;
      params := InitialParams();
      seed := None;
      rotationY, rotationZ := 0.0, 0.0;
      var cm := new CloudEnvMap.CloudEnvMap();
      cloudMap := cm;
      cloudMaps := cm.base.maps;
      var ms: seq<StandardMaterial> := [];
      for i := 0 to 6
        invariant |ms| == i
        invariant forall j :: 0 <= j < i ==> ms[j] == InitialMaterial(InitialParams())
      {
        ms := ms + [InitialMaterial(InitialParams())];
      }
      materials := ms;
    }

    /** `update()`: one frame of rotation, only while `rotate` is set. */
    method Update()
      modifies this`rotationY, this`rotationZ
      ensures params.rotate ==> rotationY == old(rotationY) + params.rotationSpeed
      ensures params.rotate ==> rotationZ == old(rotationZ) + 0.0001
      ensures !params.rotate ==> rotationY == old(rotationY) && rotationZ == old(rotationZ)
    {
      if params.rotate {
        rotationY := rotationY + params.rotationSpeed;
        rotationZ := rotationZ + 0.0001;
      }
    }

    /** `updateMaterial()`: face `i` shows `cloudMaps[i]` and every face the shared settings. */
    method UpdateMaterial()
      requires Shaped()
      modifies this`materials
      ensures Shaped() && (old(Valid()) ==> Valid())
      ensures forall i :: 0 <= i < 6 ==> materials[i] == Bound(old(materials[i]), params, cloudMaps[i])
    {
      for i := 0 to 6
        invariant |materials| == 6
        invariant forall j :: 0 <= j < i ==> materials[j] == Bound(old(materials[j]), params, cloudMaps[j])
        invariant forall j :: i <= j < 6 ==> materials[j] == old(materials[j])
      {
        var m := materials[i];
        m := m.(roughness := params.roughness, metalness := params.metalness);
        m := m.(opacity := params.opacity, bumpScale := params.bumpScale, color := params.color);
        m := m.(baseMap := Some(cloudMaps[i]), alphaMap := Some(cloudMaps[i]), bumpMap := Some(cloudMaps[i]));
        materials := materials[i := m];
      }
    }

    /** `randomizeColor()`: three draws for the colour, then `updateMaterial`. */
    method RandomizeColor(rng: Rng)
      requires Shaped() && rng.Valid()
      modifies this`params, this`materials, rng
      ensures Shaped() && (old(Valid()) ==> Valid())
      ensures var k := old(rng.cursor);
              params == old(params).(color := Color(Draw(rng.stream, k, 0.5, 1.0),
                                                    Draw(rng.stream, k + 1, 0.5, 1.0),
                                                    Draw(rng.stream, k + 2, 0.5, 1.0)))
      ensures rng.cursor == old(rng.cursor) + 3
      ensures forall i :: 0 <= i < 6 ==> materials[i] == Bound(old(materials[i]), params, cloudMaps[i])
    {
      var r := rng.RandRange(0.5, 1.0);
      var g := rng.RandRange(0.5, 1.0);
      var b := rng.RandRange(0.5, 1.0);
      params := params.(color := Color(r, g, b));
      UpdateMaterial();
    }

    /** `randomize()`: a new opacity, then `randomizeColor`; four draws in all. */
    method Randomize(rng: Rng)
      requires Shaped() && rng.Valid()
      modifies this`params, this`materials, rng
      ensures Shaped() && (old(Valid()) ==> Valid())
      ensures params == Randomized(old(params), rng.stream, old(rng.cursor))
      ensures rng.cursor == old(rng.cursor) + 4
      ensures forall i :: 0 <= i < 6 ==> materials[i] == Bound(old(materials[i]), params, cloudMaps[i])
    {
      var opacity := rng.RandRange(0.25, 1.0);
      params := params.(opacity := opacity);
      RandomizeColor(rng);
    }

    /** `render(props)`: a new seed, the material binding, then the cloud map's render with four
        fresh noise scales. `props` (the planet's water level) is not used. */
    method Render(waterLevel: real, rng: Rng, q: RenderQueue.RenderQueue)
      requires Shaped() && rng.Valid()
      modifies this`seed, this`materials, cloudMap.base`materials, rng, q
      ensures Shaped() && (old(Valid()) ==> Valid())
      ensures var p := CloudProps(rng.stream, old(rng.cursor), resolution);
              && seed == Some(p.seed)
              && (forall i :: 0 <= i < 6 ==>
                    cloudMap.base.materials[i] == ShaderUniforms.NoiseUpdated(old(cloudMap.base.materials[i]), p))
      ensures rng.cursor == old(rng.cursor) + 5
      ensures forall i :: 0 <= i < 6 ==> materials[i] == Bound(old(materials[i]), params, cloudMaps[i])
      ensures q.actions == old(q.actions) + RenderQueue.SixActions(cloudMap.base, resolution)
      ensures q.callbacks == old(q.callbacks)
    {
      ghost var k, wasValid := rng.cursor, Valid();
      var s := rng.RandRange(0.0, 1000.0);
      seed := Some(s);
      UpdateMaterial();
      assert wasValid ==> cloudMap.Valid();
      var p := DrawScales(rng, s, resolution);
      assert p == CloudProps(rng.stream, k, resolution);
      assert wasValid ==> cloudMap.Valid();
      cloudMap.Render(p, q);
    }
  }

  /** The last four draws of `render`: `res1`, `res2`, `resMix` and `mixScale`, each in
      [0.1, 1.0), completing the props around the seed `s` already drawn. */
  method DrawScales(rng: Rng, s: real, resolution: int) returns (p: ShaderUniforms.NoiseProps)
    requires rng.Valid()
    modifies rng
    ensures var k := old(rng.cursor);
            p == ShaderUniforms.NoiseProps(s, resolution, Draw(rng.stream, k, 0.1, 1.0),
                                           Draw(rng.stream, k + 1, 0.1, 1.0), Draw(rng.stream, k + 2, 0.1, 1.0),
                                           Draw(rng.stream, k + 3, 0.1, 1.0))
    ensures rng.cursor == old(rng.cursor) + 4
  {
    var res1 := rng.RandRange(0.1, 1.0);
    var res2 := rng.RandRange(0.1, 1.0);
    var resMix := rng.RandRange(0.1, 1.0);
    var mixScale := rng.RandRange(0.1, 1.0);
    p := ShaderUniforms.NoiseProps(s, resolution, res1, res2, resMix, mixScale);
  }
}
