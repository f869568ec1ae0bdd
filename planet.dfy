/**
 * `Planet`: the orchestrator. It owns the height and moisture noise stages, the texture, normal
 * and roughness stages built on them, the biome painter, the cloud, glow and atmosphere shells,
 * and six standard materials that show the finished faces.
 *
 * `renderScene` first randomizes the planet and its shells (lines 140-150), then submits the
 * stages in dependency order and registers one callback that rebinds the six materials once the
 * queued face work has run (lines 152-205). All randomness comes from one shared stream, drawn in
 * a fixed order, so the parameters every stage receives are functions of the stream and of the
 * draw count at the start.
 */
module Planet {
  import opened Wrappers
  import opened Three
  import opened Rng
  import Materials
  import ShaderUniforms
  import StandIns
  import TextureMap
  import NormalMap
  import RoughnessMap
  import Clouds
  import Glow
  import Atmosphere
  import RenderQueue

  /** `this.settings`. */
  datatype PlanetSettings = PlanetSettings(waterLevel: real, roughness: real, metalness: real,
                                           normalScale: real, rotate: bool, displayMap: string,
                                           showBiomeMap: bool)

  /** The constructor's settings: the full texture view, rotating, normal scale 3. */
  function InitialSettings(): (st: PlanetSettings)
    ensures st.waterLevel == 0.0 && st.roughness == 0.8 && st.metalness == 0.5 && st.normalScale == 3.0
    ensures st.rotate && st.displayMap == "textureMap" && !st.showBiomeMap
  {
    PlanetSettings(0.0, 0.8, 0.5, 3.0, true, "textureMap", false)
  }

  /** The five stage handles of one face. */
  datatype FaceMaps = FaceMaps(height: Texture, moisture: Texture, texture: Texture, normal: Texture,
                               roughness: Texture)

  /** The `displayMap` choices the controls offer. */
  const DisplayMaps: seq<string> := ["textureMap", "heightMap", "moistureMap", "normalMap", "roughnessMap"]

  /** The `displayMap` branches of `updateMaterial`, in the order it tests them. */
  datatype DisplayMode = TextureView | HeightView | MoistureView | NormalView | RoughnessView | OtherView

  /** Which branch a `displayMap` value takes: the first name it equals, or none. */
  function ModeOf(name: string): (d: DisplayMode)
    ensures d == TextureView <==> name == "textureMap"
  {
    if name == "textureMap" then TextureView
    else if name == "heightMap" then HeightView
    else if name == "moistureMap" then MoistureView
    else if name == "normalMap" then NormalView
    else if name == "roughnessMap" then RoughnessView
    else OtherView
  }

  /** Exactly the names the controls offer select a branch. */
  lemma ModeOfKnownNames(name: string)
    ensures ModeOf(name) != OtherView <==> name in DisplayMaps
  {
    if name in DisplayMaps {
      var j :| 0 <= j < |DisplayMaps| && DisplayMaps[j] == name;
      assert j == 0 || j == 1 || j == 2 || j == 3 || j == 4;
    }
  }

  /** The handle a branch shows as the colour map. */
  function Shown(d: DisplayMode, f: FaceMaps): (r: Option<Texture>)
    ensures r.None? <==> d == OtherView
  {
    match d
    case TextureView => Some(f.texture)
    case HeightView => Some(f.height)
    case MoistureView => Some(f.moisture)
    case NormalView => Some(f.normal)
    case RoughnessView => Some(f.roughness)
    case OtherView => None
  }

  /** One material after `updateMaterial`, written branch by branch as the loop body runs. */
  function Rebind(m: StandardMaterial, st: PlanetSettings, f: FaceMaps): StandardMaterial
  {
    var m1 := m.(roughness := st.roughness, metalness := st.metalness);
    var m2 :=
      match ModeOf(st.displayMap)
      case TextureView =>
        m1.(baseMap := Some(f.texture), normalMap := Some(f.normal),
            normalScale := Vector2(st.normalScale, st.normalScale), roughnessMap := Some(f.roughness))
      case HeightView => m1.(baseMap := Some(f.height), normalMap := None, roughnessMap := None)
      case MoistureView => m1.(baseMap := Some(f.moisture), normalMap := None, roughnessMap := None)
      case NormalView => m1.(baseMap := Some(f.normal), normalMap := None, roughnessMap := None)
      case RoughnessView => m1.(baseMap := Some(f.roughness), normalMap := None, roughnessMap := None)
      case OtherView => m1;
    m2.(needsUpdate := true)
  }

  /** What `updateMaterial` does to one material, by branch: roughness, metalness and
      `needsUpdate` always; the branch's map as colour map when the name is known; the normal and
      roughness maps and the normal scale in the full view, both maps cleared in a single-stage
      view; and no map slot touched for an unknown name. Colour, opacity and the cloud-only slots
      are kept. */
  lemma RebindSpec(m: StandardMaterial, st: PlanetSettings, f: FaceMaps)
    ensures var r, d := Rebind(m, st, f), ModeOf(st.displayMap);
            && r.roughness == st.roughness && r.metalness == st.metalness && r.needsUpdate
            && r.color == m.color && r.opacity == m.opacity && r.bumpScale == m.bumpScale
            && r.transparent == m.transparent && r.alphaMap == m.alphaMap && r.bumpMap == m.bumpMap
            && (d != OtherView ==> r.baseMap == Shown(d, f))
            && (d == TextureView ==>
                  && r.normalMap == Some(f.normal) && r.roughnessMap == Some(f.roughness)
                  && r.normalScale == Vector2(st.normalScale, st.normalScale))
            && (d != TextureView && d != OtherView ==>
                  r.normalMap == None && r.roughnessMap == None && r.normalScale == m.normalScale)
            && (d == OtherView ==>
                  && r.baseMap == m.baseMap && r.normalMap == m.normalMap
                  && r.roughnessMap == m.roughnessMap && r.normalScale == m.normalScale)
  {
  }

  /** Rebinding twice with the same settings and handles is rebinding once. */
  lemma RebindIdempotent(m: StandardMaterial, st: PlanetSettings, f: FaceMaps)
    ensures Rebind(Rebind(m, st, f), st, f) == Rebind(m, st, f)
  {
  }

  /** `updateNormalScaleForRes` as a table from render resolution to normal scale. */
  const NormalScaleTable: map<int, real> :=
    map[256 := 0.25, 512 := 0.5, 1024 := 1.0, 2048 := 1.5, 4096 := 3.0]

  /** The normal scale after `updateNormalScaleForRes(value)`, starting from `current`. */
  function NormalScaleFor(value: int, current: real): (r: real)
    ensures value in NormalScaleTable ==> r == NormalScaleTable[value]
    ensures value !in NormalScaleTable ==> r == current
  {
    if value in NormalScaleTable then NormalScaleTable[value] else current
  }

  /** `this.seed` at line 140: one draw, scaled to [0, 1000). */
  function PlanetSeed(s: nat -> real, k: nat): (seed: real)
    requires UnitStream(s)
    ensures 0.0 <= seed < 1000.0
  {
    Draw(s, k, 0.0, 1.0) * 1000.0
  }

  /** The height map's props when its draws start at `k`: three scales in [0.01, 5.0), a mix
      scale in [0.5, 1.0) and a ridge mode in 0..3. */
  function HeightProps(s: nat -> real, k: nat, seed: real, resolution: int): (p: StandIns.NoiseMapProps)
    requires UnitStream(s)
    ensures p.seed == seed && p.resolution == resolution
    ensures 0.01 <= p.res1 < 5.0 && 0.01 <= p.res2 < 5.0 && 0.01 <= p.resMix < 5.0
    ensures 0.5 <= p.mixScale < 1.0
    ensures 0 <= p.doesRidged <= 3
  {
    StandIns.NoiseMapProps(seed, resolution, Draw(s, k, 0.01, 5.0), Draw(s, k + 1, 0.01, 5.0),
                           Draw(s, k + 2, 0.01, 5.0), Draw(s, k + 3, 0.5, 1.0),
                           Draw(s, k + 4, 0.0, 4.0).Floor)
  }

  /** The moisture range factor `resMod`, drawn in [3, 10) right after the height props. */
  function ResMod(s: nat -> real, k: nat): (m: real)
    requires UnitStream(s)
    ensures 3.0 <= m < 10.0
  {
    Draw(s, k, 3.0, 10.0)
  }

  /** The moisture map's props when `resMod` is draw `k`: the seed shifted by 392.253, the three
      scales in the range [0.01, 5.0) stretched by `resMod`, then the same mix scale and ridge
      draws as the height map. */
  function MoistureProps(s: nat -> real, k: nat, seed: real, resolution: int): (p: StandIns.NoiseMapProps)
    requires UnitStream(s)
    ensures p.seed == seed + 392.253 && p.resolution == resolution
    ensures var m := ResMod(s, k);
            && 0.01 * m <= p.res1 < 5.0 * m && 0.01 * m <= p.res2 < 5.0 * m
            && 0.01 * m <= p.resMix < 5.0 * m
    ensures 0.03 <= p.res1 < 50.0 && 0.03 <= p.res2 < 50.0 && 0.03 <= p.resMix < 50.0
    ensures 0.5 <= p.mixScale < 1.0
    ensures 0 <= p.doesRidged <= 3
  {
    var m := ResMod(s, k);
    var resMin, resMax := 0.01 * m, 5.0 * m;
    StandIns.NoiseMapProps(seed + 392.253, resolution, Draw(s, k + 1, resMin, resMax),
                           Draw(s, k + 2, resMin, resMax), Draw(s, k + 3, resMin, resMax),
                           Draw(s, k + 4, 0.5, 1.0), Draw(s, k + 5, 0.0, 4.0).Floor)
  }

  /** Lines 155-164: the five draws of the height map's props, in order. */
  method DrawHeightProps(rng: Rng, seed: real, resolution: int) returns (p: StandIns.NoiseMapProps)
    requires rng.Valid()
    modifies rng
    ensures p == HeightProps(rng.stream, old(rng.cursor), seed, resolution)
    ensures rng.cursor == old(rng.cursor) + 5
  {
    var resMin, resMax := 0.01, 5.0;
    var res1 := rng.RandRange(resMin, resMax);
    var res2 := rng.RandRange(resMin, resMax);
    var resMix := rng.RandRange(resMin, resMax);
    var mixScale := rng.RandRange(0.5, 1.0);
    var ridged := rng.RandRange(0.0, 4.0);
    p := StandIns.NoiseMapProps(seed, resolution, res1, res2, resMix, mixScale, ridged.Floor);
  }

  /** Lines 166-176: `resMod` stretches the range, then five more draws for the moisture map. */
  method DrawMoistureProps(rng: Rng, seed: real, resolution: int) returns (p: StandIns.NoiseMapProps)
    requires rng.Valid()
    modifies rng
    ensures p == MoistureProps(rng.stream, old(rng.cursor), seed, resolution)
    ensures rng.cursor == old(rng.cursor) + 6
  {
    var resMin, resMax := 0.01, 5.0;
    var resMod := rng.RandRange(3.0, 10.0);
    resMax := resMax * resMod;
    resMin := resMin * resMod;
    var res1 := rng.RandRange(resMin, resMax);
    var res2 := rng.RandRange(resMin, resMax);
    var resMix := rng.RandRange(resMin, resMax);
    var mixScale := rng.RandRange(0.5, 1.0);
    var ridged := rng.RandRange(0.0, 4.0);
    p := StandIns.NoiseMapProps(seed + 392.253, resolution, res1, res2, resMix, mixScale, ridged.Floor);
  }

  /** The submitted noise props depend only on the eleven draws they are made of: two streams
      that agree there give both noise stages the same props. */
  lemma NoisePropsLocal(s: nat -> real, t: nat -> real, k: nat, seed: real, resolution: int)
    requires UnitStream(s) && UnitStream(t) && AgreeOn(s, t, k, 11)
    ensures HeightProps(s, k, seed, resolution) == HeightProps(t, k, seed, resolution)
    ensures MoistureProps(s, k + 5, seed, resolution) == MoistureProps(t, k + 5, seed, resolution)
  {
    assert s(k) == t(k) && s(k + 1) == t(k + 1) && s(k + 2) == t(k + 2) && s(k + 3) == t(k + 3);
    assert s(k + 4) == t(k + 4) && s(k + 5) == t(k + 5) && s(k + 6) == t(k + 6);
    assert s(k + 7) == t(k + 7) && s(k + 8) == t(k + 8) && s(k + 9) == t(k + 9) && s(k + 10) == t(k + 10);
  }

  /** Moves the noise props submitted at cursor `k1` back to the cursor `k0` before the
      `17 + b` draws of the randomize step. */
  lemma PropsShifted(s: nat -> real, k0: nat, b: nat, k1: nat, h0: seq<StandIns.NoiseMapProps>,
                     h2: seq<StandIns.NoiseMapProps>, m0: seq<StandIns.NoiseMapProps>,
                     m2: seq<StandIns.NoiseMapProps>, seed: real, resolution: int)
    requires UnitStream(s) && k1 == k0 + 17 + b
    requires h2 == h0 + [HeightProps(s, k1, seed, resolution)]
    requires m2 == m0 + [MoistureProps(s, k1 + 5, seed, resolution)]
    ensures h2 == h0 + [HeightProps(s, k0 + 17 + b, seed, resolution)]
    ensures m2 == m0 + [MoistureProps(s, k0 + 22 + b, seed, resolution)]
  {
  }

  /** Moves the cloud map's props drawn at cursor `k1` back to the cursor `k` before the
      eleven draws of the noise stages. */
  lemma CloudPropsShifted(s: nat -> real, k: nat, k1: nat, resolution: int, c0: seq<Materials.ShaderMaterial>,
                          c2: seq<Materials.ShaderMaterial>, seed: Option<real>)
    requires UnitStream(s) && k1 == k + 11 && |c0| == 6 && |c2| == 6
    requires seed == Some(Clouds.CloudProps(s, k1, resolution).seed)
    requires forall i :: 0 <= i < 6 ==> c2[i] == ShaderUniforms.NoiseUpdated(c0[i], Clouds.CloudProps(s, k1, resolution))
    ensures var p := Clouds.CloudProps(s, k + 11, resolution);
            && seed == Some(p.seed)
            && forall i :: 0 <= i < 6 ==> c2[i] == ShaderUniforms.NoiseUpdated(c0[i], p)
  {
  }

  /** The methods `AtmosphereRing` defines: it has no `randomize`. */
  const AtmosphereRingMethods: set<string> := {"update", "updateUniforms"}

  /** Calling method `name` on an object whose class defines or inherits `methods`;
      `AtmosphereRing` inherits from `THREE.Object3D`, which defines no `randomize` either. */
  function Invoke(methods: set<string>, name: string): (o: Outcome)
    ensures o.Pass? <==> name in methods
  {
    if name in methods then Pass else Fail("this.atmosphereRing." + name + " is not a function")
  }

  /** Five pairwise distinct rigs. */
  predicate Distinct(a: object, b: object, c: object, d: object, e: object)
  {
    && a != b && a != c && a != d && a != e
    && b != c && b != d && b != e
    && c != d && c != e
    && d != e
  }

  /** The loop body of `updateMaterial`: roughness and metalness, then the branch `displayMap`
      selects, then `needsUpdate`. */
  method RebindMaterial(m: StandardMaterial, st: PlanetSettings, f: FaceMaps) returns (r: StandardMaterial)
    ensures r == Rebind(m, st, f)
  {
    r := m.(roughness := st.roughness, metalness := st.metalness);
    match ModeOf(st.displayMap) {
      case TextureView =>
        r := r.(baseMap := Some(f.texture), normalMap := Some(f.normal));
        r := r.(normalScale := Vector2(st.normalScale, st.normalScale));
        r := r.(roughnessMap := Some(f.roughness));
      case HeightView =>
        r := r.(baseMap := Some(f.height), normalMap := None, roughnessMap := None);
      case MoistureView =>
        r := r.(baseMap := Some(f.moisture), normalMap := None, roughnessMap := None);
      case NormalView =>
        r := r.(baseMap := Some(f.normal), normalMap := None, roughnessMap := None);
      case RoughnessView =>
        r := r.(baseMap := Some(f.roughness), normalMap := None, roughnessMap := None);
      case OtherView =>
    }
    r := r.(needsUpdate := true);
  }

  /** The loop of `updateMaterial` over the six materials: face `i` is rebound to the `i`-th
      handle of each stage, and to nothing else. */
  method RebindAll(ms: seq<StandardMaterial>, st: PlanetSettings, hs: seq<Texture>, mos: seq<Texture>,
                   ts: seq<Texture>, ns: seq<Texture>, rs: seq<Texture>) returns (r: seq<StandardMaterial>)
    requires |ms| == 6 && |hs| == 6 && |mos| == 6 && |ts| == 6 && |ns| == 6 && |rs| == 6
    ensures |r| == 6
    ensures forall i :: 0 <= i < 6 ==> r[i] == Rebind(ms[i], st, FaceMaps(hs[i], mos[i], ts[i], ns[i], rs[i]))
  {
    r := ms;
    for i := 0 to 6
      invariant |r| == 6
      invariant forall j :: 0 <= j < i ==> r[j] == Rebind(ms[j], st, FaceMaps(hs[j], mos[j], ts[j], ns[j], rs[j]))
      invariant forall j :: i <= j < 6 ==> r[j] == ms[j]
    {
      var m := RebindMaterial(r[i], st, FaceMaps(hs[i], mos[i], ts[i], ns[i], rs[i]));
      r := r[i := m];
    }
  }

  /** The five inner stages `createInnerPlanet` builds, on five distinct new rigs. */
  method NewStages() returns (hm: StandIns.NoiseMap, mm: StandIns.NoiseMap, tm: TextureMap.TextureMap,
                              nm: NormalMap.NormalMap, rm: RoughnessMap.RoughnessMap)
    ensures tm.Shaped() && nm.Shaped() && rm.Shaped()
    ensures fresh(hm) && fresh(mm) && hm != mm && hm.received == [] && mm.received == []
    ensures Distinct(hm.base, mm.base, tm.base, nm.base, rm.base)
    ensures |hm.base.maps| == 6 && |mm.base.maps| == 6 && |tm.base.maps| == 6
    ensures |nm.base.maps| == 6 && |rm.base.maps| == 6
  {
    hm := new StandIns.NoiseMap();
    mm := new StandIns.NoiseMap();
    tm := new TextureMap.TextureMap();
    nm := new NormalMap.NormalMap();
    rm := new RoughnessMap.RoughnessMap();
  }

  /** The materials loop of `createInnerPlanet`: one white standard material per face. */
  method WhiteMaterials() returns (ms: seq<StandardMaterial>)
    ensures |ms| == 6 && forall i :: 0 <= i < 6 ==> ms[i] == WhiteStandardMaterial()
  {
    ms := [];
    for i := 0 to 6
      invariant |ms| == i
      invariant forall j :: 0 <= j < i ==> ms[j] == WhiteStandardMaterial()
    {
      ms := ms + [WhiteStandardMaterial()];
    }
  }

  /** The three shells `createOuterPlanet` builds; the glow draws its first colour. */
  method NewShells(rng: Rng) returns (cl: Clouds.Clouds, gl: Glow.Glow, at: Atmosphere.Atmosphere)
    requires rng.Valid()
    modifies rng
    ensures cl.Shaped() && fresh(cl) && fresh(cl.cloudMap.base)
    ensures gl.Valid() && fresh(gl) && fresh(at)
    ensures gl.color == Glow.RawColor(rng.stream, old(rng.cursor)) && rng.cursor == old(rng.cursor) + 3
    ensures cl.params == Clouds.InitialParams() && cl.seed == None
    ensures at.params == Atmosphere.InitialParams() && gl.uniforms == Glow.InitialUniforms()
  {
    cl := new Clouds.Clouds();
    gl := new Glow.Glow(rng);
    at := new Atmosphere.Atmosphere();
  }

  class Planet {
    var materials: seq<StandardMaterial>
    var resolution: int
    var settings: PlanetSettings
    /** `this.seed`: `undefined` until the first `renderScene`. */
    var seed: Option<real>
    const biome: StandIns.Biome
    const heightMap: StandIns.NoiseMap
    const moistureMap: StandIns.NoiseMap
    const textureMap: TextureMap.TextureMap
    const normalMap: NormalMap.NormalMap
    const roughnessMap: RoughnessMap.RoughnessMap
    /** The stages' own `maps` arrays, kept under the planet's names. */
    const heightMaps: seq<Texture>
    const moistureMaps: seq<Texture>
    const textureMaps: seq<Texture>
    const normalMaps: seq<Texture>
    const roughnessMaps: seq<Texture>
    const clouds: Clouds.Clouds
    const glow: Glow.Glow
    const atmosphere: Atmosphere.Atmosphere

    /** What the planet's own steps rely on: the stages' materials in the shape their updates
        need, five distinct rigs, the handles the planet keeps, and six faces. The rigs' own
        invariants are each stage's business: its constructor establishes them and its methods
        keep them (`old(Valid()) ==> Valid()`). */
    ghost predicate Valid()
      reads this`materials, textureMap.base`mats, normalMap.base`mats, roughnessMap.base`mats
      reads clouds`materials, clouds.cloudMap.base`materials, glow`uniforms
    {
      && textureMap.Shaped() && normalMap.Shaped() && roughnessMap.Shaped() && clouds.Shaped()
      && glow.Valid()
      && heightMap != moistureMap
      && Distinct(heightMap.base, moistureMap.base, textureMap.base, normalMap.base, roughnessMap.base)
      && heightMaps == heightMap.base.maps && moistureMaps == moistureMap.base.maps
      && textureMaps == textureMap.base.maps && normalMaps == normalMap.base.maps
      && roughnessMaps == roughnessMap.base.maps
      && |heightMaps| == 6 && |moistureMaps| == 6 && |textureMaps| == 6
      && |normalMaps| == 6 && |roughnessMaps| == 6
      && |materials| == 6
    }

    /** The five handles of face `i`. */
    function FaceOf(i: nat): (f: FaceMaps)
      requires i < |heightMaps| && i < |moistureMaps| && i < |textureMaps| && i < |normalMaps|
      requires i < |roughnessMaps|
      ensures f.height == heightMaps[i] && f.moisture == moistureMaps[i] && f.texture == textureMaps[i]
      ensures f.normal == normalMaps[i] && f.roughness == roughnessMaps[i]
    {
      FaceMaps(heightMaps[i], moistureMaps[i], textureMaps[i], normalMaps[i], roughnessMaps[i])
    }

    /** What lines 140-147 leave behind, given the cursor `k` at line 140, the biome painter's
        `b` draws and the state before: the seed and the water level (draws k and k + 1), the
        normal scale for the planet's resolution, the clouds at that resolution, the biome painted
        at the new water level, the clouds randomized after the biome's draws, and the atmosphere
        randomized after them with its uniforms in sync. (The clouds' `updateMaterial` at the end
        of their randomize is stated beside it, since `render` binds the materials again.) */
    ghost predicate PrefixState(s: nat -> real, k: nat, b: nat, st0: PlanetSettings, br0: seq<real>,
                                cp0: Clouds.CloudParams, ap0: Atmosphere.AtmosphereParams)
      reads this`seed, this`settings, this`resolution, biome`received, clouds`resolution, clouds`params
      reads atmosphere`params, atmosphere`uniforms, atmosphere`time
    {
      && UnitStream(s)
      && seed == Some(PlanetSeed(s, k))
      && settings == st0.(waterLevel := Draw(s, k + 1, 0.1, 0.5),
                          normalScale := NormalScaleFor(resolution, st0.normalScale))
      && biome.received == br0 + [settings.waterLevel]
      && clouds.resolution == resolution
      && clouds.params == Clouds.Randomized(cp0, s, k + 2 + b)
      && atmosphere.params == Atmosphere.Randomized(ap0, s, k + 6 + b)
      && Atmosphere.Synced(atmosphere.uniforms, atmosphere.time, atmosphere.params)
    }

    /** What lines 179-197 leave in the three derived stages, from their materials `t0`, `n0`
        and `r0` before: face `i` of the texture stage reads the height and moisture handles of
        face `i` and the biome texture, of the normal stage the height and texture handles and
        the water level, of the roughness stage the height handle and the water level; all at the
        planet's resolution. */
    ghost predicate DerivedUpdated(t0: seq<Materials.ShaderMaterial>, n0: seq<Materials.ShaderMaterial>,
                                   r0: seq<Materials.ShaderMaterial>)
      reads this`settings, this`resolution, biome`texture
      reads textureMap.base`mats, normalMap.base`mats, roughnessMap.base`mats
    {
      && |t0| == 6 && |n0| == 6 && |r0| == 6
      && |textureMap.base.mats| == 6 && |normalMap.base.mats| == 6 && |roughnessMap.base.mats| == 6
      && (forall i :: 0 <= i < 6 ==>
            textureMap.base.mats[i] == ShaderUniforms.TextureUpdated(t0[i],
              ShaderUniforms.TextureProps(resolution, heightMaps, moistureMaps, Materials.Tex(biome.texture)), i))
      && (forall i :: 0 <= i < 6 ==>
            normalMap.base.mats[i] == ShaderUniforms.NormalUpdated(n0[i],
              ShaderUniforms.NormalProps(resolution, settings.waterLevel, heightMaps, textureMaps), i))
      && (forall i :: 0 <= i < 6 ==>
            roughnessMap.base.mats[i] == ShaderUniforms.RoughnessUpdated(r0[i],
              ShaderUniforms.RoughnessProps(resolution, settings.waterLevel, heightMaps), i))
    }

    /** What lines 152-205 leave behind, given the cursor `k` at line 152 and the state before:
        the height and moisture props drawn at k and k + 5, the derived stages updated, the cloud
        map's props drawn at k + 11 with its uniforms written, the 36 face actions in stage order,
        and the one callback, which rebinds this planet. */
    ghost predicate Submitted(s: nat -> real, k: nat, q: RenderQueue.RenderQueue,
                              hr0: seq<StandIns.NoiseMapProps>, mr0: seq<StandIns.NoiseMapProps>,
                              t0: seq<Materials.ShaderMaterial>, n0: seq<Materials.ShaderMaterial>,
                              r0: seq<Materials.ShaderMaterial>, c0: seq<Materials.ShaderMaterial>,
                              qa0: seq<RenderQueue.Action>, qc0: seq<RenderQueue.Callback>)
      reads this`seed, this`settings, this`resolution, biome`texture, heightMap`received, moistureMap`received
      reads textureMap.base`mats, normalMap.base`mats, roughnessMap.base`mats
      reads clouds`seed, clouds`resolution, clouds.cloudMap.base`materials, q
    {
      && UnitStream(s) && seed.Some?
      && heightMap.received == hr0 + [HeightProps(s, k, seed.value, resolution)]
      && moistureMap.received == mr0 + [MoistureProps(s, k + 5, seed.value, resolution)]
      && DerivedUpdated(t0, n0, r0)
      && var p := Clouds.CloudProps(s, k + 11, clouds.resolution);
      && clouds.seed == Some(p.seed)
      && |c0| == 6 && |clouds.cloudMap.base.materials| == 6
      && (forall i :: 0 <= i < 6 ==>
            clouds.cloudMap.base.materials[i] == ShaderUniforms.NoiseUpdated(c0[i], p))
      && q.actions == qa0 + RenderQueue.SixActions(heightMap.base, resolution)
                          + RenderQueue.SixActions(moistureMap.base, resolution)
                          + RenderQueue.SixActions(textureMap.base, resolution)
                          + RenderQueue.SixActions(normalMap.base, resolution)
                          + RenderQueue.SixActions(roughnessMap.base, resolution)
                          + RenderQueue.SixActions(clouds.cloudMap.base, clouds.resolution)
      && q.callbacks == qc0 + [RenderQueue.RebindPlanetMaterials(this)]
    }

    /** The inner planet (biome, five stages, six white materials), then the outer shells. The
        glow shell draws its first colour here. */
    constructor (rng: Rng)
      requires rng.Valid()
      modifies rng
      ensures Valid()
      ensures resolution == 1024 && settings == InitialSettings() && seed == None
      ensures forall i :: 0 <= i < 6 ==> materials[i] == WhiteStandardMaterial()
      ensures heightMap.received == [] && moistureMap.received == []
      ensures rng.cursor == old(rng.cursor) + 3
      ensures glow.color == Glow.RawColor(rng.stream, old(rng.cursor)) && glow.uniforms == Glow.InitialUniforms()
      ensures clouds.params == Clouds.InitialParams() && clouds.seed == None
      ensures atmosphere.params == Atmosphere.InitialParams()
    {
      resolution := 1024;
      settings := InitialSettings();
      seed := None;
      var b := new StandIns.Biome();
      var hm, mm, tm, nm, rm := NewStages();
      var ms := WhiteMaterials();
      var cl, gl, at := NewShells(rng);
      biome, heightMap, moistureMap := b, hm, mm;
      textureMap, normalMap, roughnessMap := tm, nm, rm;
      heightMaps, moistureMaps, textureMaps := hm.base.maps, mm.base.maps, tm.base.maps;
      normalMaps, roughnessMaps := nm.base.maps, rm.base.maps;
      materials := ms;
      clouds, glow, atmosphere := cl, gl, at;
    }

    /** `updateMaterial()`, also what the registered callback runs: every face rebinds to its
        own five handles under the current settings. */
    method UpdateMaterial()
      requires Valid()
      modifies this`materials
      ensures Valid()
      ensures forall i :: 0 <= i < 6 ==> materials[i] == Rebind(old(materials[i]), settings, FaceOf(i))
    {
      materials := RebindAll(materials, settings, heightMaps, moistureMaps, textureMaps, normalMaps,
                             roughnessMaps);
    }

    /** `updateNormalScaleForRes(value)`: five independent checks against the known resolutions. */
    method UpdateNormalScaleForRes(value: int)
      modifies this`settings
      ensures settings == old(settings).(normalScale := NormalScaleFor(value, old(settings.normalScale)))
    {
      if value == 256 { settings := settings.(normalScale := 0.25); }
      if value == 512 { settings := settings.(normalScale := 0.5); }
      if value == 1024 { settings := settings.(normalScale := 1.0); }
      if value == 2048 { settings := settings.(normalScale := 1.5); }
      if value == 4096 { settings := settings.(normalScale := 3.0); }
    }

    /** Lines 140-143: the planet seed and the water level (two draws), the clouds take the
        planet's resolution, and the normal scale follows it. */
    method RandomizePlanet(rng: Rng)
      requires Valid() && rng.Valid()
      modifies this`seed, this`settings, clouds`resolution, rng
      ensures Valid()
      ensures seed == Some(PlanetSeed(rng.stream, old(rng.cursor)))
      ensures settings == old(settings).(waterLevel := Draw(rng.stream, old(rng.cursor) + 1, 0.1, 0.5),
                                         normalScale := NormalScaleFor(resolution, old(settings.normalScale)))
      ensures clouds.resolution == resolution
      ensures rng.cursor == old(rng.cursor) + 2
    {
      var r := rng.RandRange(0.0, 1.0);
      seed := Some(r * 1000.0);
      var waterLevel := rng.RandRange(0.1, 0.5);
      settings := settings.(waterLevel := waterLevel);
      clouds.resolution := resolution;
      UpdateNormalScaleForRes(resolution);
    }

    /** Lines 145-147: the biome painting at the new water level (its draws are not followed),
        then the clouds' four draws and the atmosphere's eight. */
    method RandomizeShells(rng: Rng, biomeDraws: nat)
      requires Valid() && rng.Valid()
      modifies biome, clouds`params, clouds`materials, atmosphere`params, atmosphere`uniforms, rng
      ensures Valid()
      ensures biome.received == old(biome.received) + [settings.waterLevel] && fresh(biome.texture)
      ensures var k := old(rng.cursor) + biomeDraws;
              && clouds.params == Clouds.Randomized(old(clouds.params), rng.stream, k)
              && atmosphere.params == Atmosphere.Randomized(old(atmosphere.params), rng.stream, k + 4)
              && rng.cursor == k + 12
      ensures forall i :: 0 <= i < 6 ==>
                clouds.materials[i] == Clouds.Bound(old(clouds.materials[i]), clouds.params, clouds.cloudMaps[i])
      ensures Atmosphere.Synced(atmosphere.uniforms, atmosphere.time, atmosphere.params)
    {
      biome.GenerateTexture(settings.waterLevel, rng, biomeDraws);
      clouds.Randomize(rng);
      atmosphere.Randomize(rng);
    }

    /** Lines 140-147: the planet's draws, then the shells'; 14 draws besides the biome's. */
    method RandomizePrefix(rng: Rng, biomeDraws: nat)
      requires Valid() && rng.Valid()
      modifies this`seed, this`settings, biome, clouds`resolution, clouds`params, clouds`materials
      modifies atmosphere`params, atmosphere`uniforms, rng
      ensures Valid()
      ensures PrefixState(rng.stream, old(rng.cursor), biomeDraws, old(settings), old(biome.received),
                          old(clouds.params), old(atmosphere.params))
      ensures forall i :: 0 <= i < 6 ==>
                clouds.materials[i] == Clouds.Bound(old(clouds.materials[i]), clouds.params, clouds.cloudMaps[i])
      ensures fresh(biome.texture)
      ensures rng.cursor == old(rng.cursor) + 14 + biomeDraws
    {
      RandomizePlanet(rng);
      RandomizeShells(rng, biomeDraws);
    }

    /** `renderScene()` as written: after the planet and the shells are randomized,
        `this.atmosphereRing.randomize()` (line 149) throws, because `AtmosphereRing` defines no
        such method. Nothing reaches the render queue and the glow is not randomized. */
    method RenderScene(rng: Rng, biomeDraws: nat, q: RenderQueue.RenderQueue) returns (o: Outcome)
      requires Valid() && rng.Valid()
      modifies this`seed, this`settings, biome, clouds`resolution, clouds`params, clouds`materials
      modifies atmosphere`params, atmosphere`uniforms, rng
      ensures Valid()
      ensures o.Fail?
      ensures PrefixState(rng.stream, old(rng.cursor), biomeDraws, old(settings), old(biome.received),
                          old(clouds.params), old(atmosphere.params))
      ensures forall i :: 0 <= i < 6 ==>
                clouds.materials[i] == Clouds.Bound(old(clouds.materials[i]), clouds.params, clouds.cloudMaps[i])
      ensures fresh(biome.texture)
      ensures rng.cursor == old(rng.cursor) + 14 + biomeDraws
      ensures glow.color == old(glow.color) && glow.uniforms == old(glow.uniforms)
      ensures q.actions == old(q.actions) && q.callbacks == old(q.callbacks)
    {
      RandomizePrefix(rng, biomeDraws);
      o := Invoke(AtmosphereRingMethods, "randomize");
    }

    /** The randomize prefix with the ring left alone (it has nothing to randomize) and the glow
        writing the colour uniform it declares: 17 draws besides the biome's. */
    method RandomizeCorrected(rng: Rng, biomeDraws: nat)
      requires Valid() && rng.Valid()
      modifies this`seed, this`settings, biome, clouds`resolution, clouds`params, clouds`materials
      modifies atmosphere`params, atmosphere`uniforms, glow`color, glow`uniforms, rng
      ensures Valid()
      ensures PrefixState(rng.stream, old(rng.cursor), biomeDraws, old(settings), old(biome.received),
                          old(clouds.params), old(atmosphere.params))
      ensures forall i :: 0 <= i < 6 ==>
                clouds.materials[i] == Clouds.Bound(old(clouds.materials[i]), clouds.params, clouds.cloudMaps[i])
      ensures fresh(biome.texture)
      ensures glow.color == Glow.RawColor(rng.stream, old(rng.cursor) + 14 + biomeDraws)
      ensures glow.uniforms == old(glow.uniforms)["glowColor" := Glow.Tint(glow.color)]
      ensures rng.cursor == old(rng.cursor) + 17 + biomeDraws
    {
      RandomizePrefix(rng, biomeDraws);
      glow.RandomizeCorrected(rng);
    }

    /** Lines 152-177: the height map, then `resMod`, then the moisture map; eleven draws. */
    method SubmitNoiseStages(rng: Rng, q: RenderQueue.RenderQueue)
      requires Valid() && rng.Valid() && seed.Some?
      modifies heightMap`received, moistureMap`received, rng, q
      ensures Valid()
      ensures heightMap.received == old(heightMap.received) + [HeightProps(rng.stream, old(rng.cursor), seed.value, resolution)]
      ensures moistureMap.received == old(moistureMap.received) + [MoistureProps(rng.stream, old(rng.cursor) + 5, seed.value, resolution)]
      ensures rng.cursor == old(rng.cursor) + 11
      ensures q.actions == old(q.actions) + RenderQueue.SixActions(heightMap.base, resolution)
                                          + RenderQueue.SixActions(moistureMap.base, resolution)
      ensures q.callbacks == old(q.callbacks)
    {
      var hp := DrawHeightProps(rng, seed.value, resolution);
      heightMap.Render(hp, q);
      var mp := DrawMoistureProps(rng, seed.value, resolution);
      moistureMap.Render(mp, q);
    }

    /** Lines 179-197: the texture stage reads the height and moisture handles and the biome
        texture; the normal stage the height and texture handles and the water level; the
        roughness stage the height handles and the water level. No draws. */
    method SubmitDerivedStages(q: RenderQueue.RenderQueue)
      requires Valid()
      modifies textureMap.base`mats, normalMap.base`mats, roughnessMap.base`mats, q
      ensures Valid()
      ensures DerivedUpdated(old(textureMap.base.mats), old(normalMap.base.mats), old(roughnessMap.base.mats))
      ensures q.actions == old(q.actions) + RenderQueue.SixActions(textureMap.base, resolution)
                                          + RenderQueue.SixActions(normalMap.base, resolution)
                                          + RenderQueue.SixActions(roughnessMap.base, resolution)
      ensures q.callbacks == old(q.callbacks)
    {
      textureMap.Render(ShaderUniforms.TextureProps(resolution, heightMaps, moistureMaps,
                                                    Materials.Tex(biome.texture)), q);
      normalMap.Render(ShaderUniforms.NormalProps(resolution, settings.waterLevel, heightMaps, textureMaps), q);
      roughnessMap.Render(ShaderUniforms.RoughnessProps(resolution, settings.waterLevel, heightMaps), q);
    }

    /** Lines 152-197: the five inner stages in dependency order, 30 face actions, 11 draws. */
    method SubmitInnerStages(rng: Rng, q: RenderQueue.RenderQueue)
      requires Valid() && rng.Valid() && seed.Some?
      modifies heightMap`received, moistureMap`received
      modifies textureMap.base`mats, normalMap.base`mats, roughnessMap.base`mats, rng, q
      ensures Valid()
      ensures heightMap.received == old(heightMap.received) + [HeightProps(rng.stream, old(rng.cursor), seed.value, resolution)]
      ensures moistureMap.received == old(moistureMap.received) + [MoistureProps(rng.stream, old(rng.cursor) + 5, seed.value, resolution)]
      ensures rng.cursor == old(rng.cursor) + 11
      ensures DerivedUpdated(old(textureMap.base.mats), old(normalMap.base.mats), old(roughnessMap.base.mats))
      ensures q.actions == old(q.actions) + RenderQueue.SixActions(heightMap.base, resolution)
                                          + RenderQueue.SixActions(moistureMap.base, resolution)
                                          + RenderQueue.SixActions(textureMap.base, resolution)
                                          + RenderQueue.SixActions(normalMap.base, resolution)
                                          + RenderQueue.SixActions(roughnessMap.base, resolution)
      ensures q.callbacks == old(q.callbacks)
    {
      SubmitNoiseStages(rng, q);
      SubmitDerivedStages(q);
    }

    /** Lines 152-205: the six stages in dependency order, 36 face actions in all, then exactly
        one callback, which rebinds this planet's materials. Sixteen draws. */
    method SubmitStages(rng: Rng, q: RenderQueue.RenderQueue)
      requires Valid() && rng.Valid() && seed.Some?
      modifies heightMap`received, moistureMap`received
      modifies textureMap.base`mats, normalMap.base`mats, roughnessMap.base`mats
      modifies clouds`seed, clouds`materials, clouds.cloudMap.base`materials, rng, q
      ensures Valid()
      ensures Submitted(rng.stream, old(rng.cursor), q, old(heightMap.received), old(moistureMap.received),
                        old(textureMap.base.mats), old(normalMap.base.mats), old(roughnessMap.base.mats),
                        old(clouds.cloudMap.base.materials), old(q.actions), old(q.callbacks))
      ensures seed == old(seed)
      ensures rng.cursor == old(rng.cursor) + 16
      ensures forall i :: 0 <= i < 6 ==>
                clouds.materials[i] == Clouds.Bound(old(clouds.materials[i]), clouds.params, clouds.cloudMaps[i])
      ensures |q.actions| == |old(q.actions)| + 36
    {
      SubmitInnerStages(rng, q);
      ghost var k1, c1 := rng.cursor, clouds.cloudMap.base.materials;
      SubmitCloudStage(rng, q);
      CloudPropsShifted(rng.stream, old(rng.cursor), k1, clouds.resolution, c1, clouds.cloudMap.base.materials, clouds.seed);
    }

    /** Lines 199-205: the clouds render their map from five fresh draws, then the callback that
        rebinds the planet's materials is queued. */
    method SubmitCloudStage(rng: Rng, q: RenderQueue.RenderQueue)
      requires Valid() && rng.Valid()
      modifies clouds`seed, clouds`materials, clouds.cloudMap.base`materials, rng, q
      ensures Valid()
      ensures var p := Clouds.CloudProps(rng.stream, old(rng.cursor), clouds.resolution);
              && clouds.seed == Some(p.seed)
              && (forall i :: 0 <= i < 6 ==>
                    clouds.cloudMap.base.materials[i] == ShaderUniforms.NoiseUpdated(old(clouds.cloudMap.base.materials[i]), p))
      ensures rng.cursor == old(rng.cursor) + 5
      ensures forall i :: 0 <= i < 6 ==>
                clouds.materials[i] == Clouds.Bound(old(clouds.materials[i]), clouds.params, clouds.cloudMaps[i])
      ensures q.actions == old(q.actions) + RenderQueue.SixActions(clouds.cloudMap.base, clouds.resolution)
      ensures q.callbacks == old(q.callbacks) + [RenderQueue.RebindPlanetMaterials(this)]
    {
      clouds.Render(settings.waterLevel, rng, q);
      q.AddCallback(RenderQueue.RebindPlanetMaterials(this));
    }

    /** `renderScene()` with the corrected prefix: it reaches the stage submission. */
    method RenderSceneCorrected(rng: Rng, biomeDraws: nat, q: RenderQueue.RenderQueue)
      requires Valid() && rng.Valid()
      modifies this`seed, this`settings, biome, clouds`resolution, clouds`params, clouds`seed
      modifies clouds`materials, clouds.cloudMap.base`materials
      modifies atmosphere`params, atmosphere`uniforms, glow`color, glow`uniforms
      modifies heightMap`received, moistureMap`received
      modifies textureMap.base`mats, normalMap.base`mats, roughnessMap.base`mats, rng, q
      ensures Valid()
      ensures seed == Some(PlanetSeed(rng.stream, old(rng.cursor)))
      ensures heightMap.received == old(heightMap.received)
                                    + [HeightProps(rng.stream, old(rng.cursor) + 17 + biomeDraws, seed.value, resolution)]
      ensures moistureMap.received == old(moistureMap.received)
                                      + [MoistureProps(rng.stream, old(rng.cursor) + 22 + biomeDraws, seed.value, resolution)]
      ensures rng.cursor == old(rng.cursor) + 33 + biomeDraws
      ensures |q.actions| == |old(q.actions)| + 36
      ensures q.callbacks == old(q.callbacks) + [RenderQueue.RebindPlanetMaterials(this)]
    {
      RandomizeCorrected(rng, biomeDraws);
      ghost var k1 := rng.cursor;
      SubmitStages(rng, q);
      PropsShifted(rng.stream, old(rng.cursor), biomeDraws, k1, old(heightMap.received), heightMap.received,
                   old(moistureMap.received), moistureMap.received, seed.value, resolution);
    }
  }
}
