/**
 * The five uniform layouts of the map shaders, each as: the keys its `setupMaterials` declares,
 * the material it builds for face `i`, the props its `updateMaterial(s)` reads, and the material
 * face `i` holds after that update.
 *
 *   noise     (cloudMap.frag)      CloudEnvMap
 *   nebula    (nebula.frag)        NebulaMap
 *   texture   (textureMap.frag)    TextureEnvMap, TextureMap
 *   normal    (normalMap.frag)     NormalEnvMap, NormalMap
 *   roughness (roughnessMap.frag)  RoughnessEnvMap, RoughnessMap
 */
module ShaderUniforms {
  import opened Three
  import opened Materials

  // ---------------------------------------------------------------- noise

  /** The props of a noise render: `seed`, `resolution`, `res1`, `res2`, `resMix`, `mixScale`. */
  datatype NoiseProps = NoiseProps(seed: real, resolution: int, res1: real, res2: real,
                                   resMix: real, mixScale: real)

  const NoiseKeys: set<Key> := {Index, Seed, Resolution, Res1, Res2, ResMix, MixScale}

  /** The noise uniforms every face receives alike (all but `index`). */
  const NoiseShared: set<Key> := {Seed, Resolution, Res1, Res2, ResMix, MixScale}

  /** Face `i` as set up: `index` = i, every other uniform 0. */
  function NoiseMaterial(i: int): ShaderMaterial
  {
    NewShaderMaterial(map[Index := I(i), Seed := F(0.0), Resolution := F(0.0), Res1 := F(0.0),
                          Res2 := F(0.0), ResMix := F(0.0), MixScale := F(0.0)])
  }

  /** The value the noise update gives the shared uniform `k`: the prop of the same name. */
  function NoiseValue(p: NoiseProps, k: Key): Uniform
  {
    match k
    case Seed => F(p.seed)
    case Resolution => F(p.resolution as real)
    case Res1 => F(p.res1)
    case Res2 => F(p.res2)
    case ResMix => F(p.resMix)
    case MixScale => F(p.mixScale)
    case _ => F(0.0)
  }

  /** The six uniform writes of the noise update, in source order. */
  function NoiseWrites(m: ShaderMaterial, p: NoiseProps): ShaderMaterial
  {
    var m1 := Write(m, Seed, F(p.seed));
    var m2 := Write(m1, Resolution, F(p.resolution as real));
    var m3 := Write(m2, Res1, F(p.res1));
    var m4 := Write(m3, Res2, F(p.res2));
    var m5 := Write(m4, ResMix, F(p.resMix));
    Write(m5, MixScale, F(p.mixScale))
  }

  /** One face after the noise update: the six writes, then `needsUpdate`. */
  function NoiseUpdated(m: ShaderMaterial, p: NoiseProps): ShaderMaterial
  {
    Touch(NoiseWrites(m, p))
  }

  lemma NoiseMaterialShape(i: int)
    ensures NoiseMaterial(i).uniforms.Keys == NoiseKeys
    ensures NoiseMaterial(i).uniforms[Index] == I(i)
    ensures forall k :: k in NoiseShared ==> NoiseMaterial(i).uniforms[k] == F(0.0)
    ensures NoiseMaterial(i).transparent && !NoiseMaterial(i).depthWrite
  {
  }

  /** The noise writes give every shared uniform its prop, keep any other uniform, and add no key
      to a material that already declares the noise keys. */
  lemma NoiseWritesSpec(m: ShaderMaterial, p: NoiseProps)
    ensures NoiseShared <= NoiseWrites(m, p).uniforms.Keys
    ensures forall k :: k in NoiseShared ==> NoiseWrites(m, p).uniforms[k] == NoiseValue(p, k)
    ensures forall k :: k in m.uniforms && k !in NoiseShared ==>
              k in NoiseWrites(m, p).uniforms && NoiseWrites(m, p).uniforms[k] == m.uniforms[k]
    ensures NoiseShared <= m.uniforms.Keys ==> NoiseWrites(m, p).uniforms.Keys == m.uniforms.Keys
    ensures NoiseWrites(m, p).needsUpdate == m.needsUpdate
  {
  }

  lemma NoiseUpdatedSpec(m: ShaderMaterial, p: NoiseProps)
    ensures forall k :: k in NoiseShared ==> NoiseUpdated(m, p).uniforms[k] == NoiseValue(p, k)
    ensures Index in m.uniforms ==> NoiseUpdated(m, p).uniforms[Index] == m.uniforms[Index]
    ensures NoiseKeys <= m.uniforms.Keys ==> NoiseUpdated(m, p).uniforms.Keys == m.uniforms.Keys
    ensures NoiseUpdated(m, p).needsUpdate
  {
    NoiseWritesSpec(m, p);
  }

  /** The noise setup (`CloudEnvMap.setupMaterials`): six noise materials, material `i` with `index` = i and every other
      uniform 0. */
  method SetupNoiseMaterials() returns (ms: seq<ShaderMaterial>)
    ensures |ms| == 6 && HaveKeys(ms, NoiseKeys)
    ensures forall i :: 0 <= i < 6 ==> ms[i] == NoiseMaterial(i) && ms[i].uniforms[Index] == I(i)
    ensures forall k :: k in NoiseShared ==> Agree(ms, k)
    ensures forall i, k :: 0 <= i < 6 && k in NoiseShared ==> ms[i].uniforms[k] == F(0.0)
  {
    ms := [];
    for i := 0 to 6
      invariant |ms| == i
      invariant forall j :: 0 <= j < i ==> ms[j] == NoiseMaterial(j)
    {
      ms := ms + [NoiseMaterial(i)];
    }
    forall i | 0 <= i < 6 {
      NoiseMaterialShape(i);
    }
  }

  /** After the noise update of `before`: every face holds the props' value in each shared
      uniform, faces agree on all of them, keep their `index`, and need an update. */
  lemma NoiseFaces(before: seq<ShaderMaterial>, after: seq<ShaderMaterial>, p: NoiseProps)
    requires |before| == |after| && HaveKeys(before, NoiseKeys)
    requires forall i :: 0 <= i < |after| ==> after[i] == NoiseUpdated(before[i], p)
    ensures HaveKeys(after, NoiseKeys) && AllNeedUpdate(after)
    ensures forall i, k :: 0 <= i < |after| && k in NoiseShared ==> after[i].uniforms[k] == NoiseValue(p, k)
    ensures forall k :: k in NoiseShared ==> Agree(after, k)
    ensures forall i :: 0 <= i < |after| ==> after[i].uniforms[Index] == before[i].uniforms[Index]
  {
    forall i | 0 <= i < |after| {
      NoiseUpdatedSpec(before[i], p);
    }
  }

  // ---------------------------------------------------------------- nebula

  /** The props of a nebula render: the noise props plus the gradient `nebulaeMap`. */
  datatype NebulaProps = NebulaProps(noise: NoiseProps, nebulaeMap: TexRef)

  const NebulaKeys: set<Key> := NoiseKeys + {NebulaeMap}

  /** The `settings` record the nebula and star shells keep: speed, the four noise scales drawn
      at construction, and opacity. */
  datatype SkySettings = SkySettings(speed: real, res1: real, res2: real, resMix: real,
                                     mixScale: real, opacity: real)

  /** The props a sky shell's `render` hands its map: the seed, the resolution, the stored noise
      scales and the caller's `nebulaeMap`, unchanged. */
  function SkyProps(st: SkySettings, seed: real, resolution: int, nebulaeMap: TexRef): (p: NebulaProps)
    ensures p.noise.seed == seed && p.noise.resolution == resolution && p.nebulaeMap == nebulaeMap
    ensures p.noise.res1 == st.res1 && p.noise.res2 == st.res2
    ensures p.noise.resMix == st.resMix && p.noise.mixScale == st.mixScale
  {
    NebulaProps(NoiseProps(seed, resolution, st.res1, st.res2, st.resMix, st.mixScale), nebulaeMap)
  }

  /** Face `i` as set up: the noise layout plus a blank `nebulaeMap`. */
  function NebulaMaterial(i: int): ShaderMaterial
  {
    NoiseMaterial(i).(uniforms := NoiseMaterial(i).uniforms[NebulaeMap := T(Blank)])
  }

  /** One face after the nebula update: the noise writes, `nebulaeMap`, then `needsUpdate`. */
  function NebulaUpdated(m: ShaderMaterial, p: NebulaProps): ShaderMaterial
  {
    Touch(Write(NoiseWrites(m, p.noise), NebulaeMap, T(p.nebulaeMap)))
  }

  lemma NebulaMaterialShape(i: int)
    ensures NebulaMaterial(i).uniforms.Keys == NebulaKeys
    ensures NebulaMaterial(i).uniforms[Index] == I(i)
    ensures forall k :: k in NoiseShared ==> NebulaMaterial(i).uniforms[k] == F(0.0)
    ensures NebulaMaterial(i).uniforms[NebulaeMap] == T(Blank)
  {
    NoiseMaterialShape(i);
  }

  lemma NebulaUpdatedSpec(m: ShaderMaterial, p: NebulaProps)
    ensures forall k :: k in NoiseShared ==> NebulaUpdated(m, p).uniforms[k] == NoiseValue(p.noise, k)
    ensures NebulaUpdated(m, p).uniforms[NebulaeMap] == T(p.nebulaeMap)
    ensures Index in m.uniforms ==> NebulaUpdated(m, p).uniforms[Index] == m.uniforms[Index]
    ensures NebulaKeys <= m.uniforms.Keys ==> NebulaUpdated(m, p).uniforms.Keys == m.uniforms.Keys
    ensures NebulaUpdated(m, p).needsUpdate
  {
    var w := NoiseWrites(m, p.noise);
    NoiseWritesSpec(m, p.noise);
    var r := Write(w, NebulaeMap, T(p.nebulaeMap));
    assert NebulaUpdated(m, p) == Touch(r);
    assert NebulaeMap !in NoiseShared;
    if NebulaKeys <= m.uniforms.Keys {
      assert w.uniforms.Keys == m.uniforms.Keys;
      assert NebulaeMap in w.uniforms;
    }
  }

  /** Writing the same props twice leaves what writing them once leaves. */
  lemma NebulaUpdatedIdempotent(m: ShaderMaterial, p: NebulaProps)
    ensures NebulaUpdated(NebulaUpdated(m, p), p) == NebulaUpdated(m, p)
  {
    var once := NebulaUpdated(m, p);
    NebulaUpdatedSpec(m, p);
    NebulaUpdatedSpec(once, p);
    NoiseWritesSpec(m, p.noise);
    NoiseWritesSpec(once, p.noise);
    SameUniforms(NebulaUpdated(once, p).uniforms, once.uniforms);
  }

  /** The nebula setup: six materials, material `i` with `index` = i, the other numbers 0 and a
      blank `nebulaeMap`. */
  method SetupNebulaMaterials() returns (ms: seq<ShaderMaterial>)
    ensures |ms| == 6 && HaveKeys(ms, NebulaKeys)
    ensures forall i :: 0 <= i < 6 ==> ms[i] == NebulaMaterial(i) && ms[i].uniforms[Index] == I(i)
    ensures forall i, k :: 0 <= i < 6 && k in NoiseShared ==> ms[i].uniforms[k] == F(0.0)
    ensures forall i :: 0 <= i < 6 ==> ms[i].uniforms[NebulaeMap] == T(Blank)
  {
    ms := [];
    for i := 0 to 6
      invariant |ms| == i
      invariant forall j :: 0 <= j < i ==> ms[j] == NebulaMaterial(j)
    {
      ms := ms + [NebulaMaterial(i)];
    }
    forall i | 0 <= i < 6 {
      NebulaMaterialShape(i);
    }
  }

  /** After the nebula update of `before`: every face holds the props' noise values and
      `nebulaeMap`, faces agree on all seven, keep their `index`, and need an update. */
  lemma NebulaFaces(before: seq<ShaderMaterial>, after: seq<ShaderMaterial>, p: NebulaProps)
    requires |before| == |after| && HaveKeys(before, NebulaKeys)
    requires forall i :: 0 <= i < |after| ==> after[i] == NebulaUpdated(before[i], p)
    ensures HaveKeys(after, NebulaKeys) && AllNeedUpdate(after)
    ensures forall i, k :: 0 <= i < |after| && k in NoiseShared ==> after[i].uniforms[k] == NoiseValue(p.noise, k)
    ensures forall i :: 0 <= i < |after| ==> after[i].uniforms[NebulaeMap] == T(p.nebulaeMap)
    ensures forall k :: k in NoiseShared ==> Agree(after, k)
    ensures Agree(after, NebulaeMap)
    ensures forall i :: 0 <= i < |after| ==> after[i].uniforms[Index] == before[i].uniforms[Index]
  {
    forall i | 0 <= i < |after| {
      NebulaUpdatedSpec(before[i], p);
    }
  }

  // ---------------------------------------------------------------- texture

  /** The props of a texture render: `resolution`, `heightMaps[]`, `moistureMaps[]`, `biomeMap`. */
  datatype TextureProps = TextureProps(resolution: int, heightMaps: seq<Texture>,
                                       moistureMaps: seq<Texture>, biomeMap: TexRef)


  const TextureKeys: set<Key> := {BiomeMap, HeightMap, MoistureMap}

  /** Every face as set up: three blank textures. */
  function TextureMaterial(): ShaderMaterial
  {
    NewShaderMaterial(map[BiomeMap := T(Blank), HeightMap := T(Blank), MoistureMap := T(Blank)])
  }

  /** Face `i` after the texture update. */
  function TextureUpdated(m: ShaderMaterial, p: TextureProps, i: nat): ShaderMaterial
  {
    var m1 := Write(m, HeightMap, T(At(p.heightMaps, i)));
    var m2 := Write(m1, MoistureMap, T(At(p.moistureMaps, i)));
    Touch(Write(m2, BiomeMap, T(p.biomeMap)))
  }

  lemma TextureMaterialShape()
    ensures TextureMaterial().uniforms.Keys == TextureKeys
    ensures forall k :: k in TextureKeys ==> TextureMaterial().uniforms[k] == T(Blank)
  {
  }

  /** Face `i` reads entry `i` of the height and moisture arrays and the one shared biome map. */
  lemma TextureUpdatedSpec(m: ShaderMaterial, p: TextureProps, i: nat)
    ensures TextureUpdated(m, p, i).uniforms[HeightMap] == T(At(p.heightMaps, i))
    ensures TextureUpdated(m, p, i).uniforms[MoistureMap] == T(At(p.moistureMaps, i))
    ensures TextureUpdated(m, p, i).uniforms[BiomeMap] == T(p.biomeMap)
    ensures TextureKeys <= m.uniforms.Keys ==> TextureUpdated(m, p, i).uniforms.Keys == m.uniforms.Keys
    ensures TextureUpdated(m, p, i).needsUpdate
  {
  }

  /** No uniform of the texture layout receives `props.resolution`. */
  lemma TextureIgnoresResolution(m: ShaderMaterial, p: TextureProps, i: nat, resolution: int)
    ensures TextureUpdated(m, p.(resolution := resolution), i) == TextureUpdated(m, p, i)
  {
  }

  lemma TextureUpdatedIdempotent(m: ShaderMaterial, p: TextureProps, i: nat)
    ensures TextureUpdated(TextureUpdated(m, p, i), p, i) == TextureUpdated(m, p, i)
  {
  }

  /** The texture setup: six materials with blank `biomeMap`, `heightMap` and `moistureMap`. */
  method SetupTextureMaterials() returns (ms: seq<ShaderMaterial>)
    ensures |ms| == 6 && HaveKeys(ms, TextureKeys)
    ensures forall i :: 0 <= i < 6 ==> ms[i] == TextureMaterial()
    ensures forall i, k :: 0 <= i < 6 && k in TextureKeys ==> ms[i].uniforms[k] == T(Blank)
  {
    ms := [];
    for i := 0 to 6
      invariant |ms| == i
      invariant forall j :: 0 <= j < i ==> ms[j] == TextureMaterial()
    {
      ms := ms + [TextureMaterial()];
    }
    TextureMaterialShape();
  }

  /** After the texture update of `before`: face `i` holds `heightMaps[i]` and `moistureMaps[i]`,
      all faces hold the same `biomeMap`, and every face needs an update. */
  lemma TextureFaces(before: seq<ShaderMaterial>, after: seq<ShaderMaterial>, p: TextureProps)
    requires |before| == |after| && HaveKeys(before, TextureKeys)
    requires forall i :: 0 <= i < |after| ==> after[i] == TextureUpdated(before[i], p, i)
    ensures HaveKeys(after, TextureKeys) && AllNeedUpdate(after)
    ensures forall i :: 0 <= i < |after| ==>
              && after[i].uniforms[HeightMap] == T(At(p.heightMaps, i))
              && after[i].uniforms[MoistureMap] == T(At(p.moistureMaps, i))
              && after[i].uniforms[BiomeMap] == T(p.biomeMap)
    ensures Agree(after, BiomeMap)
  {
    forall i | 0 <= i < |after| {
      TextureUpdatedSpec(before[i], p, i);
    }
  }

  // ---------------------------------------------------------------- normal

  /** The props of a normal render: `resolution`, `waterLevel`, `heightMaps[]`, `textureMaps[]`. */
  datatype NormalProps = NormalProps(resolution: int, waterLevel: real, heightMaps: seq<Texture>,
                                     textureMaps: seq<Texture>)

  const NormalKeys: set<Key> := {Resolution, WaterLevel, HeightMap, TextureMap}

  /** Every face as set up: numbers 0, textures blank. */
  function NormalMaterial(): ShaderMaterial
  {
    NewShaderMaterial(map[Resolution := F(0.0), WaterLevel := F(0.0), HeightMap := T(Blank),
                          TextureMap := T(Blank)])
  }

  /** Face `i` after the normal update. */
  function NormalUpdated(m: ShaderMaterial, p: NormalProps, i: nat): ShaderMaterial
  {
    var m1 := Write(m, Resolution, F(p.resolution as real));
    var m2 := Write(m1, WaterLevel, F(p.waterLevel));
    var m3 := Write(m2, HeightMap, T(At(p.heightMaps, i)));
    Touch(Write(m3, TextureMap, T(At(p.textureMaps, i))))
  }

  lemma NormalMaterialShape()
    ensures NormalMaterial().uniforms.Keys == NormalKeys
    ensures NormalMaterial().uniforms[Resolution] == F(0.0) && NormalMaterial().uniforms[WaterLevel] == F(0.0)
    ensures NormalMaterial().uniforms[HeightMap] == T(Blank) && NormalMaterial().uniforms[TextureMap] == T(Blank)
  {
  }

  /** Face `i` gets the shared resolution and water level and entry `i` of both arrays. */
  lemma NormalUpdatedSpec(m: ShaderMaterial, p: NormalProps, i: nat)
    ensures NormalUpdated(m, p, i).uniforms[Resolution] == F(p.resolution as real)
    ensures NormalUpdated(m, p, i).uniforms[WaterLevel] == F(p.waterLevel)
    ensures NormalUpdated(m, p, i).uniforms[HeightMap] == T(At(p.heightMaps, i))
    ensures NormalUpdated(m, p, i).uniforms[TextureMap] == T(At(p.textureMaps, i))
    ensures NormalKeys <= m.uniforms.Keys ==> NormalUpdated(m, p, i).uniforms.Keys == m.uniforms.Keys
    ensures NormalUpdated(m, p, i).needsUpdate
  {
  }

  lemma NormalUpdatedIdempotent(m: ShaderMaterial, p: NormalProps, i: nat)
    ensures NormalUpdated(NormalUpdated(m, p, i), p, i) == NormalUpdated(m, p, i)
  {
    var once := NormalUpdated(m, p, i);
    SameUniforms(NormalUpdated(once, p, i).uniforms, once.uniforms);
  }

  /** The normal setup: six materials with `resolution` and `waterLevel` 0 and blank
      `heightMap` and `textureMap`. */
  method SetupNormalMaterials() returns (ms: seq<ShaderMaterial>)
    ensures |ms| == 6 && HaveKeys(ms, NormalKeys)
    ensures forall i :: 0 <= i < 6 ==> ms[i] == NormalMaterial()
    ensures Agree(ms, Resolution) && Agree(ms, WaterLevel)
  {
    ms := [];
    for i := 0 to 6
      invariant |ms| == i
      invariant forall j :: 0 <= j < i ==> ms[j] == NormalMaterial()
    {
      ms := ms + [NormalMaterial()];
    }
    NormalMaterialShape();
  }

  /** After the normal update of `before`: every face holds the props' `resolution` and
      `waterLevel`, face `i` holds `heightMaps[i]` and `textureMaps[i]`, and every face needs an
      update. */
  lemma NormalFaces(before: seq<ShaderMaterial>, after: seq<ShaderMaterial>, p: NormalProps)
    requires |before| == |after| && HaveKeys(before, NormalKeys)
    requires forall i :: 0 <= i < |after| ==> after[i] == NormalUpdated(before[i], p, i)
    ensures HaveKeys(after, NormalKeys) && AllNeedUpdate(after)
    ensures forall i :: 0 <= i < |after| ==>
              && after[i].uniforms[Resolution] == F(p.resolution as real)
              && after[i].uniforms[WaterLevel] == F(p.waterLevel)
              && after[i].uniforms[HeightMap] == T(At(p.heightMaps, i))
              && after[i].uniforms[TextureMap] == T(At(p.textureMaps, i))
    ensures Agree(after, Resolution) && Agree(after, WaterLevel)
  {
    forall i | 0 <= i < |after| {
      NormalUpdatedSpec(before[i], p, i);
    }
  }

  // ---------------------------------------------------------------- roughness

  /** The props of a roughness render: `resolution`, `waterLevel`, `heightMaps[]`. */
  datatype RoughnessProps = RoughnessProps(resolution: int, waterLevel: real, heightMaps: seq<Texture>)

  const RoughnessKeys: set<Key> := {Resolution, WaterLevel, HeightMap}

  /** Every face as set up. */
  function RoughnessMaterial(): ShaderMaterial
  {
    NewShaderMaterial(map[Resolution := F(0.0), WaterLevel := F(0.0), HeightMap := T(Blank)])
  }

  /** Face `i` after the roughness update. */
  function RoughnessUpdated(m: ShaderMaterial, p: RoughnessProps, i: nat): ShaderMaterial
  {
    var m1 := Write(m, Resolution, F(p.resolution as real));
    var m2 := Write(m1, WaterLevel, F(p.waterLevel));
    Touch(Write(m2, HeightMap, T(At(p.heightMaps, i))))
  }

  lemma RoughnessMaterialShape()
    ensures RoughnessMaterial().uniforms.Keys == RoughnessKeys
    ensures RoughnessMaterial().uniforms[Resolution] == F(0.0) && RoughnessMaterial().uniforms[WaterLevel] == F(0.0)
    ensures RoughnessMaterial().uniforms[HeightMap] == T(Blank)
  {
  }

  lemma RoughnessUpdatedSpec(m: ShaderMaterial, p: RoughnessProps, i: nat)
    ensures RoughnessUpdated(m, p, i).uniforms[Resolution] == F(p.resolution as real)
    ensures RoughnessUpdated(m, p, i).uniforms[WaterLevel] == F(p.waterLevel)
    ensures RoughnessUpdated(m, p, i).uniforms[HeightMap] == T(At(p.heightMaps, i))
    ensures RoughnessKeys <= m.uniforms.Keys ==> RoughnessUpdated(m, p, i).uniforms.Keys == m.uniforms.Keys
    ensures RoughnessUpdated(m, p, i).needsUpdate
  {
  }

  lemma RoughnessUpdatedIdempotent(m: ShaderMaterial, p: RoughnessProps, i: nat)
    ensures RoughnessUpdated(RoughnessUpdated(m, p, i), p, i) == RoughnessUpdated(m, p, i)
  {
  }

  /** The roughness setup: six materials with `resolution` and `waterLevel` 0 and a blank
      `heightMap`. */
  method SetupRoughnessMaterials() returns (ms: seq<ShaderMaterial>)
    ensures |ms| == 6 && HaveKeys(ms, RoughnessKeys)
    ensures forall i :: 0 <= i < 6 ==> ms[i] == RoughnessMaterial()
    ensures Agree(ms, Resolution) && Agree(ms, WaterLevel)
  {
    ms := [];
    for i := 0 to 6
      invariant |ms| == i
      invariant forall j :: 0 <= j < i ==> ms[j] == RoughnessMaterial()
    {
      ms := ms + [RoughnessMaterial()];
    }
    RoughnessMaterialShape();
  }

  /** After the roughness update of `before`: every face holds the props' `resolution` and
      `waterLevel`, face `i` holds `heightMaps[i]`, and every face needs an update. */
  lemma RoughnessFaces(before: seq<ShaderMaterial>, after: seq<ShaderMaterial>, p: RoughnessProps)
    requires |before| == |after| && HaveKeys(before, RoughnessKeys)
    requires forall i :: 0 <= i < |after| ==> after[i] == RoughnessUpdated(before[i], p, i)
    ensures HaveKeys(after, RoughnessKeys) && AllNeedUpdate(after)
    ensures forall i :: 0 <= i < |after| ==>
              && after[i].uniforms[Resolution] == F(p.resolution as real)
              && after[i].uniforms[WaterLevel] == F(p.waterLevel)
              && after[i].uniforms[HeightMap] == T(At(p.heightMaps, i))
    ensures Agree(after, Resolution) && Agree(after, WaterLevel)
  {
    forall i | 0 <= i < |after| {
      RoughnessUpdatedSpec(before[i], p, i);
    }
  }
}
