/**
 * `THREE.ShaderMaterial` as the pipeline uses it: a dictionary of named uniforms, each carrying a
 * number, an integer or a texture, plus the flags the stages set. Writing
 * `material.uniforms.<key>.value = v` is `Write(material, key, v)`.
 */
module Materials {
  import opened Three

  /** A texture-valued uniform: the placeholder `new THREE.Texture()` a stage creates at setup, the
      `undefined` a missing array entry yields, or a real handle. */
  datatype TexRef = Blank | Undefined | Tex(texture: Texture)

  /** `maps[i]` read from a JavaScript array: `undefined` past its end. */
  function At(maps: seq<Texture>, i: nat): (r: TexRef)
    ensures r.Tex? <==> i < |maps|
    ensures r.Tex? ==> r.texture == maps[i]
    ensures !r.Tex? ==> r == Undefined
  {
    if i < |maps| then Tex(maps[i]) else Undefined
  }

  /** The uniform names the map shaders declare. */
  datatype Key =
    | Index | Seed | Resolution | Res1 | Res2 | ResMix | MixScale
    | NebulaeMap | BiomeMap | HeightMap | MoistureMap | TextureMap | WaterLevel

  /** A uniform's value: type "f", type "i" or type "t". */
  datatype Uniform = F(x: real) | I(n: int) | T(tex: TexRef)

  datatype ShaderMaterial = ShaderMaterial(uniforms: map<Key, Uniform>, transparent: bool,
                                           depthWrite: bool, needsUpdate: bool)

  /** Every map stage builds its materials with `transparent: true, depthWrite: false`. */
  function NewShaderMaterial(uniforms: map<Key, Uniform>): (m: ShaderMaterial)
    ensures m.uniforms == uniforms && m.transparent && !m.depthWrite && !m.needsUpdate
  {
    ShaderMaterial(uniforms, true, false, false)
  }

  /** `m.uniforms[k].value = v`: only uniform `k` changes. */
  function Write(m: ShaderMaterial, k: Key, v: Uniform): ShaderMaterial
  {
    m.(uniforms := m.uniforms[k := v])
  }

  /** `m.needsUpdate = true`. */
  function Touch(m: ShaderMaterial): (r: ShaderMaterial)
    ensures r.needsUpdate && r.uniforms == m.uniforms
  {
    m.(needsUpdate := true)
  }

  /** Every material of `ms` declares exactly the uniforms `keys`. */
  predicate HaveKeys(ms: seq<ShaderMaterial>, keys: set<Key>)
  {
    forall i :: 0 <= i < |ms| ==> ms[i].uniforms.Keys == keys
  }

  /** Uniform `k` is declared, and holds the same value, on every material of `ms`. */
  predicate Agree(ms: seq<ShaderMaterial>, k: Key)
  {
    (forall i :: 0 <= i < |ms| ==> k in ms[i].uniforms)
    && forall i, j :: 0 <= i < |ms| && 0 <= j < |ms| ==> ms[i].uniforms[k] == ms[j].uniforms[k]
  }

  /** Every material of `ms` has its `needsUpdate` flag set. */
  predicate AllNeedUpdate(ms: seq<ShaderMaterial>)
  {
    forall i :: 0 <= i < |ms| ==> ms[i].needsUpdate
  }

  /** Two uniform dictionaries with the same keys and the same value at every key are equal. */
  lemma SameUniforms(a: map<Key, Uniform>, b: map<Key, Uniform>)
    requires a.Keys == b.Keys
    requires forall k :: k in a ==> a[k] == b[k]
    ensures a == b
  {
  }
}
