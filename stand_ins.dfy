/**
 * The stages `Planet`, `Stars` and the scene use whose sources (`NoiseMap.js`, `StarMap.js`,
 * `Biome.js`) are not part of this model. Each is reduced to what its callers can observe: the
 * props it was handed, the six face actions a six-face stage enqueues, its stable map handles,
 * and, for the biome painter, the random draws it consumes and the texture it leaves behind.
 */
module StandIns {
  import opened Three
  import opened Materials
  import ShaderUniforms
  import MapTexture
  import RenderQueue
  import Rng

  /** The props `Planet.renderScene` hands a `NoiseMap`. */
  datatype NoiseMapProps = NoiseMapProps(seed: real, resolution: int, res1: real, res2: real,
                                         resMix: real, mixScale: real, doesRidged: int)

  /** The six materials of a stage whose uniforms are not part of this model. */
  function OpaqueMaterials(): (ms: seq<ShaderMaterial>)
    ensures |ms| == 6
  {
    seq(6, _ => NewShaderMaterial(map[]))
  }

  /** `NoiseMap` (the height and moisture stages): a six-face `Map` stage. Its uniforms are not
      followed; `received` records the props of every `render`. */
  class NoiseMap {
    const base: MapTexture.AbstractMapTexture
    var received: seq<NoiseMapProps>

    ghost predicate Valid()
      reads base, base.Repr()
    {
      base.Valid()
    }

    constructor ()
      ensures Valid() && fresh(base) && fresh(base.Repr()) && received == []
    {
      base := new MapTexture.AbstractMapTexture(OpaqueMaterials());
      received := [];
    }

    /** `render(props)`: its own uniform update (not followed), then six face actions at
        `props.resolution`. */
    method Render(p: NoiseMapProps, q: RenderQueue.RenderQueue)
      modifies this`received, q
      ensures received == old(received) + [p]
      ensures q.actions == old(q.actions) + RenderQueue.SixActions(base, p.resolution)
      ensures q.callbacks == old(q.callbacks)
    {
      received := received + [p];
      base.Render(p.resolution, q);
    }
  }

  /** `StarMap`: the star-field stage `Stars` drives, with the same props as `NebulaMap`. */
  class StarMap {
    const base: MapTexture.AbstractMapTexture
    var received: seq<ShaderUniforms.NebulaProps>

    ghost predicate Valid()
      reads base, base.Repr()
    {
      base.Valid()
    }

    constructor ()
      ensures Valid() && fresh(base) && fresh(base.Repr()) && received == []
    {
      base := new MapTexture.AbstractMapTexture(OpaqueMaterials());
      received := [];
    }

    method Render(p: ShaderUniforms.NebulaProps, q: RenderQueue.RenderQueue)
      requires Valid()
      modifies this`received, q
      ensures Valid()
      ensures received == old(received) + [p]
      ensures q.actions == old(q.actions) + RenderQueue.SixActions(base, p.noise.resolution)
      ensures q.callbacks == old(q.callbacks)
    {
      received := received + [p];
      base.Render(p.noise.resolution, q);
    }
  }

  /** `Biome`: the canvas painter of the biome texture. How many numbers one painting draws
      depends on the drawing itself, so it is a parameter; each painting leaves a new
      `CanvasTexture` in `texture`. */
  class Biome {
    var texture: Texture
    /** The `waterLevel` of every `generateTexture` call. */
    var received: seq<real>

    constructor ()
      ensures received == []
    {
      texture := new Texture();
      received := [];
    }

    method GenerateTexture(waterLevel: real, rng: Rng.Rng, draws: nat)
      modifies this, rng
      ensures fresh(texture) && received == old(received) + [waterLevel]
      ensures rng.cursor == old(rng.cursor) + draws
    {
      rng.Skip(draws);
      texture := new Texture();
      received := received + [waterLevel];
    }
  }
}
