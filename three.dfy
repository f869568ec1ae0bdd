/**
 * The parts of three.js the pipeline touches, as values. GPU objects whose identity matters
 * (texture handles) are objects of class `Texture`; everything the pipeline only writes fields of
 * is a datatype stored in an array or a sequence of its owner.
 */
module Three {
  import opened Wrappers

  /** An opaque texture handle (`WebGLRenderTarget.texture`, `CanvasTexture`, ...). */
  class Texture {
    constructor ()
    {
    }
  }

  /** `WebGLRenderTarget`: its size, its `needsUpdate` flag and the texture it renders into. */
  datatype RenderTarget = RenderTarget(width: int, height: int, needsUpdate: bool, texture: Texture)

  /** `OrthographicCamera`: the four frustum bounds, near/far planes and `position.z`. */
  datatype OrthographicCamera = OrthographicCamera(left: real, right: real, top: real, bottom: real,
                                                   near: real, far: real, z: real)

  /** `PlaneGeometry(width, height)`; `id` tells apart geometries of equal size. */
  datatype Geometry = PlaneGeometry(id: nat, width: real, height: real)

  /** A `geometries[i]` slot: a geometry, or the boolean that `visible` writes over it. */
  datatype GeometrySlot = Geo(geometry: Geometry) | Flag(b: bool)

  /** JavaScript truthiness of a geometry slot. */
  predicate Truthy(s: GeometrySlot)
  {
    s.Geo? || s.b
  }

  /** The material a mesh was built with: a material of its owner, or three.js's default one
      (what `new Mesh(geometry, undefined)` falls back to). */
  datatype MaterialRef = DefaultMaterial | OwnMaterial(index: nat)

  /** `Mesh`: its geometry, material and `position.z`. */
  datatype Mesh = Mesh(geometry: Geometry, material: MaterialRef, z: real)

  /** `Scene`: the indices of the planes added to it. */
  datatype Scene = Scene(planes: seq<nat>)

  /** A call into the GPU, in the order it happened. */
  datatype GpuEvent =
    | Disposed(geometry: nat)
    | Rendered(face: nat, geometry: nat, material: MaterialRef, width: int, height: int)

  /** `THREE.Color`. */
  datatype Color = Color(r: real, g: real, b: real)

  /** `THREE.Vector2`. */
  datatype Vector2 = Vector2(x: real, y: real)

  /** The fields of `MeshStandardMaterial` that Planet and Clouds write (`baseMap` is three.js's `map`). */
  datatype StandardMaterial = StandardMaterial(
    color: Color, roughness: real, metalness: real, opacity: real, bumpScale: real,
    transparent: bool,
    baseMap: Option<Texture>, alphaMap: Option<Texture>, bumpMap: Option<Texture>,
    normalMap: Option<Texture>, roughnessMap: Option<Texture>,
    normalScale: Vector2, needsUpdate: bool)

  /** A white `MeshStandardMaterial` with no maps and the library's remaining defaults. */
  function WhiteStandardMaterial(): StandardMaterial
  {
    StandardMaterial(Color(1.0, 1.0, 1.0), 1.0, 0.0, 1.0, 1.0, false,
                     None, None, None, None, None, Vector2(1.0, 1.0), false)
  }

  /** The fields of `MeshBasicMaterial` that Nebula and Stars write (`baseMap` is `map`). */
  datatype BasicMaterial = BasicMaterial(color: Color, transparent: bool, opacity: real, baseMap: Option<Texture>)
}
