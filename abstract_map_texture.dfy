/**
 * `AbstractMapTexture`: the same six-face rig as `AbstractEnvMap`, with its materials in `mats`
 * and its geometries in `geos`. Its face action creates a fresh plane geometry, renders, and
 * disposes that same geometry afterwards; it has no `visible`.
 *
 * As for `AbstractEnvMap`, the subclass's `setupMaterials` result is passed to the constructor
 * and a stage's `render` runs its own `updateMaterial` before `Render` below.
 */
module MapTexture {
  import opened Three
  import opened Materials
  import opened Rig
  import RenderQueue

  class AbstractMapTexture {
    /** `this.mats`. */
    var mats: seq<ShaderMaterial>
    /** `this.maps`: `maps[i]` is the texture of `textures[i]`. */
    const maps: seq<Texture>
    const textures: array<RenderTarget>
    const textureCameras: array<OrthographicCamera>
    const textureScenes: array<Scene>
    const geos: array<Geometry>
    const planes: array<Mesh>
    /** The id the next `new THREE.PlaneGeometry` gets. */
    var nextGeometry: nat
    /** The dispose and render calls made so far, in order. */
    var events: seq<GpuEvent>
    /** The rig object and its six arrays. */
    ghost function Repr(): set<object>
    {
      {this, textures, textureCameras, textureScenes, geos, planes}
    }

    ghost predicate Valid()
      reads this, Repr()
    {
      && textures.Length == 6 && textureCameras.Length == 6 && textureScenes.Length == 6
      && geos.Length == 6 && planes.Length == 6 && |maps| == 6
      && (forall i :: 0 <= i < 6 ==> textures[i].texture == maps[i])
      && (forall i :: 0 <= i < 6 ==> textureScenes[i] == Scene([i]))
      && (forall i :: 0 <= i < 6 ==>
            textureCameras[i].near == -100.0 && textureCameras[i].far == 100.0 && textureCameras[i].z == 10.0)
      && (forall i :: 0 <= i < 6 ==>
            planes[i].z == -10.0 && planes[i].material == MaterialOf(|mats|, i)
            && planes[i].geometry == geos[i] && geos[i].id < nextGeometry)
    }

    /** The constructor's loop: six targets at `TexResolution`, six initial cameras, six scenes,
        six unit planes at z = -10 built with `mats[i]`, and six distinct new texture handles. */
    constructor (mats: seq<ShaderMaterial>)
      ensures Valid() && this.mats == mats
      ensures fresh(Repr() - {this})
      ensures fresh(textures) && fresh(textureCameras) && fresh(textureScenes)
      ensures fresh(geos) && fresh(planes)
      ensures forall i :: 0 <= i < 6 ==> fresh(maps[i])
      ensures forall i, j :: 0 <= i < j < 6 ==> maps[i] != maps[j]
      ensures forall i :: 0 <= i < 6 ==>
                && textures[i] == RenderTarget(TexResolution, TexResolution, false, maps[i])
                && textureCameras[i] == InitialCamera()
                && geos[i] == PlaneGeometry(i, 1.0, 1.0)
                && planes[i] == Mesh(PlaneGeometry(i, 1.0, 1.0), MaterialOf(|mats|, i), -10.0)
      ensures nextGeometry == 6 && events == []
    {
      var handles := NewHandles();
      var count := |mats|;
      this.mats := mats;
      maps := handles;
      textures := new RenderTarget[6](i requires 0 <= i < 6 =>
        RenderTarget(TexResolution, TexResolution, false, handles[i]));
      textureCameras := new OrthographicCamera[6](_ => InitialCamera());
      textureScenes := new Scene[6](i => Scene([i]));
      geos := new Geometry[6](i requires 0 <= i => PlaneGeometry(i, 1.0, 1.0));
      planes := new Mesh[6](i requires 0 <= i =>
        Mesh(PlaneGeometry(i, 1.0, 1.0), MaterialOf(count, i), -10.0));
      nextGeometry := 6;
      events := [];
    }

    /** The queue half of `render`: six actions for faces 0..5, all capturing `resolution`. */
    method Render(resolution: int, q: RenderQueue.RenderQueue)
      modifies q
      ensures q.actions == old(q.actions) + RenderQueue.SixActions(this, resolution)
      ensures q.callbacks == old(q.callbacks)
    {
      for i := 0 to 6
        invariant q.actions == old(q.actions) + RenderQueue.FaceActions(this, resolution, i)
        invariant q.callbacks == old(q.callbacks)
      {
        q.AddAction(RenderQueue.Action(this, i, resolution));
      }
    }

    /** One deferred face action: resize target and camera `f`, create a resolution-sized plane
        geometry, attach it to plane `f`, render face `f`, and only then dispose that same
        geometry. No other face is touched. */
    method Execute(a: RenderQueue.Action)
      requires Valid() && a.rig == this && a.face < 6
      modifies this`nextGeometry, this`events, textures, textureCameras, geos, planes
      ensures Valid()
      ensures textures[a.face] == Resized(old(textures[a.face]), a.resolution)
      ensures textureCameras[a.face] == Framed(old(textureCameras[a.face]), a.resolution)
      ensures var g := PlaneGeometry(old(nextGeometry), a.resolution as real, a.resolution as real);
              && geos[a.face] == g
              && planes[a.face] == old(planes[a.face]).(geometry := g)
              && nextGeometry == old(nextGeometry) + 1
              && events == old(events) + [Rendered(a.face, g.id, planes[a.face].material, a.resolution, a.resolution),
                                          Disposed(g.id)]
      ensures forall j :: 0 <= j < 6 && j != a.face ==>
                && textures[j] == old(textures[j]) && textureCameras[j] == old(textureCameras[j])
                && geos[j] == old(geos[j]) && planes[j] == old(planes[j])
    {
      Reframe(a.face, a.resolution);
      Regeometry(a.face, a.resolution);
    }

    /** The first half of a face action: target and camera `f` take the captured resolution. */
    method Reframe(f: nat, res: int)
      requires Valid() && f < 6
      modifies textures, textureCameras
      ensures Valid()
      ensures textures[f] == Resized(old(textures[f]), res)
      ensures textureCameras[f] == Framed(old(textureCameras[f]), res)
      ensures forall j :: 0 <= j < 6 && j != f ==>
                textures[j] == old(textures[j]) && textureCameras[j] == old(textureCameras[j])
    {
      textures[f] := Resized(textures[f], res);
      textureCameras[f] := Framed(textureCameras[f], res);
    }

    /** The second half: a new resolution-sized plane geometry for plane `f`, the render of face
        `f`, and then the dispose of that same new geometry. */
    method Regeometry(f: nat, res: int)
      requires Valid() && f < 6
      modifies this`nextGeometry, this`events, geos, planes
      ensures Valid()
      ensures var g := PlaneGeometry(old(nextGeometry), res as real, res as real);
              && geos[f] == g
              && planes[f] == old(planes[f]).(geometry := g)
              && nextGeometry == old(nextGeometry) + 1
              && events == old(events) + [Rendered(f, g.id, planes[f].material, res, res), Disposed(g.id)]
      ensures forall j :: 0 <= j < 6 && j != f ==> geos[j] == old(geos[j]) && planes[j] == old(planes[j])
    {
      var g := PlaneGeometry(nextGeometry, res as real, res as real);
      nextGeometry := nextGeometry + 1;
      geos[f] := g;
      planes[f] := planes[f].(geometry := g);
      events := events + [Rendered(f, g.id, planes[f].material, res, res)];
      events := events + [Disposed(geos[f].id)];
    }
  }
}
