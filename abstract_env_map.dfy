/**
 * `AbstractEnvMap`: six render targets, cameras, scenes, plane geometries and plane meshes, and
 * the six texture handles other stages read. `render` defers all face work to six actions on the
 * render queue; `Execute` is what one of those actions does when the queue runs it.
 *
 * The subclass hooks are passed in rather than overridden: the constructor takes the materials
 * `setupMaterials` built, and a stage's `render` first runs its own `updateMaterials`, then
 * `Render` below (the base class's `updateMaterials` does nothing).
 */
module EnvMap {
  import opened Wrappers
  import opened Three
  import opened Materials
  import opened Rig
  import RenderQueue

  /** The dispose call a face action makes on the slot it replaces: one for a geometry, none for
      `false`. */
  function Disposals(slot: GeometrySlot): (r: seq<GpuEvent>)
    ensures |r| <= 1
    ensures r != [] <==> slot.Geo?
    ensures slot.Geo? ==> r == [Disposed(slot.geometry.id)]
  {
    if slot.Geo? then [Disposed(slot.geometry.id)] else []
  }

  class AbstractEnvMap {
    /** `this.materials`, as the subclass's `setupMaterials` left it. */
    var materials: seq<ShaderMaterial>
    /** `this.maps`: `maps[i]` is the texture of `textures[i]`. */
    const maps: seq<Texture>
    const textures: array<RenderTarget>
    const textureCameras: array<OrthographicCamera>
    const textureScenes: array<Scene>
    const geometries: array<GeometrySlot>
    const planes: array<Mesh>
    /** The id the next `new THREE.PlaneGeometry` gets. */
    var nextGeometry: nat
    /** The dispose and render calls made so far, in order. */
    var events: seq<GpuEvent>
    /** The rig object and its six arrays. */
    ghost function Repr(): set<object>
    {
      {this, textures, textureCameras, textureScenes, geometries, planes}
    }

    ghost predicate Valid()
      reads this, Repr()
    {
      && textures.Length == 6 && textureCameras.Length == 6 && textureScenes.Length == 6
      && geometries.Length == 6 && planes.Length == 6 && |maps| == 6
      && (forall i :: 0 <= i < 6 ==> textures[i].texture == maps[i])
      && (forall i :: 0 <= i < 6 ==> textureScenes[i] == Scene([i]))
      && (forall i :: 0 <= i < 6 ==>
            textureCameras[i].near == -100.0 && textureCameras[i].far == 100.0 && textureCameras[i].z == 10.0)
      && (forall i :: 0 <= i < 6 ==>
            planes[i].z == -10.0 && planes[i].material == MaterialOf(|materials|, i)
            && planes[i].geometry.id < nextGeometry)
      && (forall i :: 0 <= i < 6 && geometries[i].Geo? ==> geometries[i].geometry.id < nextGeometry)
    }

    /** The constructor's loop: six targets at `TexResolution`, six initial cameras, six scenes
        each holding its plane, six unit planes at z = -10 built with `materials[i]`, and six
        distinct new texture handles. */
    constructor (materials: seq<ShaderMaterial>)
      ensures Valid() && this.materials == materials
      ensures fresh(Repr() - {this})
      ensures fresh(textures) && fresh(textureCameras) && fresh(textureScenes)
      ensures fresh(geometries) && fresh(planes)
      ensures forall i :: 0 <= i < 6 ==> fresh(maps[i])
      ensures forall i, j :: 0 <= i < j < 6 ==> maps[i] != maps[j]
      ensures forall i :: 0 <= i < 6 ==>
                && textures[i] == RenderTarget(TexResolution, TexResolution, false, maps[i])
                && textureCameras[i] == InitialCamera()
                && geometries[i] == Geo(PlaneGeometry(i, 1.0, 1.0))
                && planes[i] == Mesh(PlaneGeometry(i, 1.0, 1.0), MaterialOf(|materials|, i), -10.0)
      ensures nextGeometry == 6 && events == []
    {
      var handles := NewHandles();
      var count := |materials|;
      this.materials := materials;
      maps := handles;
      textures := new RenderTarget[6](i requires 0 <= i < 6 =>
        RenderTarget(TexResolution, TexResolution, false, handles[i]));
      textureCameras := new OrthographicCamera[6](_ => InitialCamera());
      textureScenes := new Scene[6](i => Scene([i]));
      geometries := new GeometrySlot[6](i requires 0 <= i => Geo(PlaneGeometry(i, 1.0, 1.0)));
      planes := new Mesh[6](i requires 0 <= i =>
        Mesh(PlaneGeometry(i, 1.0, 1.0), MaterialOf(count, i), -10.0));
      nextGeometry := 6;
      events := [];
    }

    /** `visible(b)`: every geometry slot is overwritten with the boolean. */
    method Visible(isVisible: bool)
      requires Valid()
      modifies geometries
      ensures Valid()
      ensures forall i :: 0 <= i < 6 ==> geometries[i] == Flag(isVisible)
    {
      for i := 0 to 6
        invariant forall j :: 0 <= j < i ==> geometries[j] == Flag(isVisible)
        invariant forall j :: i <= j < 6 ==> geometries[j] == old(geometries[j])
      {
        geometries[i] := Flag(isVisible);
      }
    }

    /** The queue half of `render`: six actions for faces 0..5, all capturing `resolution`. No
        face is touched here. */
    method Render(resolution: int, q: RenderQueue.RenderQueue)
      modifies q
      ensures q.actions == old(q.actions) + RenderQueue.SixActions(this, resolution)
      ensures q.callbacks == old(q.callbacks)
    {
      for i := 0 to 6
        invariant q.actions == old(q.actions) + RenderQueue.FaceActions(this, resolution, i)
        invariant q.callbacks == old(q.callbacks)
      {
        q.AddAction(RenderQueue.Action(this, i, resolution));
      }
    }

    /** One deferred face action. It resizes target and camera `f` to the captured resolution,
        disposes geometry `f` if it is truthy, installs a new resolution-sized plane geometry and
        renders face `f`. A slot holding `true` (left by `visible(true)`) has no `dispose`: the
        action throws after the resize, and nothing else changes. No other face is touched. */
    method Execute(a: RenderQueue.Action) returns (o: Outcome)
      requires Valid() && a.rig == this && a.face < 6
      modifies this`nextGeometry, this`events, textures, textureCameras, geometries, planes
      ensures Valid()
      ensures textures[a.face] == Resized(old(textures[a.face]), a.resolution)
      ensures textureCameras[a.face] == Framed(old(textureCameras[a.face]), a.resolution)
      ensures o.Fail? <==> old(geometries[a.face]) == Flag(true)
      ensures o.Fail? ==>
                && geometries[a.face] == old(geometries[a.face]) && planes[a.face] == old(planes[a.face])
                && nextGeometry == old(nextGeometry) && events == old(events)
      ensures o.Pass? ==>
                && var g := PlaneGeometry(old(nextGeometry), a.resolution as real, a.resolution as real);
                && geometries[a.face] == Geo(g)
                && planes[a.face] == old(planes[a.face]).(geometry := g)
                && nextGeometry == old(nextGeometry) + 1
                && events == old(events) + Disposals(old(geometries[a.face]))
                             + [Rendered(a.face, g.id, planes[a.face].material, a.resolution, a.resolution)]
      ensures forall j :: 0 <= j < 6 && j != a.face ==>
                && textures[j] == old(textures[j]) && textureCameras[j] == old(textureCameras[j])
                && geometries[j] == old(geometries[j]) && planes[j] == old(planes[j])
    {
      Reframe(a.face, a.resolution);
      if geometries[a.face] == Flag(true) {
        return Fail("this.geometries[i].dispose is not a function");
      }
      Regeometry(a.face, a.resolution);
      o := Pass;
    }

    /** The first half of a face action: target and camera `f` take the captured resolution. */
    method Reframe(f: nat, res: int)
      requires Valid() && f < 6
      modifies textures, textureCameras
      ensures Valid()
      ensures textures[f] == Resized(old(textures[f]), res)
      ensures textureCameras[f] == Framed(old(textureCameras[f]), res)
      ensures forall j :: 0 <= j < 6 && j != f ==>
                textures[j] == old(textures[j]) && textureCameras[j] == old(textureCameras[j])
    {
      textures[f] := Resized(textures[f], res);
      textureCameras[f] := Framed(textureCameras[f], res);
    }

    /** The second half, once slot `f` is not `true`: dispose what the slot holds, install a new
        resolution-sized plane geometry, and render face `f`. */
    method Regeometry(f: nat, res: int)
      requires Valid() && f < 6 && geometries[f] != Flag(true)
      modifies this`nextGeometry, this`events, geometries, planes
      ensures Valid()
      ensures var g := PlaneGeometry(old(nextGeometry), res as real, res as real);
              && geometries[f] == Geo(g)
              && planes[f] == old(planes[f]).(geometry := g)
              && nextGeometry == old(nextGeometry) + 1
              && events == old(events) + Disposals(old(geometries[f]))
                           + [Rendered(f, g.id, planes[f].material, res, res)]
      ensures forall j :: 0 <= j < 6 && j != f ==> geometries[j] == old(geometries[j]) && planes[j] == old(planes[j])
    {
      events := events + Disposals(geometries[f]);
      var g := PlaneGeometry(nextGeometry, res as real, res as real);
      nextGeometry := nextGeometry + 1;
      geometries[f] := Geo(g);
      planes[f] := planes[f].(geometry := g);
      events := events + [Rendered(f, g.id, planes[f].material, res, res)];
    }
  }

  /** `visible(true)` followed by a render: the first face action throws. */
  method VisibleThenRenderFails(resolution: int) returns (o: Outcome)
    ensures o.Fail?
  {
    var rig := new AbstractEnvMap([]);
    var q := new RenderQueue.RenderQueue();
    rig.Visible(true);
    rig.Render(resolution, q);
    RenderQueue.SixActionsFaces(rig, resolution);
    assert q.actions[0] == RenderQueue.Action(rig, 0, resolution);
    o := rig.Execute(q.actions[0]);
  }

  /** `visible(false)` followed by a render: the first face action succeeds, and installs its new
      geometry without any dispose call. */
  method HiddenThenRenderSucceeds(resolution: int) returns (o: Outcome, calls: seq<GpuEvent>)
    ensures o.Pass? && |calls| == 1 && calls[0].Rendered?
  {
    var rig := new AbstractEnvMap([]);
    var q := new RenderQueue.RenderQueue();
    rig.Visible(false);
    rig.Render(resolution, q);
    RenderQueue.SixActionsFaces(rig, resolution);
    assert q.actions[0] == RenderQueue.Action(rig, 0, resolution);
    var before := rig.events;
    o := rig.Execute(q.actions[0]);
    calls := rig.events[|before|..];
  }
}
