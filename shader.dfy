/** src/Physarum/Shader.ts: a points pass that draws into one render target
    of its own. The target is never reassigned, so every render overwrites
    the same texture. */
module Shaders {
  import opened Gl
  import opened Uniforms

  class Shader {
    /** The dimensions and sources as given; `ShaderBuilder.create` passes
        unset ones through as undefined (`None`). */
    const width: Option<int>
    const height: Option<int>
    const vertexShader: Option<string>
    const fragmentShader: Option<string>
    /** The attributes set on the points' geometry. */
    const attributes: map<string, Value>
    /** `material.uniforms`, the same object as `this.uniforms`. */
    var uniforms: map<string, Value>
    var materialDisposed: bool
    var mesh: Mesh?
    var renderTarget: RenderTarget?
    var scene: Scene?
    var camera: Camera?
    /** The texture of the render target, fixed at construction. */
    ghost const texture: Texture
    ghost var Repr: set<object>

    /** dispose() has run: the mesh and the target are null. */
    predicate Disposed()
      reads this
    {
      mesh == null
    }

    /** Every object the shader refers to belongs to its footprint. */
    ghost predicate Framed()
      reads this
    {
      && this in Repr && texture in Repr
      && (scene != null ==> scene in Repr)
      && (camera != null ==> camera in Repr)
      && (mesh != null ==> mesh in Repr)
      && (renderTarget != null ==> renderTarget in Repr)
    }

    /** A live shader's mesh is in its scene and its target still holds the
        texture it was created with. */
    ghost predicate Valid()
      reads this, scene, renderTarget
    {
      && Framed()
      && (mesh == null ==> renderTarget == null)
      && (mesh != null ==>
            && scene != null && mesh in scene.children
            && renderTarget != null && renderTarget.texture == texture)
    }

    /** The registry holds exactly the given uniforms; the geometry holds
        exactly the given attributes; the target has the given size, or
        three.js's default of 1 for an undefined dimension. */
    constructor (width: Option<int>, height: Option<int>, vertex: Option<string>, fragment: Option<string>,
                 uniforms: map<string, Value>, attributes: map<string, Value>)
      ensures Valid() && fresh(Repr) && !Disposed()
      ensures this.width == width && this.height == height
      ensures vertexShader == vertex && fragmentShader == fragment
      ensures this.uniforms == uniforms && this.attributes == attributes
      ensures renderTarget.width == width.GetOr(1) && renderTarget.height == height.GetOr(1)
      ensures !texture.disposed
      ensures mesh.visible && !mesh.geometryDisposed && scene.children == {mesh}
      ensures camera == null && !materialDisposed
    {
      var registry := Merge(map[], uniforms);
      assert map[] + uniforms == uniforms;
      var target := new RenderTarget(width.GetOr(1), height.GetOr(1));
      var geometry := Merge(map[], attributes);
      assert map[] + attributes == attributes;
      var m := new Mesh();
      var s := new Scene();
      s.Add(m);

      this.width := width;
      this.height := height;
      vertexShader := vertex;
      fragmentShader := fragment;
      this.attributes := geometry;
      this.uniforms := registry;
      materialDisposed := false;
      renderTarget := target;
      texture := target.texture;
      mesh := m;
      scene := s;
      camera := null;
      Repr := {this, target, target.texture, m, s};
    }

    /** Registers or overwrites one uniform; every other uniform is
        unchanged. */
    method SetUniform(key: string, value: Value)
      requires Valid()
      modifies this
      ensures Valid() && Repr == old(Repr)
      ensures uniforms == old(uniforms)[key := value]
      ensures uniforms.Keys == old(uniforms).Keys + {key}
      ensures forall k :: k in old(uniforms) && k != key ==> uniforms[k] == old(uniforms)[k]
      ensures mesh == old(mesh) && renderTarget == old(renderTarget)
      ensures scene == old(scene) && camera == old(camera) && materialDisposed == old(materialDisposed)
    {
      if key !in uniforms {
        uniforms := uniforms[key := value];
      }
      uniforms := uniforms[key := value];
    }

    /** `getTexture()`: the target's texture, the same one however many
        renders have run, until dispose. */
    function GetTexture(): (r: Result<Texture>)
      requires Valid()
      reads this, scene, renderTarget
      ensures r.Ok? <==> !Disposed()
      ensures r.Ok? ==> r.value == texture
      ensures r.Err? ==> r.error == UseAfterDispose
    {
      if renderTarget == null then Err(UseAfterDispose) else Ok(renderTarget.texture)
    }

    /** `getScene()`: created on first use, the same object afterwards. */
    method GetScene() returns (s: Scene)
      requires Valid()
      modifies this
      ensures Valid() && fresh(Repr - old(Repr))
      ensures s == scene
      ensures old(scene) != null ==> s == old(scene) && Repr == old(Repr)
      ensures old(scene) == null ==> fresh(s) && s.children == {}
      ensures mesh == old(mesh) && renderTarget == old(renderTarget)
      ensures uniforms == old(uniforms) && camera == old(camera) && materialDisposed == old(materialDisposed)
    {
      if scene == null {
        scene := new Scene();
        Repr := Repr + {scene};
      }
      s := scene;
    }

    /** `getCamera()`: an orthographic camera over the field (its frustum
        undefined when a dimension is), created on first use, the same
        object afterwards. */
    method GetCamera() returns (c: Camera)
      requires Valid()
      modifies this
      ensures Valid() && fresh(Repr - old(Repr))
      ensures c == camera
      ensures old(camera) != null ==> c == old(camera) && Repr == old(Repr)
      ensures old(camera) == null ==>
        && fresh(c) && c.near == 0.1 && c.far == 1000.0 && c.z == 1.0
        && c.frustum == (if width.Some? && height.Some? then
                           Some(Frustum(width.value as real / -2.0, width.value as real / 2.0,
                                        height.value as real / 2.0, height.value as real / -2.0))
                         else None)
      ensures mesh == old(mesh) && renderTarget == old(renderTarget)
      ensures uniforms == old(uniforms) && scene == old(scene) && materialDisposed == old(materialDisposed)
    {
      if camera == null {
        var frustum := if width.Some? && height.Some? then
                         Some(Frustum(width.value as real / -2.0, width.value as real / 2.0,
                                      height.value as real / 2.0, height.value as real / -2.0))
                       else None;
        var created := new Camera(frustum, 0.1, 1000.0);
        created.SetZ(1.0);
        camera := created;
        Repr := Repr + {created};
      }
      c := camera;
    }

    /** `render(renderer, updatedUniforms)`: show the points, apply the
        updates in order, draw into the target, hide the points again. A
        disposed shader fails at once; an update for a key that was never
        registered throws after the earlier updates, with the points left
        visible and nothing drawn. */
    method Render(renderer: Renderer, updates: seq<Entry>) returns (err: Option<Error>)
      requires Valid() && renderer !in Repr
      modifies this, mesh, renderer
      ensures Valid() && fresh(Repr - old(Repr))
      ensures mesh == old(mesh) && renderTarget == old(renderTarget)
      ensures scene == old(scene) && materialDisposed == old(materialDisposed)
      ensures old(Disposed()) ==>
        && err == Some(UseAfterDispose) && uniforms == old(uniforms)
        && renderer.trace == old(renderer.trace) && renderer.target == old(renderer.target)
      ensures !old(Disposed()) ==>
        var j := FirstUnregistered(updates, old(uniforms).Keys);
        && (err.None? <==> j == |updates|)
        && (err.None? ==>
              && uniforms == Assign(old(uniforms), updates) && !mesh.visible && renderer.target == null
              && renderer.width == width && renderer.height == height
              && renderer.trace == old(renderer.trace) + [Draw(texture, uniforms)])
        && (err.Some? ==>
              && err == Some(UnknownUniform(updates[j].0)) && uniforms == Assign(old(uniforms), updates[..j])
              && mesh.visible && renderer.trace == old(renderer.trace) && renderer.target == old(renderer.target))
    {
      if mesh == null {
        return Some(UseAfterDispose);
      }
      mesh.visible := true;
      var updated, j := ApplyEntries(uniforms, updates);
      uniforms := updated;
      if j < |updates| {
        return Some(UnknownUniform(updates[j].0));
      }
      assert updates[..j] == updates;
      DrawPoints(renderer);
      mesh.visible := false;
      err := None;
    }

    /** Sizes the renderer to the field, draws the scene into the target and
        restores the screen as the renderer's target. */
    method DrawPoints(renderer: Renderer)
      requires Valid() && !Disposed() && renderer !in Repr
      modifies this, renderer
      ensures Valid() && fresh(Repr - old(Repr))
      ensures mesh == old(mesh) && renderTarget == old(renderTarget)
      ensures uniforms == old(uniforms) && scene == old(scene) && materialDisposed == old(materialDisposed)
      ensures renderer.target == null && renderer.width == width && renderer.height == height
      ensures renderer.trace == old(renderer.trace) + [Draw(texture, uniforms)]
    {
      renderer.SetSize(width, height);
      renderer.SetRenderTarget(renderTarget);
      var s := GetScene();
      var c := GetCamera();
      renderer.Render(s, c, uniforms);
      renderer.SetRenderTarget(null);
    }

    /** `dispose()`: removes the points from the scene, releases their
        geometry, the material and the target's texture, and nulls the mesh,
        camera, target and scene. A second call first re-creates a scene
        (through getScene) and then fails on the null mesh. */
    method Dispose() returns (err: Option<Error>)
      requires Valid()
      modifies Repr
      ensures Valid() && fresh(Repr - old(Repr)) && Disposed()
      ensures uniforms == old(uniforms)
      ensures old(Disposed()) ==>
        && err == Some(UseAfterDispose) && scene != null && (old(scene) == null ==> fresh(scene))
        && camera == old(camera) && materialDisposed == old(materialDisposed)
      ensures !old(Disposed()) ==>
        && err.None? && materialDisposed && texture.disposed
        && old(mesh).geometryDisposed && (var s0 := old(scene); old(mesh) !in s0.children)
        && scene == null && camera == null && renderTarget == null
    {
      if mesh == null {
        var s := GetScene();
        s.Remove(null);
        return Some(UseAfterDispose);
      }
      var s, m, t := scene, mesh, renderTarget.texture;
      Detach();
      s.Remove(m);
      m.DisposeGeometry();
      t.Dispose();
      err := None;
    }

    /** The field updates of `dispose()`: the material is released and every
        reference to the mesh, camera, target and scene dropped. */
    method Detach()
      requires Valid()
      modifies this
      ensures Valid() && Repr == old(Repr) && Disposed() && materialDisposed
      ensures uniforms == old(uniforms)
      ensures scene == null && camera == null && renderTarget == null
    {
      mesh := null;
      camera := null;
      materialDisposed := true;
      renderTarget := null;
      scene := null;
    }
  }
}
