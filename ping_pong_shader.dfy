/** src/Physarum/PingPongShader.ts: a full-screen pass over two render
    targets of the same size. Each render swaps which target is "current",
    samples the current one as `input_texture` and writes into the other. */
module PingPongShaders {
  import opened Gl
  import opened Uniforms

  /** `new Float32Array(n)`: n zeros. */
  function Zeros(n: nat): (z: seq<real>)
    ensures |z| == n && forall i :: 0 <= i < n ==> z[i] == 0.0
  {
    seq(n, _ => 0.0)
  }

  /** The uniform the shader binds to its own previous output. */
  const InputTexture: string := "input_texture"

  /** A successful render with no foreign binding of the target it writes
      reads and writes different textures. */
  lemma {:induction false} RenderDrawHazardFree(before: map<string, Value>, input: Texture, written: Texture, updates: seq<Entry>)
    requires input != written
    requires SamplesNoneOf(before, {written}, {InputTexture})
    requires EntriesSampleNoneOf(updates, {written})
    ensures HazardFree(Draw(written, Assign(before[InputTexture := Sampler(input)], updates)))
  {
    var bound := before[InputTexture := Sampler(input)];
    assert SamplesNoneOf(bound, {written}, {});
    AssignSamplesNoneOf(bound, updates, {written}, {});
    var after := Assign(bound, updates);
    forall k | k in after ensures after[k] != Sampler(written) {
      if after[k].Sampler? {
        assert after[k].texture !in {written};
      }
    }
  }

  class PingPongShader {
    const width: int
    const height: int
    const vertexShader: string
    const fragmentShader: string
    /** `material.uniforms`, the same object as `this.uniforms`. */
    var uniforms: map<string, Value>
    var materialDisposed: bool
    var mesh: Mesh?
    var renderTarget0: RenderTarget?
    var renderTarget1: RenderTarget?
    var currentRenderTarget: RenderTarget?
    var nextRenderTarget: RenderTarget?
    var scene: Scene?
    var camera: Camera?
    /** How many times the targets have been switched. */
    ghost var switches: nat
    ghost var Repr: set<object>

    /** dispose() has run: the mesh and the targets are null. */
    predicate Disposed()
      reads this
    {
      mesh == null
    }

    /** Every object the shader refers to belongs to its footprint. */
    ghost predicate Framed()
      reads this
    {
      && this in Repr
      && (scene != null ==> scene in Repr)
      && (camera != null ==> camera in Repr)
      && (mesh != null ==> mesh in Repr)
      && (renderTarget0 != null ==> renderTarget0 in Repr)
      && (renderTarget1 != null ==> renderTarget1 in Repr)
    }

    /** Two distinct targets with distinct textures; `current` is target 0
        exactly after an even number of switches, and `next` is the other.
        `input_texture` is always registered. */
    ghost predicate Valid()
      reads this, scene, renderTarget0, renderTarget1
    {
      && Framed()
      && InputTexture in uniforms
      && (mesh == null ==>
            && renderTarget0 == null && renderTarget1 == null
            && currentRenderTarget == null && nextRenderTarget == null)
      && (mesh != null ==>
            && scene != null && mesh in scene.children
            && renderTarget0 != null && renderTarget1 != null
            && renderTarget0.texture in Repr && renderTarget1.texture in Repr
            && renderTarget0 != renderTarget1
            && renderTarget0.texture != renderTarget1.texture
            && (currentRenderTarget == renderTarget0 || currentRenderTarget == renderTarget1)
            && (currentRenderTarget == renderTarget0 <==> switches % 2 == 0)
            && nextRenderTarget == (if currentRenderTarget == renderTarget0 then renderTarget1 else renderTarget0))
    }

    /** The targets, their order and the mesh are as before. */
    twostate predicate SameTargets()
      reads this
    {
      && renderTarget0 == old(renderTarget0) && renderTarget1 == old(renderTarget1)
      && currentRenderTarget == old(currentRenderTarget) && nextRenderTarget == old(nextRenderTarget)
      && switches == old(switches) && mesh == old(mesh)
    }

    /** Both targets start from the same data (`data`, or zeros when it is
        absent); `input_texture` is bound to target 0's texture and then
        overridden by any given uniform of the same name. The `attributes`
        argument is accepted and not used. */
    constructor (width: int, height: int, vertex: string, fragment: string,
                 uniforms: map<string, Value>, data: Option<seq<real>>, attributes: map<string, Value>)
      requires data.Some? || width * height >= 0
      ensures Valid() && fresh(Repr) && !Disposed()
      ensures this.width == width && this.height == height
      ensures vertexShader == vertex && fragmentShader == fragment
      ensures currentRenderTarget == renderTarget0 && nextRenderTarget == renderTarget1 && switches == 0
      ensures renderTarget0.width == width && renderTarget0.height == height
      ensures renderTarget1.width == width && renderTarget1.height == height
      ensures renderTarget0.texture.image == (if data.Some? then data.value else Zeros(width * height * 4))
      ensures renderTarget1.texture.image == renderTarget0.texture.image
      ensures !renderTarget0.texture.disposed && !renderTarget1.texture.disposed
      ensures this.uniforms == map[InputTexture := Sampler(renderTarget0.texture)] + uniforms
      ensures mesh.visible && !mesh.geometryDisposed && scene.children == {mesh}
      ensures camera == null && !materialDisposed
    {
      var image := if data.Some? then data.value else Zeros(width * height * 4);
      var texture := new Texture(image);
      var target0 := new RenderTarget(width, height);
      var target1 := new RenderTarget(width, height);
      var copy := texture.Clone();
      target0.texture := copy;
      target1.texture := texture;

      var registry := Merge(map[InputTexture := Sampler(copy)], uniforms);

      var m := new Mesh();
      var s := new Scene();
      s.Add(m);

      this.width := width;
      this.height := height;
      vertexShader := vertex;
      fragmentShader := fragment;
      renderTarget0 := target0;
      renderTarget1 := target1;
      currentRenderTarget := target0;
      nextRenderTarget := target1;
      this.uniforms := registry;
      materialDisposed := false;
      mesh := m;
      scene := s;
      camera := null;
      switches := 0;
      Repr := {this, target0, target1, copy, texture, m, s};
    }

    /** Registers an unknown key (as null) and then assigns the value; every
        other uniform is unchanged. */
    method SetUniform(key: string, value: Value)
      requires Valid()
      modifies this
      ensures Valid() && Repr == old(Repr)
      ensures uniforms == old(uniforms)[key := value]
      ensures uniforms.Keys == old(uniforms).Keys + {key}
      ensures forall k :: k in old(uniforms) && k != key ==> uniforms[k] == old(uniforms)[k]
      ensures SameTargets() && scene == old(scene) && camera == old(camera)
      ensures materialDisposed == old(materialDisposed)
    {
      if key !in uniforms {
        uniforms := uniforms[key := Null];
      }
      uniforms := uniforms[key := value];
    }

    /** `getUniforms()`: the material's registry, in which `input_texture`
        is always present. */
    function GetUniforms(): (u: map<string, Value>)
      requires Valid()
      reads this, scene, renderTarget0, renderTarget1
      ensures InputTexture in u
    {
      uniforms
    }

    /** `getTexture()`: one of the two targets' textures, and never the one
        the next render writes; a disposed shader has none. */
    function GetTexture(): (r: Result<Texture>)
      requires Valid()
      reads this, scene, renderTarget0, renderTarget1
      ensures r.Ok? <==> !Disposed()
      ensures r.Ok? ==> r.value in {renderTarget0.texture, renderTarget1.texture}
      ensures r.Ok? ==> r.value != nextRenderTarget.texture
      ensures r.Err? ==> r.error == UseAfterDispose
    {
      if currentRenderTarget == null then Err(UseAfterDispose) else Ok(currentRenderTarget.texture)
    }

    /** Which texture `getTexture()` returns: target 0's after an even number
        of switches, target 1's after an odd number. */
    lemma GetTextureParity()
      requires Valid() && !Disposed()
      ensures GetTexture().Ok?
      ensures GetTexture().value == (if switches % 2 == 0 then renderTarget0.texture else renderTarget1.texture)
    {
    }

    /** Exchanges `current` and `next`. On a disposed shader both stay null. */
    method SwitchRenderTargets()
      requires Valid()
      modifies this
      ensures Valid() && Repr == old(Repr)
      ensures currentRenderTarget == (if old(currentRenderTarget) == renderTarget0 then renderTarget1 else renderTarget0)
      ensures nextRenderTarget == (if currentRenderTarget == renderTarget0 then renderTarget1 else renderTarget0)
      ensures !Disposed() ==> currentRenderTarget == old(nextRenderTarget) && nextRenderTarget == old(currentRenderTarget)
      ensures switches == old(switches) + 1
      ensures renderTarget0 == old(renderTarget0) && renderTarget1 == old(renderTarget1) && mesh == old(mesh)
      ensures uniforms == old(uniforms) && scene == old(scene) && camera == old(camera)
      ensures materialDisposed == old(materialDisposed)
    {
      currentRenderTarget := if currentRenderTarget == renderTarget0 then renderTarget1 else renderTarget0;
      nextRenderTarget := if currentRenderTarget == renderTarget0 then renderTarget1 else renderTarget0;
      switches := switches + 1;
    }

    /** `getScene()`: created on first use, the same object afterwards. */
    method GetScene() returns (s: Scene)
      requires Valid()
      modifies this
      ensures Valid() && fresh(Repr - old(Repr))
      ensures s == scene
      ensures old(scene) != null ==> s == old(scene) && Repr == old(Repr)
      ensures old(scene) == null ==> fresh(s) && s.children == {}
      ensures SameTargets() && uniforms == old(uniforms) && camera == old(camera)
      ensures materialDisposed == old(materialDisposed)
    {
      if scene == null {
        scene := new Scene();
        Repr := Repr + {scene};
      }
      s := scene;
    }

    /** `getCamera()`: an orthographic camera over the field, created on
        first use, the same object afterwards. */
    method GetCamera() returns (c: Camera)
      requires Valid()
      modifies this
      ensures Valid() && fresh(Repr - old(Repr))
      ensures c == camera
      ensures old(camera) != null ==> c == old(camera) && Repr == old(Repr)
      ensures old(camera) == null ==>
        && fresh(c) && c.near == 0.1 && c.far == 100.0 && c.z == 1.0
        && c.frustum == Some(Frustum(-(width as real) / 2.0, width as real / 2.0, height as real / 2.0, -(height as real) / 2.0))
      ensures SameTargets() && uniforms == old(uniforms) && scene == old(scene)
      ensures materialDisposed == old(materialDisposed)
    {
      if camera == null {
        var w := width as real;
        var h := height as real;
        var created := new Camera(Some(Frustum(-w / 2.0, w / 2.0, h / 2.0, -h / 2.0)), 0.1, 100.0);
        created.SetZ(1.0);
        camera := created;
        Repr := Repr + {created};
      }
      c := camera;
    }

    /** `render(renderer, updatedUniforms)`: switch the targets, bind the new
        current texture as `input_texture`, apply the updates in order, draw
        into the next target, hide the mesh again. An update for a key that
        was never registered throws after the switch, the binding and the
        earlier updates, with the mesh left visible and nothing drawn. */
    method Render(renderer: Renderer, updates: seq<Entry>) returns (err: Option<Error>)
      requires Valid() && renderer !in Repr
      modifies this, mesh, renderer
      ensures Valid() && fresh(Repr - old(Repr))
      ensures renderTarget0 == old(renderTarget0) && renderTarget1 == old(renderTarget1) && mesh == old(mesh)
      ensures scene == old(scene) && materialDisposed == old(materialDisposed)
      ensures old(Disposed()) ==>
        && err == Some(UseAfterDispose) && uniforms == old(uniforms)
        && renderer.trace == old(renderer.trace) && renderer.target == old(renderer.target)
      ensures !old(Disposed()) ==>
        && currentRenderTarget == old(nextRenderTarget) && nextRenderTarget == old(currentRenderTarget)
        && switches == old(switches) + 1
        && var bound := old(uniforms)[InputTexture := Sampler(currentRenderTarget.texture)];
           var j := FirstUnregistered(updates, bound.Keys);
           && (err.None? <==> j == |updates|)
           && (err.None? ==>
                 && uniforms == Assign(bound, updates) && !mesh.visible && renderer.target == null
                 && renderer.width == Some(width) && renderer.height == Some(height)
                 && renderer.trace == old(renderer.trace) + [Draw(nextRenderTarget.texture, uniforms)])
           && (err.Some? ==>
                 && err == Some(UnknownUniform(updates[j].0)) && uniforms == Assign(bound, updates[..j])
                 && mesh.visible && renderer.trace == old(renderer.trace) && renderer.target == old(renderer.target))
    {
      SwitchRenderTargets();
      if mesh == null {
        return Some(UseAfterDispose);
      }
      err := RenderLive(renderer, updates);
    }

    /** The part of `render` after the switch, on a shader that is not
        disposed. */
    method RenderLive(renderer: Renderer, updates: seq<Entry>) returns (err: Option<Error>)
      requires Valid() && !Disposed() && renderer !in Repr
      modifies this, mesh, renderer
      ensures Valid() && fresh(Repr - old(Repr)) && SameTargets()
      ensures scene == old(scene) && materialDisposed == old(materialDisposed)
      ensures var bound := old(uniforms)[InputTexture := Sampler(currentRenderTarget.texture)];
        var j := FirstUnregistered(updates, bound.Keys);
        && (err.None? <==> j == |updates|)
        && (err.None? ==>
              && uniforms == Assign(bound, updates) && !mesh.visible && renderer.target == null
              && renderer.width == Some(width) && renderer.height == Some(height)
              && renderer.trace == old(renderer.trace) + [Draw(nextRenderTarget.texture, uniforms)])
        && (err.Some? ==>
              && err == Some(UnknownUniform(updates[j].0)) && uniforms == Assign(bound, updates[..j])
              && mesh.visible && renderer.trace == old(renderer.trace) && renderer.target == old(renderer.target))
    {
      mesh.visible := true;
      var j := BindUniforms(updates);
      if j < |updates| {
        return Some(UnknownUniform(updates[j].0));
      }
      assert updates[..j] == updates;
      DrawMesh(renderer);
      mesh.visible := false;
      err := None;
    }

    /** Binds the current texture as `input_texture` and applies the
        updates up to the first unregistered key, whose index it returns. */
    method BindUniforms(updates: seq<Entry>) returns (j: nat)
      requires Valid() && !Disposed()
      modifies this
      ensures Valid() && Repr == old(Repr) && SameTargets()
      ensures scene == old(scene) && camera == old(camera) && materialDisposed == old(materialDisposed)
      ensures var bound := old(uniforms)[InputTexture := Sampler(currentRenderTarget.texture)];
        && j == FirstUnregistered(updates, bound.Keys)
        && uniforms == Assign(bound, updates[..j])
    {
      var updated;
      updated, j := ApplyEntries(uniforms[InputTexture := Sampler(currentRenderTarget.texture)], updates);
      uniforms := updated;
    }

    /** Sizes the renderer to the field, draws the scene into the next
        target and restores the screen as the renderer's target. */
    method DrawMesh(renderer: Renderer)
      requires Valid() && !Disposed() && renderer !in Repr
      modifies this, renderer
      ensures Valid() && fresh(Repr - old(Repr)) && SameTargets()
      ensures uniforms == old(uniforms) && scene == old(scene) && materialDisposed == old(materialDisposed)
      ensures renderer.target == null && renderer.width == Some(width) && renderer.height == Some(height)
      ensures renderer.trace == old(renderer.trace) + [Draw(nextRenderTarget.texture, uniforms)]
    {
      renderer.SetSize(Some(width), Some(height));
      renderer.SetRenderTarget(nextRenderTarget);
      var s := GetScene();
      var c := GetCamera();
      renderer.Render(s, c, uniforms);
      renderer.SetRenderTarget(null);
    }

    /** `dispose()`: removes the mesh from the scene, releases its geometry,
        the material and the textures of both targets, and nulls the mesh,
        camera, targets and scene. A second call first re-creates a scene
        (through getScene) and then fails on the null mesh. */
    method Dispose() returns (err: Option<Error>)
      requires Valid()
      modifies Repr
      ensures Valid() && fresh(Repr - old(Repr)) && Disposed()
      ensures uniforms == old(uniforms)
      ensures old(Disposed()) ==>
        && err == Some(UseAfterDispose) && scene != null && (old(scene) == null ==> fresh(scene))
        && camera == old(camera) && materialDisposed == old(materialDisposed)
      ensures !old(Disposed()) ==>
        && err.None? && materialDisposed
        && old(currentRenderTarget.texture).disposed && old(nextRenderTarget.texture).disposed
        && old(mesh).geometryDisposed && (var s0 := old(scene); old(mesh) !in s0.children)
        && scene == null && camera == null
        && renderTarget0 == null && renderTarget1 == null
        && currentRenderTarget == null && nextRenderTarget == null
    {
      if mesh == null {
        var s := GetScene();
        s.Remove(null);
        return Some(UseAfterDispose);
      }
      var s, m := scene, mesh;
      var read := currentRenderTarget.texture;
      var written := nextRenderTarget.texture;
      Detach();
      s.Remove(m);
      m.DisposeGeometry();
      read.Dispose();
      written.Dispose();
      err := None;
    }

    /** The field updates of `dispose()`: the material is released and every
        reference to the mesh, camera, targets and scene dropped. */
    method Detach()
      requires Valid()
      modifies this
      ensures Valid() && Repr == old(Repr) && Disposed() && materialDisposed
      ensures uniforms == old(uniforms)
      ensures scene == null && camera == null
      ensures renderTarget0 == null && renderTarget1 == null
      ensures currentRenderTarget == null && nextRenderTarget == null
    {
      mesh := null;
      camera := null;
      materialDisposed := true;
      renderTarget0 := null;
      renderTarget1 := null;
      currentRenderTarget := null;
      nextRenderTarget := null;
      scene := null;
    }
  }
}
