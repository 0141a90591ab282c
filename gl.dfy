/** What the shader classes need from three.js and WebGL, reduced to object
    identity and a record of the passes drawn. Textures, render targets,
    scenes, cameras and meshes are objects (so `===` is reference equality,
    as in JavaScript); the renderer keeps a ghost trace of every draw with
    the texture it writes and the uniforms it samples. */
module Gl {

  datatype Option<T> = None | Some(value: T) {
    function GetOr(default: T): T {
      match this
      case Some(v) => v
      case None => default
    }
  }

  /** The exceptions the modelled code raises. */
  datatype Error =
    | UnknownUniform(key: string)  // TypeError: `.value` of a uniform that was never registered
    | UseAfterDispose              // TypeError: a field that dispose() set to null is dereferenced
    | MissingParameters            // thrown by PingPongShaderBuilder.create
    | InvalidArrayLength           // RangeError: `new Float32Array` of a negative length

  datatype Result<T> = Ok(value: T) | Err(error: Error)

  /** A GPU texture. `image` is the data it was created from (empty for the
      texture a render target allocates for itself). */
  class Texture {
    const image: seq<real>
    var disposed: bool

    constructor (image: seq<real>)
      ensures this.image == image && !disposed
    {
      this.image := image;
      disposed := false;
    }

    /** `texture.clone()`: a new texture over the same data. */
    method Clone() returns (t: Texture)
      ensures fresh(t) && t.image == image && !t.disposed
    {
      t := new Texture(image);
    }

    /** `texture.dispose()`: releases the GPU memory. */
    method Dispose()
      modifies this
      ensures disposed
    {
      disposed := true;
    }
  }

  /** `THREE.WebGLRenderTarget`: an off-screen surface and its texture. */
  class RenderTarget {
    const width: int
    const height: int
    var texture: Texture

    constructor (width: int, height: int)
      ensures this.width == width && this.height == height
      ensures fresh(texture) && texture.image == [] && !texture.disposed
    {
      this.width := width;
      this.height := height;
      texture := new Texture([]);
    }
  }

  /** `THREE.Mesh` / `THREE.Points`: three.js makes every object visible on
      creation. */
  class Mesh {
    var visible: bool
    var geometryDisposed: bool

    constructor ()
      ensures visible && !geometryDisposed
    {
      visible := true;
      geometryDisposed := false;
    }

    /** `mesh.geometry.dispose()`. */
    method DisposeGeometry()
      modifies this
      ensures geometryDisposed && visible == old(visible)
    {
      geometryDisposed := true;
    }
  }

  class Scene {
    var children: set<object>

    constructor ()
      ensures children == {}
    {
      children := {};
    }

    method Add(o: object)
      modifies this
      ensures children == old(children) + {o}
    {
      children := children + {o};
    }

    /** `scene.remove(o)`; removing null or a non-child does nothing. */
    method Remove(o: object?)
      modifies this
      ensures children == old(children) - (if o == null then {} else {o})
    {
      if o != null {
        children := children - {o};
      }
    }
  }

  /** The view volume of an orthographic camera. */
  datatype Frustum = Frustum(left: real, right: real, top: real, bottom: real)

  /** `THREE.OrthographicCamera`; a frustum computed from an undefined
      dimension is NaN, written `None`. */
  class Camera {
    const frustum: Option<Frustum>
    const near: real
    const far: real
    var z: real

    constructor (frustum: Option<Frustum>, near: real, far: real)
      ensures this.frustum == frustum && this.near == near && this.far == far && z == 0.0
    {
      this.frustum := frustum;
      this.near := near;
      this.far := far;
      z := 0.0;
    }

    /** `camera.position.z = z`. */
    method SetZ(z: real)
      modifies this
      ensures this.z == z
    {
      this.z := z;
    }
  }

  /** A uniform or attribute value. */
  datatype Value =
    | Null
    | Number(x: real)
    | Flag(b: bool)
    | Vector(xs: seq<real>)        // THREE.Vector2/3 built from the components
    | Color(css: string)           // THREE.Color parsed from a CSS string
    | Sampler(texture: Texture)    // a texture bound to a sampler uniform
    | Attribute(array: seq<real>, itemSize: nat)  // THREE.BufferAttribute

  /** One GPU pass: the texture written (null for the screen) and the
      uniforms bound while drawing; or a clear of the current target. */
  datatype Pass =
    | Draw(written: Texture?, bound: map<string, Value>)
    | Clear

  /** A pass that samples the texture it writes would read and write one
      texture at once. */
  predicate HazardFree(p: Pass) {
    p.Draw? && p.written != null ==> Sampler(p.written) !in p.bound.Values
  }

  /** `THREE.WebGLRenderer`: its drawing size (`None` until `setSize`, or
      when `setSize` is given undefined), the current render target (null is
      the screen) and the ghost record of what was drawn. */
  class Renderer {
    var width: Option<int>
    var height: Option<int>
    var target: RenderTarget?
    ghost var trace: seq<Pass>

    constructor ()
      ensures width == None && height == None && target == null && trace == []
    {
      width := None;
      height := None;
      target := null;
      trace := [];
    }

    method SetSize(width: Option<int>, height: Option<int>)
      modifies this
      ensures this.width == width && this.height == height
      ensures target == old(target) && trace == old(trace)
    {
      this.width := width;
      this.height := height;
    }

    method SetRenderTarget(t: RenderTarget?)
      modifies this
      ensures target == t && trace == old(trace)
      ensures width == old(width) && height == old(height)
    {
      target := t;
    }

    /** `renderer.render(scene, camera)`; `bound` stands for the uniforms of
        the material the scene's visible mesh carries. */
    method Render(scene: Scene, camera: Camera, ghost bound: map<string, Value>)
      modifies this
      ensures target == old(target) && width == old(width) && height == old(height)
      ensures trace == old(trace) + [Draw(if target == null then null else target.texture, bound)]
    {
      trace := trace + [Draw(if target == null then null else target.texture, bound)];
    }

    method Clear()
      modifies this
      ensures target == old(target) && width == old(width) && height == old(height)
      ensures trace == old(trace) + [Pass.Clear]
    {
      trace := trace + [Pass.Clear];
    }
  }
}
