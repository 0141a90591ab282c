/** src/Physarum/ShaderBuilder.ts: a fluent builder for a points shader.
    Unlike the ping-pong builder, `create` checks nothing. */
module ShaderBuilders {
  import opened Gl
  import opened Uniforms
  import opened Shaders

  /** The builder's fields; `None` is a field that was never set. */
  datatype Configuration = Configuration(
    vertexString: Option<string>,
    fragmentString: Option<string>,
    width: Option<int>,
    height: Option<int>,
    uniforms: Option<map<string, Value>>,
    attributes: Option<map<string, Value>>)

  class ShaderBuilder {
    var vertexString: Option<string>
    var fragmentString: Option<string>
    var width: Option<int>
    var height: Option<int>
    var uniforms: Option<map<string, Value>>
    var attributes: Option<map<string, Value>>

    /** The builder's fields as one value. */
    function Config(): Configuration
      reads this
    {
      Configuration(vertexString, fragmentString, width, height, uniforms, attributes)
    }

    /** A new builder has no field set. */
    constructor ()
      ensures Config() == Configuration(None, None, None, None, None, None)
    {
      vertexString := None;
      fragmentString := None;
      width := None;
      height := None;
      uniforms := None;
      attributes := None;
    }

    method WithVertex(vertexString: string) returns (b: ShaderBuilder)
      modifies this
      ensures b == this && Config() == old(Config()).(vertexString := Some(vertexString))
    {
      this.vertexString := Some(vertexString);
      b := this;
    }

    method WithFragment(fragmentString: string) returns (b: ShaderBuilder)
      modifies this
      ensures b == this && Config() == old(Config()).(fragmentString := Some(fragmentString))
    {
      this.fragmentString := Some(fragmentString);
      b := this;
    }

    method WithDimensions(width: int, height: int) returns (b: ShaderBuilder)
      modifies this
      ensures b == this && Config() == old(Config()).(width := Some(width), height := Some(height))
    {
      this.width := Some(width);
      this.height := Some(height);
      b := this;
    }

    /** Adds or overwrites one uniform, starting from `{}` when none was set. */
    method WithUniform(key: string, value: Value) returns (b: ShaderBuilder)
      modifies this
      ensures b == this && Config() == old(Config()).(uniforms := Some(old(uniforms).GetOr(map[])[key := value]))
    {
      var u := uniforms.GetOr(map[]);
      uniforms := Some(u[key := value]);
      b := this;
    }

    /** Adds or overwrites every entry of `obj`, keeping earlier keys that
        `obj` does not mention. */
    method WithUniforms(obj: map<string, Value>) returns (b: ShaderBuilder)
      modifies this
      ensures b == this && Config() == old(Config()).(uniforms := Some(old(uniforms).GetOr(map[]) + obj))
    {
      var merged := Merge(uniforms.GetOr(map[]), obj);
      uniforms := Some(merged);
      b := this;
    }

    method WithAttribute(key: string, value: Value) returns (b: ShaderBuilder)
      modifies this
      ensures b == this && Config() == old(Config()).(attributes := Some(old(attributes).GetOr(map[])[key := value]))
    {
      var a := attributes.GetOr(map[]);
      attributes := Some(a[key := value]);
      b := this;
    }

    method WithAttributes(obj: map<string, Value>) returns (b: ShaderBuilder)
      modifies this
      ensures b == this && Config() == old(Config()).(attributes := Some(old(attributes).GetOr(map[]) + obj))
    {
      var merged := Merge(attributes.GetOr(map[]), obj);
      attributes := Some(merged);
      b := this;
    }

    /** `create()`: always constructs a shader; unset dimensions and sources
        are passed through as undefined, unset uniforms and attributes as
        `{}`. */
    method Create() returns (s: Shader)
      ensures fresh(s.Repr) && s.Valid() && !s.Disposed()
      ensures s.width == width && s.height == height
      ensures s.vertexShader == vertexString && s.fragmentShader == fragmentString
      ensures s.uniforms == uniforms.GetOr(map[]) && s.attributes == attributes.GetOr(map[])
    {
      s := new Shader(width, height, vertexString, fragmentString, uniforms.GetOr(map[]), attributes.GetOr(map[]));
    }
  }
}
