/** src/Physarum/PingPongShaderBuilder.ts: a fluent builder that collects
    the parts of a ping-pong shader and checks the required ones on
    `create`. */
module PingPongShaderBuilders {
  import opened Gl
  import opened Uniforms
  import opened PingPongShaders

  /** The builder's fields; `None` is a field that was never set (or was set
      to undefined). */
  datatype Configuration = Configuration(
    vertexString: Option<string>,
    fragmentString: Option<string>,
    width: Option<int>,
    height: Option<int>,
    data: Option<seq<real>>,
    uniforms: Option<map<string, Value>>,
    attributes: Option<map<string, Value>>)

  /** JavaScript truthiness of an optional number and an optional string:
      undefined, 0 and "" are falsy. */
  predicate TruthyNumber(x: Option<int>) {
    x.Some? && x.value != 0
  }

  predicate TruthyString(x: Option<string>) {
    x.Some? && x.value != ""
  }

  /** What `create` demands before it builds a shader. */
  predicate Complete(c: Configuration) {
    TruthyNumber(c.width) && TruthyNumber(c.height) && TruthyString(c.vertexString) && TruthyString(c.fragmentString)
  }

  /** Without data, the shader allocates `width * height * 4` floats, which
      a negative product cannot do. */
  predicate AllocationFails(c: Configuration)
    requires Complete(c)
  {
    c.data.None? && c.width.value * c.height.value < 0
  }

  /** Every field set to a truthy value lets `create` through; unsetting or
      zeroing any one of the four required fields stops it. */
  lemma CompleteExactly(c: Configuration)
    ensures Complete(c) <==>
      (c.width.Some? && c.height.Some? && c.vertexString.Some? && c.fragmentString.Some?
       && c.width.value != 0 && c.height.value != 0 && c.vertexString.value != "" && c.fragmentString.value != "")
    ensures !Complete(c.(width := None)) && !Complete(c.(width := Some(0)))
    ensures !Complete(c.(height := None)) && !Complete(c.(height := Some(0)))
    ensures !Complete(c.(vertexString := None)) && !Complete(c.(vertexString := Some("")))
    ensures !Complete(c.(fragmentString := None)) && !Complete(c.(fragmentString := Some("")))
  {
  }

  class PingPongShaderBuilder {
    var vertexString: Option<string>
    var fragmentString: Option<string>
    var width: Option<int>
    var height: Option<int>
    var data: Option<seq<real>>
    var uniforms: Option<map<string, Value>>
    var attributes: Option<map<string, Value>>

    /** The builder's fields as one value. */
    function Config(): Configuration
      reads this
    {
      Configuration(vertexString, fragmentString, width, height, data, uniforms, attributes)
    }

    /** A new builder has no field set. */
    constructor ()
      ensures Config() == Configuration(None, None, None, None, None, None, None)
    {
      vertexString := None;
      fragmentString := None;
      width := None;
      height := None;
      data := None;
      uniforms := None;
      attributes := None;
    }

    method WithVertex(vertexString: string) returns (b: PingPongShaderBuilder)
      modifies this
      ensures b == this && Config() == old(Config()).(vertexString := Some(vertexString))
    {
      this.vertexString := Some(vertexString);
      b := this;
    }

    method WithFragment(fragmentString: string) returns (b: PingPongShaderBuilder)
      modifies this
      ensures b == this && Config() == old(Config()).(fragmentString := Some(fragmentString))
    {
      this.fragmentString := Some(fragmentString);
      b := this;
    }

    method WithDimensions(width: int, height: int) returns (b: PingPongShaderBuilder)
      modifies this
      ensures b == this && Config() == old(Config()).(width := Some(width), height := Some(height))
    {
      this.width := Some(width);
      this.height := Some(height);
      b := this;
    }

    /** `withTextureData(data)`; an undefined argument unsets the data. */
    method WithTextureData(data: Option<seq<real>>) returns (b: PingPongShaderBuilder)
      modifies this
      ensures b == this && Config() == old(Config()).(data := data)
    {
      this.data := data;
      b := this;
    }

    /** Adds or overwrites one uniform, starting from `{}` when none was set. */
    method WithUniform(key: string, value: Value) returns (b: PingPongShaderBuilder)
      modifies this
      ensures b == this && Config() == old(Config()).(uniforms := Some(old(uniforms).GetOr(map[])[key := value]))
    {
      var u := uniforms.GetOr(map[]);
      uniforms := Some(u[key := value]);
      b := this;
    }

    /** Adds or overwrites every entry of `obj`, keeping earlier keys that
        `obj` does not mention. */
    method WithUniforms(obj: map<string, Value>) returns (b: PingPongShaderBuilder)
      modifies this
      ensures b == this && Config() == old(Config()).(uniforms := Some(old(uniforms).GetOr(map[]) + obj))
    {
      var merged := Merge(uniforms.GetOr(map[]), obj);
      uniforms := Some(merged);
      b := this;
    }

    method WithAttribute(key: string, value: Value) returns (b: PingPongShaderBuilder)
      modifies this
      ensures b == this && Config() == old(Config()).(attributes := Some(old(attributes).GetOr(map[])[key := value]))
    {
      var a := attributes.GetOr(map[]);
      attributes := Some(a[key := value]);
      b := this;
    }

    method WithAttributes(obj: map<string, Value>) returns (b: PingPongShaderBuilder)
      modifies this
      ensures b == this && Config() == old(Config()).(attributes := Some(old(attributes).GetOr(map[]) + obj))
    {
      var merged := Merge(attributes.GetOr(map[]), obj);
      attributes := Some(merged);
      b := this;
    }

    /** `create()`: throws unless the four required fields are truthy;
        otherwise constructs a shader from the fields, with `{}` for unset
        uniforms and attributes and null (zeros) for unset data. */
    method Create() returns (r: Result<PingPongShader>)
      ensures r == Err(MissingParameters) <==> !Complete(Config())
      ensures r == Err(InvalidArrayLength) <==> Complete(Config()) && AllocationFails(Config())
      ensures r.Ok? <==> Complete(Config()) && !AllocationFails(Config())
      ensures r.Ok? ==>
        && fresh(r.value.Repr) && r.value.Valid() && !r.value.Disposed()
        && Some(r.value.width) == width && Some(r.value.height) == height
        && Some(r.value.vertexShader) == vertexString && Some(r.value.fragmentShader) == fragmentString
        && r.value.uniforms == map[InputTexture := Sampler(r.value.renderTarget0.texture)] + uniforms.GetOr(map[])
        && r.value.renderTarget0.texture.image == (if data.Some? then data.value else Zeros(width.value * height.value * 4))
        && r.value.renderTarget1.texture.image == r.value.renderTarget0.texture.image
        && r.value.currentRenderTarget == r.value.renderTarget0 && r.value.nextRenderTarget == r.value.renderTarget1
        && r.value.switches == 0
    {
      if !Complete(Config()) {
        return Err(MissingParameters);
      }
      if AllocationFails(Config()) {
        return Err(InvalidArrayLength);
      }
      var shader := new PingPongShader(width.value, height.value, vertexString.value, fragmentString.value,
                                       uniforms.GetOr(map[]), data, attributes.GetOr(map[]));
      r := Ok(shader);
    }
  }
}
