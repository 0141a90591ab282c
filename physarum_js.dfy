/** src/Physarum/Physarum.js: the orchestrator of the simulation. Three
    GPU passes run every frame: a ping-pong diffuse/decay pass over the
    trail map, a ping-pong update pass over the agents' positions, and a
    points pass that draws every agent; a final full-screen material blends
    the trail map and the points onto the screen. */
module PhysarumJs {
  import opened Gl
  import opened Uniforms
  import opened Random
  import opened Options
  import opened Species
  import opened Seeding
  import opened PingPongShaders
  import opened Shaders
  import opened PingPongShaderBuilders
  import opened ShaderBuilders

  /** The module's `WIDTH`: the side of the square agent texture, so
      256 * 256 agents. Only `changeParticleAmount` changes it, and that is
      not part of this model. */
  const Side: nat := 256

  /** The GLSL sources the passes are built from; their text lives in other
      files and only matters here in being non-empty. */
  const PassThroughVertex: string := "pass-through vertex shader"
  const DiffuseDecayFragment: string := "diffuse-decay fragment shader"
  const UpdateDotsFragment: string := "update-dots fragment shader"
  const RenderDotsVertex: string := "render-dots vertex shader"
  const RenderDotsFragment: string := "render-dots fragment shader"

  /** `Vector([...])` and `new THREE.Vector2(x, y)`. */
  function Vec2(x: real, y: real): Value {
    Vector([x, y])
  }

  /** An array of integers as a vector uniform. */
  function IntVector(xs: seq<int>): Value {
    Vector(seq(|xs|, i requires 0 <= i < |xs| => xs[i] as real))
  }

  /** No entry of `m` is a sampler. */
  predicate NoSamplers(m: map<string, Value>) {
    forall k :: k in m ==> !m[k].Sampler?
  }

  /** The uniforms `getUpdateDotsShader` registers, in its order: three
      empty samplers, the field's values (`FieldUniforms`), the species'
      sensing (`SensingUniforms`) and their movement and attraction
      (`AttractUniforms`). */
  function UpdateDotsUniforms(s: Settings, width: int, height: int, mouse: (real, real)): (m: map<string, Value>)
    requires Shaped(s)
    ensures NoSamplers(m) && InputTexture !in m
  {
    AttractUniforms(s, SensingUniforms(s, FieldUniforms(s, width, height, mouse, SamplerSlots(map[]))))
  }

  /** `diffuseTexture`, `pointsTexture` and `mouseSpawnTexture`, all null. */
  function SamplerSlots(m: map<string, Value>): (r: map<string, Value>)
    ensures NoSamplers(m) ==> NoSamplers(r)
    ensures InputTexture !in m ==> InputTexture !in r
  {
    m["diffuseTexture" := Null]["pointsTexture" := Null]["mouseSpawnTexture" := Null]
  }

  /** The clock at 0, the field and agent-texture sizes, the pointer and its
      radius, and the two movement switches. */
  function FieldUniforms(s: Settings, width: int, height: int, mouse: (real, real), m: map<string, Value>)
    : (r: map<string, Value>)
    ensures NoSamplers(m) ==> NoSamplers(r)
    ensures InputTexture !in m ==> InputTexture !in r
  {
    m["isRestrictToMiddle" := Flag(s.isRestrictToMiddle)]["time" := Number(0.0)]
      ["resolution" := Vec2(width as real, height as real)]
      ["textureDimensions" := Vec2(Side as real, Side as real)]
      ["mouseRad" := Number(s.mouseRad)]["mousePos" := Vec2(mouse.0, mouse.1)]
      ["isDisplacement" := Flag(s.isDisplacement)]
  }

  /** Each species' sensor angle, rotation angle, sensor distance and
      chance of a random turn. */
  function SensingUniforms(s: Settings, m: map<string, Value>): (r: map<string, Value>)
    ensures NoSamplers(m) ==> NoSamplers(r)
    ensures InputTexture !in m ==> InputTexture !in r
  {
    m["sensorAngle" := Vector(s.sensorAngle)]["rotationAngle" := Vector(s.rotationAngle)]
      ["sensorDistance" := Vector(s.sensorDistance)]["randChance" := Vector(s.randChance)]
  }

  /** The attraction table row by row, then each species' speed and
      infectiousness. */
  function AttractUniforms(s: Settings, m: map<string, Value>): (r: map<string, Value>)
    requires Shaped(s)
    ensures NoSamplers(m) ==> NoSamplers(r)
    ensures InputTexture !in m ==> InputTexture !in r
  {
    m["attract0" := Vector(s.attract[0])]["attract1" := Vector(s.attract[1])]["attract2" := Vector(s.attract[2])]
      ["moveSpeed" := Vector(s.moveSpeed)]["infectious" := IntVector(s.infectious)]
  }

  /** The uniforms of the diffuse/decay pass: no points yet, the decay
      factor and the field size. */
  function DiffuseUniforms(s: Settings, width: int, height: int): (m: map<string, Value>)
    ensures NoSamplers(m) && InputTexture !in m
    ensures m.Keys == {"points", "decay", "resolution"} && m["points"] == Null
  {
    map[]["points" := Null]["decay" := Number(s.decay)]["resolution" := Vec2(width as real, height as real)]
  }

  /** The uniforms of the points pass: no particle texture and no positions
      yet, the species' dot sizes and the field size. */
  function RenderDotsUniforms(s: Settings, width: int, height: int): (m: map<string, Value>)
    ensures NoSamplers(m)
    ensures "positionTexture" in m && m["positionTexture"] == Null
  {
    map[]["isParticleTexture" := Flag(s.isParticleTexture)]["particleTexture" := Null]
      ["positionTexture" := Null]["dotSizes" := Vector(s.dotSizes)]
      ["resolution" := Vec2(width as real, height as real)]
  }

  /** The uniforms of the final material: no textures yet, one colour per
      species, flat shading off, a colour threshold of 0.5 and the opacity
      and monochrome settings. */
  function FinalUniforms(s: Settings): (m: map<string, Value>)
    requires Shaped(s)
    ensures NoSamplers(m)
    ensures "pointsTexture" in m && "diffuseTexture" in m && m["pointsTexture"] == Null && m["diffuseTexture"] == Null
    ensures forall t :: 0 <= t < 3 ==> ColorKey(t) in m && m[ColorKey(t)] == Color(s.colors[t])
  {
    map["diffuseTexture" := Null, "pointsTexture" := Null,
        "col0" := Color(s.colors[0]), "col1" := Color(s.colors[1]), "col2" := Color(s.colors[2]),
        "isFlatShading" := Flag(false), "colorThreshold" := Number(0.5),
        "dotOpacity" := Number(s.dotOpacity), "trailOpacity" := Number(s.trailOpacity),
        "isMonochrome" := Flag(s.isMonochrome)]
  }

  /** The final material's name for species `t`'s colour. */
  function ColorKey(t: int): string
    requires 0 <= t < 3
  {
    if t == 0 then "col0" else if t == 1 then "col1" else "col2"
  }

  /** A ping-pong registry built from uniforms without samplers samples
      nothing but its input. */
  lemma NoSamplersReady(t: Texture, m: map<string, Value>, ts: set<Texture>)
    requires NoSamplers(m)
    ensures SamplesNoneOf(map[InputTexture := Sampler(t)] + m, ts, {InputTexture})
  {
  }

  /** A ping-pong pass that is live and whose uniforms, but for its input,
      sample none of its own textures. */
  ghost predicate PingPongReady(s: PingPongShader)
    reads s, s.Repr
  {
    && s.Framed() && s.Valid() && !s.Disposed()
    && SamplesNoneOf(s.uniforms, {s.renderTarget0.texture, s.renderTarget1.texture}, {InputTexture})
  }

  /** A points pass that is live and whose uniforms do not sample its
      target's texture. */
  ghost predicate PointsReady(s: Shader)
    reads s, s.Repr
  {
    && s.Framed() && s.Valid() && !s.Disposed()
    && SamplesNoneOf(s.uniforms, {s.texture}, {})
  }

  /** The three passes own disjoint objects, none of them in `others`. */
  ghost predicate Separate(d: PingPongShader, u: PingPongShader, p: Shader, others: set<object>)
    reads d, u, p
  {
    && d.Repr !! u.Repr && d.Repr !! p.Repr && u.Repr !! p.Repr
    && others !! d.Repr && others !! u.Repr && others !! p.Repr
  }

  /** `getTexture()` on a live ping-pong pass: the texture of its current
      target, the one its last render read. */
  method CurrentTexture(s: PingPongShader) returns (t: Texture)
    requires PingPongReady(s)
    ensures t == s.currentRenderTarget.texture && t != s.nextRenderTarget.texture
  {
    t := s.GetTexture().value;
  }

  /** `setUniform` on a ready ping-pong pass with a value that samples
      none of its objects keeps it ready. */
  method BindPingPong(s: PingPongShader, key: string, v: Value)
    requires PingPongReady(s) && (v.Sampler? ==> v.texture !in s.Repr)
    modifies s
    ensures PingPongReady(s) && s.Repr == old(s.Repr) && s.SameTargets()
    ensures s.uniforms == old(s.uniforms)[key := v]
  {
    s.SetUniform(key, v);
  }

  /** `render(renderer)` with no updates on a ready ping-pong pass: the
      targets switch, the new current texture is bound as the input, and
      the pass draws into the other one, which no uniform samples. */
  method RenderPingPong(s: PingPongShader, renderer: Renderer)
    requires PingPongReady(s) && renderer !in s.Repr
    modifies s, s.mesh, renderer
    ensures PingPongReady(s) && fresh(s.Repr - old(s.Repr)) && s.mesh == old(s.mesh)
    ensures s.switches == old(s.switches) + 1
    ensures s.uniforms == old(s.uniforms)[InputTexture := Sampler(s.currentRenderTarget.texture)]
    ensures renderer.target == null && renderer.width == Some(s.width) && renderer.height == Some(s.height)
    ensures renderer.trace == old(renderer.trace) + [Draw(s.nextRenderTarget.texture, s.uniforms)]
    ensures HazardFree(Draw(s.nextRenderTarget.texture, s.uniforms))
  {
    ghost var before := s.uniforms;
    var err := s.Render(renderer, []);
    assert err.None?;
    RenderDrawHazardFree(before, s.currentRenderTarget.texture, s.nextRenderTarget.texture, []);
  }

  /** `renderDotsShader.setUniform("positionTexture", ...)` and
      `renderDotsShader.render(renderer)`. */
  method PointsPass(p: Shader, position: Texture, renderer: Renderer)
    requires PointsReady(p) && position !in p.Repr && renderer !in p.Repr
    modifies p, p.mesh, renderer
    ensures PointsReady(p) && fresh(p.Repr - old(p.Repr)) && p.mesh == old(p.mesh)
    ensures p.uniforms == old(p.uniforms)["positionTexture" := Sampler(position)]
    ensures renderer.target == null && renderer.width == p.width && renderer.height == p.height
    ensures renderer.trace == old(renderer.trace) + [Draw(p.texture, p.uniforms)]
    ensures HazardFree(Draw(p.texture, p.uniforms))
  {
    p.SetUniform("positionTexture", Sampler(position));
    var err := p.Render(renderer, []);
    assert err.None?;
    SamplesNoneHazardFree(p.uniforms, p.texture);
  }

  /** `renderer.setSize(width, height)`, `renderer.clear()` and
      `composer.render()`: the scene holding the final mesh, drawn to the
      screen through the camera with the final material's uniforms. */
  method ScreenPass(renderer: Renderer, scene: Scene, camera: Camera, width: int, height: int,
                    finalUniforms: map<string, Value>)
    requires renderer.target == null
    modifies renderer
    ensures renderer.target == null && renderer.width == Some(width) && renderer.height == Some(height)
    ensures renderer.trace == old(renderer.trace) + [Pass.Clear, Draw(null, finalUniforms)]
  {
    renderer.SetSize(Some(width), Some(height));
    renderer.Clear();
    renderer.Render(scene, camera, finalUniforms);
  }

  /** The three passes are ready and separate from each other and from the
      renderer, which draws to the screen between passes. */
  ghost predicate Passes(d: PingPongShader, u: PingPongShader, p: Shader, renderer: Renderer, others: set<object>)
    reads d, u, p, renderer, d.Repr, u.Repr, p.Repr
  {
    && PingPongReady(d) && PingPongReady(u) && PointsReady(p)
    && Separate(d, u, p, others + {renderer}) && renderer.target == null
  }

  /** A draw that binds `key` to `v`. */
  ghost predicate Binds(p: Pass, key: string, v: Value)
  {
    p.Draw? && key in p.bound && p.bound[key] == v
  }

  /** The update pass's own inputs in a registry: the clock, the mouse, the
      last points and the trail map. */
  ghost predicate UpdateBound(m: map<string, Value>, time: int, mouse: Value, points: Texture, trail: Texture)
  {
    && "time" in m && m["time"] == Number(time as real)
    && "mousePos" in m && m["mousePos"] == mouse
    && "pointsTexture" in m && m["pointsTexture"] == Sampler(points)
    && "diffuseTexture" in m && m["diffuseTexture"] == Sampler(trail)
  }

  /** Binding the input texture leaves the update pass's own inputs bound. */
  lemma UpdateBoundKept(m: map<string, Value>, time: int, mouse: Value, points: Texture, trail: Texture, v: Value)
    requires UpdateBound(m, time, mouse, points, trail)
    ensures UpdateBound(m[InputTexture := v], time, mouse, points, trail)
  {
  }

  /** What the update pass samples. */
  ghost predicate UpdateSamples(update: Pass, time: int, mouse: Value, points: Texture, trail: Texture)
  {
    update.Draw? && UpdateBound(update.bound, time, mouse, points, trail)
  }

  /** What the three offscreen passes of a frame sample: the diffuse pass
      the last points; the update pass the clock, the mouse, the last points
      and the trail map the diffuse pass read; the points pass the positions
      the update pass read. */
  ghost predicate OffscreenSamples(diffuse: Pass, update: Pass, draw: Pass, time: int, mouse: Value,
                                   points: Texture, trail: Texture, positions: Texture)
  {
    && Binds(diffuse, "points", Sampler(points))
    && UpdateSamples(update, time, mouse, points, trail)
    && Binds(draw, "positionTexture", Sampler(positions))
  }

  /** `diffuseShader.setUniform("points", renderDotsShader.getTexture())` and
      `diffuseShader.render(renderer)`. */
  method DiffusePhase(d: PingPongShader, u: PingPongShader, p: Shader, renderer: Renderer, others: set<object>)
    requires Passes(d, u, p, renderer, others)
    modifies d, d.mesh, renderer
    ensures Passes(d, u, p, renderer, others) && fresh(d.Repr - old(d.Repr)) && d.mesh == old(d.mesh)
    ensures d.switches == old(d.switches) + 1
    ensures renderer.trace == old(renderer.trace) + [Draw(d.nextRenderTarget.texture, d.uniforms)]
    ensures Binds(Draw(d.nextRenderTarget.texture, d.uniforms), "points", Sampler(p.texture))
    ensures HazardFree(Draw(d.nextRenderTarget.texture, d.uniforms))
  {
    var points := p.GetTexture().value;
    BindPingPong(d, "points", Sampler(points));
    RenderPingPong(d, renderer);
  }

  /** The four `setUniform` calls of the update pass before it renders. */
  method BindUpdateInputs(u: PingPongShader, time: int, mouse: Value, points: Texture, trail: Texture)
    requires PingPongReady(u) && !mouse.Sampler? && points !in u.Repr && trail !in u.Repr
    modifies u
    ensures PingPongReady(u) && u.Repr == old(u.Repr) && u.SameTargets()
    ensures u.uniforms == old(u.uniforms)["time" := Number(time as real)]["mousePos" := mouse]
      ["pointsTexture" := Sampler(points)]["diffuseTexture" := Sampler(trail)]
    ensures UpdateBound(u.uniforms, time, mouse, points, trail)
  {
    BindPingPong(u, "time", Number(time as real));
    BindPingPong(u, "mousePos", mouse);
    BindPingPong(u, "pointsTexture", Sampler(points));
    BindPingPong(u, "diffuseTexture", Sampler(trail));
  }

  /** The update pass's uniforms for this frame and `updateDotsShader.render(renderer)`:
      the clock, the mouse, the points drawn last frame and the trail map
      the diffuse pass read. */
  method UpdatePhase(d: PingPongShader, u: PingPongShader, p: Shader, renderer: Renderer, others: set<object>, time: int, mouse: Value)
    requires Passes(d, u, p, renderer, others) && !mouse.Sampler?
    modifies u, u.mesh, renderer
    ensures Passes(d, u, p, renderer, others) == true && fresh(u.Repr - old(u.Repr)) && u.mesh == old(u.mesh)
    ensures u.switches == old(u.switches) + 1
    ensures renderer.trace == old(renderer.trace) + [Draw(u.nextRenderTarget.texture, u.uniforms)]
    ensures UpdateSamples(Draw(u.nextRenderTarget.texture, u.uniforms), time, mouse, p.texture, d.currentRenderTarget.texture)
    ensures HazardFree(Draw(u.nextRenderTarget.texture, u.uniforms))
  {
    var points := p.GetTexture().value;
    var trail := CurrentTexture(d);
    BindUpdateInputs(u, time, mouse, points, trail);
    ghost var bound := u.uniforms;
    RenderPingPong(u, renderer);
    UpdateBoundKept(bound, time, mouse, points, trail, Sampler(u.currentRenderTarget.texture));
  }

  /** The points pass, drawn from the positions the update pass read. */
  method PointsPhase(d: PingPongShader, u: PingPongShader, p: Shader, renderer: Renderer, others: set<object>)
    requires Passes(d, u, p, renderer, others)
    modifies p, p.mesh, renderer
    ensures Passes(d, u, p, renderer, others) && fresh(p.Repr - old(p.Repr)) && p.mesh == old(p.mesh)
    ensures renderer.trace == old(renderer.trace) + [Draw(p.texture, p.uniforms)]
    ensures Binds(Draw(p.texture, p.uniforms), "positionTexture", Sampler(u.currentRenderTarget.texture))
    ensures HazardFree(Draw(p.texture, p.uniforms))
  {
    var positions := CurrentTexture(u);
    PointsPass(p, positions, renderer);
  }

  lemma Appended(t: seq<Pass>, a: Pass, b: Pass, c: Pass)
    ensures t + [a] + [b] + [c] == t + [a, b, c]
  {
  }

  /** The three offscreen passes of a frame, in order: each draws into its
      own target and samples what `OffscreenSamples` says, and none samples
      the texture it writes. */
  method Frame(d: PingPongShader, u: PingPongShader, p: Shader, renderer: Renderer, others: set<object>, time: int, mouse: Value)
    requires Passes(d, u, p, renderer, others) && !mouse.Sampler?
    modifies d, d.mesh, u, u.mesh, p, p.mesh, renderer
    ensures Passes(d, u, p, renderer, others)
    ensures d.mesh == old(d.mesh) && u.mesh == old(u.mesh) && p.mesh == old(p.mesh)
    ensures renderer.trace == old(renderer.trace) + [Draw(d.nextRenderTarget.texture, d.uniforms),
      Draw(u.nextRenderTarget.texture, u.uniforms), Draw(p.texture, p.uniforms)]
    ensures OffscreenSamples(Draw(d.nextRenderTarget.texture, d.uniforms),
      Draw(u.nextRenderTarget.texture, u.uniforms), Draw(p.texture, p.uniforms), time, mouse,
      p.texture, d.currentRenderTarget.texture, u.currentRenderTarget.texture)
    ensures HazardFree(Draw(d.nextRenderTarget.texture, d.uniforms))
    ensures HazardFree(Draw(u.nextRenderTarget.texture, u.uniforms))
    ensures HazardFree(Draw(p.texture, p.uniforms))
  {
    ghost var before := renderer.trace;
    DiffusePhase(d, u, p, renderer, others);
    ghost var diffuse := Draw(d.nextRenderTarget.texture, d.uniforms);
    UpdatePhase(d, u, p, renderer, others, time, mouse);
    ghost var update := Draw(u.nextRenderTarget.texture, u.uniforms);
    PointsPhase(d, u, p, renderer, others);
    Appended(before, diffuse, update, Draw(p.texture, p.uniforms));
  }

  /** The agents' starting data `resetPositions` hands to the update pass:
      four floats per agent. */
  ghost function Seeded(width: int, height: int, d: SeedDraws, cos: real -> real, sin: real -> real): (a: seq<real>)
    requires SeedDrawsFor(Side, d)
    ensures |a| == 4 * (Side * Side)
  {
    seq(4 * (Side * Side), j requires 0 <= j < 4 * (Side * Side) => SeededSlot(Side, width, height, d, cos, sin, j))
  }

  /** The uvs `getDataArrays` computes for `n` vertices: two per agent. */
  ghost function AgentUvs(n: nat): (a: seq<real>)
    ensures |a| == 2 * n
  {
    seq(2 * n, j requires 0 <= j < 2 * n => UvSlot(Side, j))
  }

  /** The update pass as `getUpdateDotsShader` builds it: the agent texture's
      size, its uniforms, both targets holding `data` (zeros when there is
      none), and no switch yet, so the first `render` reads target 1 and
      finds the data there too. */
  ghost predicate UpdateDotsBuilt(u: PingPongShader, s: Settings, width: int, height: int, mouse: (real, real),
                                  data: Option<seq<real>>)
    requires Shaped(s)
    reads u, u.renderTarget0, u.renderTarget1
  {
    && u.width == Side && u.height == Side && u.renderTarget0 != null && u.renderTarget1 != null
    && u.uniforms == map[InputTexture := Sampler(u.renderTarget0.texture)] + UpdateDotsUniforms(s, width, height, mouse)
    && u.renderTarget0.texture.image == (if data.Some? then data.value else Zeros(Side * Side * 4))
    && u.renderTarget1.texture.image == u.renderTarget0.texture.image
    && u.currentRenderTarget == u.renderTarget0 && u.switches == 0
  }

  /** The start of `getUpdateDotsShader`'s chain: the agent texture's size,
      the two sources, the start data and the three sampler slots. */
  method UpdateDotsHead(b: PingPongShaderBuilder, data: Option<seq<real>>)
    requires b.Config() == PingPongShaderBuilders.Configuration(None, None, None, None, None, None, None)
    modifies b
    ensures b.Config() == PingPongShaderBuilders.Configuration(Some(PassThroughVertex), Some(UpdateDotsFragment), Some(Side), Some(Side),
                                        data, Some(SamplerSlots(map[])), None)
  {
    var c := b.WithDimensions(Side, Side);
    c := b.WithVertex(PassThroughVertex);
    c := b.WithFragment(UpdateDotsFragment);
    c := b.WithTextureData(data);
    c := b.WithUniform("diffuseTexture", Null);
    c := b.WithUniform("pointsTexture", Null);
    c := b.WithUniform("mouseSpawnTexture", Null);
  }

  /** The `withUniform` calls of `FieldUniforms`. */
  method WithFieldUniforms(b: PingPongShaderBuilder, s: Settings, width: int, height: int, mouse: (real, real))
    requires b.uniforms.Some?
    modifies b
    ensures b.Config() == old(b.Config()).(uniforms := Some(FieldUniforms(s, width, height, mouse, old(b.uniforms).value)))
  {
    var c := b.WithUniform("isRestrictToMiddle", Flag(s.isRestrictToMiddle));
    c := b.WithUniform("time", Number(0.0));
    c := b.WithUniform("resolution", Vec2(width as real, height as real));
    c := b.WithUniform("textureDimensions", Vec2(Side as real, Side as real));
    c := b.WithUniform("mouseRad", Number(s.mouseRad));
    c := b.WithUniform("mousePos", Vec2(mouse.0, mouse.1));
    c := b.WithUniform("isDisplacement", Flag(s.isDisplacement));
  }

  /** The `withUniform` calls of `SensingUniforms`. */
  method WithSensingUniforms(b: PingPongShaderBuilder, s: Settings)
    requires b.uniforms.Some?
    modifies b
    ensures b.Config() == old(b.Config()).(uniforms := Some(SensingUniforms(s, old(b.uniforms).value)))
  {
    var c := b.WithUniform("sensorAngle", Vector(s.sensorAngle));
    c := b.WithUniform("rotationAngle", Vector(s.rotationAngle));
    c := b.WithUniform("sensorDistance", Vector(s.sensorDistance));
    c := b.WithUniform("randChance", Vector(s.randChance));
  }

  /** The `withUniform` calls of `AttractUniforms`. */
  method WithAttractUniforms(b: PingPongShaderBuilder, s: Settings)
    requires Shaped(s) && b.uniforms.Some?
    modifies b
    ensures b.Config() == old(b.Config()).(uniforms := Some(AttractUniforms(s, old(b.uniforms).value)))
  {
    var c := b.WithUniform("attract0", Vector(s.attract[0]));
    c := b.WithUniform("attract1", Vector(s.attract[1]));
    c := b.WithUniform("attract2", Vector(s.attract[2]));
    c := b.WithUniform("moveSpeed", Vector(s.moveSpeed));
    c := b.WithUniform("infectious", IntVector(s.infectious));
  }

  /** An update pass ready for frames and built around freshly seeded
      agents. */
  ghost predicate UpdateSeeded(u: PingPongShader, s: Settings, width: int, height: int, mouse: (real, real),
                               d: SeedDraws, cos: real -> real, sin: real -> real)
    requires Shaped(s) && SeedDrawsFor(Side, d)
    reads u, u.Repr
  {
    PingPongReady(u) && UpdateDotsBuilt(u, s, width, height, mouse, Some(Seeded(width, height, d, cos, sin)))
  }

  /** The first `render` of a freshly built update pass switches to target 1
      and binds its texture as the input; that texture holds the data too,
      so the first frame moves the agents the pass was built around. */
  lemma FirstFrameReadsData(u: PingPongShader, s: Settings, width: int, height: int, mouse: (real, real),
                            data: Option<seq<real>>)
    requires Shaped(s) && PingPongReady(u) && UpdateDotsBuilt(u, s, width, height, mouse, data)
    ensures u.nextRenderTarget == u.renderTarget1
    ensures u.nextRenderTarget.texture.image == (if data.Some? then data.value else Zeros(Side * Side * 4))
  {
  }

  /** The seeding loop of `resetPositions`, as the data handed to the new
      update pass. */
  method SeedData(width: int, height: int, d: SeedDraws, cos: real -> real, sin: real -> real)
    returns (data: seq<real>)
    requires SeedDrawsFor(Side, d)
    ensures data == Seeded(width, height, d, cos, sin)
  {
    var a := SeedPositions(Side, width, height, d, cos, sin);
    data := a[..];
  }

  /** The builder chain of `getUpdateDotsShader`: an agent-sized ping-pong
      pass whose uniforms carry the settings; `create` cannot fail here. */
  method BuildUpdateDots(s: Settings, width: int, height: int, mouse: (real, real), data: Option<seq<real>>)
    returns (u: PingPongShader)
    requires Shaped(s)
    ensures fresh(u.Repr) && PingPongReady(u) && UpdateDotsBuilt(u, s, width, height, mouse, data)
  {
    var b := new PingPongShaderBuilder();
    UpdateDotsHead(b, data);
    WithFieldUniforms(b, s, width, height, mouse);
    WithSensingUniforms(b, s);
    WithAttractUniforms(b, s);
    assert b.Config().width == Some(Side) && b.Config().vertexString == Some(PassThroughVertex);
    assert Complete(b.Config()) && !AllocationFails(b.Config());
    var r := b.Create();
    u := r.value;
    NoSamplersReady(u.renderTarget0.texture, UpdateDotsUniforms(s, width, height, mouse),
                    {u.renderTarget0.texture, u.renderTarget1.texture});
  }

  /** The builder chain of `initShaders` for the diffuse/decay pass, sized
      to the field: `create` throws on a zero dimension, and allocating the
      zeroed start texture throws on a negative area. */
  method BuildDiffuse(s: Settings, width: int, height: int) returns (r: Result<PingPongShader>)
    ensures r == Err(MissingParameters) <==> width == 0 || height == 0
    ensures r == Err(InvalidArrayLength) <==> width != 0 && height != 0 && width * height < 0
    ensures r.Ok? ==>
      && fresh(r.value.Repr) && PingPongReady(r.value)
      && r.value.width == width && r.value.height == height && r.value.renderTarget0 != null
      && r.value.uniforms == map[InputTexture := Sampler(r.value.renderTarget0.texture)] + DiffuseUniforms(s, width, height)
  {
    var b := new PingPongShaderBuilder();
    b := b.WithDimensions(width, height);
    b := b.WithVertex(PassThroughVertex);
    b := b.WithFragment(DiffuseDecayFragment);
    b := b.WithUniform("points", Null);
    b := b.WithUniform("decay", Number(s.decay));
    b := b.WithUniform("resolution", Vec2(width as real, height as real));
    r := b.Create();
    if r.Ok? {
      NoSamplersReady(r.value.renderTarget0.texture, DiffuseUniforms(s, width, height),
                      {r.value.renderTarget0.texture, r.value.renderTarget1.texture});
    }
  }

  /** The builder chain of `getRenderDotsShader`: a points pass sized to the
      field, with the settings' dot sizes and one vertex per agent (three
      position floats and two uv floats each). */
  method BuildRenderDots(s: Settings, width: int, height: int, pos: seq<real>, uvs: seq<real>) returns (p: Shader)
    ensures fresh(p.Repr) && PointsReady(p)
    ensures p.width == Some(width) && p.height == Some(height)
    ensures p.uniforms == RenderDotsUniforms(s, width, height)
    ensures p.attributes == map["position" := Attribute(pos, 3), "uv" := Attribute(uvs, 2)]
  {
    var b := new ShaderBuilder();
    b := b.WithDimensions(width, height);
    b := b.WithVertex(RenderDotsVertex);
    b := b.WithFragment(RenderDotsFragment);
    b := b.WithUniform("isParticleTexture", Flag(s.isParticleTexture));
    b := b.WithUniform("particleTexture", Null);
    b := b.WithUniform("positionTexture", Null);
    b := b.WithUniform("dotSizes", Vector(s.dotSizes));
    b := b.WithUniform("resolution", Vec2(width as real, height as real));
    b := b.WithAttribute("position", Attribute(pos, 3));
    b := b.WithAttribute("uv", Attribute(uvs, 2));
    p := b.Create();
  }

  /** The orthographic frustum `initScene` gives the camera: the field,
      centred on the origin. */
  function CentredFrustum(width: int, height: int): (f: Frustum)
    ensures f.right - f.left == width as real && f.top - f.bottom == height as real
    ensures f.left + f.right == 0.0 && f.top + f.bottom == 0.0
  {
    Frustum(width as real / -2.0, width as real / 2.0, height as real / 2.0, height as real / -2.0)
  }

  /** The stage `initScene` sets up: a camera over the field (near 0.1, far
      1000, at z = 1) and a renderer sized to the field that draws to the
      screen and has drawn nothing yet. */
  ghost predicate StageReady(camera: Camera, renderer: Renderer, width: int, height: int)
    reads camera, renderer
  {
    && camera.frustum == Some(CentredFrustum(width, height))
    && camera.near == 0.1 && camera.far == 1000.0 && camera.z == 1.0
    && renderer.width == Some(width) && renderer.height == Some(height)
    && renderer.target == null && renderer.trace == []
  }

  class Physarum {
    var time: int
    var dimensions: Dimensions
    var container: Option<Container>
    /** `this.width` / `this.height`, copied from the dimensions by init. */
    var width: int
    var height: int
    var settings: Option<Settings>
    var mousePos: (real, real)
    var renderer: Renderer?
    var scene: Scene?
    var camera: Camera?
    var diffuseShader: PingPongShader?
    var updateDotsShader: PingPongShader?
    var renderDotsShader: Shader?
    /** The uniforms of the final full-screen material. */
    var finalUniforms: map<string, Value>
    var finalMesh: Mesh?

    /** The three passes are ready and separate from each other, from the
        renderer and from this object, and the renderer draws to the screen
        between frames. Postconditions write it as `Ready() == true`, which
        the verifier checks as one obligation instead of one per conjunct of
        the definition. */
    ghost predicate Ready()
      reads this, renderer, diffuseShader, updateDotsShader, renderDotsShader
      reads if diffuseShader != null then diffuseShader.Repr else {}
      reads if updateDotsShader != null then updateDotsShader.Repr else {}
      reads if renderDotsShader != null then renderDotsShader.Repr else {}
    {
      && renderer != null && diffuseShader != null && updateDotsShader != null && renderDotsShader != null
      && Passes(diffuseShader, updateDotsShader, renderDotsShader, renderer, {this})
    }

    /** What `init()` has done once WebGL2 is available: the pointer is at
        the centre, the settings are drawn, the update pass is seeded and,
        unless a builder threw, every pass is ready and the final mesh has
        joined the scene's earlier `children`. */
    ghost predicate Launched(init: InitDraws, teams: seq<TeamDraws>, d: SeedDraws, cos: real -> real, sin: real -> real,
                             err: Option<Error>, children: set<object>)
      requires InitDrawsShaped(init) && |teams| == 3 && forall i :: 0 <= i < 3 ==> TeamDrawsShaped(teams[i])
      requires SeedDrawsFor(Side, d)
      reads this, scene, renderer, diffuseShader, updateDotsShader, renderDotsShader
      reads if diffuseShader != null then diffuseShader.Repr else {}
      reads if updateDotsShader != null then updateDotsShader.Repr else {}
      reads if renderDotsShader != null then renderDotsShader.Repr else {}
    {
      && mousePos == (0.0, 0.0) && settings == Some(RandomizeAll(InitialSettings(0.0, false, init), teams))
      && (err == Some(MissingParameters) <==> width == 0 || height == 0)
      && (err == Some(InvalidArrayLength) <==> width != 0 && height != 0 && width * height < 0)
      && updateDotsShader != null && UpdateSeeded(updateDotsShader, settings.value, width, height, mousePos, d, cos, sin)
      && (err.None? ==>
            && Ready() && finalUniforms == FinalUniforms(settings.value)
            && scene != null && scene.children == children + {finalMesh})
    }

    /** The clock starts at 0 and the dimensions follow the options; the
        size fields, the settings and every three.js object stay unset until
        `init`. */
    constructor (options: ConstructorOptions)
      ensures time == 0 && dimensions == InitialDimensions(options) && container == options.container
      ensures renderer == null && scene == null && camera == null
      ensures diffuseShader == null && updateDotsShader == null && renderDotsShader == null
      ensures settings == None && finalMesh == null
    {
      time := 0;
      var w := OrDefault(options.width, 800);
      var h := OrDefault(options.height, 600);
      dimensions := Dimensions(w, h);
      container := None;
      if options.container.Some? {
        container := options.container;
        dimensions := Dimensions(options.container.value.clientWidth, options.container.value.clientHeight);
      }
      width, height := 0, 0;
      settings := None;
      mousePos := (0.0, 0.0);
      renderer, scene, camera := null, null, null;
      diffuseShader, updateDotsShader, renderDotsShader := null, null, null;
      finalUniforms := map[];
      finalMesh := null;
    }

    /** The plain values of the object are unchanged. */
    twostate predicate SameState()
      reads this
    {
      && time == old(time) && dimensions == old(dimensions) && container == old(container)
      && width == old(width) && height == old(height) && settings == old(settings) && mousePos == old(mousePos)
    }

    /** The scene, camera and renderer are the same objects. */
    twostate predicate SameStage()
      reads this
    {
      renderer == old(renderer) && scene == old(scene) && camera == old(camera)
    }

    /** The three passes are the same objects. */
    twostate predicate SamePasses()
      reads this
    {
      diffuseShader == old(diffuseShader) && updateDotsShader == old(updateDotsShader)
      && renderDotsShader == old(renderDotsShader)
    }

    /** The final material's uniforms and mesh are unchanged. */
    twostate predicate SameFinal()
      reads this
    {
      finalUniforms == old(finalUniforms) && finalMesh == old(finalMesh)
    }

    /** `init()`: copy the dimensions, set up the scene; without WebGL2 stop
        there; otherwise the pointer, the settings and the passes, where a
        failing `create` throws out of `init`. */
    method Init(isWebGL2: bool, init: InitDraws, teams: seq<TeamDraws>, d: SeedDraws,
                cos: real -> real, sin: real -> real) returns (err: Option<Error>)
      requires InitDrawsShaped(init) && |teams| == 3 && forall i :: 0 <= i < 3 ==> TeamDrawsShaped(teams[i])
      requires SeedDrawsFor(Side, d)
      requires diffuseShader == null && updateDotsShader == null && renderDotsShader == null
      modifies this
      ensures width == dimensions.width && height == dimensions.height
      ensures time == old(time) && dimensions == old(dimensions) && container == old(container)
      ensures scene != null && camera != null && renderer != null && fresh(scene) && fresh(camera) && fresh(renderer)
      ensures StageReady(camera, renderer, width, height)
      ensures !isWebGL2 ==>
        && err.None? && settings == old(settings) && mousePos == old(mousePos) && SamePasses() && SameFinal()
        && scene.children == {}
      ensures isWebGL2 ==> Launched(init, teams, d, cos, sin, err, {}) == true
      ensures isWebGL2 ==> updateDotsShader != null && fresh(updateDotsShader.Repr)
      ensures isWebGL2 && err.None? ==>
        diffuseShader != null && renderDotsShader != null && fresh(diffuseShader.Repr) && fresh(renderDotsShader.Repr)
    {
      width := dimensions.width;
      height := dimensions.height;
      InitScene();
      if !isWebGL2 {
        return None;
      }
      err := InitOnWebGL2(init, teams, d, cos, sin);
    }

    /** The part of `init()` that runs only with WebGL2: the pointer, the
        settings and the passes. */
    method InitOnWebGL2(init: InitDraws, teams: seq<TeamDraws>, d: SeedDraws,
                        cos: real -> real, sin: real -> real) returns (err: Option<Error>)
      requires InitDrawsShaped(init) && |teams| == 3 && forall i :: 0 <= i < 3 ==> TeamDrawsShaped(teams[i])
      requires SeedDrawsFor(Side, d)
      requires renderer != null && renderer.target == null && scene != null
      requires diffuseShader == null && updateDotsShader == null && renderDotsShader == null
      modifies this, scene
      ensures SameStage()
      ensures time == old(time) && dimensions == old(dimensions) && container == old(container)
      ensures width == old(width) && height == old(height)
      ensures Launched(init, teams, d, cos, sin, err, old(scene.children)) == true
      ensures updateDotsShader != null && fresh(updateDotsShader.Repr)
      ensures err.None? ==> diffuseShader != null && renderDotsShader != null && fresh(diffuseShader.Repr) && fresh(renderDotsShader.Repr)
    {
      InitMouse();
      InitSettings(init, teams);
      err := InitShaders(d, cos, sin);
    }

    /** `initScene()`. */
    method InitScene()
      modifies this
      ensures scene != null && camera != null && renderer != null && fresh(scene) && fresh(camera) && fresh(renderer)
      ensures scene.children == {} && StageReady(camera, renderer, width, height)
      ensures SameState() && SamePasses() && SameFinal()
    {
      scene := new Scene();
      var w, h := width as real, height as real;
      camera := new Camera(Some(Frustum(w / -2.0, w / 2.0, h / 2.0, h / -2.0)), 0.1, 1000.0);
      camera.SetZ(1.0);
      renderer := new Renderer();
      renderer.SetSize(Some(width), Some(height));
    }

    /** `initMouse()`: the pointer starts at the centre. */
    method InitMouse()
      modifies this
      ensures mousePos == (0.0, 0.0)
      ensures time == old(time) && dimensions == old(dimensions) && container == old(container)
      ensures width == old(width) && height == old(height) && settings == old(settings)
      ensures SameStage() && SamePasses() && SameFinal()
    {
      mousePos := (0.0, 0.0);
    }

    /** `initSettings()`: the settings record with `mouseRad` 0 and
        monochrome rendering off, then `randomizeSettings(-1)`, which keeps
        the fixed shared values (`InitialShared`) and dots of size 1. */
    method InitSettings(init: InitDraws, teams: seq<TeamDraws>)
      requires InitDrawsShaped(init)
      requires |teams| == 3 && forall i :: 0 <= i < 3 ==> TeamDrawsShaped(teams[i])
      modifies this
      ensures settings == Some(RandomizeAll(InitialSettings(0.0, false, init), teams))
      ensures settings.Some? && InitialShared(settings.value, 0.0, false) && settings.value.dotSizes == [1.0, 1.0, 1.0]
      ensures time == old(time) && dimensions == old(dimensions) && container == old(container)
      ensures width == old(width) && height == old(height) && mousePos == old(mousePos)
      ensures SameStage() && SamePasses() && SameFinal()
    {
      settings := Some(InitialSettings(0.0, false, init));
      RandomizeSettings(-1, teams);
      InitialSettingsKept(0.0, false, init, teams);
    }

    /** `randomizeSettings(teamIndex)`: index -1 randomises species 0, 1
        and 2 in turn, each with its own draws; any other index one
        species. The source then pushes the new per-species values into the
        update and points passes through the GUI controllers' callbacks;
        those are left out with the GUI, so here the passes keep the
        uniforms they were built with. */
    method RandomizeSettings(teamIndex: int, draws: seq<TeamDraws>)
      requires settings.Some? && Shaped(settings.value)
      requires teamIndex == -1 || 0 <= teamIndex < 3
      requires |draws| == (if teamIndex == -1 then 3 else 1)
      requires forall i :: 0 <= i < |draws| ==> TeamDrawsShaped(draws[i])
      modifies this
      ensures settings == Some(if teamIndex == -1 then RandomizeAll(old(settings).value, draws)
                               else RandomizedTeam(old(settings).value, teamIndex, draws[0]))
      ensures time == old(time) && dimensions == old(dimensions) && container == old(container)
      ensures width == old(width) && height == old(height) && mousePos == old(mousePos)
      ensures SameStage() && SamePasses() && SameFinal()
      ensures old(Ready()) ==> (Ready() == true)
      decreases if teamIndex == -1 then 1 else 0
    {
      if teamIndex == -1 {
        RandomizeSettings(0, draws[..1]);
        RandomizeSettings(1, draws[1..2]);
        RandomizeSettings(2, draws[2..]);
        return;
      }
      var s := RandomizeTeam(settings.value, teamIndex, draws[0]);
      settings := Some(s);
    }

    /** `getUpdateDotsShader(data)`: builds the update pass from the
        settings, the field size and the pointer when there is none, and
        returns the pass. */
    method GetUpdateDotsShader(data: Option<seq<real>>) returns (u: PingPongShader)
      requires settings.Some? && Shaped(settings.value)
      modifies this
      ensures SameState() && SameStage() && SameFinal()
      ensures diffuseShader == old(diffuseShader) && renderDotsShader == old(renderDotsShader)
      ensures u == updateDotsShader
      ensures old(updateDotsShader) != null ==> u == old(updateDotsShader)
      ensures old(updateDotsShader) == null ==>
        fresh(u.Repr) && PingPongReady(u) && UpdateDotsBuilt(u, settings.value, width, height, mousePos, data)
    {
      if updateDotsShader == null {
        updateDotsShader := BuildUpdateDots(settings.value, width, height, mousePos, data);
      }
      u := updateDotsShader;
    }

    /** `getRenderDotsShader(pos, uvs)`: builds the points pass from the
        settings, the field size and the vertex arrays when there is none,
        and returns the pass. */
    method GetRenderDotsShader(pos: seq<real>, uvs: seq<real>) returns (p: Shader)
      requires settings.Some?
      modifies this
      ensures SameState() && SameStage() && SameFinal()
      ensures diffuseShader == old(diffuseShader) && updateDotsShader == old(updateDotsShader)
      ensures p == renderDotsShader
      ensures old(renderDotsShader) != null ==> p == old(renderDotsShader)
      ensures old(renderDotsShader) == null ==>
        && fresh(p.Repr) && PointsReady(p)
        && p.width == Some(width) && p.height == Some(height)
        && p.uniforms == RenderDotsUniforms(settings.value, width, height)
        && p.attributes == map["position" := Attribute(pos, 3), "uv" := Attribute(uvs, 2)]
    {
      if renderDotsShader == null {
        renderDotsShader := BuildRenderDots(settings.value, width, height, pos, uvs);
      }
      p := renderDotsShader;
    }

    /** Every pass but the update pass is ready and separate from the
        others, from this object and from the renderer, which draws to the
        screen; there is no update pass. */
    ghost predicate Detached()
      reads this, renderer, diffuseShader, renderDotsShader
      reads if diffuseShader != null then diffuseShader.Repr else {}
      reads if renderDotsShader != null then renderDotsShader.Repr else {}
    {
      && renderer != null && diffuseShader != null && renderDotsShader != null && updateDotsShader == null
      && PingPongReady(diffuseShader) && PointsReady(renderDotsShader) && renderer.target == null
      && diffuseShader.Repr !! renderDotsShader.Repr
      && {this, renderer} !! diffuseShader.Repr && {this, renderer} !! renderDotsShader.Repr
    }

    /** `this.getUpdateDotsShader().dispose()` and
        `this.updateDotsShader = null`: a missing pass is built (without
        data) only to be disposed of. */
    method DisposeUpdateDots()
      requires settings.Some? && Shaped(settings.value)
      requires updateDotsShader != null ==> PingPongReady(updateDotsShader) && this !in updateDotsShader.Repr
      modifies this, if updateDotsShader != null then updateDotsShader.Repr else {}
      ensures SameState() && SameStage() && SameFinal()
      ensures diffuseShader == old(diffuseShader) && renderDotsShader == old(renderDotsShader)
      ensures updateDotsShader == null
      ensures old(updateDotsShader) != null ==> old(updateDotsShader).Disposed()
      ensures old(Ready()) ==> Detached()
    {
      var current := GetUpdateDotsShader(None);
      var err := current.Dispose();
      updateDotsShader := null;
    }

    /** `this.getUpdateDotsShader(data)` with no update pass: a new one
        around `data`, which makes a detached set of passes ready again. */
    method RebuildUpdateDots(data: seq<real>)
      requires settings.Some? && Shaped(settings.value) && updateDotsShader == null
      modifies this
      ensures SameState() && SameStage() && SameFinal()
      ensures diffuseShader == old(diffuseShader) && renderDotsShader == old(renderDotsShader)
      ensures updateDotsShader != null && fresh(updateDotsShader.Repr) && PingPongReady(updateDotsShader)
      ensures UpdateDotsBuilt(updateDotsShader, settings.value, width, height, mousePos, Some(data))
      ensures old(Detached()) ==> (Ready() == true)
    {
      var u := GetUpdateDotsShader(Some(data));
    }

    /** `resetPositions()`: seed every agent, dispose of the update pass
        (building one first if there is none) and build a new one around
        the seeded agents. Ready passes stay ready. */
    method ResetPositions(d: SeedDraws, cos: real -> real, sin: real -> real)
      requires settings.Some? && Shaped(settings.value) && SeedDrawsFor(Side, d)
      requires updateDotsShader != null ==> PingPongReady(updateDotsShader) && this !in updateDotsShader.Repr
      modifies this, if updateDotsShader != null then updateDotsShader.Repr else {}
      ensures SameState() && SameStage() && SameFinal()
      ensures diffuseShader == old(diffuseShader) && renderDotsShader == old(renderDotsShader)
      ensures updateDotsShader != null && fresh(updateDotsShader.Repr)
      ensures UpdateSeeded(updateDotsShader, settings.value, width, height, mousePos, d, cos, sin)
      ensures old(updateDotsShader) != null ==> old(updateDotsShader).Disposed()
      ensures old(Ready()) ==> (Ready() == true)
    {
      var data := SeedData(width, height, d, cos, sin);
      DisposeUpdateDots();
      RebuildUpdateDots(data);
    }

    /** `getDataArrays(n)`: zero positions and the agents' uvs for `n`
        vertices, after `resetPositions()` has rebuilt the update pass. */
    method GetDataArrays(n: nat, d: SeedDraws, cos: real -> real, sin: real -> real)
      returns (pos: array<real>, uvs: array<real>)
      requires settings.Some? && Shaped(settings.value) && SeedDrawsFor(Side, d)
      requires updateDotsShader != null ==> PingPongReady(updateDotsShader) && this !in updateDotsShader.Repr
      modifies this, if updateDotsShader != null then updateDotsShader.Repr else {}
      ensures fresh(pos) && fresh(uvs) && pos[..] == Zeros(3 * n) && uvs[..] == AgentUvs(n)
      ensures SameState() && SameStage() && SameFinal()
      ensures diffuseShader == old(diffuseShader) && renderDotsShader == old(renderDotsShader)
      ensures updateDotsShader != null && fresh(updateDotsShader.Repr)
      ensures UpdateSeeded(updateDotsShader, settings.value, width, height, mousePos, d, cos, sin)
      ensures old(updateDotsShader) != null ==> old(updateDotsShader).Disposed()
    {
      pos, uvs := DataArrays(Side, n);
      assert pos[..] == Zeros(3 * n);
      assert uvs[..] == AgentUvs(n);
      ResetPositions(d, cos, sin);
    }

    /** `initShaders()`: the vertex arrays for every agent (which also seeds
        the update pass), then the diffuse/decay pass, the points pass and
        the final material. */
    method InitShaders(d: SeedDraws, cos: real -> real, sin: real -> real) returns (err: Option<Error>)
      requires settings.Some? && Shaped(settings.value) && SeedDrawsFor(Side, d)
      requires renderer != null && renderer.target == null && scene != null
      requires diffuseShader == null && updateDotsShader == null && renderDotsShader == null
      modifies this, scene
      ensures SameState() && SameStage()
      ensures err == Some(MissingParameters) <==> width == 0 || height == 0
      ensures err == Some(InvalidArrayLength) <==> width != 0 && height != 0 && width * height < 0
      ensures updateDotsShader != null && fresh(updateDotsShader.Repr)
      ensures UpdateSeeded(updateDotsShader, settings.value, width, height, mousePos, d, cos, sin)
      ensures err.Some? ==> diffuseShader == null && renderDotsShader == null && SameFinal()
      ensures err.None? ==>
        && (Ready() == true) && fresh(diffuseShader.Repr) && fresh(renderDotsShader.Repr)
        && renderDotsShader.attributes == map["position" := Attribute(Zeros(3 * (Side * Side)), 3),
                                              "uv" := Attribute(AgentUvs(Side * Side), 2)]
        && finalUniforms == FinalUniforms(settings.value)
        && fresh(finalMesh) && scene.children == old(scene.children) + {finalMesh}
    {
      var pos, uvs := GetDataArrays(Side * Side, d, cos, sin);
      err := InitDrawPasses(pos[..], uvs[..]);
    }

    /** The rest of `initShaders()` once the update pass exists: the
        diffuse/decay pass, whose failing `create` throws before anything
        else is built, then the points pass over the vertex arrays and the
        final material. */
    method InitDrawPasses(pos: seq<real>, uvs: seq<real>) returns (err: Option<Error>)
      requires settings.Some? && Shaped(settings.value)
      requires renderer != null && renderer.target == null && scene != null
      requires updateDotsShader != null && PingPongReady(updateDotsShader)
      requires {this, renderer, scene} !! updateDotsShader.Repr
      requires diffuseShader == null && renderDotsShader == null
      modifies this, scene
      ensures SameState() && SameStage() && updateDotsShader == old(updateDotsShader)
      ensures err == Some(MissingParameters) <==> width == 0 || height == 0
      ensures err == Some(InvalidArrayLength) <==> width != 0 && height != 0 && width * height < 0
      ensures err.Some? ==> diffuseShader == null && renderDotsShader == null && SameFinal()
      ensures err.None? ==>
        && Ready() && fresh(diffuseShader.Repr) && fresh(renderDotsShader.Repr)
        && diffuseShader.width == width && diffuseShader.height == height && diffuseShader.renderTarget0 != null
        && diffuseShader.uniforms == map[InputTexture := Sampler(diffuseShader.renderTarget0.texture)]
                                     + DiffuseUniforms(settings.value, width, height)
        && renderDotsShader.uniforms == RenderDotsUniforms(settings.value, width, height)
        && renderDotsShader.attributes == map["position" := Attribute(pos, 3), "uv" := Attribute(uvs, 2)]
        && finalUniforms == FinalUniforms(settings.value)
        && fresh(finalMesh) && scene.children == old(scene.children) + {finalMesh}
    {
      var r := BuildDiffuse(settings.value, width, height);
      if r.Err? {
        return Some(r.error);
      }
      diffuseShader := r.value;
      InitPoints(pos, uvs);
      InitFinalMat();
      err := None;
    }

    /** `this.getRenderDotsShader(pos, uvs)` once the two ping-pong passes
        exist: the new points pass completes a ready set of passes. */
    method InitPoints(pos: seq<real>, uvs: seq<real>)
      requires settings.Some? && renderer != null && renderer.target == null && scene != null
      requires diffuseShader != null && PingPongReady(diffuseShader)
      requires updateDotsShader != null && PingPongReady(updateDotsShader)
      requires diffuseShader.Repr !! updateDotsShader.Repr
      requires {this, renderer, scene} !! diffuseShader.Repr && {this, renderer, scene} !! updateDotsShader.Repr
      requires renderDotsShader == null
      modifies this
      ensures SameState() && SameStage() && SameFinal()
      ensures diffuseShader == old(diffuseShader) && updateDotsShader == old(updateDotsShader)
      ensures Ready() && fresh(renderDotsShader.Repr)
      ensures Separate(diffuseShader, updateDotsShader, renderDotsShader, {scene})
      ensures renderDotsShader.uniforms == RenderDotsUniforms(settings.value, width, height)
      ensures renderDotsShader.attributes == map["position" := Attribute(pos, 3), "uv" := Attribute(uvs, 2)]
    {
      var p := GetRenderDotsShader(pos, uvs);
    }

    /** `initFinalMat()`: the final material's uniforms from the settings,
        and a new mesh for it added to the scene. */
    method InitFinalMat()
      requires settings.Some? && Shaped(settings.value) && scene != null
      modifies this, scene
      ensures SameState() && SameStage() && SamePasses()
      ensures finalUniforms == FinalUniforms(settings.value)
      ensures finalMesh != null && fresh(finalMesh) && scene.children == old(scene.children) + {finalMesh}
    {
      finalUniforms := FinalUniforms(settings.value);
      finalMesh := new Mesh();
      scene.Add(finalMesh);
    }

    /** `this.time++` and the three offscreen passes of `render()`. */
    method Offscreen()
      requires Ready()
      modifies this, renderer, diffuseShader, diffuseShader.mesh, updateDotsShader, updateDotsShader.mesh
      modifies renderDotsShader, renderDotsShader.mesh
      ensures (Ready() == true) && Unmoved() && MeshesKept()
      ensures time == old(time) + 1 && mousePos == old(mousePos) && settings == old(settings)
      ensures finalUniforms == old(finalUniforms)
      ensures renderer.trace == old(renderer.trace) + [Draw(diffuseShader.nextRenderTarget.texture, diffuseShader.uniforms),
        Draw(updateDotsShader.nextRenderTarget.texture, updateDotsShader.uniforms),
        Draw(renderDotsShader.texture, renderDotsShader.uniforms)]
      ensures OffscreenSamples(Draw(diffuseShader.nextRenderTarget.texture, diffuseShader.uniforms),
        Draw(updateDotsShader.nextRenderTarget.texture, updateDotsShader.uniforms),
        Draw(renderDotsShader.texture, renderDotsShader.uniforms), time, Vec2(mousePos.0, mousePos.1),
        renderDotsShader.texture, diffuseShader.currentRenderTarget.texture, updateDotsShader.currentRenderTarget.texture)
      ensures HazardFree(Draw(diffuseShader.nextRenderTarget.texture, diffuseShader.uniforms))
      ensures HazardFree(Draw(updateDotsShader.nextRenderTarget.texture, updateDotsShader.uniforms))
      ensures HazardFree(Draw(renderDotsShader.texture, renderDotsShader.uniforms))
    {
      time := time + 1;
      Frame(diffuseShader, updateDotsShader, renderDotsShader, renderer, {this}, time, Vec2(mousePos.0, mousePos.1));
    }

    /** `finalMat.uniforms.pointsTexture.value = renderDotsShader.getTexture()`
        and `finalMat.uniforms.diffuseTexture.value = diffuseShader.getTexture()`. */
    method BindFinal()
      requires Ready()
      modifies this
      ensures (Ready() == true) && Unmoved()
      ensures time == old(time) && mousePos == old(mousePos) && settings == old(settings)
      ensures finalUniforms == old(finalUniforms)["pointsTexture" := Sampler(renderDotsShader.texture)]
        ["diffuseTexture" := Sampler(diffuseShader.currentRenderTarget.texture)]
    {
      var points, trail := renderDotsShader.GetTexture().value, diffuseShader.GetTexture().value;
      finalUniforms := finalUniforms["pointsTexture" := Sampler(points)];
      finalUniforms := finalUniforms["diffuseTexture" := Sampler(trail)];
    }

    /** The pointers and sizes a frame leaves alone. */
    twostate predicate Unmoved()
      reads this
    {
      && renderer == old(renderer) && diffuseShader == old(diffuseShader)
      && updateDotsShader == old(updateDotsShader) && renderDotsShader == old(renderDotsShader)
      && width == old(width) && height == old(height) && finalMesh == old(finalMesh)
      && scene == old(scene) && camera == old(camera)
    }

    /** The passes keep their meshes, so a caller that may change them
        before a frame may still change them after it. */
    twostate predicate MeshesKept()
      requires old(diffuseShader) != null && old(updateDotsShader) != null && old(renderDotsShader) != null
      requires Unmoved()
      reads this, diffuseShader, updateDotsShader, renderDotsShader
    {
      && diffuseShader.mesh == old(diffuseShader.mesh) && updateDotsShader.mesh == old(updateDotsShader.mesh)
      && renderDotsShader.mesh == old(renderDotsShader.mesh)
    }

    /** The last part of `render()`: bind the points just drawn and the
        trail map to the final material, then size, clear and draw it to
        the screen through the composer. */
    method Composite()
      requires Ready() && scene != null && camera != null
      modifies this, renderer
      ensures (Ready() == true) && Unmoved()
      ensures time == old(time) && mousePos == old(mousePos) && settings == old(settings)
      ensures finalUniforms == old(finalUniforms)["pointsTexture" := Sampler(renderDotsShader.texture)]
        ["diffuseTexture" := Sampler(diffuseShader.currentRenderTarget.texture)]
      ensures renderer.width == Some(width) && renderer.height == Some(height)
      ensures renderer.trace == old(renderer.trace) + [Pass.Clear, Draw(null, finalUniforms)]
    {
      BindFinal();
      Screen();
    }

    /** The screen pass: size, clear, composer. */
    method Screen()
      requires Ready() && scene != null && camera != null
      modifies renderer
      ensures (Ready() == true)
      ensures renderer.width == Some(width) && renderer.height == Some(height)
      ensures renderer.trace == old(renderer.trace) + [Pass.Clear, Draw(null, finalUniforms)]
    {
      ScreenPass(renderer, scene, camera, width, height, finalUniforms);
    }

    /** `render()`: advance the clock by one and run the frame's passes in
        order: the three offscreen passes (`Offscreen` states what each
        samples and that none samples the texture it writes), then the final
        material, which samples the points just drawn and the trail map the
        diffuse pass read (not the one it just wrote, since `getTexture()`
        after a render returns the input). */
    method Render()
      requires Ready() && scene != null && camera != null
      modifies this, renderer, diffuseShader, diffuseShader.mesh, updateDotsShader, updateDotsShader.mesh
      modifies renderDotsShader, renderDotsShader.mesh
      ensures (Ready() == true)
      ensures Unmoved() && MeshesKept() && time == old(time) + 1 && settings == old(settings) && mousePos == old(mousePos)
      ensures renderer.width == Some(width) && renderer.height == Some(height)
      ensures renderer.trace == old(renderer.trace) + [Draw(diffuseShader.nextRenderTarget.texture, diffuseShader.uniforms),
        Draw(updateDotsShader.nextRenderTarget.texture, updateDotsShader.uniforms),
        Draw(renderDotsShader.texture, renderDotsShader.uniforms),
        Pass.Clear, Draw(null, finalUniforms)]
      ensures finalUniforms == old(finalUniforms)["pointsTexture" := Sampler(renderDotsShader.texture)]
        ["diffuseTexture" := Sampler(diffuseShader.currentRenderTarget.texture)]
    {
      Offscreen();
      Composite();
    }
  }
}
