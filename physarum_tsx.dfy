/** src/Physarum/Physarum.tsx: the typed rewrite of the orchestrator, which
    so far sets up the scene, the mouse position and the settings. */
module PhysarumTsx {
  import opened Gl
  import opened Options
  import opened Species

  class Physarum {
    var time: int
    var dimensions: Dimensions
    var container: Option<Container>
    var scene: Scene?
    var camera: Camera?
    var renderer: Renderer?
    var mousePos: Option<(real, real)>
    /** Undefined until `initSettings`. */
    var settings: Option<Settings>

    /** The clock starts at 0 and the dimensions follow the options; nothing
        else is created yet. */
    constructor (options: ConstructorOptions)
      ensures time == 0 && dimensions == InitialDimensions(options) && container == options.container
      ensures scene == null && camera == null && renderer == null
      ensures mousePos == None && settings == None
    {
      time := 0;
      var width := OrDefault(options.width, 800);
      var height := OrDefault(options.height, 600);
      dimensions := Dimensions(width, height);
      container := None;
      if options.container.Some? {
        container := options.container;
        dimensions := Dimensions(options.container.value.clientWidth, options.container.value.clientHeight);
      }
      scene := null;
      camera := null;
      renderer := null;
      mousePos := None;
      settings := None;
    }

    /** `init()`: the scene, then, only when the browser supports WebGL2,
        the mouse position. */
    method Init(isWebGL2: bool)
      modifies this
      ensures fresh(scene) && fresh(camera) && fresh(renderer)
      ensures SceneReady()
      ensures mousePos == (if isWebGL2 then Some((0.0, 0.0)) else old(mousePos))
      ensures time == old(time) && dimensions == old(dimensions) && container == old(container) && settings == old(settings)
    {
      InitScene();
      if !isWebGL2 {
        return;
      }
      InitMouse();
    }

    /** A centred orthographic camera over the field (near 0.1, far 100,
        at z = 1) and a renderer sized to the field. */
    ghost predicate SceneReady()
      reads this, camera, renderer, scene
    {
      && scene != null && camera != null && renderer != null
      && scene.children == {}
      && var w, h := dimensions.width as real, dimensions.height as real;
         && camera.frustum == Some(Frustum(-w / 2.0, w / 2.0, h / 2.0, -h / 2.0))
         && camera.near == 0.1 && camera.far == 100.0 && camera.z == 1.0
         && renderer.width == Some(dimensions.width) && renderer.height == Some(dimensions.height)
         && renderer.target == null && renderer.trace == []
    }

    /** `initScene()`. */
    method InitScene()
      modifies this
      ensures fresh(scene) && fresh(camera) && fresh(renderer)
      ensures SceneReady()
      ensures time == old(time) && dimensions == old(dimensions) && container == old(container)
      ensures mousePos == old(mousePos) && settings == old(settings)
    {
      scene := new Scene();
      var w, h := dimensions.width, dimensions.height;
      camera := new Camera(Some(Frustum(-(w as real) / 2.0, w as real / 2.0, h as real / 2.0, -(h as real) / 2.0)), 0.1, 100.0);
      camera.SetZ(1.0);
      renderer := new Renderer();
      renderer.SetSize(Some(w), Some(h));
    }

    /** `initMouse()`: the pointer starts at the centre. */
    method InitMouse()
      modifies this
      ensures mousePos == Some((0.0, 0.0))
      ensures time == old(time) && dimensions == old(dimensions) && container == old(container)
      ensures scene == old(scene) && camera == old(camera) && renderer == old(renderer) && settings == old(settings)
    {
      mousePos := Some((0.0, 0.0));
    }

    /** `initSettings()`: the settings record with `mouseRad` 100 and
        monochrome rendering on, then `randomizeSettings(-1)`, which keeps
        the fixed shared values (`InitialShared`) and dots of size 1. */
    method InitSettings(init: InitDraws, teams: seq<TeamDraws>)
      requires InitDrawsShaped(init)
      requires |teams| == 3 && forall i :: 0 <= i < 3 ==> TeamDrawsShaped(teams[i])
      modifies this
      ensures settings == Some(RandomizeAll(InitialSettings(100.0, true, init), teams))
      ensures settings.Some? && InitialShared(settings.value, 100.0, true) && settings.value.dotSizes == [1.0, 1.0, 1.0]
      ensures time == old(time) && dimensions == old(dimensions) && container == old(container)
      ensures scene == old(scene) && camera == old(camera) && renderer == old(renderer) && mousePos == old(mousePos)
    {
      settings := Some(InitialSettings(100.0, true, init));
      RandomizeSettings(-1, teams);
      InitialSettingsKept(100.0, true, init, teams);
    }

    /** `randomizeSettings(teamIndex)`: index -1 randomises species 0, 1
        and 2 in turn, each with its own draws; any other index one
        species. */
    method RandomizeSettings(teamIndex: int, draws: seq<TeamDraws>)
      requires settings.Some? && Shaped(settings.value)
      requires teamIndex == -1 || 0 <= teamIndex < 3
      requires |draws| == (if teamIndex == -1 then 3 else 1)
      requires forall i :: 0 <= i < |draws| ==> TeamDrawsShaped(draws[i])
      modifies this
      ensures settings == Some(if teamIndex == -1 then RandomizeAll(old(settings).value, draws)
                               else RandomizedTeam(old(settings).value, teamIndex, draws[0]))
      ensures time == old(time) && dimensions == old(dimensions) && container == old(container)
      ensures scene == old(scene) && camera == old(camera) && renderer == old(renderer) && mousePos == old(mousePos)
      decreases if teamIndex == -1 then 1 else 0
    {
      if teamIndex == -1 {
        RandomizeSettings(0, draws[..1]);
        RandomizeSettings(1, draws[1..2]);
        RandomizeSettings(2, draws[2..]);
        return;
      }
      var s := RandomizeTeam(settings.value, teamIndex, draws[0]);
      settings := Some(s);
    }
  }
}
