/** The simulation settings of src/Physarum/Physarum.js and
    src/Physarum/Physarum.tsx and their randomisation. There are three
    species (teams); every per-species setting is an array of three, and
    the attraction of species `t` to species `j` is `attract<t>[j]`, written
    `attract[t][j]` here. */
module Species {
  import opened Random

  /** The settings object (the fields of `PhysarumSettings`). */
  datatype Settings = Settings(
    mouseRad: real,
    mousePlaceAmount: real,
    mousePlaceRadius: real,
    mousePlaceColor: real,
    isSobelFilter: bool,
    isMonochrome: bool,
    dotOpacity: real,
    trailOpacity: real,
    isParticleTexture: bool,
    particleTexture: string,
    decay: real,
    isDisplacement: bool,
    isRestrictToMiddle: bool,
    randChance: seq<real>,
    moveSpeed: seq<real>,
    sensorDistance: seq<real>,
    rotationAngle: seq<real>,
    sensorAngle: seq<real>,
    colors: seq<string>,
    infectious: seq<int>,
    dotSizes: seq<real>,
    attract: seq<seq<real>>)

  /** Every per-species array has one entry per species and the attraction
      table is 3 by 3. */
  predicate Shaped(s: Settings) {
    && |s.randChance| == 3 && |s.moveSpeed| == 3 && |s.sensorDistance| == 3
    && |s.rotationAngle| == 3 && |s.sensorAngle| == 3 && |s.colors| == 3
    && |s.infectious| == 3 && |s.dotSizes| == 3
    && |s.attract| == 3 && (forall t :: 0 <= t < 3 ==> |s.attract[t]| == 3)
  }

  /** The `Math.random()` values one `randomizeSettings(t)` call consumes,
      in the order it draws them. */
  datatype TeamDraws = TeamDraws(
    randChance: real,
    moveSpeed: real,
    sensorDistance: real,
    rotationAngle: real,
    sensorAngle: real,
    dotSize: real,
    attract: seq<real>)

  predicate TeamDrawsShaped(d: TeamDraws) {
    |d.attract| == 3
  }

  predicate TeamDrawsValid(d: TeamDraws) {
    && IsDraw(d.randChance) && IsDraw(d.moveSpeed) && IsDraw(d.sensorDistance)
    && IsDraw(d.rotationAngle) && IsDraw(d.sensorAngle) && IsDraw(d.dotSize)
    && |d.attract| == 3 && (forall i :: 0 <= i < 3 ==> IsDraw(d.attract[i]))
  }

  /** The attraction row species `t` gets: towards itself from [0, 1),
      towards the others from [-1, 1). */
  function AttractRow(t: int, rs: seq<real>): (row: seq<real>)
    requires |rs| == 3
    ensures |row| == 3
  {
    seq(3, i requires 0 <= i < 3 => RndFloat(if i == t then 0.0 else -1.0, 1.0, rs[i]))
  }

  /** The new sensor distance: a factor from [1.5, 6) of the new move speed,
      clamped at 50. */
  function SensorDistance(draw: real, speed: real): real {
    Min(50.0, RndFloat(1.5, 6.0, draw) * speed)
  }

  /** The new sensor angle: a factor from [1, 1.5) of the new rotation angle,
      at least 1. */
  function SensorAngle(draw: real, rotation: real): real {
    Max(1.0, RndFloat(1.0, 1.5, draw) * rotation)
  }

  /** The settings after `randomizeSettings(t)` for one species `t`. The
      sensor distance scales the new move speed and the sensor angle the new
      rotation angle. */
  function RandomizedTeam(s: Settings, t: int, d: TeamDraws): (r: Settings)
    requires Shaped(s) && 0 <= t < 3 && TeamDrawsShaped(d)
    ensures Shaped(r)
  {
    var speed := RndFloat(1.0, 5.0, d.moveSpeed);
    var rotation := RndFloat(0.3, 1.0, d.rotationAngle);
    s.(randChance := s.randChance[t := RndFloat(0.05, 0.085, d.randChance)],
       moveSpeed := s.moveSpeed[t := speed],
       sensorDistance := s.sensorDistance[t := SensorDistance(d.sensorDistance, speed)],
       rotationAngle := s.rotationAngle[t := rotation],
       sensorAngle := s.sensorAngle[t := SensorAngle(d.sensorAngle, rotation)],
       infectious := s.infectious[t := 0],
       dotSizes := s.dotSizes[t := RndFloat(1.0, 1.0, d.dotSize)],
       attract := s.attract[t := AttractRow(t, d.attract)])
  }

  /** `randomizeSettings(-1)`: species 0, 1 and 2 in turn. */
  function RandomizeAll(s: Settings, ds: seq<TeamDraws>): (r: Settings)
    requires Shaped(s) && |ds| == 3 && forall i :: 0 <= i < 3 ==> TeamDrawsShaped(ds[i])
    ensures Shaped(r)
  {
    RandomizedTeam(RandomizedTeam(RandomizedTeam(s, 0, ds[0]), 1, ds[1]), 2, ds[2])
  }

  /** The ranges a randomised species lands in. */
  predicate TeamInRange(s: Settings, t: int)
    requires Shaped(s) && 0 <= t < 3
  {
    && 0.05 <= s.randChance[t] < 0.085
    && 1.0 <= s.moveSpeed[t] < 5.0
    && 1.5 <= s.sensorDistance[t] < 30.0
    && 0.3 <= s.rotationAngle[t] < 1.0
    && 1.0 <= s.sensorAngle[t] < 1.5 && s.rotationAngle[t] <= s.sensorAngle[t]
    && s.infectious[t] == 0
    && s.dotSizes[t] == 1.0
    && (forall j :: 0 <= j < 3 ==> (if j == t then 0.0 else -1.0) <= s.attract[t][j] < 1.0)
  }

  /** Species `u`'s entries of every per-species array, and its attraction
      row, are the same in both settings. */
  predicate SameTeam(s: Settings, r: Settings, u: int)
    requires Shaped(s) && Shaped(r) && 0 <= u < 3
  {
    && s.randChance[u] == r.randChance[u] && s.moveSpeed[u] == r.moveSpeed[u]
    && s.sensorDistance[u] == r.sensorDistance[u] && s.rotationAngle[u] == r.rotationAngle[u]
    && s.sensorAngle[u] == r.sensorAngle[u] && s.infectious[u] == r.infectious[u]
    && s.dotSizes[u] == r.dotSizes[u] && s.attract[u] == r.attract[u]
  }

  /** Every field that is not per-species is the same in both settings. */
  predicate SameShared(s: Settings, r: Settings) {
    && s.mouseRad == r.mouseRad && s.mousePlaceAmount == r.mousePlaceAmount
    && s.mousePlaceRadius == r.mousePlaceRadius && s.mousePlaceColor == r.mousePlaceColor
    && s.isSobelFilter == r.isSobelFilter && s.isMonochrome == r.isMonochrome
    && s.dotOpacity == r.dotOpacity && s.trailOpacity == r.trailOpacity
    && s.isParticleTexture == r.isParticleTexture && s.particleTexture == r.particleTexture
    && s.decay == r.decay && s.isDisplacement == r.isDisplacement
    && s.isRestrictToMiddle == r.isRestrictToMiddle && s.colors == r.colors
  }

  /** Signs of a product. */
  lemma ProductSign(a: real, b: real)
    ensures a >= 0.0 && b >= 0.0 ==> a * b >= 0.0
    ensures a > 0.0 && b > 0.0 ==> a * b > 0.0
  {
  }

  /** A sensor-distance factor from [1.5, 6) times a move speed from [1, 5)
      lies in [1.5, 30), so the clamp at 50 never bites. */
  lemma {:induction false} SensorDistanceBounds(factor: real, speed: real, product: real)
    requires product == factor * speed && 1.5 <= factor < 6.0 && 1.0 <= speed < 5.0
    ensures 1.5 <= product < 30.0
  {
    ProductSign(factor - 1.5, speed - 1.0);
    ProductSign(6.0 - factor, speed);
  }

  /** A sensor-angle factor from [1, 1.5) times a rotation angle from
      [0.3, 1) lies in [0.3, 1.5) and is at least the rotation angle. */
  lemma {:induction false} SensorAngleBounds(factor: real, rotation: real, product: real)
    requires product == factor * rotation && 1.0 <= factor < 1.5 && 0.3 <= rotation < 1.0
    ensures 0.3 <= product < 1.5 && rotation <= product
  {
    ProductSign(factor - 1.0, rotation);
    ProductSign(1.5 - factor, rotation);
  }

  /** With draws from [0, 1), `randomizeSettings(t)` puts species `t` in
      range: chance in [0.05, 0.085), speed in [1, 5), sensor distance in
      [1.5, 30) (so at most 50), rotation in [0.3, 1), sensor angle in
      [1, 1.5) and no smaller than the rotation, not infectious, dot size 1,
      self-attraction in [0, 1) and attraction to the others in [-1, 1). */
  lemma {:induction false} RandomizedTeamInRange(s: Settings, t: int, d: TeamDraws)
    requires Shaped(s) && 0 <= t < 3 && TeamDrawsValid(d)
    ensures TeamInRange(RandomizedTeam(s, t, d), t)
  {
    var r := RandomizedTeam(s, t, d);
    var speed := RndFloat(1.0, 5.0, d.moveSpeed);
    var rotation := RndFloat(0.3, 1.0, d.rotationAngle);
    var distance := RndFloat(1.5, 6.0, d.sensorDistance);
    var angle := RndFloat(1.0, 1.5, d.sensorAngle);
    SensorDistanceBounds(distance, speed, distance * speed);
    SensorAngleBounds(angle, rotation, angle * rotation);
    assert r.sensorDistance[t] == Min(50.0, distance * speed);
    assert r.sensorAngle[t] == Max(1.0, angle * rotation);
    forall j | 0 <= j < 3
      ensures (if j == t then 0.0 else -1.0) <= r.attract[t][j] < 1.0
    {
      assert r.attract[t][j] == RndFloat(if j == t then 0.0 else -1.0, 1.0, d.attract[j]);
    }
  }

  /** `randomizeSettings(t)` touches species `t` only: the other species and
      every shared field keep their values. */
  lemma {:induction false} RandomizedTeamFrame(s: Settings, t: int, d: TeamDraws, u: int)
    requires Shaped(s) && 0 <= t < 3 && TeamDrawsShaped(d) && 0 <= u < 3 && u != t
    ensures SameTeam(s, RandomizedTeam(s, t, d), u)
    ensures SameShared(s, RandomizedTeam(s, t, d))
  {
  }

  /** After `randomizeSettings(-1)` every species is in range. */
  lemma {:induction false} RandomizeAllInRange(s: Settings, ds: seq<TeamDraws>)
    requires Shaped(s) && |ds| == 3 && forall i :: 0 <= i < 3 ==> TeamDrawsShaped(ds[i]) && TeamDrawsValid(ds[i])
    ensures forall t :: 0 <= t < 3 ==> TeamInRange(RandomizeAll(s, ds), t)
    ensures SameShared(s, RandomizeAll(s, ds))
  {
    var s0 := RandomizedTeam(s, 0, ds[0]);
    var s1 := RandomizedTeam(s0, 1, ds[1]);
    var s2 := RandomizedTeam(s1, 2, ds[2]);
    RandomizedTeamInRange(s, 0, ds[0]);
    RandomizedTeamInRange(s0, 1, ds[1]);
    RandomizedTeamInRange(s1, 2, ds[2]);
    RandomizedTeamFrame(s0, 1, ds[1], 0);
    RandomizedTeamFrame(s1, 2, ds[2], 0);
    RandomizedTeamFrame(s1, 2, ds[2], 1);
    RandomizedTeamFrame(s, 0, ds[0], 1);
    assert TeamInRange(s2, 0) by { InRangeKept(s0, s2, 0); }
    assert TeamInRange(s2, 1) by { InRangeKept(s1, s2, 1); }
  }

  /** Being in range only depends on the species' own entries. */
  lemma InRangeKept(s: Settings, r: Settings, u: int)
    requires Shaped(s) && Shaped(r) && 0 <= u < 3 && SameTeam(s, r, u) && TeamInRange(s, u)
    ensures TeamInRange(r, u)
  {
  }

  /** A randomised species does not depend on what it held before. */
  lemma {:induction false} RandomizedTeamForgets(s: Settings, s': Settings, t: int, d: TeamDraws)
    requires Shaped(s) && Shaped(s') && 0 <= t < 3 && TeamDrawsShaped(d)
    ensures SameTeam(RandomizedTeam(s, t, d), RandomizedTeam(s', t, d), t)
  {
  }

  /** `randomizeSettings(t)` for one species, in the source's statement
      order: six draws with the two clamps, then the loop over the
      attraction row. */
  method RandomizeTeam(s: Settings, t: int, d: TeamDraws) returns (r: Settings)
    requires Shaped(s) && 0 <= t < 3 && TeamDrawsShaped(d)
    ensures r == RandomizedTeam(s, t, d)
  {
    var speed := RndFloat(1.0, 5.0, d.moveSpeed);
    var rotation := RndFloat(0.3, 1.0, d.rotationAngle);
    r := s.(randChance := s.randChance[t := RndFloat(0.05, 0.085, d.randChance)],
            moveSpeed := s.moveSpeed[t := speed],
            sensorDistance := s.sensorDistance[t := SensorDistance(d.sensorDistance, speed)],
            rotationAngle := s.rotationAngle[t := rotation],
            sensorAngle := s.sensorAngle[t := SensorAngle(d.sensorAngle, rotation)],
            infectious := s.infectious[t := 0],
            dotSizes := s.dotSizes[t := RndFloat(1.0, 1.0, d.dotSize)]);
    var row := DrawAttractRow(s.attract[t], t, d.attract);
    r := r.(attract := r.attract[t := row]);
  }

  /** The loop of `randomizeSettings(t)` that overwrites species `t`'s
      attraction row entry by entry. */
  method DrawAttractRow(old_row: seq<real>, t: int, rs: seq<real>) returns (row: seq<real>)
    requires |old_row| == 3 && |rs| == 3
    ensures row == AttractRow(t, rs)
  {
    row := old_row;
    var i := 0;
    while i < 3
      invariant 0 <= i <= 3 && |row| == 3
      invariant row[..i] == AttractRow(t, rs)[..i]
    {
      row := row[i := RndFloat(if i == t then 0.0 else -1.0, 1.0, rs[i])];
      i := i + 1;
    }
    assert row == row[..3];
  }

  /** The `Math.random()` values `initSettings` consumes before its closing
      `randomizeSettings(-1)`. */
  datatype InitDraws = InitDraws(
    moveSpeed: seq<real>,
    rotationAngle: seq<real>,
    randChance: seq<real>,
    sensorDistance: seq<real>,
    sensorAngle: seq<real>,
    infectious: seq<real>,
    attract: seq<seq<real>>)

  predicate InitDrawsShaped(d: InitDraws) {
    && |d.moveSpeed| == 3 && |d.rotationAngle| == 3 && |d.randChance| == 3
    && |d.sensorDistance| == 3 && |d.sensorAngle| == 3 && |d.infectious| == 3
    && |d.attract| == 3 && (forall t :: 0 <= t < 3 ==> |d.attract[t]| == 3)
  }

  /** The shared fields `initSettings` fixes: the given `mouseRad` and
      `isMonochrome`, 200 agents placed in a radius of 50 on a click, no
      Sobel filter, invisible dots over an opaque trail map, no particle
      texture, a decay of 0.97, displacement on, no restriction to the
      middle, and the three species' colours. */
  predicate InitialShared(s: Settings, mouseRad: real, isMonochrome: bool) {
    && s.mouseRad == mouseRad && s.mousePlaceAmount == 200.0
    && s.mousePlaceRadius == 50.0 && s.mousePlaceColor == 0.0
    && !s.isSobelFilter && s.isMonochrome == isMonochrome
    && s.dotOpacity == 0.0 && s.trailOpacity == 1.0
    && !s.isParticleTexture && s.particleTexture == "None"
    && s.decay == 0.97 && s.isDisplacement && !s.isRestrictToMiddle
    && s.colors == ["rgb(255,250,60)", "rgb(255,0,0)", "rgb(92,255,111)"]
  }

  /** The settings object `initSettings` builds, before its closing
      `randomizeSettings(-1)`; the two programs differ only in `mouseRad`
      and `isMonochrome`. */
  function InitialSettings(mouseRad: real, isMonochrome: bool, d: InitDraws): (s: Settings)
    requires InitDrawsShaped(d)
    ensures Shaped(s)
    ensures InitialShared(s, mouseRad, isMonochrome) && s.dotSizes == [1.0, 1.0, 1.0]
  {
    Settings(
      mouseRad := mouseRad,
      mousePlaceAmount := 200.0,
      mousePlaceRadius := 50.0,
      mousePlaceColor := 0.0,
      isSobelFilter := false,
      isMonochrome := isMonochrome,
      dotOpacity := 0.0,
      trailOpacity := 1.0,
      isParticleTexture := false,
      particleTexture := "None",
      decay := 0.97,
      isDisplacement := true,
      isRestrictToMiddle := false,
      randChance := seq(3, i requires 0 <= i < 3 => RndFloat(0.05, 0.085, d.randChance[i])),
      moveSpeed := seq(3, i requires 0 <= i < 3 => RndFloat(1.0, 2.5, d.moveSpeed[i])),
      sensorDistance := seq(3, i requires 0 <= i < 3 =>
        Min(50.0, RndFloat(1.5, 3.0, d.sensorDistance[i]) * RndFloat(1.0, 2.5, d.moveSpeed[i]))),
      rotationAngle := seq(3, i requires 0 <= i < 3 => RndFloat(0.1, 0.3, d.rotationAngle[i])),
      sensorAngle := seq(3, i requires 0 <= i < 3 =>
        Max(1.0, RndFloat(1.0, 1.5, d.sensorAngle[i]) * RndFloat(0.1, 0.3, d.rotationAngle[i]))),
      colors := ["rgb(255,250,60)", "rgb(255,0,0)", "rgb(92,255,111)"],
      infectious := seq(3, i requires 0 <= i < 3 => RndInt(0.0, 1.0, d.infectious[i])),
      dotSizes := [1.0, 1.0, 1.0],
      attract := seq(3, t requires 0 <= t < 3 =>
        seq(3, j requires 0 <= j < 3 => if j == t then RndFloat(0.1, 1.0, d.attract[t][j]) else RndFloat(-1.0, 0.0, d.attract[t][j]))))
  }

  /** The closing `randomizeSettings(-1)` overwrites every per-species value
      `initSettings` drew, so the settings it leaves do not depend on those
      first draws at all. */
  lemma {:induction false} InitialDrawsOverwritten(mouseRad: real, isMonochrome: bool, d: InitDraws, d': InitDraws, ds: seq<TeamDraws>)
    requires InitDrawsShaped(d) && InitDrawsShaped(d')
    requires |ds| == 3 && forall i :: 0 <= i < 3 ==> TeamDrawsShaped(ds[i])
    ensures RandomizeAll(InitialSettings(mouseRad, isMonochrome, d), ds)
         == RandomizeAll(InitialSettings(mouseRad, isMonochrome, d'), ds)
  {
    var a := InitialSettings(mouseRad, isMonochrome, d);
    var b := InitialSettings(mouseRad, isMonochrome, d');
    var ra := RandomizeAll(a, ds);
    var rb := RandomizeAll(b, ds);
    var a0, b0 := RandomizedTeam(a, 0, ds[0]), RandomizedTeam(b, 0, ds[0]);
    var a1, b1 := RandomizedTeam(a0, 1, ds[1]), RandomizedTeam(b0, 1, ds[1]);
    RandomizedTeamForgets(a, b, 0, ds[0]);
    RandomizedTeamForgets(a0, b0, 1, ds[1]);
    RandomizedTeamForgets(a1, b1, 2, ds[2]);
    RandomizedTeamFrame(a0, 1, ds[1], 0);
    RandomizedTeamFrame(b0, 1, ds[1], 0);
    RandomizedTeamFrame(a1, 2, ds[2], 0);
    RandomizedTeamFrame(b1, 2, ds[2], 0);
    RandomizedTeamFrame(a1, 2, ds[2], 1);
    RandomizedTeamFrame(b1, 2, ds[2], 1);
    assert SameTeam(ra, rb, 0) && SameTeam(ra, rb, 1) && SameTeam(ra, rb, 2);
    SameTeamsEqual(ra, rb);
  }

  /** `randomizeSettings(-1)` keeps every shared field, and every dot size
      it writes is 1. */
  lemma {:induction false} RandomizeAllShared(s: Settings, ds: seq<TeamDraws>)
    requires Shaped(s) && |ds| == 3 && forall i :: 0 <= i < 3 ==> TeamDrawsShaped(ds[i])
    ensures SameShared(s, RandomizeAll(s, ds))
    ensures RandomizeAll(s, ds).dotSizes == [1.0, 1.0, 1.0]
  {
    var s0 := RandomizedTeam(s, 0, ds[0]);
    var s1 := RandomizedTeam(s0, 1, ds[1]);
    RandomizedTeamFrame(s, 0, ds[0], 1);
    RandomizedTeamFrame(s0, 1, ds[1], 0);
    RandomizedTeamFrame(s1, 2, ds[2], 0);
  }

  /** So the settings `initSettings` leaves keep the fixed shared values and
      dots of size 1, whatever the draws. */
  lemma {:induction false} InitialSettingsKept(mouseRad: real, isMonochrome: bool, d: InitDraws, ds: seq<TeamDraws>)
    requires InitDrawsShaped(d)
    requires |ds| == 3 && forall i :: 0 <= i < 3 ==> TeamDrawsShaped(ds[i])
    ensures InitialShared(RandomizeAll(InitialSettings(mouseRad, isMonochrome, d), ds), mouseRad, isMonochrome)
    ensures RandomizeAll(InitialSettings(mouseRad, isMonochrome, d), ds).dotSizes == [1.0, 1.0, 1.0]
  {
    RandomizeAllShared(InitialSettings(mouseRad, isMonochrome, d), ds);
  }

  /** Two shaped settings that agree on every species and every shared field
      are equal. */
  lemma SameTeamsEqual(s: Settings, r: Settings)
    requires Shaped(s) && Shaped(r) && SameShared(s, r)
    requires SameTeam(s, r, 0) && SameTeam(s, r, 1) && SameTeam(s, r, 2)
    ensures s == r
  {
    assert s.randChance == r.randChance;
    assert s.moveSpeed == r.moveSpeed;
    assert s.sensorDistance == r.sensorDistance;
    assert s.rotationAngle == r.rotationAngle;
    assert s.sensorAngle == r.sensorAngle;
    assert s.infectious == r.infectious;
    assert s.dotSizes == r.dotSizes;
    assert s.attract == r.attract;
  }
}
