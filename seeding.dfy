/** The host-side data layout of src/Physarum/Physarum.js: the agents'
    start positions, directions and species (`resetPositions`) and the
    per-agent vertex data of the points pass (`getDataArrays`). There are
    `side * side` agents, `side` being the texture side (the global `WIDTH`);
    agent `i` owns four consecutive floats of the position texture and the
    texel `(i % side, i / side)`. */
module Seeding {
  import opened Random

  /** `Math.PI * 2` as a double. */
  const TwoPi: real := 6.283185307179586

  /** The four floats an agent owns: x, y, direction and species. */
  datatype Agent = Agent(x: real, y: real, angle: real, team: real)

  function Slot(a: Agent, c: int): real
    requires 0 <= c < 4
  {
    if c == 0 then a.x else if c == 1 then a.y else if c == 2 then a.angle else a.team
  }

  /** The `Math.random()` values one agent consumes: its direction, then
      (clustered) an unused radius and the distance factor, or (grid) its
      species. */
  datatype AgentDraws = AgentDraws(angle: real, radius: real, distance: real, team: real)

  /** A cluster centre `{x, y}`. */
  datatype Point = Point(x: real, y: real)

  /** The draws of one `resetPositions` call after the unused `teamAmount`:
      the layout coin, three centres, and the draws of every agent. */
  datatype SeedDraws = SeedDraws(setup: real, centres: seq<real>, agents: seq<AgentDraws>)

  /** The layout coin: `rndInt(0, 1) == 0` picks the three clusters. */
  predicate Clustered(d: SeedDraws) {
    RndInt(0.0, 1.0, d.setup) == 0
  }

  /** Centre `k` (`p0`, `p1`, `p2`): a rounded draw between the margins,
      the margin being a fifth of the shorter side. */
  function Centre(width: int, height: int, centres: seq<real>, k: int): Point
    requires |centres| == 6 && 0 <= k < 3
  {
    var marg := Min(width as real, height as real) * 0.2;
    Point(RndInt(marg, width as real - marg, centres[2 * k]) as real,
          RndInt(marg, height as real - marg, centres[2 * k + 1]) as real)
  }

  /** The cluster of agent `i` of `n`: its share `i / n` compared with 1/3
      and 2/3. */
  function Cluster(i: int, n: int): (k: int)
    requires 0 < n
    ensures 0 <= k < 3
  {
    var rnd := i as real / n as real;
    if rnd < 1.0 / 3.0 then 0 else if rnd < 2.0 / 3.0 then 1 else 2
  }

  /** The species of agent `i` in the clustered layout:
      `Math.floor((i / n - k / 3) * 3 * 3)` for its cluster `k`. */
  function ClusterTeam(i: int, n: int): int
    requires 0 < n
  {
    var k := Cluster(i, n);
    ((i as real / n as real - k as real / 3.0) * 3.0 * 3.0).Floor
  }

  /** Agent `i` of `n` in the clustered layout: its centre moved to
      field-centred coordinates, plus the polar offset `rndDis` at the
      drawn angle, which the source adds twice (once to `x`/`y`, once more
      when storing them). `cos` and `sin` are `Math.cos` and `Math.sin`. */
  function ClusteredAgent(width: int, height: int, centres: seq<real>, i: int, n: int, d: AgentDraws,
                          cos: real -> real, sin: real -> real): Agent
    requires |centres| == 6 && 0 < n
  {
    var angle := RndFloat(0.0, TwoPi, d.angle);
    var k := Cluster(i, n);
    var p := Centre(width, height, centres, k);
    var team := ClusterTeam(i, n);
    var dis := RndFloat(10.0, 50.0, d.distance) * team as real;
    var x := p.x - width as real * 0.5 + dis * cos(angle);
    var y := p.y - height as real * 0.5 + dis * sin(angle);
    Agent(x + dis * cos(angle), y + dis * sin(angle), angle, team as real)
  }

  /** Agent `i` in the grid layout: its texel scaled to the field, a drawn
      direction and a drawn species. */
  function GridAgent(side: nat, width: int, height: int, i: nat, d: AgentDraws): Agent
    requires 0 < side
  {
    Agent(((i % side) * width) as real / side as real,
          ((i / side) * height) as real / side as real,
          RndFloat(0.0, TwoPi, d.angle),
          RndInt(0.0, 2.0, d.team) as real)
  }

  function SeededAgent(side: nat, width: int, height: int, d: SeedDraws, i: nat,
                       cos: real -> real, sin: real -> real): Agent
    requires 0 < side && |d.centres| == 6 && i < |d.agents|
  {
    if Clustered(d) then ClusteredAgent(width, height, d.centres, i, side * side, d.agents[i], cos, sin)
    else GridAgent(side, width, height, i, d.agents[i])
  }

  /** The draws a `resetPositions` call needs for `side * side` agents. */
  predicate SeedDrawsFor(side: nat, d: SeedDraws) {
    |d.centres| == 6 && |d.agents| == side * side
  }

  /** Floor of an exact quotient of integers is integer division. */
  lemma {:induction false} FloorOfQuotient(a: int, n: int)
    requires 0 < n
    ensures (a as real / n as real).Floor == a / n
  {
    var q, r := a / n, a % n;
    assert a == q * n + r && 0 <= r < n;
    assert a as real == q as real * n as real + r as real;
    var x := a as real / n as real;
    assert x == q as real + r as real / n as real;
    assert 0.0 <= r as real / n as real < 1.0;
  }

  /** The clustered species is exact integer arithmetic, `9 i / n - 3 k`,
      and always 0, 1 or 2: the first, middle and last ninth of a cluster's
      agents form its three species. */
  lemma {:induction false} ClusterTeamExact(i: nat, n: int)
    requires 0 < n && i < n
    ensures ClusterTeam(i, n) == (9 * i) / n - 3 * Cluster(i, n)
    ensures 0 <= ClusterTeam(i, n) <= 2
  {
    var k := Cluster(i, n);
    var rnd := i as real / n as real;
    var v := (rnd - k as real / 3.0) * 3.0 * 3.0;
    assert v == (9 * i) as real / n as real - (3 * k) as real;
    FloorOfQuotient(9 * i, n);
    assert ((9 * i) as real / n as real - (3 * k) as real).Floor == ((9 * i) as real / n as real).Floor - 3 * k;
    assert rnd < 1.0 by { assert (i as real) < n as real; }
    assert k as real / 3.0 <= rnd < (k + 1) as real / 3.0;
    assert 0.0 <= v < 3.0;
  }

  /** Every agent's species slot holds 0, 1 or 2, in either layout. */
  lemma {:induction false} SeededTeam(side: nat, width: int, height: int, d: SeedDraws, i: nat,
                                      cos: real -> real, sin: real -> real)
    requires 0 < side && SeedDrawsFor(side, d) && i < side * side && IsDraw(d.agents[i].team)
    ensures var t := SeededAgent(side, width, height, d, i, cos, sin).team;
      t == 0.0 || t == 1.0 || t == 2.0
  {
    if Clustered(d) {
      ClusterTeamExact(i, side * side);
    } else {
      RndIntRange(0, 2, d.agents[i].team);
    }
  }

  /** Scaling an index below `side` to a length of `len` stays in
      [0, len). */
  lemma {:induction false} ScaledIndex(c: nat, side: nat, len: int)
    requires c < side && 0 < len
    ensures 0.0 <= (c * len) as real / side as real < len as real
  {
    assert c * len < side * len by {
      assert (side - c) * len > 0 by { ProductPositive(side - c, len); }
    }
    assert (c * len) as real < (side * len) as real;
    assert (side * len) as real / side as real == len as real;
  }

  lemma ProductPositive(a: int, b: int)
    requires 0 < a && 0 < b
    ensures a * b > 0
  {
  }

  /** On a field of positive size, the grid layout puts every one of the
      `side * side` agents inside `[0, width) x [0, height)`, agent `i` at
      column `i % side` and row `i / side`. */
  lemma {:induction false} GridInside(side: nat, width: int, height: int, i: nat, d: AgentDraws)
    requires 0 < side && 0 < width && 0 < height && i < side * side
    ensures var a := GridAgent(side, width, height, i, d);
      0.0 <= a.x < width as real && 0.0 <= a.y < height as real
  {
    assert i / side < side by { DivBelow(i, side); }
    ScaledIndex(i % side, side, width);
    ScaledIndex(i / side, side, height);
  }

  lemma {:induction false} DivBelow(i: nat, side: nat)
    requires 0 < side && i < side * side
    ensures i / side < side
  {
    var q := i / side;
    assert q * side <= i;
    assert (side - q) * side > 0;
    PositiveFactor(side - q, side);
  }

  lemma PositiveFactor(a: int, b: int)
    requires a * b > 0 && b > 0
    ensures a > 0
  {
  }

  /** Float `j` of the position texture: slot `j % 4` of agent `j / 4`. */
  function SeededSlot(side: nat, width: int, height: int, d: SeedDraws, cos: real -> real, sin: real -> real, j: nat): real
    requires 0 < side && SeedDrawsFor(side, d) && j < 4 * (side * side)
  {
    Slot(SeededAgent(side, width, height, d, j / 4, cos, sin), j % 4)
  }

  /** Agent `i`'s four floats are at `4 i` to `4 i + 3`: float `j` among
      them is the agent's slot `j - 4 i`. */
  lemma AgentSlots(side: nat, width: int, height: int, d: SeedDraws, cos: real -> real, sin: real -> real, i: nat, j: nat)
    requires 0 < side && SeedDrawsFor(side, d) && i < side * side && 4 * i <= j < 4 * i + 4
    ensures SeededSlot(side, width, height, d, cos, sin, j) == Slot(SeededAgent(side, width, height, d, i, cos, sin), j - 4 * i)
  {
    assert j / 4 == i && j % 4 == j - 4 * i;
  }

  /** `positionsAndDirections[id++] = ...` four times from `id = 4 i`. */
  method StoreAgent(a: array<real>, i: nat, agent: Agent)
    requires 4 * i + 4 <= a.Length
    modifies a
    ensures a[4 * i] == agent.x && a[4 * i + 1] == agent.y
    ensures a[4 * i + 2] == agent.angle && a[4 * i + 3] == agent.team
    ensures forall j :: 4 * i <= j < 4 * i + 4 ==> a[j] == Slot(agent, j - 4 * i)
    ensures forall j :: 0 <= j < a.Length && (j < 4 * i || 4 * i + 4 <= j) ==> a[j] == old(a[j])
  {
    var id := 4 * i;
    a[id] := agent.x;
    id := id + 1;
    a[id] := agent.y;
    id := id + 1;
    a[id] := agent.angle;
    id := id + 1;
    a[id] := agent.team;
  }

  /** The `resetPositions` loop: fills a `4 * side * side` float array with
      the agents' slots. */
  method SeedPositions(side: nat, width: int, height: int, d: SeedDraws,
                       cos: real -> real, sin: real -> real) returns (a: array<real>)
    requires 0 < side && SeedDrawsFor(side, d)
    ensures fresh(a) && a.Length == 4 * (side * side)
    ensures forall j :: 0 <= j < a.Length ==> a[j] == SeededSlot(side, width, height, d, cos, sin, j)
  {
    var n := side * side;
    a := new real[4 * n];
    var i := 0;
    while i < n
      invariant 0 <= i <= n
      invariant forall j :: 0 <= j < 4 * i ==> a[j] == SeededSlot(side, width, height, d, cos, sin, j)
    {
      var agent := SeededAgent(side, width, height, d, i, cos, sin);
      ghost var before := a[..];
      StoreAgent(a, i, agent);
      forall j | 0 <= j < 4 * (i + 1)
        ensures a[j] == SeededSlot(side, width, height, d, cos, sin, j)
      {
        if j < 4 * i {
          assert a[j] == before[j];
        } else {
          AgentSlots(side, width, height, d, cos, sin, i, j);
        }
      }
      i := i + 1;
    }
  }

  /** Agent `i`'s texel coordinates `((i % side) / side, (i / side) / side)`. */
  function Uv(side: nat, i: nat): (real, real)
    requires 0 < side
  {
    ((i % side) as real / side as real, (i / side) as real / side as real)
  }

  /** Every agent's uv lies in `[0, 1)^2`. */
  lemma {:induction false} UvInside(side: nat, i: nat)
    requires 0 < side && i < side * side
    ensures 0.0 <= Uv(side, i).0 < 1.0 && 0.0 <= Uv(side, i).1 < 1.0
  {
    DivBelow(i, side);
    BelowOne(i % side, side);
    BelowOne(i / side, side);
  }

  lemma BelowOne(c: nat, side: nat)
    requires c < side
    ensures 0.0 <= c as real / side as real < 1.0
  {
  }

  /** Distinct agents have distinct uvs, so each agent reads its own
      texel. */
  lemma {:induction false} UvDistinct(side: nat, i: nat, j: nat)
    requires 0 < side && Uv(side, i) == Uv(side, j)
    ensures i == j
  {
    UnitScaled(i % side, j % side, side);
    UnitScaled(i / side, j / side, side);
    DivMod(i, side);
    DivMod(j, side);
  }

  /** Dividing by a positive `side` is injective. */
  lemma UnitScaled(a: int, b: int, side: nat)
    requires 0 < side && a as real / side as real == b as real / side as real
    ensures a == b
  {
  }

  lemma DivMod(i: nat, side: nat)
    requires 0 < side
    ensures i == (i / side) * side + i % side
  {
  }

  /** Float `j` of the uv array: component `j % 2` of agent `j / 2`'s uv. */
  function UvSlot(side: nat, j: nat): real
    requires 0 < side
  {
    if j % 2 == 0 then Uv(side, j / 2).0 else Uv(side, j / 2).1
  }

  /** Agent `i`'s uv is at `2 i` and `2 i + 1`. */
  lemma UvSlots(side: nat, i: nat)
    requires 0 < side
    ensures UvSlot(side, 2 * i) == Uv(side, i).0 && UvSlot(side, 2 * i + 1) == Uv(side, i).1
  {
    assert (2 * i) / 2 == i && (2 * i) % 2 == 0;
    assert (2 * i + 1) / 2 == i && (2 * i + 1) % 2 == 1;
  }

  /** The `getDataArrays` loop: zero positions (three per agent) and the
      agents' uvs (two per agent). */
  method DataArrays(side: nat, n: nat) returns (pos: array<real>, uvs: array<real>)
    requires 0 < side
    ensures fresh(pos) && fresh(uvs) && pos.Length == 3 * n && uvs.Length == 2 * n
    ensures forall j :: 0 <= j < pos.Length ==> pos[j] == 0.0
    ensures forall j :: 0 <= j < uvs.Length ==> uvs[j] == UvSlot(side, j)
  {
    pos := new real[3 * n];
    uvs := new real[2 * n];
    var i := 0;
    while i < n
      invariant 0 <= i <= n
      invariant forall j :: 0 <= j < 3 * i ==> pos[j] == 0.0
      invariant forall j :: 0 <= j < 2 * i ==> uvs[j] == UvSlot(side, j)
    {
      pos[3 * i] := 0.0;
      pos[3 * i + 1] := 0.0;
      pos[3 * i + 2] := 0.0;
      ghost var before := uvs[..];
      uvs[2 * i] := (i % side) as real / side as real;
      uvs[2 * i + 1] := (i / side) as real / side as real;
      forall j | 0 <= j < 2 * (i + 1)
        ensures uvs[j] == UvSlot(side, j)
      {
        if j < 2 * i {
          assert uvs[j] == before[j];
        } else {
          UvSlots(side, i);
          assert j == 2 * i || j == 2 * i + 1;
        }
      }
      i := i + 1;
    }
  }
}
