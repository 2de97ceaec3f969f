/**
 * Level generation, setupLevel in src/client/main.js: one rock per cell of
 * width rdense across the level, num_rings rings one per ring zone, and air
 * pockets every air_dense, each placed from draws of the seeded generator;
 * rocks in the safe zone at the start are pushed toward the nearer screen
 * edge; at the end every entry's anchor pos0 is set to its position.
 */
module Level {
  import opened Tuning
  import opened Rand
  import opened Obstacles

  /**
   * The generation parameters, which setupLevel fixes as local constants
   * (see Default): the rock cell width, the width of the safe zone, the number
   * of rings, the ring zone width and the air-pocket spacing (0: no air).
   */
  datatype Config = Config(rdense: nat, safeZone: real, numRings: nat, ringDense: nat, airDense: nat)

  /** The values setupLevel uses. */
  const Default: Config := Config(16, 320.0, 2, 160, 230)

  /** The level width: one ring zone more than there are rings. */
  function LevelW(cfg: Config): nat { cfg.ringDense * (cfg.numRings + 1) }

  /** floor(level_w / rdense) rocks. */
  function NumRocks(cfg: Config): (n: nat)
    requires cfg.rdense > 0
    ensures n * cfg.rdense <= LevelW(cfg) < (n + 1) * cfg.rdense
  {
    LevelW(cfg) / cfg.rdense
  }

  /** floor(level_w / air_dense) air pockets, none when air_dense is 0. */
  function NumAir(cfg: Config): (n: nat)
    ensures cfg.airDense == 0 ==> n == 0
    ensures cfg.airDense > 0 ==> n * cfg.airDense <= LevelW(cfg) < (n + 1) * cfg.airDense
  {
    if cfg.airDense == 0 then 0 else LevelW(cfg) / cfg.airDense
  }

  // Draws of the generator each entry takes, in the order the source makes them.
  const ROCK_DRAWS: nat := 4   // x, y, angle, rspeed
  const RING_DRAWS: nat := 3   // x, y, frame
  const AIR_DRAWS: nat := 3    // x, y, height

  /** The number of draws generation takes. */
  function DrawsNeeded(cfg: Config): nat
    requires cfg.rdense > 0
  {
    ROCK_DRAWS * NumRocks(cfg) + RING_DRAWS * cfg.numRings + AIR_DRAWS * NumAir(cfg)
  }

  /**
   * The safe-zone compression of a rock's y: left of the safe zone's end, a
   * rock in the upper half moves to a tenth of its distance from the top,
   * one in the lower half to a tenth of its distance from the bottom.
   */
  function Compress(x: real, y: real, safeZone: real): (c: real)
    ensures x >= safeZone ==> c == y
    ensures x < safeZone && y < GAME_HEIGHT / 2.0 ==> c == y / 10.0
    ensures x < safeZone && y >= GAME_HEIGHT / 2.0 ==> GAME_HEIGHT - c == (GAME_HEIGHT - y) / 10.0
    ensures 0.0 <= y <= GAME_HEIGHT ==> 0.0 <= c <= GAME_HEIGHT
    ensures 0.0 <= y < GAME_HEIGHT / 2.0 ==> c <= y
    ensures GAME_HEIGHT / 2.0 <= y <= GAME_HEIGHT ==> c >= y
  {
    if x < safeZone then
      if y < GAME_HEIGHT / 2.0 then y * 0.1 else GAME_HEIGHT - (GAME_HEIGHT - y) * 0.1
    else y
  }

  /** Rock number ii, from its four draws; its anchor is set later. */
  function MakeRock(cfg: Config, ii: nat, u0: real, u1: real, u2: real, u3: real): (r: Thing)
    ensures r.kind == Rock && !r.hit && !r.hide
    ensures r.freq == 0.0 && r.amp == 40.0 && r.rsquared == 64.0 && r.color == Color(0.1, 0.1, 0.1, 1.0)
    ensures IsDraw(u2) ==> 0.0 <= r.angle < TWO_PI
    ensures IsDraw(u3) ==> -1.0 <= r.rspeed < 1.0
  {
    var x := (ii as real + u0) * cfg.rdense as real;
    var y := Compress(x, FloatBetween(16.0, GAME_HEIGHT - 16.0 * 2.0, u1), cfg.safeZone);
    Thing(Rock, x, y, 0.0, 0.0, FloatBetween(0.0, PI * 2.0, u2), FloatBetween(-1.0, 1.0, u3),
          0.0, 40.0, 8.0 * 8.0, 0.0, 0.0, 0.0, Color(0.1, 0.1, 0.1, 1.0), false, 0.0, false)
  }

  /** Ring number ii, from its three draws; its anchor is set later. */
  function MakeRing(cfg: Config, ii: nat, u0: real, u1: real, u2: real): (r: Thing)
    ensures r.kind == Ring && !r.hit && !r.hide
    ensures r.angle == 0.0 && r.rspeed == 0.0
    ensures r.freq == 0.001 && r.amp == 32.0 && r.rsquared == 144.0 && r.color == Color(1.0, 1.0, 1.0, 1.0)
    ensures IsDraw(u2) ==> 0.0 <= r.frame < 10.0
  {
    var x := (ii as real + 1.0 + u0) * cfg.ringDense as real;
    Thing(Ring, x, FloatBetween(32.0, GAME_HEIGHT - 32.0 * 2.0, u1), 0.0, 0.0, 0.0, 0.0,
          0.001, 32.0, 12.0 * 12.0, 0.0, 0.0, FloatBetween(0.0, 10.0, u2), Color(1.0, 1.0, 1.0, 1.0),
          false, 0.0, false)
  }

  /** Air pocket number ii, from its three draws, with the palette colour airColor. */
  function MakeAir(cfg: Config, ii: nat, airColor: Color, u0: real, u1: real, u2: real): (a: Thing)
    ensures a.kind == Air && !a.hit && !a.hide
    ensures a.angle == 0.0 && a.rspeed == 0.0 && a.freq == 0.0 && a.amp == 32.0
    ensures a.w == 32.0 && a.color == airColor
  {
    var x := (ii as real + u0) * cfg.airDense as real;
    Thing(Air, x, FloatBetween(16.0, GAME_HEIGHT - 16.0, u1), 0.0, 0.0, 0.0, 0.0,
          0.0, 32.0, 12.0 * 12.0, 32.0, FloatBetween(32.0, 64.0, u2), 0.0, airColor,
          false, 0.0, false)
  }

  /** An entry with its anchor pos0 set to its position. */
  function Anchor(t: Thing): (a: Thing)
    ensures a.x0 == a.x == t.x && a.y0 == a.y == t.y
    ensures a == t.(x0 := t.x, y0 := t.y)
  {
    t.(x0 := t.x, y0 := t.y)
  }

  /**
   * Rock ii lies in its own cell [ii * rdense, (ii + 1) * rdense) and on
   * screen, whether or not the safe zone compressed it.
   */
  lemma RockPlacement(cfg: Config, ii: nat, u0: real, u1: real, u2: real, u3: real)
    requires cfg.rdense > 0 && IsDraw(u0) && IsDraw(u1)
    ensures var r := MakeRock(cfg, ii, u0, u1, u2, u3);
      ii as real * cfg.rdense as real <= r.x < (ii as real + 1.0) * cfg.rdense as real
      && 0.0 <= r.y <= GAME_HEIGHT
  {
    var x := (ii as real + u0) * cfg.rdense as real;
    assert MakeRock(cfg, ii, u0, u1, u2, u3).x == x;
    CellBounds(ii as real, u0, cfg.rdense as real);
  }

  /** Ring ii lies in ring zone ii + 1 and in the band [32, GAME_HEIGHT - 64). */
  lemma RingPlacement(cfg: Config, ii: nat, u0: real, u1: real, u2: real)
    requires cfg.ringDense > 0 && IsDraw(u0) && IsDraw(u1)
    ensures var r := MakeRing(cfg, ii, u0, u1, u2);
      (ii as real + 1.0) * cfg.ringDense as real <= r.x < (ii as real + 1.0 + 1.0) * cfg.ringDense as real
      && 32.0 <= r.y < GAME_HEIGHT - 64.0
  {
    var x := (ii as real + 1.0 + u0) * cfg.ringDense as real;
    assert MakeRing(cfg, ii, u0, u1, u2).x == x;
    CellBounds(ii as real + 1.0, u0, cfg.ringDense as real);
  }

  /**
   * Air pocket ii lies in its own cell [ii * air_dense, (ii + 1) * air_dense),
   * at a y in [16, GAME_HEIGHT - 16), with a height in [32, 64).
   */
  lemma AirPlacement(cfg: Config, ii: nat, airColor: Color, u0: real, u1: real, u2: real)
    requires cfg.airDense > 0 && IsDraw(u0) && IsDraw(u1) && IsDraw(u2)
    ensures var a := MakeAir(cfg, ii, airColor, u0, u1, u2);
      ii as real * cfg.airDense as real <= a.x < (ii as real + 1.0) * cfg.airDense as real
      && 16.0 <= a.y < GAME_HEIGHT - 16.0
      && a.w == 32.0 && 32.0 <= a.h < 64.0
  {
    var x := (ii as real + u0) * cfg.airDense as real;
    assert MakeAir(cfg, ii, airColor, u0, u1, u2).x == x;
    CellBounds(ii as real, u0, cfg.airDense as real);
  }

  /** A draw u places (i + u) * d in the cell [i * d, (i + 1) * d). */
  lemma CellBounds(i: real, u: real, d: real)
    requires d > 0.0 && IsDraw(u)
    ensures i * d <= (i + u) * d < (i + 1.0) * d
  {
    MulBelow(d, u);
    assert (i + u) * d == i * d + u * d;
    assert (i + 1.0) * d == i * d + d;
  }

  /** The kind of entry i of a level with a rocks followed by b - a rings and then air pockets. */
  function BlockKind(i: nat, a: nat, b: nat): Kind
  {
    if i < a then Rock else if i < b then Ring else Air
  }

  /** The number of rings of a sequence laid out in blocks. */
  lemma {:induction false} RingsInBlocks(s: seq<Thing>, a: nat, b: nat)
    requires a <= b
    requires forall i :: 0 <= i < |s| ==> s[i].kind == BlockKind(i, a, b)
    ensures CountKind(s, Ring) == (if |s| <= a then 0 else if |s| <= b then |s| - a else b - a)
    decreases |s|
  {
    if s != [] {
      var n := |s| - 1;
      assert forall i :: 0 <= i < n ==> s[..n][i] == s[i];
      RingsInBlocks(s[..n], a, b);
    }
  }

  /** A sequence with no hit entries has no hits to count. */
  lemma {:induction false} NoHitsCounted(s: seq<Thing>, k: Kind)
    requires forall i :: 0 <= i < |s| ==> !s[i].hit
    ensures CountHit(s, k) == 0
    decreases |s|
  {
    if s != [] {
      var n := |s| - 1;
      assert forall i :: 0 <= i < n ==> s[..n][i] == s[i];
      NoHitsCounted(s[..n], k);
    }
  }

  /**
   * Entry i of a level before anchoring: the rocks first, then the rings,
   * then the air pockets, each from its own draws, taken in order.
   */
  function EntryAt(cfg: Config, airColor: Color, draws: seq<real>, i: nat): Thing
    requires cfg.rdense > 0 && |draws| >= DrawsNeeded(cfg)
    requires i < NumRocks(cfg) + cfg.numRings + NumAir(cfg)
  {
    var nr := NumRocks(cfg);
    if i < nr then
      var k := ROCK_DRAWS * i;
      MakeRock(cfg, i, draws[k], draws[k + 1], draws[k + 2], draws[k + 3])
    else if i < nr + cfg.numRings then
      var k := ROCK_DRAWS * nr + RING_DRAWS * (i - nr);
      MakeRing(cfg, i - nr, draws[k], draws[k + 1], draws[k + 2])
    else
      var k := ROCK_DRAWS * nr + RING_DRAWS * cfg.numRings + AIR_DRAWS * (i - nr - cfg.numRings);
      MakeAir(cfg, i - nr - cfg.numRings, airColor, draws[k], draws[k + 1], draws[k + 2])
  }

  /** The level setupLevel builds: every entry anchored at its position. */
  function Layout(cfg: Config, airColor: Color, draws: seq<real>): (s: seq<Thing>)
    requires cfg.rdense > 0 && |draws| >= DrawsNeeded(cfg)
    ensures |s| == NumRocks(cfg) + cfg.numRings + NumAir(cfg)
  {
    seq(NumRocks(cfg) + cfg.numRings + NumAir(cfg), i requires 0 <= i < NumRocks(cfg) + cfg.numRings + NumAir(cfg) =>
      Anchor(EntryAt(cfg, airColor, draws, i)))
  }

  /**
   * setupLevel: push the rocks, then the rings, then the air pockets, each
   * from its own draws in order, and finally anchor every entry at its
   * position.
   */
  method Generate(cfg: Config, airColor: Color, draws: seq<real>) returns (stuff: seq<Thing>)
    requires cfg.rdense > 0
    requires |draws| >= DrawsNeeded(cfg)
    ensures stuff == Layout(cfg, airColor, draws)
  {
    var numRocks := LevelW(cfg) / cfg.rdense;
    var numAir := if cfg.airDense != 0 then LevelW(cfg) / cfg.airDense else 0;
    stuff := [];
    var k := 0;
    for ii := 0 to numRocks
      invariant |stuff| == ii && k == ROCK_DRAWS * ii
      invariant forall j :: 0 <= j < |stuff| ==> stuff[j] == EntryAt(cfg, airColor, draws, j)
    {
      stuff := stuff + [MakeRock(cfg, ii, draws[k], draws[k + 1], draws[k + 2], draws[k + 3])];
      k := k + ROCK_DRAWS;
    }
    for ii := 0 to cfg.numRings
      invariant |stuff| == numRocks + ii && k == ROCK_DRAWS * numRocks + RING_DRAWS * ii
      invariant forall j :: 0 <= j < |stuff| ==> stuff[j] == EntryAt(cfg, airColor, draws, j)
    {
      stuff := stuff + [MakeRing(cfg, ii, draws[k], draws[k + 1], draws[k + 2])];
      k := k + RING_DRAWS;
    }
    for ii := 0 to numAir
      invariant |stuff| == numRocks + cfg.numRings + ii
      invariant k == ROCK_DRAWS * numRocks + RING_DRAWS * cfg.numRings + AIR_DRAWS * ii
      invariant forall j :: 0 <= j < |stuff| ==> stuff[j] == EntryAt(cfg, airColor, draws, j)
    {
      stuff := stuff + [MakeAir(cfg, ii, airColor, draws[k], draws[k + 1], draws[k + 2])];
      k := k + AIR_DRAWS;
    }
    for i := 0 to |stuff|
      invariant |stuff| == NumRocks(cfg) + cfg.numRings + NumAir(cfg)
      invariant forall j :: 0 <= j < i ==> stuff[j] == Anchor(EntryAt(cfg, airColor, draws, j))
      invariant forall j :: i <= j < |stuff| ==> stuff[j] == EntryAt(cfg, airColor, draws, j)
    {
      stuff := stuff[i := Anchor(stuff[i])];
    }
  }

  /**
   * What a generated level holds: num_rings rings after the rocks, air
   * pockets last, nothing hit or hidden, every entry anchored at its position
   * and well-formed; so no hits are counted yet.
   */
  lemma LayoutFacts(cfg: Config, airColor: Color, draws: seq<real>)
    requires cfg.rdense > 0 && |draws| >= DrawsNeeded(cfg)
    ensures var s := Layout(cfg, airColor, draws);
      && (forall i :: 0 <= i < |s| ==>
            s[i].kind == BlockKind(i, NumRocks(cfg), NumRocks(cfg) + cfg.numRings)
            && !s[i].hit && !s[i].hide && ThingOk(s[i])
            && s[i].x0 == s[i].x && s[i].y0 == s[i].y)
      && CountKind(s, Ring) == cfg.numRings
      && CountHit(s, Rock) == 0 && CountHit(s, Ring) == 0
  {
    var s := Layout(cfg, airColor, draws);
    assert forall i :: 0 <= i < |s| ==>
      s[i].kind == BlockKind(i, NumRocks(cfg), NumRocks(cfg) + cfg.numRings) && !s[i].hit && !s[i].hide;
    RingsInBlocks(s, NumRocks(cfg), NumRocks(cfg) + cfg.numRings);
    NoHitsCounted(s, Rock);
    NoHitsCounted(s, Ring);
  }

  /**
   * A generated level agrees with the starting scores: nothing hit, no win,
   * a zero win counter and the radius scale at 1.
   */
  lemma LayoutLevelOk(cfg: Config, airColor: Color, draws: seq<real>, angle: real)
    requires cfg.rdense > 0 && |draws| >= DrawsNeeded(cfg)
    ensures LevelOk(Layout(cfg, airColor, draws), Tally(0, 0, false, 0.0, 1.0, angle, 0), cfg.numRings)
  {
    LayoutFacts(cfg, airColor, draws);
  }

  /**
   * Rock ii of a generated level lies in its own cell
   * [ii * rdense, (ii + 1) * rdense) and on screen.
   */
  lemma LayoutRockPlacement(cfg: Config, airColor: Color, draws: seq<real>, ii: nat)
    requires cfg.rdense > 0 && |draws| >= DrawsNeeded(cfg)
    requires forall i :: 0 <= i < |draws| ==> IsDraw(draws[i])
    requires ii < NumRocks(cfg)
    ensures var r := Layout(cfg, airColor, draws)[ii];
      r.kind == Rock
      && ii as real * cfg.rdense as real <= r.x < (ii as real + 1.0) * cfg.rdense as real
      && 0.0 <= r.y <= GAME_HEIGHT
  {
    var k := ROCK_DRAWS * ii;
    RockPlacement(cfg, ii, draws[k], draws[k + 1], draws[k + 2], draws[k + 3]);
  }

  /** Ring ii of a generated level lies in ring zone ii + 1. */
  lemma LayoutRingPlacement(cfg: Config, airColor: Color, draws: seq<real>, ii: nat)
    requires cfg.rdense > 0 && cfg.ringDense > 0 && |draws| >= DrawsNeeded(cfg)
    requires forall i :: 0 <= i < |draws| ==> IsDraw(draws[i])
    requires ii < cfg.numRings
    ensures var r := Layout(cfg, airColor, draws)[NumRocks(cfg) + ii];
      r.kind == Ring
      && (ii as real + 1.0) * cfg.ringDense as real <= r.x < (ii as real + 1.0 + 1.0) * cfg.ringDense as real
      && 32.0 <= r.y < GAME_HEIGHT - 64.0
  {
    var k := ROCK_DRAWS * NumRocks(cfg) + RING_DRAWS * ii;
    RingPlacement(cfg, ii, draws[k], draws[k + 1], draws[k + 2]);
  }

  /** Air pocket ii of a generated level lies in its own cell of width air_dense. */
  lemma LayoutAirPlacement(cfg: Config, airColor: Color, draws: seq<real>, ii: nat)
    requires cfg.rdense > 0 && |draws| >= DrawsNeeded(cfg)
    requires forall i :: 0 <= i < |draws| ==> IsDraw(draws[i])
    requires ii < NumAir(cfg)
    ensures var a := Layout(cfg, airColor, draws)[NumRocks(cfg) + cfg.numRings + ii];
      a.kind == Air && a.color == airColor
      && ii as real * cfg.airDense as real <= a.x < (ii as real + 1.0) * cfg.airDense as real
      && 16.0 <= a.y < GAME_HEIGHT - 16.0
      && a.w == 32.0 && 32.0 <= a.h < 64.0
  {
    var k := ROCK_DRAWS * NumRocks(cfg) + RING_DRAWS * cfg.numRings + AIR_DRAWS * ii;
    AirPlacement(cfg, ii, airColor, draws[k], draws[k + 1], draws[k + 2]);
  }

  /** The default level has 30 rocks, 2 rings and 2 air pockets on a width of 480. */
  lemma DefaultCounts()
    ensures LevelW(Default) == 480
    ensures NumRocks(Default) == 30 && Default.numRings == 2 && NumAir(Default) == 2
    ensures DrawsNeeded(Default) == 132
  {
  }
}
