/**
 * The game state of src/client/main.js (the `state` object) and the
 * simulation part of one frame of play(): level wrap, first pass over the
 * obstacles, player update, vertical clamp, dead-zone camera and the second
 * pass (hit / fade / score / win). The obstacles live in an array of records
 * that the two passes update in place; the player and the scores are fields.
 */
module Game {
  import opened Tuning
  import opened Obstacles
  import opened Flight
  import opened Camera
  import opened Level

  class GameState {
    const numRings: nat
    const levelW: real
    const stuff: array<Thing>
    var hitRings: nat
    var hitRocks: nat
    var camX: real
    // the player
    var px: real
    var py: real
    var angle: real
    var radius: real
    // win mode
    var doWin: bool
    var winCounter: real

    /**
     * The state invariant: the radius scale is in [0.5, 2]; the counters are
     * the numbers of rocks and rings hit so far; there are numRings rings;
     * the win flag is set exactly when they are all hit; every entry is
     * well-formed.
     */
    ghost predicate Valid()
      reads this, stuff
    {
      levelW > 0.0 && LevelOk(stuff[..], Scores(), numRings)
    }

    /** The scalar state the second pass reads and writes, before any kick is drawn. */
    function Scores(): Tally
      reads this
    {
      Tally(hitRocks, hitRings, doWin, winCounter, radius, angle, 0)
    }

    /** The player's pose and the win counter, as the flight functions see them. */
    function Player(): Pose
      reads this
    {
      Pose(px, py, angle, radius, winCounter)
    }

    /**
     * setupLevel: a level generated from the draws, with the player at
     * (160, GAME_HEIGHT / 2 + BASE_RADIUS) facing angle PI at radius scale 1,
     * the camera at -GAME_WIDTH / 2 + 160 and no hits.
     */
    constructor SetupLevel(cfg: Config, airColor: Color, draws: seq<real>)
      requires cfg.rdense > 0 && cfg.ringDense > 0
      requires |draws| >= DrawsNeeded(cfg)
      ensures Valid() && fresh(stuff)
      ensures stuff[..] == Layout(cfg, airColor, draws)
      ensures numRings == cfg.numRings && levelW == LevelW(cfg) as real
      ensures hitRings == 0 && hitRocks == 0 && !doWin && winCounter == 0.0
      ensures camX == -GAME_WIDTH / 2.0 + 160.0
      ensures px == 160.0 && py == GAME_HEIGHT / 2.0 + BASE_RADIUS && angle == PI && radius == 1.0
    {
      var s := Generate(cfg, airColor, draws);
      LayoutLevelOk(cfg, airColor, draws, PI);
      numRings := cfg.numRings;
      levelW := LevelW(cfg) as real;
      hitRings, hitRocks := 0, 0;
      camX := -GAME_WIDTH / 2.0 + 160.0;
      px, py, angle, radius := 160.0, GAME_HEIGHT / 2.0 + BASE_RADIUS, PI, 1.0;
      doWin, winCounter := false, 0.0;
      var a := new Thing[|s|](i requires 0 <= i < |s| => s[i]);
      assert a[..] == s;
      stuff := a;
    }

    /** No more rings are hit than there are. */
    lemma RingsBounded()
      requires Valid()
      ensures hitRings <= numRings
    {
      CountHitBounded(stuff[..], Ring);
    }

    /** The level wrap of the player and the camera. */
    method WrapLevel()
      requires Valid()
      modifies this
      ensures Valid()
      ensures (px, camX) == Wrap(old(px), old(camX), levelW)
      ensures py == old(py) && angle == old(angle) && radius == old(radius)
      ensures hitRings == old(hitRings) && hitRocks == old(hitRocks)
      ensures doWin == old(doWin) && winCounter == old(winCounter)
    {
      if px > levelW {
        px := px - levelW;
        camX := camX - levelW;
      } else if px < 0.0 {
        px := px + levelW;
        camX := camX + levelW;
      }
    }

    /**
     * The first pass: every entry turns and oscillates, and each air pocket
     * records whether the player is inside it; hitAir tells whether any is.
     */
    method UpdateStuff(dt: real, ts: real, sin: real -> real) returns (hitAir: bool)
      requires Valid()
      modifies stuff
      ensures Valid()
      ensures forall i :: 0 <= i < stuff.Length ==> stuff[i] == Oscillate(old(stuff[i]), dt, ts, sin, px, py)
      ensures stuff[..] == FirstPass(old(stuff[..]), dt, ts, sin, px, py)
      ensures hitAir <==> exists i :: 0 <= i < stuff.Length && stuff[i].kind == Air && stuff[i].hit
      ensures hitAir == AirHit(stuff[..])
    {
      hitAir := false;
      for ii := 0 to stuff.Length
        invariant forall j :: 0 <= j < ii ==> stuff[j] == Oscillate(old(stuff[j]), dt, ts, sin, px, py)
        invariant forall j :: ii <= j < stuff.Length ==> stuff[j] == old(stuff[j])
        invariant hitAir <==> exists j :: 0 <= j < ii && stuff[j].kind == Air && stuff[j].hit
      {
        var r := Oscillate(stuff[ii], dt, ts, sin, px, py);
        stuff[ii] := r;
        if r.kind == Air && r.hit {
          hitAir := true;
        }
      }
      assert stuff[..] == FirstPass(old(stuff[..]), dt, ts, sin, px, py);
      FirstPassKeepsLevelOk(old(stuff[..]), Scores(), numRings, dt, ts, sin, px, py);
      if hitAir {
        var j :| 0 <= j < stuff.Length && stuff[j].kind == Air && stuff[j].hit;
        assert stuff[..][j] == stuff[j];
      }
    }

    /**
     * The player update in win mode: the win counter grows by dt, the angle
     * eases toward PI and the player drifts back along it, and down once the
     * angle is PI.
     */
    method WinStep(dt: real, sin: real -> real, cos: real -> real)
      requires Valid() && doWin && dt >= 0.0
      modifies this
      ensures Valid()
      ensures hitRings == old(hitRings) && hitRocks == old(hitRocks) && doWin == old(doWin)
      ensures camX == old(camX) && radius == old(radius)
      ensures Player() == WinMove(old(Player()), dt, sin, cos)
      ensures winCounter == old(winCounter) + dt
      ensures angle == WinAngle(old(angle), dt)
      ensures px == old(px) + cos(angle) * (-dt * SPEED_SCALE * 0.2)
      ensures py == old(py) + sin(angle) * (-dt * SPEED_SCALE * 0.2) - (if angle == PI then dt * 0.1 else 0.0)
    {
      var q := WinMove(Player(), dt, sin, cos);
      px, py, angle, winCounter := q.x, q.y, q.angle, q.winCounter;
    }

    /**
     * The player update while flying: the radius scale follows the keys; the
     * orbit radius is limited by the combined edge bounds; the angle steps;
     * the player moves around the orbit centre, halfway only inside an air
     * pocket; y is clamped to the screen.
     */
    method FlyStep(dt: real, grow: bool, shrink: bool, hitAir: bool,
                   sin: real -> real, cos: real -> real, tan: real -> real)
      requires Valid() && !doWin && dt >= 0.0
      modifies this
      ensures Valid()
      ensures hitRings == old(hitRings) && hitRocks == old(hitRocks) && doWin == old(doWin)
      ensures camX == old(camX) && winCounter == old(winCounter)
      ensures Player() == FlyMove(old(Player()), dt, grow, shrink, hitAir, sin, cos, tan)
      ensures radius == RadiusStep(old(radius), dt, grow, shrink)
      ensures angle == FlyAngle(old(angle), dt)
      ensures 0.0 <= py <= GAME_HEIGHT
    {
      var q := FlyMove(Player(), dt, grow, shrink, hitAir, sin, cos, tan);
      px, py, angle, radius := q.x, q.y, q.angle, q.radius;
    }

    /** The dead-zone camera follows the player. */
    method FollowCamera()
      modifies this`camX
      ensures camX == Follow(old(camX), px)
    {
      camX := Min(Max(camX, px.Floor as real - GAME_WIDTH * 2.0 / 3.0), px.Floor as real - GAME_WIDTH / 3.0);
    }

    /**
     * The loop of the second pass: entry by entry in order, with the player
     * where it has just moved, each entry sees the scores the entries before
     * it left.
     */
    method SecondPass(tl0: Tally, dt: real, kicks: seq<real>) returns (tl: Tally)
      requires tl0.used + stuff.Length <= |kicks|
      modifies stuff
      ensures (stuff[..], tl) == Fold(old(stuff[..]), tl0, numRings, px, py, dt, kicks)
    {
      ghost var s0 := stuff[..];
      tl := tl0;
      for ii := 0 to stuff.Length
        invariant stuff[..ii] == Fold(s0[..ii], tl0, numRings, px, py, dt, kicks).0
        invariant tl == Fold(s0[..ii], tl0, numRings, px, py, dt, kicks).1
        invariant stuff[ii..] == s0[ii..]
      {
        assert s0[..ii + 1][..ii] == s0[..ii];
        assert stuff[ii] == s0[ii];
        var (e, tl2) := CollideOne(stuff[ii], tl, numRings, px, py, dt, kicks);
        stuff[ii] := e;
        tl := tl2;
        assert stuff[..ii + 1] == stuff[..ii] + [e];
      }
      assert s0[..stuff.Length] == s0;
      assert stuff[..stuff.Length] == stuff[..];
    }

    /**
     * The second pass: the array and the scores become what Fold computes
     * from them; a rock hit takes the next kick draw, and used tells how many
     * were taken.
     */
    method Collide(dt: real, kicks: seq<real>) returns (used: nat)
      requires Valid() && dt >= 0.0
      requires |kicks| >= stuff.Length
      modifies this, stuff
      ensures Valid()
      ensures var (s', tl') := Fold(old(stuff[..]), old(Scores()), numRings, px, py, dt, kicks);
        && stuff[..] == s'
        && Scores() == tl'.(used := 0)
        && used == tl'.used
      ensures px == old(px) && py == old(py) && camX == old(camX)
    {
      ghost var s0 := stuff[..];
      ghost var tl0 := Scores();
      FoldKeepsLevelOk(s0, tl0, numRings, px, py, dt, kicks);
      var tl := SecondPass(Scores(), dt, kicks);
      hitRocks, hitRings := tl.hitRocks, tl.hitRings;
      doWin, winCounter := tl.doWin, tl.winCounter;
      radius, angle := tl.radius, tl.angle;
      used := tl.used;
    }

    /**
     * The part of a frame before the second pass: the level wrap, the first
     * pass, the player update and the camera. No score changes; the win
     * counter moves only in win mode; outside win mode the player ends on
     * screen vertically; the camera ends in its band; every entry keeps its
     * kind and its hide flag, and a rock or ring its hit flag.
     */
    method Advance(dt: real, ts: real, grow: bool, shrink: bool,
                   sin: real -> real, cos: real -> real, tan: real -> real)
      requires Valid() && dt >= 0.0
      modifies this, stuff
      ensures Valid()
      ensures var (wx, wc) := Wrap(old(px), old(camX), levelW);
        var s1 := FirstPass(old(stuff[..]), dt, ts, sin, wx, old(py));
        && stuff[..] == s1
        && Player() == Move(old(Player()).(x := wx), old(doWin), dt, grow, shrink, AirHit(s1), sin, cos, tan)
        && camX == Follow(wc, px)
      ensures hitRocks == old(hitRocks) && hitRings == old(hitRings) && doWin == old(doWin)
      ensures !doWin ==> winCounter == old(winCounter) && 0.0 <= py <= GAME_HEIGHT
      ensures BandLow(px) <= camX <= BandHigh(px)
      ensures forall i :: 0 <= i < stuff.Length ==>
        stuff[i].kind == old(stuff[i].kind) && stuff[i].hide == old(stuff[i].hide)
        && (stuff[i].kind != Air ==> stuff[i].hit == old(stuff[i].hit))
    {
      WrapLevel();
      ghost var p0 := Player();
      var hitAir := UpdateStuff(dt, ts, sin);
      if doWin {
        WinStep(dt, sin, cos);
      } else {
        FlyStep(dt, grow, shrink, hitAir, sin, cos, tan);
      }
      FollowCamera();
    }

    /**
     * One frame of the simulation. The counters never decrease; in win mode
     * they stand still and the win is never left; the win starts, with its
     * counter at 0, only when every ring is hit; the radius scale stays in
     * [0.5, 2]; outside win mode the player stays on screen vertically; the
     * camera ends in its band; no entry changes kind, and no rock or ring
     * loses its hit or hide flag.
     */
    method Play(dt: real, ts: real, grow: bool, shrink: bool,
                sin: real -> real, cos: real -> real, tan: real -> real, kicks: seq<real>)
      returns (used: nat)
      requires Valid() && dt >= 0.0
      requires |kicks| >= stuff.Length
      modifies this, stuff
      ensures Valid()
      ensures hitRocks >= old(hitRocks) && hitRings >= old(hitRings) && hitRings <= numRings
      ensures old(doWin) ==> doWin && hitRocks == old(hitRocks) && hitRings == old(hitRings)
      ensures !old(doWin) && doWin ==> winCounter == 0.0 && hitRings == numRings
      ensures 0.5 <= radius <= 2.0
      ensures !old(doWin) ==> 0.0 <= py <= GAME_HEIGHT
      ensures BandLow(px) <= camX <= BandHigh(px)
      ensures forall i :: 0 <= i < stuff.Length ==>
        stuff[i].kind == old(stuff[i].kind)
        && (old(stuff[i].hit) && stuff[i].kind != Air ==> stuff[i].hit)
        && (old(stuff[i].hide) ==> stuff[i].hide)
      // the whole new state: the second pass over the state the first part of the frame leaves
      ensures var (wx, wc) := Wrap(old(px), old(camX), levelW);
        var s1 := FirstPass(old(stuff[..]), dt, ts, sin, wx, old(py));
        var p := Move(old(Player()).(x := wx), old(doWin), dt, grow, shrink, AirHit(s1), sin, cos, tan);
        var (s2, tl) := Fold(s1, Tally(old(hitRocks), old(hitRings), old(doWin), p.winCounter, p.radius, p.angle, 0),
                             numRings, p.x, p.y, dt, kicks);
        && stuff[..] == s2
        && px == p.x && py == p.y && camX == Follow(wc, p.x)
        && hitRocks == tl.hitRocks && hitRings == tl.hitRings && doWin == tl.doWin
        && winCounter == tl.winCounter && radius == tl.radius && angle == tl.angle
        && used == tl.used
    {
      Advance(dt, ts, grow, shrink, sin, cos, tan);
      ghost var s1 := stuff[..];
      ghost var tl1 := Scores();
      used := Collide(dt, kicks);
      FoldEntries(s1, tl1, numRings, px, py, dt, kicks);
      FoldCounts(s1, tl1, numRings, px, py, dt, kicks);
      FoldWin(s1, tl1, numRings, px, py, dt, kicks);
      if tl1.doWin {
        NoHitsAfterWin(s1, tl1, numRings, px, py, dt, kicks);
      }
      forall i | 0 <= i < stuff.Length
        ensures EntryStep(s1[i], stuff[i], dt)
      {
        assert stuff[i] == stuff[..][i];
      }
      RingsBounded();
    }
  }
}
