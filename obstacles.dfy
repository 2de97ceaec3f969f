/**
 * The obstacles of a level (the records of state.stuff in src/client/main.js)
 * and the per-frame rules that update them in play(): the first pass, which
 * turns and oscillates every entry and tests the air pockets against the
 * player, and the second pass, the hit / fade / score / win state machine.
 * Each pass is specified here entry by entry; the second pass, whose effect
 * on the scores carries from one entry to the next, as a fold over the
 * entries (Fold), which the loop in Game.Collide follows.
 */
module Obstacles {
  import opened Tuning
  import opened Rand

  datatype Kind = Rock | Ring | Air

  /** An RGBA colour, as the vec4 of the source. */
  datatype Color = Color(r: real, g: real, b: real, a: real)

  /**
   * One entry of state.stuff. (x, y) is pos, (x0, y0) is pos0; (w, h) is the
   * size of an air pocket (0 for the others); frame is a ring's animation
   * offset. hit, hitFade and hide are absent in the source until first set,
   * which reads as false, 0 and false.
   */
  datatype Thing = Thing(
    kind: Kind,
    x: real, y: real,
    x0: real, y0: real,
    angle: real, rspeed: real,
    freq: real, amp: real,
    rsquared: real,
    w: real, h: real,
    frame: real,
    color: Color,
    hit: bool, hitFade: real, hide: bool)

  /**
   * The well-formedness of an entry between frames: only a hit rock or ring
   * is ever hidden, and a hit rock or ring still shown has a fade time in
   * [0, ROCK_FADE_TIME] and shows it as its alpha.
   */
  predicate ThingOk(t: Thing)
  {
    (t.hide ==> t.hit && t.kind != Air) &&
    (t.kind != Air && t.hit && !t.hide ==>
       0.0 <= t.hitFade <= ROCK_FADE_TIME && t.color.a == t.hitFade / ROCK_FADE_TIME)
  }

  // ---------------------------------------------------------------------------
  // First pass: turn, oscillate, air-pocket containment

  /** Whether (px, py) lies strictly inside the box of size (w, h) centred at (x, y). */
  predicate InBox(x: real, y: real, w: real, h: real, px: real, py: real)
  {
    px > x - w / 2.0 && px < x + w / 2.0 && py > y - h / 2.0 && py < y + h / 2.0
  }

  function Abs(v: real): real { if v < 0.0 then -v else v }

  /**
   * The first pass on one entry: it turns by rspeed * dt * 0.0002, its y is
   * its anchor y0 plus amp * sin(freq * ts), and an air pocket records whether
   * the player (px, py), not yet moved this frame, is inside its box.
   */
  function Oscillate(t: Thing, dt: real, ts: real, sin: real -> real, px: real, py: real): (o: Thing)
    ensures o == t.(angle := o.angle, y := o.y, hit := o.hit)
    ensures o.angle == t.angle + t.rspeed * dt * 0.0002
    ensures o.y == t.y0 + t.amp * sin(t.freq * ts)
    ensures t.kind != Air ==> o.hit == t.hit
    ensures t.kind == Air ==>
      (o.hit <==> Abs(px - o.x) * 2.0 < o.w && Abs(py - o.y) * 2.0 < o.h)
    ensures ThingOk(t) ==> ThingOk(o)
  {
    var t1 := t.(angle := t.angle + t.rspeed * dt * 0.0002, y := t.y0 + t.amp * sin(t.freq * ts));
    if t1.kind == Air then t1.(hit := InBox(t1.x, t1.y, t1.w, t1.h, px, py)) else t1
  }

  /** The first pass over a sequence of entries, with the player at (px, py). */
  function FirstPass(s: seq<Thing>, dt: real, ts: real, sin: real -> real, px: real, py: real): (r: seq<Thing>)
    ensures |r| == |s|
    ensures forall i :: 0 <= i < |s| ==> r[i] == Oscillate(s[i], dt, ts, sin, px, py)
  {
    seq(|s|, i requires 0 <= i < |s| => Oscillate(s[i], dt, ts, sin, px, py))
  }

  /** Whether some air pocket of s holds the player. */
  predicate AirHit(s: seq<Thing>)
  {
    exists i :: 0 <= i < |s| && s[i].kind == Air && s[i].hit
  }

  /** A still obstacle (freq 0) sits at its anchor whenever sin(0) is 0. */
  lemma StillStaysAtAnchor(t: Thing, dt: real, ts: real, sin: real -> real, px: real, py: real)
    requires t.freq == 0.0 && sin(0.0) == 0.0
    ensures Oscillate(t, dt, ts, sin, px, py).y == t.y0
  {
  }

  // ---------------------------------------------------------------------------
  // Second pass: hit, fade, score, win

  /**
   * The scalar game state the second pass reads and writes: the counters,
   * the win flag and counter, the player's radius scale and angle, and how
   * many draws of the random stream the rock kicks have used.
   */
  datatype Tally = Tally(
    hitRocks: nat, hitRings: nat,
    doWin: bool, winCounter: real,
    radius: real, angle: real,
    used: nat)

  /** The win flag is set exactly when every ring of a level with rings is hit. */
  predicate WinInv(tl: Tally, numRings: nat)
  {
    tl.doWin <==> (numRings > 0 && tl.hitRings == numRings)
  }

  function DistSq(t: Thing, px: real, py: real): real
  {
    (t.x - px) * (t.x - px) + (t.y - py) * (t.y - py)
  }

  /** The kick a rock hit adds to the player's angle, from one draw u. */
  function Kick(u: real): (k: real)
    ensures IsDraw(u) ==> 0.5 <= k < 0.75
  {
    FloatBetween(0.5, 0.75, u)
  }

  /**
   * The first hit of a rock or ring: the entry starts its fade; a rock counts
   * a rock hit, resets the radius scale to 0.5 and kicks the angle by the next
   * draw; a ring counts a ring hit and, when that is the last ring, starts the
   * win with a win counter of 0.
   */
  function Register(t: Thing, tl: Tally, numRings: nat, kicks: seq<real>): (res: (Thing, Tally))
    requires tl.used < |kicks|
    ensures res.0 == t.(hit := true, hitFade := ROCK_FADE_TIME)
    ensures t.kind == Rock ==>
      res.1 == tl.(hitRocks := tl.hitRocks + 1, radius := 0.5, angle := res.1.angle, used := tl.used + 1)
      && (IsDraw(kicks[tl.used]) ==> tl.angle + 0.5 <= res.1.angle < tl.angle + 0.75)
    ensures t.kind == Ring ==>
      res.1 == tl.(hitRings := tl.hitRings + 1, doWin := res.1.doWin, winCounter := res.1.winCounter)
      && (res.1.doWin <==> tl.doWin || tl.hitRings + 1 == numRings)
      && res.1.winCounter == (if tl.hitRings + 1 == numRings then 0.0 else tl.winCounter)
    ensures t.kind == Air ==> res.1 == tl
  {
    var t1 := t.(hit := true, hitFade := ROCK_FADE_TIME);
    match t.kind
    case Rock =>
      (t1, tl.(hitRocks := tl.hitRocks + 1, radius := 0.5,
               angle := tl.angle + Kick(kicks[tl.used]), used := tl.used + 1))
    case Ring =>
      if tl.hitRings + 1 == numRings then
        (t1, tl.(hitRings := tl.hitRings + 1, doWin := true, winCounter := 0.0))
      else (t1, tl.(hitRings := tl.hitRings + 1))
    case Air => (t1, tl)
  }

  /** The colour a rock or ring takes while the player touches it. */
  function Tint(t: Thing): (u: Thing)
    ensures u == t.(color := u.color) && u.color.g == t.color.g && u.color.a == t.color.a
    ensures t.kind == Rock ==> u.color.r == 1.0 && u.color.b == t.color.b
    ensures t.kind != Rock ==> u.color.r == 0.0 && u.color.b == 0.0
  {
    if t.kind == Rock then t.(color := t.color.(r := 1.0))
    else t.(color := t.color.(r := 0.0, b := 0.0))
  }

  /** One frame of fading: a hit entry loses dt of fade time and hides once below 0. */
  function Fade(t: Thing, dt: real): (f: Thing)
    ensures !t.hit ==> f == t
    ensures f == t.(hitFade := f.hitFade, hide := f.hide, color := f.color)
    ensures f.color.(a := t.color.a) == t.color
    ensures t.hit ==> f.hitFade == t.hitFade - dt && f.hide == (t.hide || f.hitFade < 0.0)
    ensures t.hit && f.hitFade >= 0.0 ==> f.color.a == f.hitFade / ROCK_FADE_TIME
    ensures t.hit && f.hitFade < 0.0 ==> f.color == t.color
  {
    if t.hit then
      var f := t.hitFade - dt;
      if f < 0.0 then t.(hitFade := f, hide := true)
      else t.(hitFade := f, color := t.color.(a := f / ROCK_FADE_TIME))
    else t
  }

  /**
   * The second pass on one entry, with the player at (px, py) after its move.
   * A hidden entry is skipped. An air pocket shows alpha 1 while the player is
   * inside it and 0.5 otherwise. A rock or ring is touched when its squared
   * distance to the player is below rsquared and the win has not started; the
   * first touch registers the hit; a hit entry then fades.
   */
  function CollideOne(t: Thing, tl: Tally, numRings: nat, px: real, py: real, dt: real, kicks: seq<real>)
    : (res: (Thing, Tally))
    requires tl.used < |kicks|
    // what never changes
    ensures res.0.kind == t.kind && res.0.x == t.x && res.0.y == t.y
    ensures res.0.x0 == t.x0 && res.0.y0 == t.y0
    ensures res.0 == t.(hit := res.0.hit, hitFade := res.0.hitFade, hide := res.0.hide, color := res.0.color)
    // an untouched rock or ring that was never hit is left alone
    ensures !t.hide && t.kind != Air && !t.hit && !(!tl.doWin && DistSq(t, px, py) < t.rsquared) ==>
      res == (t, tl)
    // hidden entries are skipped
    ensures t.hide ==> res == (t, tl)
    // hit and hide never go back
    ensures t.hit ==> res.0.hit
    ensures t.hide ==> res.0.hide
    ensures t.kind == Air ==> res.0.hit == t.hit && res.0.hide == t.hide
    // a new hit needs a touch, outside win mode
    ensures res.0.hit && !t.hit ==> t.kind != Air && !tl.doWin && DistSq(t, px, py) < t.rsquared
    ensures !t.hit && !t.hide && t.kind != Air && !tl.doWin && DistSq(t, px, py) < t.rsquared ==> res.0.hit
    // counters count first hits only
    ensures res.1.hitRocks == tl.hitRocks + (if t.kind == Rock && !t.hit && res.0.hit then 1 else 0)
    ensures res.1.hitRings == tl.hitRings + (if t.kind == Ring && !t.hit && res.0.hit then 1 else 0)
    ensures res.1.used == tl.used + (if t.kind == Rock && !t.hit && res.0.hit then 1 else 0)
    // a rock hit resets the radius scale and kicks the angle; nothing else touches them
    ensures t.kind == Rock && !t.hit && res.0.hit ==>
      res.1.radius == 0.5 && res.1.angle == tl.angle + Kick(kicks[tl.used])
    ensures !(t.kind == Rock && !t.hit && res.0.hit) ==> res.1.radius == tl.radius && res.1.angle == tl.angle
    // the win starts exactly on the hit of the last ring, and never stops
    ensures tl.doWin ==> res.1.doWin && res.1.winCounter == tl.winCounter
    ensures !tl.doWin && res.1.doWin <==> t.kind == Ring && !t.hit && res.0.hit && tl.hitRings + 1 == numRings
    ensures !tl.doWin && res.1.doWin ==> res.1.winCounter == 0.0
    ensures !res.1.doWin ==> res.1.winCounter == tl.winCounter
    ensures WinInv(tl, numRings) ==> WinInv(res.1, numRings)
    // colours: an air pocket shows whether the player is inside it, a touched
    // rock turns red and a touched ring loses its red and blue
    ensures !t.hide && t.kind == Air ==> res.0.color.a == (if t.hit then 1.0 else 0.5)
    ensures !t.hide && t.kind != Air && !tl.doWin && DistSq(t, px, py) < t.rsquared ==>
      if t.kind == Rock then res.0.color.r == 1.0 else res.0.color.r == 0.0 && res.0.color.b == 0.0
    ensures !t.hide && t.kind != Air && !(!tl.doWin && DistSq(t, px, py) < t.rsquared) ==>
      res.0.color.(a := t.color.a) == t.color
    // fading
    ensures !t.hide && t.kind != Air && res.0.hit ==>
      res.0.hitFade == (if t.hit then t.hitFade else ROCK_FADE_TIME) - dt
      && (res.0.hide <==> res.0.hitFade < 0.0)
    ensures ThingOk(t) && dt >= 0.0 ==> ThingOk(res.0)
  {
    if t.hide then (t, tl)
    else if t.kind == Air then (t.(color := t.color.(a := if t.hit then 1.0 else 0.5)), tl)
    else
      var touch := DistSq(t, px, py) < t.rsquared && !tl.doWin;
      var (t1, tl1) := if touch && !t.hit then Register(t, tl, numRings, kicks) else (t, tl);
      var t2 := if touch then Tint(t1) else t1;
      (Fade(t2, dt), tl1)
  }

  /**
   * The second pass over a sequence of entries, in order: the tally each
   * entry sees is the one the entries before it left.
   */
  function Fold(s: seq<Thing>, tl: Tally, numRings: nat, px: real, py: real, dt: real, kicks: seq<real>)
    : (res: (seq<Thing>, Tally))
    requires tl.used + |s| <= |kicks|
    ensures |res.0| == |s|
    ensures tl.used <= res.1.used <= tl.used + |s|
    decreases |s|
  {
    if s == [] then ([], tl)
    else
      var (ps, tl1) := Fold(s[..|s| - 1], tl, numRings, px, py, dt, kicks);
      var (e, tl2) := CollideOne(s[|s| - 1], tl1, numRings, px, py, dt, kicks);
      (ps + [e], tl2)
  }

  // ---------------------------------------------------------------------------
  // Counting

  /** The number of entries of kind k in s. */
  function CountKind(s: seq<Thing>, k: Kind): nat
    decreases |s|
  {
    if s == [] then 0
    else CountKind(s[..|s| - 1], k) + (if s[|s| - 1].kind == k then 1 else 0)
  }

  /** The number of entries of kind k in s that have been hit. */
  function CountHit(s: seq<Thing>, k: Kind): nat
    decreases |s|
  {
    if s == [] then 0
    else CountHit(s[..|s| - 1], k) + (if s[|s| - 1].kind == k && s[|s| - 1].hit then 1 else 0)
  }

  /** Each entry counts at most once: no more entries of a kind are hit than exist. */
  lemma {:induction false} CountHitBounded(s: seq<Thing>, k: Kind)
    ensures CountHit(s, k) <= CountKind(s, k)
  {
    if s != [] {
      CountHitBounded(s[..|s| - 1], k);
    }
  }

  /**
   * Two sequences of entries that agree on every entry's kind, and on the hit
   * flag of every entry of kind k, have as many entries of kind k, and as
   * many hit ones.
   */
  lemma {:induction false} CountsAgree(s: seq<Thing>, s': seq<Thing>, k: Kind)
    requires |s| == |s'|
    requires forall i :: 0 <= i < |s| ==> s[i].kind == s'[i].kind
    requires forall i :: 0 <= i < |s| && s[i].kind == k ==> s[i].hit == s'[i].hit
    ensures CountKind(s, k) == CountKind(s', k)
    ensures CountHit(s, k) == CountHit(s', k)
  {
    if s != [] {
      CountsAgree(s[..|s| - 1], s'[..|s'| - 1], k);
    }
  }

  // ---------------------------------------------------------------------------
  // The second pass over a whole level

  /**
   * What the second pass may do to one entry: keep its kind and place, never
   * clear its hit or hide flag, leave an air pocket's flags alone, keep it
   * well-formed when dt is not negative, and leave a hidden entry exactly as
   * it was.
   */
  predicate EntryStep(t: Thing, t': Thing, dt: real)
  {
    t'.kind == t.kind && t'.x == t.x && t'.y == t.y && t'.x0 == t.x0 && t'.y0 == t.y0
    && (t.hit ==> t'.hit) && (t.hide ==> t'.hide)
    && (t.kind == Air ==> t'.hit == t.hit && t'.hide == t.hide)
    && (ThingOk(t) && dt >= 0.0 ==> ThingOk(t'))
    && (t.hide ==> t' == t)
  }

  /** Every entry changes as EntryStep allows. */
  lemma {:induction false} FoldEntries(s: seq<Thing>, tl: Tally, numRings: nat, px: real, py: real, dt: real, kicks: seq<real>)
    requires tl.used + |s| <= |kicks|
    ensures var s' := Fold(s, tl, numRings, px, py, dt, kicks).0;
      forall i :: 0 <= i < |s| ==> EntryStep(s[i], s'[i], dt)
    decreases |s|
  {
    if s != [] {
      var n := |s| - 1;
      FoldEntries(s[..n], tl, numRings, px, py, dt, kicks);
      var (ps, tl1) := Fold(s[..n], tl, numRings, px, py, dt, kicks);
      var (e, tl2) := CollideOne(s[n], tl1, numRings, px, py, dt, kicks);
      assert EntryStep(s[n], e, dt);
      forall i | 0 <= i < |s|
        ensures EntryStep(s[i], (ps + [e])[i], dt)
      {
        if i < n { assert s[i] == s[..n][i]; }
      }
    }
  }

  /**
   * The counters grow by exactly the entries hit for the first time, so they
   * never decrease, and the number of entries of each kind is unchanged.
   */
  lemma {:induction false} FoldCounts(s: seq<Thing>, tl: Tally, numRings: nat, px: real, py: real, dt: real, kicks: seq<real>)
    requires tl.used + |s| <= |kicks|
    ensures var (s', tl') := Fold(s, tl, numRings, px, py, dt, kicks);
      && tl'.hitRocks + CountHit(s, Rock) == tl.hitRocks + CountHit(s', Rock)
      && tl'.hitRings + CountHit(s, Ring) == tl.hitRings + CountHit(s', Ring)
      && tl.hitRocks <= tl'.hitRocks && tl.hitRings <= tl'.hitRings
      && CountKind(s', Rock) == CountKind(s, Rock)
      && CountKind(s', Ring) == CountKind(s, Ring)
      && CountKind(s', Air) == CountKind(s, Air)
    decreases |s|
  {
    if s != [] {
      var n := |s| - 1;
      FoldCounts(s[..n], tl, numRings, px, py, dt, kicks);
      var (ps, tl1) := Fold(s[..n], tl, numRings, px, py, dt, kicks);
      var (e, tl2) := CollideOne(s[n], tl1, numRings, px, py, dt, kicks);
      assert (ps + [e])[..n] == ps;
    }
  }

  /**
   * The win flag is never cleared, the win invariant is kept, and once the
   * win has started no entry is hit any more and the win counter is left
   * to the win-mode update.
   */
  lemma {:induction false} FoldWin(s: seq<Thing>, tl: Tally, numRings: nat, px: real, py: real, dt: real, kicks: seq<real>)
    requires tl.used + |s| <= |kicks|
    ensures var (s', tl') := Fold(s, tl, numRings, px, py, dt, kicks);
      && (tl.doWin ==> tl'.doWin && tl'.winCounter == tl.winCounter
                       && forall i :: 0 <= i < |s| ==> s'[i].hit == s[i].hit)
      && (WinInv(tl, numRings) ==> WinInv(tl', numRings))
      && (!tl.doWin && tl'.doWin ==> tl'.winCounter == 0.0)
      && (!tl'.doWin ==> tl'.winCounter == tl.winCounter)
    decreases |s|
  {
    if s != [] {
      var n := |s| - 1;
      FoldWin(s[..n], tl, numRings, px, py, dt, kicks);
      var (ps, tl1) := Fold(s[..n], tl, numRings, px, py, dt, kicks);
      var (e, tl2) := CollideOne(s[n], tl1, numRings, px, py, dt, kicks);
      if tl.doWin {
        forall i | 0 <= i < |s|
          ensures (ps + [e])[i].hit == s[i].hit
        {
          if i < n { assert s[i] == s[..n][i]; }
        }
      }
    }
  }

  /** The radius scale stays in [0.5, 2]: a rock hit sets it to 0.5. */
  lemma {:induction false} FoldRadius(s: seq<Thing>, tl: Tally, numRings: nat, px: real, py: real, dt: real, kicks: seq<real>)
    requires tl.used + |s| <= |kicks|
    requires 0.5 <= tl.radius <= 2.0
    ensures 0.5 <= Fold(s, tl, numRings, px, py, dt, kicks).1.radius <= 2.0
    decreases |s|
  {
    if s != [] {
      FoldRadius(s[..|s| - 1], tl, numRings, px, py, dt, kicks);
    }
  }

  /**
   * A level and its scores agree: the radius scale is in [0.5, 2]; the
   * counters are the numbers of rocks and rings hit; there are numRings
   * rings; the win flag is set exactly when they are all hit; the win
   * counter is not negative; every entry is well-formed.
   */
  ghost predicate LevelOk(s: seq<Thing>, tl: Tally, numRings: nat)
  {
    0.5 <= tl.radius <= 2.0
    && tl.hitRocks == CountHit(s, Rock)
    && tl.hitRings == CountHit(s, Ring)
    && CountKind(s, Ring) == numRings
    && WinInv(tl, numRings)
    && tl.winCounter >= 0.0
    && forall i :: 0 <= i < |s| ==> ThingOk(s[i])
  }

  /** The second pass keeps a level and its scores in agreement. */
  lemma FoldKeepsLevelOk(s: seq<Thing>, tl: Tally, numRings: nat, px: real, py: real, dt: real, kicks: seq<real>)
    requires tl.used + |s| <= |kicks|
    requires LevelOk(s, tl, numRings) && dt >= 0.0
    ensures var (s', tl') := Fold(s, tl, numRings, px, py, dt, kicks);
      LevelOk(s', tl', numRings)
  {
    FoldEntries(s, tl, numRings, px, py, dt, kicks);
    FoldCounts(s, tl, numRings, px, py, dt, kicks);
    FoldWin(s, tl, numRings, px, py, dt, kicks);
    FoldRadius(s, tl, numRings, px, py, dt, kicks);
  }

  /** The first pass keeps a level and its scores in agreement. */
  lemma FirstPassKeepsLevelOk(s: seq<Thing>, tl: Tally, numRings: nat, dt: real, ts: real, sin: real -> real,
                              px: real, py: real)
    requires LevelOk(s, tl, numRings)
    ensures LevelOk(FirstPass(s, dt, ts, sin, px, py), tl, numRings)
  {
    var r := FirstPass(s, dt, ts, sin, px, py);
    CountsAgree(s, r, Rock);
    CountsAgree(s, r, Ring);
  }

  /** In win mode the second pass never registers a hit: the counters stand still. */
  lemma NoHitsAfterWin(s: seq<Thing>, tl: Tally, numRings: nat, px: real, py: real, dt: real, kicks: seq<real>)
    requires tl.used + |s| <= |kicks|
    requires tl.doWin
    ensures Fold(s, tl, numRings, px, py, dt, kicks).1.hitRocks == tl.hitRocks
    ensures Fold(s, tl, numRings, px, py, dt, kicks).1.hitRings == tl.hitRings
    ensures Fold(s, tl, numRings, px, py, dt, kicks).1.doWin
  {
    FoldWin(s, tl, numRings, px, py, dt, kicks);
    FoldCounts(s, tl, numRings, px, py, dt, kicks);
    FoldEntries(s, tl, numRings, px, py, dt, kicks);
    var s' := Fold(s, tl, numRings, px, py, dt, kicks).0;
    CountsAgree(s, s', Rock);
    CountsAgree(s, s', Ring);
  }

  /**
   * The kick of a rock hit is not wrapped: an angle just below 2*PI is pushed
   * past 2*PI by it.
   */
  lemma KickLeavesRange(t: Thing, tl: Tally, px: real, py: real, dt: real, kicks: seq<real>)
    requires t.kind == Rock && !t.hit && !t.hide && !tl.doWin
    requires DistSq(t, px, py) < t.rsquared
    requires tl.used < |kicks| && IsDraw(kicks[tl.used])
    requires TWO_PI - 0.5 <= tl.angle < TWO_PI
    ensures CollideOne(t, tl, 2, px, py, dt, kicks).1.angle >= TWO_PI
  {
  }
}
