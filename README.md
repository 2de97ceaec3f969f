# LD47 flight game: a verified model of the simulation core

This project models the core of the game LD47 ("dante slumbers"), taken from
`src/client/main.js`. The player flies on a circular orbit through a level that
wraps around horizontally. The level holds rocks to avoid, rings to collect, and
air pockets that slow the player down. The model covers two parts of the source:

- `setupLevel`, which generates a level from a seeded random stream;
- the simulation half of `play(dt)`, one frame of the game.

One frame does these steps, in order:

1. Wrap the level around the player.
2. First pass over the obstacles: each one turns and oscillates, and each air
   pocket records whether it contains the player.
3. Move the player. While flying, this is the radius-scale control, the
   edge-bounded orbit step, the air drag and the vertical clamp. After the win,
   it is the win-mode easing instead.
4. Move the dead-zone camera.
5. Second pass over the obstacles: hits, fading, the score counters and the win
   trigger.

Modules:

- `Tuning` holds the game's constants.
- `Rand` models `floatBetween` on one draw in [0, 1).
- `Flight` holds the player's motion as pure functions.
- `Camera` holds the wrap and the dead-zone camera.
- `Obstacles` holds the obstacle record (`Thing`) and both passes, entry by
  entry. The second pass, whose scores carry from one entry to the next, is
  specified as a fold (`Fold`).
- `Level` holds generation: a `Generate` method with the source's push loops,
  proved equal to the `Layout` specification.
- `Game` holds the `GameState` class: the obstacle array, updated in place, and
  the scalar fields of `state`. Its methods are proved against the functions
  above. Their shared invariant is `Valid`, which rests on `Obstacles.LevelOk`.

Opaque inputs:

- The trigonometric functions `sin`, `cos` and `tan` are function parameters.
- `engine.frame_timestamp` is the parameter `ts`.
- The keys D and A are the booleans `grow` and `shrink`.
- The random generator is replaced by sequences of draws. Generation takes
  `draws`. The kicks of rock hits continue the same random stream: they take
  `kicks`, consumed in order. A caller that follows the source passes
  `draws[DrawsNeeded(cfg)..]` as the kicks of the first frame, and each frame
  advances past the `used` draws that `Play` returns.

Three behaviours of the code the model keeps:

- The wrap test is a strict `x > level_w`.
- The orbit angle is not re-wrapped after a rock's kick, so it can exceed 2π
  (`Obstacles.KickLeavesRange`). For such an angle, the edge test's bias comes
  out negative (`Flight.EdgeTest`).
- `state.do_win` and `state.win_counter` are unset until the win. The model
  reads them as `false` and `0`, which is how the code treats them.

## Model

| member | source | states |
|---|---|---|
| Rand.FloatBetween | src/client/main.js:158 | a draw in [0, 1) gives a value in [a, b), strictly above a when the draw is positive |
| Camera.Wrap | src/client/main.js:244-250 | strictly past level_w, both player and camera move back by level_w; below 0, both move forward; the camera-to-player offset is unchanged; x in (-level_w, 2·level_w] lands in [0, level_w] |
| Camera.Follow | src/client/main.js:390-391 | the camera ends in [floor(x) - 2/3·width, floor(x) - 1/3·width]; a camera already in that band stays; otherwise it moves to the nearer end |
| Camera.FollowAfterWrap | src/client/main.js:390-391 | shifting player and camera by a whole level width shifts the followed camera by the same amount, so wrapping does not disturb the camera |
| Camera.FloorShift | src/client/main.js:390-391 | floor commutes with a shift by a whole number (the step FollowAfterWrap needs) |
| Flight.RadiusStep | src/client/main.js:298-307 | D raises the scale by dt·accel, capped at 2; otherwise A lowers it by dt·accel, capped at 0.5; with no key a scale above 1 falls by 2·dt·accel and one below 1 rises by it, stopping at 1, and 1 stays 1; the scale stays in [0.5, 2] |
| Flight.DecayNeverOvershoots | src/client/main.js:303-307 | with no key, a scale above 1 stays at least 1, one below 1 stays at most 1 (so it never crosses 1), and 1 is a fixed point |
| Flight.EdgeTest | src/client/main.js:311-321 | an angle at most π is its own test angle with no bias; any angle past π is reflected to 2π - angle, with bias 100·t below π/2 and 100·(π - t) from there; for an angle in (π, 2π] the test angle is in [0, π) and the bias in [0, π·BASE_RADIUS]; past 2π the bias is negative |
| Flight.BottomAngle | src/client/main.js:330-333 | the angle minus π, plus 2π exactly when that is below 0, so in [0, 2π) when the angle was |
| Flight.EdgeBound | src/client/main.js:322-325 | the bound is not finite (None) exactly when sin(π - test angle) is 0; otherwise it solves max_r·sin = tan·dist + (bias - 0.5)·sin |
| Flight.CombineBounds | src/client/main.js:351-357 | finite when either bound is; it is one of them and at most each finite one (their minimum, or the only finite one) |
| Flight.Loosen | src/client/main.js:363-365 | a bound above min_radius has its excess over min_radius quadrupled, so it never shrinks; one at or below min_radius is kept |
| Flight.EffectiveRadius | src/client/main.js:358-369 | the orbit radius never exceeds scale·BASE_RADIUS; without a bound it is exactly that; with one it is the smaller of that and the loosened bound |
| Flight.TightNearEdge | src/client/main.js:358-369 | when the combined bound is at most min_radius, the radius is exactly the minimum of the nominal radius and that bound |
| Flight.FlyAngle | src/client/main.js:371-374 | the angle steps down by dt·dTheta, and 2π is added exactly when that result is below 0; an angle in [0, 2π) stays there for a step of at most 2π |
| Flight.OrbitStep | src/client/main.js:375-376 | from the orbit centre (OrbitCentre), the new position lies radius back along the new perpendicular: the move is radius·(cos, sin) of the old perpendicular minus that of the new one |
| Flight.OrbitKeepsRadius | src/client/main.js:375-376 | for unit (cos, sin) pairs, the old and new positions both lie at distance radius from the orbit centre |
| Flight.DragBlend | src/client/main.js:377-382 | inside an air pocket the player ends halfway between the old and the new position |
| Flight.ClampY | src/client/main.js:385-387 | y is clamped to [0, GAME_HEIGHT], unchanged inside it |
| Flight.WinAngle | src/client/main.js:273-284 | inside the band (0.75π, π) the angle rises by da, capped at π; outside it, it falls by da, with 2π added when that result is below 0, and snaps to π when it lands in the band; π stays π for a step in (0, π/4); [0, 2π) is kept |
| Flight.WinAngleSettles | src/client/main.js:273-284 | once the win angle is π, it stays π over any run of frames with small positive steps |
| Flight.PlayerScale | src/client/main.js:296 | the win-mode scale is at most 2, at least 1, and exactly 2 after 2000 ms |
| Flight.WinMove | src/client/main.js:270-295 | win mode: the counter grows by dt, the angle is WinAngle of the old one, the radius scale is kept |
| Flight.FlyMove | src/client/main.js:298-387 | flying: the counter is kept, the scale is RadiusStep of the old one, the angle FlyAngle of the old one, and y ends in [0, GAME_HEIGHT] |
| Flight.Move | src/client/main.js:268-387 | the player update: the win counter never decreases, the scale stays in [0.5, 2], while flying y ends on screen and the counter is kept, and in win mode the scale is kept and the angle eases |
| Obstacles.Oscillate | src/client/main.js:254-265 | an entry turns by rspeed·dt·0.0002; its y is y0 + amp·sin(freq·ts); an air pocket is hit exactly when the unmoved player is strictly inside its box; nothing else changes; well-formedness is kept |
| Obstacles.FirstPass | src/client/main.js:254-265 | the first pass keeps the number of entries and updates each entry as Oscillate does |
| Obstacles.FirstPassKeepsLevelOk | src/client/main.js:254-265 | the first pass keeps the counts of rocks, rings and hits, so a level keeps its agreement with its scores |
| Obstacles.StillStaysAtAnchor | src/client/main.js:257 | an obstacle with freq 0 stays at its anchor y |
| Obstacles.Kick | src/client/main.js:433 | a rock kick is in [0.5, 0.75) |
| Obstacles.Register | src/client/main.js:427-440 | a first hit sets hit and a fade of 1000; a rock counts one rock hit, sets the scale to 0.5, kicks the angle by [0.5, 0.75) and uses one draw, changing nothing else; a ring counts one ring hit and starts the win, with counter 0, exactly when it is the last ring |
| Obstacles.Tint | src/client/main.js:442-447 | a touched rock turns red and a touched ring loses red and blue; green and alpha and every other field are kept |
| Obstacles.Fade | src/client/main.js:449-455 | a hit entry loses dt of fade time and is hidden once the fade drops below 0; while still shown its alpha is the fade over 1000; only fade, hide and alpha change, and an entry not hit is unchanged |
| Obstacles.CollideOne | src/client/main.js:407-459 | a hidden entry is skipped; only hit, fade, hide and colour can change; an untouched rock or ring never hit is unchanged; hit and hide are never cleared; an air pocket shows alpha 1 or 0.5 and is never hidden; a new hit needs a touch outside win mode, and a touch always hits; counters rise only on a first hit; a rock hit sets the scale to 0.5 and kicks the angle; the win starts exactly on the hit of the last ring, with counter 0, and never stops; a hit entry's fade is set to 1000, drops by dt and hides the entry below 0; touch tints; well-formedness is kept |
| Obstacles.Fold | src/client/main.js:407-459 | the pass keeps the number of entries and uses at most one kick per entry |
| Obstacles.CountHitBounded | src/client/main.js:435-436 | no more entries of a kind are hit than exist |
| Obstacles.CountsAgree | src/client/main.js:254-265 | entries that keep their kinds and the relevant hit flags keep both counts |
| Obstacles.FoldEntries | src/client/main.js:407-459 | every entry keeps its kind and place, never loses hit or hide, stays well-formed, and a hidden entry is unchanged |
| Obstacles.FoldCounts | src/client/main.js:425-441 | each counter grows by exactly the number of new hits of its kind, so it never decreases; the number of entries of each kind is unchanged |
| Obstacles.FoldWin | src/client/main.js:425-441 | the win flag is never cleared; in win mode no hit flag changes and the counter stands still; the win invariant is kept; a win started in the pass has counter 0 |
| Obstacles.FoldRadius | src/client/main.js:432 | the radius scale stays in [0.5, 2] |
| Obstacles.FoldKeepsLevelOk | src/client/main.js:407-459 | the pass keeps the counters equal to the counts of hit rocks and rings, the win invariant, the radius range and every entry's well-formedness |
| Obstacles.NoHitsAfterWin | src/client/main.js:425 | once the win has started, the pass registers no hit |
| Obstacles.KickLeavesRange | src/client/main.js:433 | the kick is not wrapped: an angle just below 2π is pushed to 2π or beyond |
| Level.Compress | src/client/main.js:159-161 | left of the safe zone, y moves toward the nearer screen edge, to a tenth of its distance from it, staying in [0, GAME_HEIGHT]; elsewhere it is unchanged |
| Level.NumRocks | src/client/main.js:155 | the number of rocks is floor(level_w / rdense) |
| Level.NumAir | src/client/main.js:190 | the number of air pockets is floor(level_w / air_dense), and 0 when air_dense is 0 |
| Level.MakeRock | src/client/main.js:156-173 | a rock is not hit or hidden, does not oscillate, has amp 40, rsquared 64 and colour (0.1, 0.1, 0.1, 1), an angle in [0, 2π) and a spin in [-1, 1) |
| Level.MakeRing | src/client/main.js:176-188 | a ring is not hit or hidden, does not spin, has freq 0.001, amp 32, rsquared 144, colour white and an animation frame in [0, 10) |
| Level.MakeAir | src/client/main.js:192-204 | an air pocket is not hit or hidden, does not spin or oscillate, is 32 wide, has amp 32 and the palette colour |
| Level.RockPlacement | src/client/main.js:156-174 | rock ii lies in its cell [ii·rdense, (ii+1)·rdense) and on screen |
| Level.RingPlacement | src/client/main.js:175-189 | ring ii lies in ring zone ii+1 and in the band [32, GAME_HEIGHT - 64) |
| Level.AirPlacement | src/client/main.js:190-205 | air pocket ii lies in its cell of width air_dense, at y in [16, GAME_HEIGHT - 16), 32 wide and [32, 64) high |
| Level.Anchor | src/client/main.js:206-208 | the anchor pos0 is a copy of pos |
| Level.Layout | src/client/main.js:155-208 | a level has floor(level_w/rdense) rocks, num_rings rings and floor(level_w/air_dense) air pockets (none when air_dense is 0) |
| Level.Generate | src/client/main.js:155-208 | the push loops and the final anchoring loop build exactly Layout |
| Level.LayoutFacts | src/client/main.js:155-208 | rocks come first, then rings, then air pockets; exactly num_rings rings; nothing hit or hidden; every entry anchored and well-formed |
| Level.LayoutLevelOk | src/client/main.js:142-208 | a fresh level agrees with zero counters, no win and scale 1 |
| Level.LayoutRockPlacement | src/client/main.js:156-174 | rock ii of a generated level is a rock in its cell and on screen |
| Level.LayoutRingPlacement | src/client/main.js:175-189 | ring ii of a generated level is a ring in ring zone ii+1 |
| Level.LayoutAirPlacement | src/client/main.js:190-205 | air pocket ii of a generated level has the palette colour and lies in its cell |
| Level.RingsInBlocks | src/client/main.js:175-189 | a level laid out in blocks has as many rings as its ring block |
| Level.NoHitsCounted | src/client/main.js:142-154 | a level with no hit entries counts no hits |
| Level.DefaultCounts | src/client/main.js:135-141 | the default level is 480 wide, with 30 rocks, 2 rings and 2 air pockets, and takes 132 draws |
| Game.GameState.SetupLevel | src/client/main.js:134-209 | the new state holds the generated level, with the player at (160, 170), angle π, scale 1, the camera at 0, no hits and no win; the state invariant holds |
| Game.GameState.RingsBounded | src/client/main.js:435-436 | hit_rings never exceeds num_rings |
| Game.GameState.WrapLevel | src/client/main.js:244-250 | player x and camera move as Wrap says; nothing else changes |
| Game.GameState.UpdateStuff | src/client/main.js:253-265 | the array becomes FirstPass of the old one, each entry as Oscillate says; hit_air holds exactly when some air pocket contains the player |
| Game.GameState.WinStep | src/client/main.js:270-296 | win mode: the pose becomes WinMove of the old one; the counter grows by dt, the angle eases as WinAngle says, the player drifts back along it and down once it is π; the scale is untouched |
| Game.GameState.FlyStep | src/client/main.js:298-387 | flying: the pose becomes FlyMove of the old one; the scale steps; the angle steps; y ends in [0, GAME_HEIGHT]; camera and counters are untouched |
| Game.GameState.FollowCamera | src/client/main.js:390-391 | the camera is updated as Follow says |
| Game.GameState.SecondPass | src/client/main.js:407-459 | the loop over the entries leaves the array and the scores exactly as Fold computes them |
| Game.GameState.Collide | src/client/main.js:407-459 | the array and the scores become what Fold computes from them; the player and camera do not move; the state invariant is kept |
| Game.GameState.Advance | src/client/main.js:243-391 | the whole state before the second pass: the player and camera wrap; the array becomes FirstPass of the old one at the wrapped player; the pose becomes Move of the wrapped pose, with the air hits of the new array; the camera is Follow of the wrapped camera; no score changes |
| Game.GameState.Play | src/client/main.js:243-459 | the whole new state: the array, scores and kicks used are Fold over the state Advance leaves, and the player and camera are where Advance left them; the invariant is kept; the counters never decrease and hit_rings stays at most num_rings; the win is never left and freezes the counters; it starts with counter 0 only when all rings are hit; the scale stays in [0.5, 2]; outside win mode y stays on screen; the camera ends in its band; no entry changes kind or loses hit or hide |

## Left out

- Rendering, sprites, the camera2d view, fonts and the HUD are left out. So is the draw-time x wrap of obstacles, which only affects drawing.
- The ring's animation frame is left out. It is computed only for drawing.
- The trigonometric functions are opaque parameters. No property is proved from their values, except where a lemma states its assumption about them: unit (cos, sin) pairs in Flight.OrbitKeepsRadius, sin 0 = 0 in Obstacles.StillStaysAtAnchor. `isFinite` of an edge bound is modelled as "the sine in the denominator is non-zero". An overflow of `tan` near its poles is not modelled.
- Floating point is modelled as exact reals, and π as the decimal 3.141592653589793.
- The `rand_alea.js` generator is left out because its code is not available. Generation consumes a sequence of draws in the order the source calls the generator. `floatBetween(a, b)` is modelled as a + (b - a)·u for one draw u.
- Rand.FloatBetween: the affine mapping is an assumption about the generator, whose code is not available.
- Input polling is left out. The D and A keys are two booleans.
- The engine, startup, networking and local storage are left out.
- `src/server/glov/log.js` is left out. It is logging and file I/O with no game logic.
- In the source, every air pocket shares one palette colour object, so setting the alpha of one air pocket changes all of them. The model keeps a copy per pocket. Each pocket is drawn right after its alpha is set, so only the drawn colour depends on this, and drawing is not modelled.
- Level.Generate: returns the entries as a sequence. `GameState.SetupLevel` then copies them into the array that play updates in place. The source instead pushes onto the array.
- Game.GameState.SetupLevel: the generation constants are a `Config` parameter rather than fixed locals. It requires a positive rock cell width (rdense) and a positive ring zone width, so that the rock count is defined and the level has a positive width; the source's constants satisfy both.
- Level.Generate: also requires a positive rdense, as do Level.Layout and Level.NumRocks, because the rock count divides by it.
- Game.GameState.Play: requires dt ≥ 0. The fade bounds and the radius decay rely on time not running backwards.
