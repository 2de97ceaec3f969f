/**
 * The horizontal level wrap and the dead-zone camera of play() in
 * src/client/main.js, as pure functions over the player's x and the camera's x.
 */
module Camera {
  import opened Tuning

  /**
   * The level wrap: a player past the right end (strictly) moves back by the
   * level width, a player left of 0 moves forward by it, and the camera moves
   * with the player.
   */
  function Wrap(x: real, camX: real, levelW: real): (w: (real, real))
    ensures w.1 - w.0 == camX - x
    ensures x > levelW ==> w.0 == x - levelW
    ensures 0.0 <= x <= levelW ==> w == (x, camX)
    ensures x < 0.0 && !(x > levelW) ==> w.0 == x + levelW
    ensures levelW > 0.0 && -levelW < x <= 2.0 * levelW ==> 0.0 <= w.0 <= levelW
  {
    if x > levelW then (x - levelW, camX - levelW)
    else if x < 0.0 then (x + levelW, camX + levelW)
    else (x, camX)
  }

  /** The left edge of the band the camera may rest in, for player x. */
  function BandLow(x: real): real { x.Floor as real - GAME_WIDTH * 2.0 / 3.0 }

  /** The right edge of the band the camera may rest in, for player x. */
  function BandHigh(x: real): real { x.Floor as real - GAME_WIDTH / 3.0 }

  /**
   * The dead-zone camera: the camera x is kept within the band
   * [floor(x) - 2/3 GAME_WIDTH, floor(x) - 1/3 GAME_WIDTH]; inside it the
   * camera stays, outside it the camera moves to the nearer end.
   */
  function Follow(camX: real, x: real): (c: real)
    ensures BandLow(x) <= c <= BandHigh(x)
    ensures BandLow(x) <= camX <= BandHigh(x) ==> c == camX
    ensures camX < BandLow(x) ==> c == BandLow(x)
    ensures camX > BandHigh(x) ==> c == BandHigh(x)
  {
    Min(Max(camX, BandLow(x)), BandHigh(x))
  }

  /**
   * Wrapping does not change where the camera settles relative to the
   * player: shifting player and camera by a whole level width shifts the
   * followed camera by the same amount.
   */
  lemma {:induction false} FollowAfterWrap(x: real, camX: real, levelW: int)
    ensures Follow(camX - levelW as real, x - levelW as real) == Follow(camX, x) - levelW as real
  {
    FloorShift(x, levelW);
  }

  /** Shifting by a whole number shifts the floor by it. */
  lemma FloorShift(x: real, k: int)
    ensures (x - k as real).Floor == x.Floor - k
  {
    var f := x.Floor;
    assert f as real <= x < f as real + 1.0;
    assert (f - k) as real <= x - k as real < (f - k) as real + 1.0;
  }
}
