/**
 * The tuning constants of the game (src/client/main.js), as exact reals.
 * PI is the decimal value of JavaScript's Math.PI.
 */
module Tuning {
  const PI: real := 3.141592653589793
  const TWO_PI: real := 2.0 * PI

  // Virtual viewport
  const GAME_WIDTH: real := 320.0
  const GAME_HEIGHT: real := 240.0

  // Fade time of a rock or ring once hit, in milliseconds
  const ROCK_FADE_TIME: real := 1000.0

  // Flight model
  const BASE_RADIUS: real := 50.0
  const SPEED_SCALE: real := 0.75
  const D_THETA: real := 0.002 * SPEED_SCALE
  const ACCEL: real := 0.0025
  const AIR_DRAG: real := 0.5
  const MIN_RADIUS: real := 0.5 * BASE_RADIUS

  function Min(a: real, b: real): real { if a <= b then a else b }
  function Max(a: real, b: real): real { if a >= b then a else b }
}
