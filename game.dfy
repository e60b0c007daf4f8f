/** The shared per-frame context every actor reads, and the rectangle type the
    collision getters return. */
module Game {

  /** The game state the actors receive by shared reference each frame.
      The theme switcher is kept apart (module Themes); window sizes are
      `u32` in the game, hence `nat`. */
  datatype GameState = GameState(
    gameStarted: bool,
    gameOver: bool,
    fc: int,          // frame counter of the current run, also the score
    highScore: int,
    xSpeed: int,      // world scroll speed in pixels per frame
    windowWidth: nat,
    windowHeight: nat)
  {
    /** Neither flag set: the sub bobs and nothing scrolls towards it yet. */
    predicate Pregame() { !gameStarted && !gameOver }

    /** The run is under way. */
    predicate Playing() { gameStarted && !gameOver }
  }

  /** An SDL rectangle: position and size in pixels. */
  datatype Rect = Rect(x: int, y: int, width: int, height: int)
}
