/**
 * World geometry and the movement step of the player: the position after one
 * frame of held keys, clamped to the world, and the camera offset derived from it.
 */
module Movement {

  /** Width of the visible viewport. */
  const GameWidth: int := 800
  /** Width of the whole traversable world. */
  const WorldWidth: int := 2400
  /** Distance moved per frame while a direction key is held. */
  const PlayerSpeed: int := 4
  /** Width of the player sprite. */
  const PlayerWidth: int := 32
  /** Where the player stands when the game starts. */
  const StartX: int := 100

  /** Largest position the player may take (2368). */
  const MaxPlayerX: int := WorldWidth - PlayerWidth
  /** Largest camera offset (1600). */
  const MaxCameraX: int := WorldWidth - GameWidth

  predicate InBounds(x: int) {
    0 <= x <= MaxPlayerX
  }

  /** `x` forced into `[lo, hi]`: first raised to `lo`, then lowered to `hi`. */
  function Clamp(x: int, lo: int, hi: int): (r: int)
    requires lo <= hi
    ensures lo <= r <= hi
    ensures lo <= x <= hi ==> r == x
    ensures x < lo ==> r == lo
    ensures hi < x ==> r == hi
  {
    var raised := if x < lo then lo else x;
    if raised > hi then hi else raised
  }

  /**
   * The camera offset that keeps the player roughly centred: half a viewport
   * to the left of the player, but never showing anything outside the world.
   */
  function CameraX(playerX: int): (r: int)
    ensures 0 <= r <= MaxCameraX
    ensures GameWidth / 2 <= playerX <= MaxCameraX + GameWidth / 2 ==> r == playerX - GameWidth / 2
    ensures playerX <= GameWidth / 2 ==> r == 0
    ensures MaxCameraX + GameWidth / 2 <= playerX ==> r == MaxCameraX
  {
    Clamp(playerX - GameWidth / 2, 0, MaxCameraX)
  }

  /**
   * The position after one movement step: the left keys subtract the speed,
   * then the right keys add it, and only then is the result clamped.
   */
  function NextX(x: int, left: bool, right: bool): (r: int)
    ensures InBounds(r)
    ensures InBounds(x) && left == right ==> r == x
    ensures InBounds(x) && left && !right ==> r == if x < PlayerSpeed then 0 else x - PlayerSpeed
    ensures InBounds(x) && right && !left ==> r == if MaxPlayerX - PlayerSpeed < x then MaxPlayerX else x + PlayerSpeed
  {
    var afterLeft := if left then x - PlayerSpeed else x;
    var afterRight := if right then afterLeft + PlayerSpeed else afterLeft;
    Clamp(afterRight, 0, MaxPlayerX)
  }

  /**
   * Whatever the player's in-bounds position, the camera shows the whole
   * player sprite: it starts at or after the camera's left edge and ends at
   * or before its right edge.
   */
  lemma PlayerVisible(x: int)
    requires InBounds(x)
    ensures CameraX(x) <= x && x + PlayerWidth <= CameraX(x) + GameWidth
  {
  }
}
