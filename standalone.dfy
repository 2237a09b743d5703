/** The top-level Player class of Player.java, with the Platform class it
    tests against. This player shares its motion with the player nested in
    GameView; its collision test is the plain overlap of the two boxes. */
module Standalone {
  import opened Physics

  /** The top-level platform class: only the position the player reads. */
  class Platform {
    var x: real
    var y: real

    constructor (x0: real, y0: real)
      ensures State() == PlatformState(x0, y0)
    {
      x, y := x0, y0;
    }

    function State(): PlatformState
      reads this
    {
      PlatformState(x, y)
    }
  }

  class Player {
    var x: real
    var y: real
    var velocityY: real

    constructor ()
      ensures State() == SpawnPlayer
    {
      x, y, velocityY := 100.0, 500.0, 0.0;
    }

    function State(): PlayerState
      reads this
    {
      PlayerState(x, y, velocityY)
    }

    /** update: the old velocity moves the player, then gravity adds one to
        the velocity; the column does not change. */
    method Update()
      modifies this
      ensures x == old(x) && y == old(y) + old(velocityY) && velocityY == old(velocityY) + 1.0
      ensures State() == Step(old(State()))
    {
      y := y + velocityY;
      velocityY := velocityY + Gravity;
    }

    /** jump: the velocity becomes -15 whatever it was; nothing else moves. */
    method Jump()
      modifies this
      ensures x == old(x) && y == old(y) && velocityY == -15.0
      ensures State() == Jumped(old(State()))
    {
      velocityY := JumpStrength;
    }

    /** collidesWith: exactly when the player's box and the platform's box
        share an interior point. */
    predicate CollidesWith(p: Platform): (r: bool)
      reads this, p
      ensures r <==> Overlap(PlayerBox(State()), PlatformBox(p.State()))
    {
      BoxCollidesIsOverlap(State(), p.State());
      BoxCollides(State(), p.State())
    }

    /** isAbove: exactly when the boxes overlap horizontally and the
        player's bottom edge is at or above the platform's top edge; such a
        player never collides with the platform. */
    predicate IsAbove(p: Platform): (r: bool)
      reads this, p
      ensures r <==> HOverlap(PlayerBox(State()), PlatformBox(p.State())) &&
                     FeetBox(State()).top <= PlatformBox(p.State()).top
      ensures r ==> !CollidesWith(p)
      ensures r ==> x < p.x + PlatformWidth && x + PlayerSize > p.x && y + PlayerSize <= p.y
    {
      IsAboveIsFeetOnTop(State(), p.State());
      AboveExcludesCollision(State(), p.State());
      Physics.IsAbove(State(), p.State())
    }
  }
}
