/** Value-level physics of the platformer: the state of a player and of a
    platform, the per-frame motion of each, and the box tests the two player
    classes use to detect a collision. Both player classes (the one nested in
    GameView and the top-level one) share this arithmetic; they differ only in
    the last conjunct of their collision test, so both tests live here. */
module Physics {

  /** The player is a 100 x 100 box anchored at its top-left corner. */
  const PlayerSize: real := 100.0
  /** A platform is a 200 x 50 box anchored at its top-left corner. */
  const PlatformWidth: real := 200.0
  const PlatformHeight: real := 50.0
  /** Added to the vertical velocity once per frame (y grows downwards). */
  const Gravity: real := 1.0
  /** The vertical velocity a jump sets (negative: upwards). */
  const JumpStrength: real := -15.0
  /** How far a platform moves to the left on each of its updates. */
  const Speed: real := 5.0

  datatype PlayerState = PlayerState(x: real, y: real, velocityY: real)
  datatype PlatformState = PlatformState(x: real, y: real)

  /** Where a freshly constructed player stands. */
  const SpawnPlayer := PlayerState(100.0, 500.0, 0.0)

  /** Player.update: move by the old velocity, then apply gravity. */
  function Step(s: PlayerState): PlayerState {
    PlayerState(s.x, s.y + s.velocityY, s.velocityY + Gravity)
  }

  /** Player.jump: the velocity becomes the jump strength, whatever it was. */
  function Jumped(s: PlayerState): PlayerState {
    s.(velocityY := JumpStrength)
  }

  /** Platform.update. */
  function Move(p: PlatformState): PlatformState {
    PlatformState(p.x - Speed, p.y)
  }

  /** The collision test of the player class nested in GameView: the boxes
      overlap horizontally and the player's bottom edge lies strictly inside
      the platform's vertical band. */
  predicate Collides(pl: PlayerState, p: PlatformState) {
    pl.x < p.x + PlatformWidth &&
    pl.x + PlayerSize > p.x &&
    pl.y + PlayerSize > p.y &&
    pl.y + PlayerSize < p.y + PlatformHeight
  }

  /** The collision test of the top-level player class: the two boxes overlap. */
  predicate BoxCollides(pl: PlayerState, p: PlatformState) {
    pl.x < p.x + PlatformWidth &&
    pl.x + PlayerSize > p.x &&
    pl.y + PlayerSize > p.y &&
    pl.y < p.y + PlatformHeight
  }

  /** isAbove, identical in both player classes: horizontal overlap with the
      player's bottom edge at or above the platform's top edge. */
  predicate IsAbove(pl: PlayerState, p: PlatformState) {
    pl.x + PlayerSize > p.x &&
    pl.x < p.x + PlatformWidth &&
    pl.y + PlayerSize <= p.y
  }

  /** What GameView does on a collision: stand the player on the platform's
      top edge and stop its vertical motion. */
  function Snap(pl: PlayerState, p: PlatformState): PlayerState {
    PlayerState(pl.x, p.y - PlayerSize, 0.0)
  }

  /** A platform whose right edge has passed the left screen border. */
  predicate OffScreen(p: PlatformState) {
    p.x + PlatformWidth < 0.0
  }

  // ---------------------------------------------------------------------
  // An independent reference for the collision tests: open rectangles.

  /** An axis-aligned rectangle; `width` and `height` may be zero. */
  datatype Box = Box(left: real, top: real, width: real, height: real)

  /** The horizontal extents overlap strictly: each rectangle's left edge
      lies strictly before the other's right edge. */
  predicate HOverlap(a: Box, b: Box) {
    a.left < b.left + b.width && b.left < a.left + a.width
  }

  /** The vertical extents overlap strictly: each rectangle's top edge lies
      strictly above the other's bottom edge. A rectangle of height zero
      overlaps a taller one when its edge lies strictly inside the other's
      vertical band. */
  predicate VOverlap(a: Box, b: Box) {
    a.top < b.top + b.height && b.top < a.top + a.height
  }

  /** Strict overlap on both axes. */
  predicate Overlap(a: Box, b: Box) {
    HOverlap(a, b) && VOverlap(a, b)
  }

  function PlayerBox(pl: PlayerState): Box {
    Box(pl.x, pl.y, PlayerSize, PlayerSize)
  }

  /** The player's bottom edge as a rectangle of height zero. */
  function FeetBox(pl: PlayerState): Box {
    Box(pl.x, pl.y + PlayerSize, PlayerSize, 0.0)
  }

  function PlatformBox(p: PlatformState): Box {
    Box(p.x, p.y, PlatformWidth, PlatformHeight)
  }

  /** The top-level test is exactly the overlap of the two boxes. */
  lemma BoxCollidesIsOverlap(pl: PlayerState, p: PlatformState)
    ensures BoxCollides(pl, p) <==> Overlap(PlayerBox(pl), PlatformBox(p))
  {
  }

  /** The nested test is the overlap of the player's bottom edge with the
      platform box: only the feet count, not the whole body. */
  lemma CollidesIsFeetOverlap(pl: PlayerState, p: PlatformState)
    ensures Collides(pl, p) <==> Overlap(FeetBox(pl), PlatformBox(p))
  {
  }

  /** The nested test is stricter than the top-level one ... */
  lemma CollidesImpliesBoxCollides(pl: PlayerState, p: PlatformState)
    ensures Collides(pl, p) ==> BoxCollides(pl, p)
  {
  }

  /** ... and strictly so: a player whose head is inside the platform band
      but whose feet are below it collides only for the top-level test. */
  lemma BoxCollidesAdmitsMore()
    ensures exists pl: PlayerState, p: PlatformState :: BoxCollides(pl, p) && !Collides(pl, p)
  {
    var pl, p := PlayerState(0.0, 0.0, 0.0), PlatformState(0.0, 20.0);
    assert BoxCollides(pl, p);
    assert !Collides(pl, p);
  }

  /** A player standing above a platform does not collide with it, for either
      test: the landing test `collides && isAbove` can never hold. */
  lemma AboveExcludesCollision(pl: PlayerState, p: PlatformState)
    ensures IsAbove(pl, p) ==> !Collides(pl, p) && !BoxCollides(pl, p)
  {
  }

  /** isAbove holds exactly when the player's box overlaps the platform's
      horizontally and the player's bottom edge is at or above the
      platform's top edge. */
  lemma IsAboveIsFeetOnTop(pl: PlayerState, p: PlatformState)
    ensures IsAbove(pl, p) <==>
      HOverlap(PlayerBox(pl), PlatformBox(p)) && FeetBox(pl).top <= PlatformBox(p).top
  {
  }

  /** isAbove implies the two horizontal conjuncts of the collision tests. */
  lemma AboveOverlapsHorizontally(pl: PlayerState, p: PlatformState)
    ensures IsAbove(pl, p) ==> pl.x < p.x + PlatformWidth && pl.x + PlayerSize > p.x
  {
  }

  /** Snapping resolves the collision it was applied for: the player keeps
      its column, stands exactly on the platform, no longer collides with it
      and is now above it. */
  lemma SnapResolves(pl: PlayerState, p: PlatformState)
    requires Collides(pl, p)
    ensures Snap(pl, p).x == pl.x && Snap(pl, p).y + PlayerSize == p.y
    ensures Snap(pl, p).velocityY == 0.0
    ensures !Collides(Snap(pl, p), p) && IsAbove(Snap(pl, p), p)
  {
  }

  /** A jump followed by one update: velocity -14, and 15 units higher. */
  lemma JumpThenStep(s: PlayerState)
    ensures Step(Jumped(s)) == PlayerState(s.x, s.y - 15.0, -14.0)
  {
  }

  // ---------------------------------------------------------------------
  // Several frames of free motion.

  /** `n` player updates with no jump and no collision. */
  function StepN(s: PlayerState, n: nat): PlayerState {
    if n == 0 then s else Step(StepN(s, n - 1))
  }

  /** Free fall in closed form: after n updates the velocity has grown by n
      and the height by n * v plus the triangular number n(n-1)/2. */
  lemma {:induction false} StepNClosedForm(s: PlayerState, n: nat)
    ensures StepN(s, n).x == s.x
    ensures StepN(s, n).velocityY == s.velocityY + n as real
    ensures StepN(s, n).y == s.y + (n as real) * s.velocityY + (n as real) * (n as real - 1.0) / 2.0
  {
    if n > 0 {
      StepNClosedForm(s, n - 1);
      var m := (n - 1) as real;
      assert (n as real) * s.velocityY == m * s.velocityY + s.velocityY;
      assert (n as real) * (n as real - 1.0) / 2.0 == m * (m - 1.0) / 2.0 + m;
    }
  }

  /** A player spawned at (100, 500) at rest that never jumps nor lands is
      below a screen 1000 units high after 33 updates, but not after 32. */
  lemma SpawnFallsOffScreen()
    ensures StepN(SpawnPlayer, 32).y <= 1000.0 < StepN(SpawnPlayer, 33).y
  {
    StepNClosedForm(SpawnPlayer, 32);
    StepNClosedForm(SpawnPlayer, 33);
  }

  /** `n` platform updates. */
  function MoveN(p: PlatformState, n: nat): PlatformState {
    if n == 0 then p else Move(MoveN(p, n - 1))
  }

  /** A platform drifts left by 5 per update and keeps its height. */
  lemma {:induction false} MoveNClosedForm(p: PlatformState, n: nat)
    ensures MoveN(p, n) == PlatformState(p.x - Speed * n as real, p.y)
  {
    if n > 0 {
      MoveNClosedForm(p, n - 1);
    }
  }

  /** The seed platform at x = 500 reaches x = 0 after 100 updates. */
  lemma SeedPlatformAfterHundredMoves()
    ensures MoveN(PlatformState(500.0, 600.0), 100) == PlatformState(0.0, 600.0)
  {
    MoveNClosedForm(PlatformState(500.0, 600.0), 100);
  }
}
