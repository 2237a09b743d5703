/** The game as a pure state machine: GameView's fields as one value, and the
    frame update, the touch handler and the restart as functions on it. The
    class GameView in module Game is proved to follow these functions; the
    lemmas here state what one frame, and any run of frames and touches, do. */
module Simulation {
  import opened Physics

  /** A new platform appears in a frame when the first random draw is below this. */
  const SpawnChance: real := 0.02
  /** The one platform present at construction and after a restart. */
  const SeedPlatform := PlatformState(500.0, 600.0)
  /** Milliseconds that must be strictly exceeded before the score grows. */
  const ScoreInterval: int := 1000

  /** GameView's state. `saved` records, in order, every score handed to the
      score store when a game ends. */
  datatype World = World(
    player: PlayerState,
    platforms: seq<PlatformState>,
    isGameOver: bool,
    isPlaying: bool,
    score: int,
    lastTime: int,
    saved: seq<int>)

  /** What a frame reads from its surroundings: the two random draws in
      [0, 1), the view's width and height, and the wall clock in milliseconds. */
  datatype Frame = Frame(spawnRoll: real, heightRoll: real, width: int, height: int, now: int)

  predicate ValidFrame(f: Frame) {
    0.0 <= f.spawnRoll < 1.0 && 0.0 <= f.heightRoll < 1.0
  }

  /** The state right after the view is constructed at time `now`. */
  function Initial(now: int): World {
    World(SpawnPlayer, [SeedPlatform], false, true, 0, now, [])
  }

  // ---------------------------------------------------------------------
  // One frame.

  /** The landing test of the first pass. */
  function Land(pl: PlayerState, q: PlatformState): PlayerState {
    if Collides(pl, q) && IsAbove(pl, q) then Snap(pl, q) else pl
  }

  /** The first pass, in list order from index `i` on, with the platforms
      kept so far in `kept`: move the platform, try to land on it, and drop it
      if it is now off screen. Returns the player and the remaining list. */
  function FirstPassFrom(pl: PlayerState, ps: seq<PlatformState>, i: nat, kept: seq<PlatformState>)
    : (PlayerState, seq<PlatformState>)
    requires i <= |ps|
    decreases |ps| - i
  {
    if i == |ps| then (pl, kept)
    else
      var q := Move(ps[i]);
      FirstPassFrom(Land(pl, q), ps, i + 1, if OffScreen(q) then kept else kept + [q])
  }

  function FirstPass(pl: PlayerState, ps: seq<PlatformState>): (PlayerState, seq<PlatformState>) {
    FirstPassFrom(pl, ps, 0, [])
  }

  /** One step of the second pass: snap the player onto a platform it
      collides with. */
  function Resolve(pl: PlayerState, q: PlatformState): (r: PlayerState)
    ensures Collides(pl, q) ==> r.y == q.y - PlayerSize && r.velocityY == 0.0
    ensures !Collides(pl, q) ==> r == pl
    ensures r.x == pl.x && !Collides(r, q)
  {
    if Collides(pl, q) then Snap(pl, q) else pl
  }

  /** The second pass, in list order from index `i` on, with the platforms
      handled so far in `done`: move each platform again and resolve the
      player's collision with it. */
  function SecondPassFrom(pl: PlayerState, ps: seq<PlatformState>, i: nat, done: seq<PlatformState>)
    : (PlayerState, seq<PlatformState>)
    requires i <= |ps|
    decreases |ps| - i
  {
    if i == |ps| then (pl, done)
    else
      var q := Move(ps[i]);
      SecondPassFrom(Resolve(pl, q), ps, i + 1, done + [q])
  }

  function SecondPass(pl: PlayerState, ps: seq<PlatformState>): (PlayerState, seq<PlatformState>) {
    SecondPassFrom(pl, ps, 0, [])
  }

  /** The platform spawned at the right edge, at a height from the second draw. */
  function Spawn(f: Frame): PlatformState {
    PlatformState(f.width as real, 400.0 + f.heightRoll * 200.0)
  }

  function MaybeSpawn(ps: seq<PlatformState>, f: Frame): seq<PlatformState> {
    if f.spawnRoll < SpawnChance then ps + [Spawn(f)] else ps
  }

  /** gameOver(): stop playing, flag the game as over, save the current score. */
  function EndGame(w: World): World {
    w.(isPlaying := false, isGameOver := true, saved := w.saved + [w.score])
  }

  /** The score step: one point once more than a second has passed. */
  function AddScore(w: World, now: int): World {
    if now - w.lastTime > ScoreInterval then w.(score := w.score + 1, lastTime := now) else w
  }

  /** The moving part of update(): the player's update, the two passes and
      spawning. Returns the new player and platform list. */
  function Motion(pl: PlayerState, ps: seq<PlatformState>, f: Frame): (PlayerState, seq<PlatformState>) {
    var first := FirstPass(Step(pl), ps);
    var second := SecondPass(first.0, first.1);
    (second.0, MaybeSpawn(second.1, f))
  }

  /** The world after the moving part of update(). */
  function Advance(w: World, f: Frame): World {
    var m := Motion(w.player, w.platforms, f);
    w.(player := m.0, platforms := m.1)
  }

  /** The game-over check: a player below the view's bottom edge ends the game. */
  function CheckFall(w: World, height: int): World {
    if w.player.y > height as real then EndGame(w) else w
  }

  /** update(): motion, then the game-over check against the view height,
      then the score step, in that order. */
  function Tick(w: World, f: Frame): World {
    AddScore(CheckFall(Advance(w, f), f.height), f.now)
  }

  // ---------------------------------------------------------------------
  // Touch events.

  /** restartGame(): fresh player and seed platform, game no longer over.
      Score and clock are kept. */
  function Restart(w: World): World {
    w.(player := SpawnPlayer, platforms := [SeedPlatform], isGameOver := false, isPlaying := true)
  }

  /** onTouchEvent: only a press (ACTION_DOWN) acts; it restarts a finished
      game and otherwise makes the player jump and marks the game as playing. */
  function Touch(w: World, down: bool): World {
    if !down then w
    else if w.isGameOver then Restart(w)
    else w.(player := Jumped(w.player), isPlaying := true)
  }

  // ---------------------------------------------------------------------
  // Reference definitions for the passes.

  /** The platforms, in order, whose first move leaves them on screen. */
  function Kept(ps: seq<PlatformState>): seq<PlatformState> {
    if ps == [] then []
    else (if OffScreen(Move(ps[0])) then [] else [ps[0]]) + Kept(ps[1..])
  }

  /** Every platform moved once. */
  function Moved(ps: seq<PlatformState>): seq<PlatformState> {
    if ps == [] then [] else [Move(ps[0])] + Moved(ps[1..])
  }

  lemma {:induction false} MovedAt(ps: seq<PlatformState>)
    ensures |Moved(ps)| == |ps|
    ensures forall k :: 0 <= k < |ps| ==> Moved(ps)[k] == Move(ps[k])
  {
    if ps != [] {
      MovedAt(ps[1..]);
    }
  }

  /** The landing branch of the first pass never fires, so the first pass
      leaves the player as it is; it keeps exactly the platforms of `Kept`,
      moved once, after those kept before index `i`. */
  lemma {:induction false} FirstPassFromKeeps(pl: PlayerState, ps: seq<PlatformState>, i: nat, kept: seq<PlatformState>)
    requires i <= |ps|
    ensures FirstPassFrom(pl, ps, i, kept) == (pl, kept + Moved(Kept(ps[i..])))
    decreases |ps| - i
  {
    if i == |ps| {
      assert ps[i..] == [] && kept + [] == kept;
    } else {
      var q := Move(ps[i]);
      AboveExcludesCollision(pl, q);
      assert Land(pl, q) == pl;
      var kept' := if OffScreen(q) then kept else kept + [q];
      FirstPassFromKeeps(pl, ps, i + 1, kept');
      var tail := Kept(ps[i + 1..]);
      assert ps[i..][1..] == ps[i + 1..];
      if !OffScreen(q) {
        assert Kept(ps[i..]) == [ps[i]] + tail;
        assert ([ps[i]] + tail)[1..] == tail;
        assert Moved([ps[i]] + tail) == [q] + Moved(tail);
        assert kept' + Moved(tail) == kept + ([q] + Moved(tail));
      } else {
        assert Kept(ps[i..]) == tail;
      }
    }
  }

  lemma FirstPassKeepsPlayer(pl: PlayerState, ps: seq<PlatformState>)
    ensures FirstPass(pl, ps) == (pl, Moved(Kept(ps)))
  {
    FirstPassFromKeeps(pl, ps, 0, []);
    assert [] + Moved(Kept(ps)) == Moved(Kept(ps));
    assert ps[0..] == ps;
  }

  /** The first pass before its first step: nothing kept or moved yet. */
  lemma FirstPassStart(ps: seq<PlatformState>)
    ensures ps == Moved(Kept(ps[..0])) + ps[0..]
  {
    assert ps[..0] == [];
    assert ps[0..] == ps;
  }

  /** The first pass after its last step: the survivors, moved once. */
  lemma FirstPassEnd(pl: PlayerState, ps: seq<PlatformState>)
    ensures Moved(Kept(ps[..|ps|])) + ps[|ps|..] == Moved(Kept(ps))
    ensures FirstPass(pl, ps) == (pl, Moved(Kept(ps)))
  {
    assert ps[..|ps|] == ps;
    assert ps[|ps|..] == [];
    FirstPassKeepsPlayer(pl, ps);
  }

  /** A platform is kept iff it was present and its first move leaves it on
      screen. */
  lemma {:induction false} KeptMembers(ps: seq<PlatformState>, p: PlatformState)
    ensures p in Kept(ps) <==> p in ps && !OffScreen(Move(p))
  {
    if ps != [] {
      KeptMembers(ps[1..], p);
      assert ps == [ps[0]] + ps[1..];
    }
  }

  /** Removal keeps relative order: filtering a concatenation filters each part. */
  lemma {:induction false} KeptAppend(a: seq<PlatformState>, b: seq<PlatformState>)
    ensures Kept(a + b) == Kept(a) + Kept(b)
  {
    if a != [] {
      assert (a + b)[1..] == a[1..] + b;
      KeptAppend(a[1..], b);
    } else {
      assert a + b == b;
    }
  }

  /** Moving commutes with concatenation. */
  lemma {:induction false} MovedAppend(a: seq<PlatformState>, b: seq<PlatformState>)
    ensures Moved(a + b) == Moved(a) + Moved(b)
  {
    if a != [] {
      assert (a + b)[1..] == a[1..] + b;
      MovedAppend(a[1..], b);
    } else {
      assert a + b == b;
    }
  }

  lemma MovedSnoc(ps: seq<PlatformState>, i: nat)
    requires i < |ps|
    ensures Moved(ps[..i + 1]) == Moved(ps[..i]) + [Move(ps[i])]
  {
    assert ps[..i + 1] == ps[..i] + [ps[i]];
    MovedAppend(ps[..i], [ps[i]]);
    assert [ps[i]][1..] == [];
  }

  /** Scanning one more platform extends the survivors by that platform,
      moved, unless its move takes it off screen. */
  lemma KeptMovedSnoc(ps: seq<PlatformState>, i: nat)
    requires i < |ps|
    ensures Moved(Kept(ps[..i + 1])) ==
      Moved(Kept(ps[..i])) + (if OffScreen(Move(ps[i])) then [] else [Move(ps[i])])
  {
    assert ps[..i + 1] == ps[..i] + [ps[i]];
    KeptAppend(ps[..i], [ps[i]]);
    assert [ps[i]][1..] == [];
    MovedAppend(Kept(ps[..i]), Kept([ps[i]]));
  }

  lemma {:induction false} KeptShrinks(ps: seq<PlatformState>)
    ensures |Kept(ps)| <= |ps|
  {
    if ps != [] {
      KeptShrinks(ps[1..]);
    }
  }

  /** The second pass from index `i` on appends every remaining platform,
      moved once more, keeps the player's column, and leaves the player either
      untouched or standing, at rest, on the top edge of one of the platforms
      it processed. */
  lemma {:induction false} SecondPassFromShape(pl: PlayerState, ps: seq<PlatformState>, i: nat, done: seq<PlatformState>)
    requires i <= |ps|
    ensures SecondPassFrom(pl, ps, i, done).1 == done + Moved(ps[i..])
    ensures SecondPassFrom(pl, ps, i, done).0 == pl ||
            exists k :: i <= k < |ps| && SecondPassFrom(pl, ps, i, done).0 == PlayerState(pl.x, ps[k].y - PlayerSize, 0.0)
    decreases |ps| - i
  {
    if i == |ps| {
      assert ps[i..] == [];
      assert done + [] == done;
    } else {
      var q := Move(ps[i]);
      var pl1 := Resolve(pl, q);
      SecondPassFromShape(pl1, ps, i + 1, done + [q]);
      assert ps[i..][1..] == ps[i + 1..];
      var r := SecondPassFrom(pl1, ps, i + 1, done + [q]).0;
      if r == pl1 {
        if pl1 != pl {
          assert r == PlayerState(pl.x, ps[i].y - PlayerSize, 0.0);
        }
      } else {
        var k :| i + 1 <= k < |ps| && r == PlayerState(pl1.x, ps[k].y - PlayerSize, 0.0);
        assert r == PlayerState(pl.x, ps[k].y - PlayerSize, 0.0);
      }
    }
  }

  /** The second pass before its first step: nothing moved yet. */
  lemma SecondPassStart(pl: PlayerState, ps: seq<PlatformState>)
    ensures ps == Moved(ps[..0]) + ps[0..]
    ensures SecondPass(pl, ps) == SecondPassFrom(pl, ps, 0, Moved(ps[..0]))
  {
    assert ps[..0] == [];
    assert ps[0..] == ps;
  }

  /** The second pass after its last step: every platform moved once. */
  lemma SecondPassEnd(pl: PlayerState, ps: seq<PlatformState>)
    ensures Moved(ps[..|ps|]) + ps[|ps|..] == Moved(ps)
    ensures SecondPassFrom(pl, ps, |ps|, Moved(ps[..|ps|])) == (pl, Moved(ps))
  {
    assert ps[..|ps|] == ps;
    assert ps[|ps|..] == [];
  }

  lemma SecondPassShape(pl: PlayerState, ps: seq<PlatformState>)
    ensures SecondPass(pl, ps).1 == Moved(ps)
    ensures SecondPass(pl, ps).0 == pl ||
            exists k :: 0 <= k < |ps| && SecondPass(pl, ps).0 == PlayerState(pl.x, ps[k].y - PlayerSize, 0.0)
  {
    SecondPassFromShape(pl, ps, 0, []);
    assert ps[0..] == ps;
  }

  // ---------------------------------------------------------------------
  // What one frame does.

  /** After a frame the platforms are the kept ones moved twice (10 units),
      in their old order, followed by at most one new platform at the right
      edge with a height in [400, 600). */
  lemma TickPlatforms(w: World, f: Frame)
    requires ValidFrame(f)
    ensures var ps := Tick(w, f).platforms; var kept := Kept(w.platforms);
      |ps| == |kept| + (if f.spawnRoll < SpawnChance then 1 else 0) &&
      (forall k :: 0 <= k < |kept| ==> ps[k] == PlatformState(kept[k].x - 2.0 * Speed, kept[k].y)) &&
      (f.spawnRoll < SpawnChance ==>
         ps[|kept|].x == f.width as real && 400.0 <= ps[|kept|].y < 600.0)
  {
    var kept := Kept(w.platforms);
    FirstPassKeepsPlayer(Step(w.player), w.platforms);
    var once := Moved(kept);
    SecondPassShape(Step(w.player), once);
    MovedAt(kept);
    MovedAt(once);
  }

  /** A frame adds at most one platform. */
  lemma TickAddsAtMostOne(w: World, f: Frame)
    requires ValidFrame(f)
    ensures |Tick(w, f).platforms| <= |w.platforms| + 1
  {
    TickPlatforms(w, f);
    KeptShrinks(w.platforms);
  }

  /** The player after a frame: one update, then possibly stood, at rest and
      in its old column, on a platform that the first pass kept. */
  lemma TickPlayer(w: World, f: Frame)
    ensures var pl := Tick(w, f).player; var kept := Kept(w.platforms);
      pl == Step(w.player) ||
      exists k :: 0 <= k < |kept| && pl == PlayerState(w.player.x, kept[k].y - PlayerSize, 0.0)
  {
    var kept := Kept(w.platforms);
    FirstPassKeepsPlayer(Step(w.player), w.platforms);
    SecondPassShape(Step(w.player), Moved(kept));
    MovedAt(kept);
  }

  /** Game over is detected on the player's height after both passes; it
      saves exactly one score, the one from before this frame's increment. */
  lemma TickGameOver(w: World, f: Frame)
    ensures var w' := Tick(w, f);
      var over := SecondPass(Step(w.player), Moved(Kept(w.platforms))).0.y > f.height as real;
      w'.saved == (if over then w.saved + [w.score] else w.saved) &&
      w'.isGameOver == (w.isGameOver || over) &&
      (over ==> !w'.isPlaying) && (!over ==> w'.isPlaying == w.isPlaying)
  {
    FirstPassKeepsPlayer(Step(w.player), w.platforms);
  }

  /** The score never falls; it grows by exactly one iff strictly more than
      a second has passed since the last increment, which then moves the
      reference time to now. */
  lemma TickScore(w: World, f: Frame)
    ensures var w' := Tick(w, f);
      (w'.score == w.score + 1 && w'.lastTime == f.now) <==> f.now - w.lastTime > ScoreInterval
    ensures var w' := Tick(w, f);
      f.now - w.lastTime <= ScoreInterval ==> w'.score == w.score && w'.lastTime == w.lastTime
  {
  }

  /** A touch restarts only a finished game, and the restart keeps the score
      and the clock; otherwise a press is a jump that changes the vertical
      velocity to -15 and marks the game as playing, and nothing else. */
  lemma TouchOutcome(w: World)
    ensures w.isGameOver ==>
      Touch(w, true) == World(SpawnPlayer, [SeedPlatform], false, true, w.score, w.lastTime, w.saved)
    ensures !w.isGameOver ==>
      Touch(w, true) == World(PlayerState(w.player.x, w.player.y, JumpStrength), w.platforms,
                              false, true, w.score, w.lastTime, w.saved)
    ensures Touch(w, false) == w
  {
  }

  // ---------------------------------------------------------------------
  // Runs of events.

  datatype Event = FrameEvent(f: Frame) | TouchEvent(down: bool)

  predicate ValidEvents(evs: seq<Event>) {
    forall k :: 0 <= k < |evs| ==> evs[k].FrameEvent? ==> ValidFrame(evs[k].f)
  }

  /** One event. Frames come from the game thread, whose loop runs update()
      only while the game is playing; touches come at any time. */
  function Apply(w: World, e: Event): World {
    match e
    case FrameEvent(f) => if w.isPlaying then Tick(w, f) else w
    case TouchEvent(down) => Touch(w, down)
  }

  function Run(w: World, evs: seq<Event>): World
    decreases |evs|
  {
    if evs == [] then w else Run(Apply(w, evs[0]), evs[1..])
  }

  function FrameCount(evs: seq<Event>): nat {
    if evs == [] then 0 else (if evs[0].FrameEvent? then 1 else 0) + FrameCount(evs[1..])
  }

  /** Over any run the score never decreases (restarts included) and grows by
      at most one per frame. */
  lemma {:induction false} RunScore(w: World, evs: seq<Event>)
    ensures w.score <= Run(w, evs).score <= w.score + FrameCount(evs)
    decreases |evs|
  {
    if evs != [] {
      RunScore(Apply(w, evs[0]), evs[1..]);
    }
  }

  /** The game's invariant: the game is playing exactly when it is not
      over, and the saved scores are in nondecreasing order and none exceeds
      the live score (which no restart resets). */
  predicate Consistent(w: World) {
    w.isPlaying == !w.isGameOver &&
    (forall i, j :: 0 <= i < j < |w.saved| ==> w.saved[i] <= w.saved[j]) &&
    (forall i :: 0 <= i < |w.saved| ==> w.saved[i] <= w.score)
  }

  lemma InitialConsistent(now: int)
    ensures Consistent(Initial(now))
  {
  }

  lemma ApplyConsistent(w: World, e: Event)
    requires Consistent(w)
    ensures Consistent(Apply(w, e))
  {
    if e.FrameEvent? {
      FirstPassKeepsPlayer(Step(w.player), w.platforms);
    }
  }

  /** The score store is called once for each transition from a running
      game to a finished one, with the score from before that frame's
      increment, and at no other time. */
  lemma ApplySaves(w: World, e: Event)
    requires Consistent(w)
    ensures var w' := Apply(w, e);
      w'.saved == if !w.isGameOver && w'.isGameOver then w.saved + [w.score] else w.saved
  {
  }

  /** The number of frames in a run that end a running game. */
  function GameOvers(w: World, evs: seq<Event>): nat
    decreases |evs|
  {
    if evs == [] then 0
    else
      var w1 := Apply(w, evs[0]);
      (if !w.isGameOver && w1.isGameOver then 1 else 0) + GameOvers(w1, evs[1..])
  }

  /** Over a run, exactly one score is saved per game that ends. */
  lemma {:induction false} RunSaves(w: World, evs: seq<Event>)
    requires Consistent(w)
    ensures |Run(w, evs).saved| == |w.saved| + GameOvers(w, evs)
    decreases |evs|
  {
    if evs != [] {
      ApplySaves(w, evs[0]);
      ApplyConsistent(w, evs[0]);
      RunSaves(Apply(w, evs[0]), evs[1..]);
    }
  }

  /** Every run preserves the invariant, so the log of saved scores is sorted. */
  lemma {:induction false} RunConsistent(w: World, evs: seq<Event>)
    requires Consistent(w)
    ensures Consistent(Run(w, evs))
    decreases |evs|
  {
    if evs != [] {
      ApplyConsistent(w, evs[0]);
      RunConsistent(Apply(w, evs[0]), evs[1..]);
    }
  }

  /** Saved scores are never forgotten: the log of a run extends the old log. */
  lemma {:induction false} RunKeepsSaved(w: World, evs: seq<Event>)
    ensures |w.saved| <= |Run(w, evs).saved| && Run(w, evs).saved[..|w.saved|] == w.saved
    decreases |evs|
  {
    if evs != [] {
      var w1 := Apply(w, evs[0]);
      FirstPassKeepsPlayer(Step(w.player), w.platforms);
      assert |w.saved| <= |w1.saved|;
      assert w1.saved[..|w.saved|] == w.saved;
      RunKeepsSaved(w1, evs[1..]);
      var r := Run(w1, evs[1..]).saved;
      assert r[..|w.saved|] == r[..|w1.saved|][..|w.saved|];
    }
  }
}
