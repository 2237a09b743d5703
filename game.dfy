/** GameView and its two nested classes, Player and Platform, as objects whose
    fields the frame update changes in place. The view's constructor and its
    methods Update, MoveAll, UpdateScore, GameOver, RestartGame and
    OnTouchEvent are proved to follow the pure model of module Simulation:
    `Model()` afterwards is the model function applied to `old(Model())`.
    The methods for the parts of a frame (the two loops over the platforms,
    their turns and steps, and spawning) are stated on the player's state and
    on the list of platform states, and the nested classes' methods on their
    own `State()`. */
module Game {
  import opened Physics
  import opened Simulation

  /** The player class nested in GameView. */
  class Player {
    var x: real
    var y: real
    var velocityY: real

    constructor ()
      ensures State() == SpawnPlayer
    {
      x, y, velocityY := 100.0, 500.0, 0.0;
    }

    function State(): PlayerState
      reads this
    {
      PlayerState(x, y, velocityY)
    }

    method Update()
      modifies this
      ensures State() == Step(old(State()))
    {
      y := y + velocityY;
      velocityY := velocityY + Gravity;
    }

    method Jump()
      modifies this
      ensures State() == Jumped(old(State()))
    {
      velocityY := JumpStrength;
    }

    /** collidesWith: the player's bottom edge lies inside the platform's
        box, which makes the two boxes overlap. */
    predicate CollidesWith(p: Platform): (r: bool)
      reads this, p
      ensures r <==> Overlap(FeetBox(State()), PlatformBox(p.State()))
      ensures r ==> Overlap(PlayerBox(State()), PlatformBox(p.State()))
    {
      CollidesIsFeetOverlap(State(), p.State());
      CollidesImpliesBoxCollides(State(), p.State());
      BoxCollidesIsOverlap(State(), p.State());
      Collides(State(), p.State())
    }

    /** isAbove: exactly when the boxes overlap horizontally and the
        player's bottom edge is at or above the platform's top edge; such a
        player never collides with the platform. */
    predicate IsAbove(p: Platform): (r: bool)
      reads this, p
      ensures r <==> HOverlap(PlayerBox(State()), PlatformBox(p.State())) &&
                     FeetBox(State()).top <= PlatformBox(p.State()).top
      ensures r ==> !CollidesWith(p)
      ensures r ==> x < p.x + PlatformWidth && x + PlayerSize > p.x && y + PlayerSize <= p.y
    {
      IsAboveIsFeetOnTop(State(), p.State());
      AboveExcludesCollision(State(), p.State());
      Physics.IsAbove(State(), p.State())
    }
  }

  /** The platform class nested in GameView. */
  class Platform {
    var x: real
    var y: real

    constructor (x0: real, y0: real)
      ensures State() == PlatformState(x0, y0)
    {
      x, y := x0, y0;
    }

    function State(): PlatformState
      reads this
    {
      PlatformState(x, y)
    }

    method Update()
      modifies this
      ensures State() == Move(old(State()))
    {
      x := x - Speed;
    }
  }

  /** No platform object occurs twice in the list. */
  ghost predicate Distinct(ps: seq<Platform>) {
    forall i, j :: 0 <= i < j < |ps| ==> ps[i] != ps[j]
  }

  /** The states of a list of platform objects, in list order. */
  ghost function StatesOf(ps: seq<Platform>): (r: seq<PlatformState>)
    reads set p | p in ps
    ensures |r| == |ps|
  {
    if ps == [] then [] else [ps[0].State()] + StatesOf(ps[1..])
  }

  /** The `k`-th state is the state of the `k`-th object. */
  lemma {:induction false} StatesOfAt(ps: seq<Platform>)
    ensures forall k :: 0 <= k < |ps| ==> StatesOf(ps)[k] == ps[k].State()
  {
    if ps != [] {
      StatesOfAt(ps[1..]);
    }
  }

  /** A list of platform objects whose states agree one by one with `ss`. */
  lemma StatesOfAgrees(ps: seq<Platform>, ss: seq<PlatformState>)
    requires |ps| == |ss| && forall k :: 0 <= k < |ps| ==> ps[k].State() == ss[k]
    ensures StatesOf(ps) == ss
  {
    StatesOfAt(ps);
  }

  /** Removing one element from a list without repeats leaves a list without
      repeats, all of whose elements were in the list. */
  lemma DropKeepsDistinct(ps: seq<Platform>, j: nat)
    requires Distinct(ps) && j < |ps|
    ensures Distinct(ps[..j] + ps[j + 1..])
    ensures forall q :: q in ps[..j] + ps[j + 1..] ==> q in ps
  {
    var r := ps[..j] + ps[j + 1..];
    assert forall k :: 0 <= k < |r| ==> r[k] == if k < j then ps[k] else ps[k + 1];
  }

  class GameView {
    var player: Player
    var platforms: seq<Platform>
    var isGameOver: bool
    var isPlaying: bool
    var playerScore: int
    var lastTime: int
    /** Every score handed to the score store, in order. */
    ghost var savedScores: seq<int>

    ghost predicate Valid()
      reads this`platforms
    {
      Distinct(platforms)
    }

    ghost function Model(): World
      reads this, player, set p | p in platforms
    {
      World(player.State(), StatesOf(platforms), isGameOver, isPlaying, playerScore, lastTime, savedScores)
    }

    /** The view as constructed at wall-clock time `now`. */
    constructor (now: int)
      ensures Valid() && Model() == Initial(now)
      ensures fresh(player) && forall p :: p in platforms ==> fresh(p)
    {
      player := new Player();
      var seed := new Platform(500.0, 600.0);
      platforms := [seed];
      isGameOver, isPlaying := false, true;
      playerScore, lastTime := 0, now;
      savedScores := [];
    }

    /** update(): one frame. */
    method Update(f: Frame)
      requires Valid()
      modifies this, player, set p | p in platforms
      ensures Valid() && player == old(player)
      ensures forall p :: p in platforms ==> p in old(platforms) || fresh(p)
      ensures Model() == Tick(old(Model()), f)
    {
      MoveAll(f);
      if player.y > f.height as real {
        GameOver();
      }
      UpdateScore(f.now);
    }

    /** The moving part of update(): the player's update, the two loops over
        the platforms and spawning. */
    method MoveAll(f: Frame)
      requires Valid()
      modifies this`platforms, player, set p | p in platforms
      ensures Valid()
      ensures forall p :: p in platforms ==> p in old(platforms) || fresh(p)
      ensures Model() == Advance(old(Model()), f)
    {
      ghost var pl := player.State();
      ghost var ps := StatesOf(platforms);
      player.Update();
      ghost var first := FirstPass(Step(pl), ps);
      RemovalPass();
      assert player.State() == first.0;
      ghost var second := SecondPass(first.0, first.1);
      CollisionPass();
      assert player.State() == second.0;
      SpawnPass(f);
    }

    /** The score step at the end of update(). */
    method UpdateScore(now: int)
      modifies this`playerScore, this`lastTime
      ensures Model() == AddScore(old(Model()), now)
    {
      if now - lastTime > ScoreInterval {
        playerScore := playerScore + 1;
        lastTime := now;
      }
    }

    /** The first loop of update(): move each platform, try the landing test,
        and remove the platform through the iterator once it is off screen.
        The loop index `j` walks the live list; the ghost `i` counts the
        platforms of the original list `ps` handled so far. */
    method RemovalPass()
      requires Valid()
      modifies this`platforms, player, set p | p in platforms
      ensures Valid() && forall q :: q in platforms ==> q in old(platforms)
      ensures (player.State(), StatesOf(platforms)) == FirstPass(old(player.State()), old(StatesOf(platforms)))
    {
      ghost var ps := platforms;
      ghost var s0 := StatesOf(ps);
      ghost var p0 := player.State();
      ghost var i := 0;
      FirstPassStart(s0);
      var j := 0;
      while j < |platforms|
        invariant j <= i <= |ps| && |platforms| == j + |ps| - i
        invariant Distinct(platforms) && forall q :: q in platforms ==> q in ps
        invariant player.State() == p0
        invariant StatesOf(platforms) == Moved(Kept(s0[..i])) + s0[i..]
        decreases |ps| - i
      {
        var gone := RemovalTurn(j, i, s0);
        if !gone {
          j := j + 1;
        }
        i := i + 1;
      }
      FirstPassEnd(p0, s0);
    }

    /** The turn of the first loop on the `i`-th of the platforms that were
        in states `s0` when the loop began, now at index `j`: the survivors
        among the first `i` precede it, moved once. After this turn the
        survivors among the first `i + 1` do. */
    method RemovalTurn(j: nat, ghost i: nat, ghost s0: seq<PlatformState>) returns (gone: bool)
      requires Distinct(platforms) && i < |s0| && |platforms| == j + |s0| - i
      requires StatesOf(platforms) == Moved(Kept(s0[..i])) + s0[i..]
      modifies this`platforms, player, platforms[j]
      ensures Distinct(platforms) && forall q :: q in platforms ==> q in old(platforms)
      ensures player.State() == old(player.State())
      ensures |platforms| == (if gone then j else j + 1) + |s0| - (i + 1)
      ensures StatesOf(platforms) == Moved(Kept(s0[..i + 1])) + s0[i + 1..]
    {
      ghost var rest := s0[i..];
      assert rest[0] == s0[i];
      assert rest[1..] == s0[i + 1..];
      gone := RemovalStep(j, Moved(Kept(s0[..i])), rest);
      KeptMovedSnoc(s0, i);
    }

    /** One turn of the first loop, on the platform at index `j`, which
        follows the platforms in states `done` and precedes those in
        `rest[1..]`: move it, apply the landing test to the player, and
        remove the platform through the iterator if it is now off screen.
        The landing test never fires (a player above a platform never
        collides with it), so the player is unchanged. */
    method RemovalStep(j: nat, ghost done: seq<PlatformState>, ghost rest: seq<PlatformState>)
      returns (gone: bool)
      requires Distinct(platforms)
      requires |done| == j && rest != [] && StatesOf(platforms) == done + rest
      modifies this`platforms, player, platforms[j]
      ensures Distinct(platforms) && forall q :: q in platforms ==> q in old(platforms)
      ensures player.State() == old(player.State())
      ensures gone == OffScreen(Move(rest[0]))
      ensures StatesOf(platforms) == done + (if gone then [] else [Move(rest[0])]) + rest[1..]
    {
      StatesOfAt(platforms);
      var p := platforms[j];
      assert p.State() == rest[0];
      var gone' := MoveAndLand(p);
      gone := gone';
      if gone {
        DropKeepsDistinct(platforms, j);
        platforms := platforms[..j] + platforms[j + 1..];
      }
      ghost var r := done + (if gone then [] else [Move(rest[0])]) + rest[1..];
      forall k | 0 <= k < |platforms| ensures platforms[k].State() == r[k] {
        if k < j {
          assert platforms[k] != p;
          assert platforms[k].State() == done[k];
        } else if k > j || gone {
          assert platforms[k] != p;
        }
      }
      StatesOfAgrees(platforms, r);
    }

    /** Moving a platform and applying the landing test: the platform moves
        and the player stays put, since the test never fires. Reports whether
        the platform is now off screen. */
    method MoveAndLand(p: Platform) returns (gone: bool)
      modifies player, p
      ensures p.State() == Move(old(p.State()))
      ensures player.State() == old(player.State())
      ensures gone == OffScreen(p.State())
    {
      p.Update();
      AboveExcludesCollision(player.State(), p.State());
      var landed := player.CollidesWith(p) && player.IsAbove(p);
      // `landed` is always false, so the snap below is written as a
      // conditional assignment rather than as an `if` with a dead branch.
      var top := p.y - PlayerSize;
      player.y, player.velocityY :=
        if landed then top else player.y,
        if landed then 0.0 else player.velocityY;
      gone := p.x + PlatformWidth < 0.0;
    }

    /** The second loop of update(): move each platform again and stand the
        player on any platform it collides with. */
    method CollisionPass()
      requires Valid()
      modifies player, set p | p in platforms
      ensures Valid()
      ensures (player.State(), StatesOf(platforms)) == SecondPass(old(player.State()), old(StatesOf(platforms)))
    {
      ghost var s0 := StatesOf(platforms);
      ghost var p0 := player.State();
      SecondPassStart(p0, s0);
      for k := 0 to |platforms|
        invariant StatesOf(platforms) == Moved(s0[..k]) + s0[k..]
        invariant SecondPass(p0, s0) == SecondPassFrom(player.State(), s0, k, Moved(s0[..k]))
      {
        CollisionTurn(k, s0);
      }
      SecondPassEnd(player.State(), s0);
    }

    /** The `k`-th turn of the second loop over the platforms that were in
        states `s0` when the loop began: the first `k` have moved, and after
        this turn the first `k + 1` have, with the player resolved against the
        `k`-th as the model's second pass does. */
    method CollisionTurn(k: nat, ghost s0: seq<PlatformState>)
      requires Distinct(platforms) && k < |s0| == |platforms|
      requires StatesOf(platforms) == Moved(s0[..k]) + s0[k..]
      modifies player, platforms[k]
      ensures StatesOf(platforms) == Moved(s0[..k + 1]) + s0[k + 1..]
      ensures SecondPassFrom(old(player.State()), s0, k, Moved(s0[..k])) ==
              SecondPassFrom(player.State(), s0, k + 1, Moved(s0[..k + 1]))
    {
      ghost var rest := s0[k..];
      assert rest[0] == s0[k];
      assert rest[1..] == s0[k + 1..];
      MovedSnoc(s0, k);
      MovedAt(s0[..k]);
      CollisionStep(k, Moved(s0[..k]), rest);
    }

    /** One turn of the second loop, on the platform at index `j`, which
        follows the platforms in states `done` and precedes those in
        `rest[1..]`: move it, and stand the player on it if they collide. */
    method CollisionStep(j: nat, ghost done: seq<PlatformState>, ghost rest: seq<PlatformState>)
      requires Distinct(platforms)
      requires |done| == j && rest != [] && StatesOf(platforms) == done + rest
      modifies player, platforms[j]
      ensures player.State() == Resolve(old(player.State()), Move(rest[0]))
      ensures StatesOf(platforms) == done + [Move(rest[0])] + rest[1..]
    {
      StatesOfAt(platforms);
      var p := platforms[j];
      assert p.State() == rest[0];
      p.Update();
      ResolveAgainst(p);
      ghost var r := done + [Move(rest[0])] + rest[1..];
      forall k | 0 <= k < |platforms| ensures platforms[k].State() == r[k] {
        if k < j {
          assert platforms[k] != p;
          assert platforms[k].State() == done[k];
        } else if k > j {
          assert platforms[k] != p;
        }
      }
      StatesOfAgrees(platforms, r);
    }

    /** The collision test of the second loop: a player that collides with
        `p` is stood on its top edge, at rest. */
    method ResolveAgainst(p: Platform)
      modifies player
      ensures player.State() == Resolve(old(player.State()), p.State())
    {
      if player.CollidesWith(p) {
        player.y := p.y - PlayerSize;
        player.velocityY := 0.0;
      }
    }

    /** Spawning: with the first draw below 2%, append a platform at the right
        edge at a height of 400 plus 200 times the second draw. */
    method SpawnPass(f: Frame)
      requires Valid()
      modifies this`platforms
      ensures Valid()
      ensures forall p :: p in platforms ==> p in old(platforms) || fresh(p)
      ensures StatesOf(platforms) == MaybeSpawn(old(StatesOf(platforms)), f)
    {
      if f.spawnRoll < SpawnChance {
        ghost var before := StatesOf(platforms);
        StatesOfAt(platforms);
        var p := new Platform(f.width as real, 400.0 + f.heightRoll * 200.0);
        platforms := platforms + [p];
        StatesOfAgrees(platforms, before + [Spawn(f)]);
      }
    }

    /** gameOver(): the game stops and the current score goes to the store. */
    method GameOver()
      modifies this`isPlaying, this`isGameOver, this`savedScores
      ensures Model() == EndGame(old(Model()))
    {
      isPlaying := false;
      isGameOver := true;
      savedScores := savedScores + [playerScore];
    }

    /** restartGame(): a new player and a single seed platform. */
    method RestartGame()
      modifies this`player, this`platforms, this`isGameOver, this`isPlaying
      ensures Valid() && fresh(player) && forall p :: p in platforms ==> fresh(p)
      ensures Model() == Restart(old(Model()))
    {
      player := new Player();
      var seed := new Platform(500.0, 600.0);
      platforms := [seed];
      isGameOver := false;
      isPlaying := true;
    }

    /** onTouchEvent: `down` says whether the event is a press (ACTION_DOWN).
        The event is always consumed. */
    method OnTouchEvent(down: bool) returns (consumed: bool)
      requires Valid()
      modifies this, player
      ensures Valid() && consumed
      ensures player == old(player) || fresh(player)
      ensures forall p :: p in platforms ==> p in old(platforms) || fresh(p)
      ensures Model() == Touch(old(Model()), down)
    {
      if down {
        if isGameOver {
          RestartGame();
        } else {
          player.Jump();
          if !isPlaying {
            isPlaying := true;
          }
        }
      }
      consumed := true;
    }

    /** The view driven through a sequence of events, as the game thread and
        the touch callbacks drive it: a frame runs update() only while the
        game is playing (the guard of run()'s loop), and a touch goes to
        onTouchEvent. The view then follows `Simulation.Run`, so the facts
        proved about runs hold of the objects. */
    method Play(evs: seq<Event>)
      requires Valid()
      modifies this, player, set p | p in platforms
      ensures Valid()
      ensures Model() == Run(old(Model()), evs)
      ensures Consistent(old(Model())) ==> Consistent(Model())
      ensures old(playerScore) <= playerScore <= old(playerScore) + FrameCount(evs)
    {
      ghost var w0 := Model();
      for k := 0 to |evs|
        invariant Valid()
        invariant Run(w0, evs) == Run(Model(), evs[k..])
        invariant player == old(player) || fresh(player)
        invariant forall p :: p in platforms ==> p in old(platforms) || fresh(p)
      {
        assert evs[k..][0] == evs[k];
        assert evs[k..][1..] == evs[k + 1..];
        match evs[k]
        case FrameEvent(f) =>
          if isPlaying {
            Update(f);
          }
        case TouchEvent(down) =>
          var _ := OnTouchEvent(down);
      }
      assert evs[|evs|..] == [];
      if Consistent(w0) {
        RunConsistent(w0, evs);
      }
      RunScore(w0, evs);
    }
  }

  /** A view constructed at time `now` and driven through `evs`: its state is
      the model's run from the initial state, the game's invariant holds, and
      the score store has been called once per game that ended. */
  method PlayFromStart(now: int, evs: seq<Event>) returns (g: GameView)
    ensures fresh(g) && g.Valid()
    ensures g.Model() == Run(Initial(now), evs)
    ensures Consistent(g.Model())
    ensures |g.savedScores| == GameOvers(Initial(now), evs)
  {
    g := new GameView(now);
    InitialConsistent(now);
    g.Play(evs);
    RunSaves(Initial(now), evs);
  }
}
