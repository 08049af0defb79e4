/** The rule-based core of the game scene as a state machine: the fields the
    scene updates while a run goes on, and one method per event the framework
    delivers (a frame, a tap, the start of a contact, the end of the death
    animation). */
module Game {
  import opened Options
  import opened JumpMachine
  import opened Progression
  import opened Terrain
  import opened Scoreboard

  /** Physics category bit masks of the scene's bodies. */
  type Mask = bv32
  const PlayerCategory: Mask := 1 << 0
  const GroundCategory: Mask := 1 << 1
  const WallCategory: Mask := 1 << 2

  /** A node's speed when it is created (1.0), in tenths. */
  const DefaultNodeSpeed: nat := 10

  /** The phases of a run: playing; dying while the death animation plays;
      over once the animation has stopped the world. */
  datatype Phase = Playing | Dying | Over

  /** A contact involves a ground body: one of the two categories is exactly
      the ground mask (an equality test, not a bit test). */
  function TouchesGround(bodyA: Mask, bodyB: Mask): bool
  {
    bodyA == GroundCategory || bodyB == GroundCategory
  }

  /** A contact involves a wall body: one of the two categories is exactly the
      wall mask. */
  function TouchesWall(bodyA: Mask, bodyB: Mask): bool
  {
    bodyA == WallCategory || bodyB == WallCategory
  }

  /** Every contact the scene's bodies produce pairs the player with a ground
      body or a wall body, in either order; each such contact is classified as
      exactly one of a landing and a wall hit, never both and never neither. */
  lemma ContactClassification(bodyA: Mask, bodyB: Mask)
    requires (bodyA == PlayerCategory && (bodyB == GroundCategory || bodyB == WallCategory)) ||
             (bodyB == PlayerCategory && (bodyA == GroundCategory || bodyA == WallCategory))
    ensures TouchesGround(bodyA, bodyB) != TouchesWall(bodyA, bodyB)
  {
  }

  /** The category tests compare whole masks: a body whose mask has the ground
      or wall bit among others is neither ground nor wall, and the player's
      own category is neither. */
  lemma CategoriesComparedExactly()
    ensures !TouchesGround(GroundCategory | WallCategory, PlayerCategory)
    ensures !TouchesWall(GroundCategory | WallCategory, PlayerCategory)
    ensures !TouchesGround(PlayerCategory, PlayerCategory) && !TouchesWall(PlayerCategory, PlayerCategory)
  {
  }

  class GameState {
    var jump: Jump
    var gameOver: bool
    var score: nat
    var speedUpCount: nat
    /** Height of the last segment spawned, none before the first one. */
    var escapeHeight: Option<nat>
    /** Time of the last terrain tick, none before the first frame. */
    var last: Option<real>
    /** `baseNode.speed`, in tenths. */
    var worldSpeed: nat
    /** `player.speed`, in tenths. */
    var playerSpeed: nat
    /** The scores of the stored records, oldest first. */
    var store: seq<int>
    /** `UInt32(frame.size.height / 12)`. */
    const baseHeight: nat

    /** The record store as it was when the run began. */
    ghost var StoreAtStart: seq<int>
    /** The heights of all segments spawned in this run, in order. */
    ghost var Spawned: seq<nat>
    /** The coin tossed for each of those segments. */
    ghost var Coins: seq<bool>

    ghost predicate Valid()
      reads this
    {
      speedUpCount <= CountLimit + 1 &&
      // the counter and the speed follow from the number of scored ticks
      speedUpCount == score % SpeedUpPeriod &&
      (worldSpeed != 0 ==> worldSpeed == InitialSpeed + score / SpeedUpPeriod) &&
      // only the end of the death animation stops the world and the player
      (worldSpeed == 0 <==> playerSpeed == 0) &&
      (playerSpeed == 0 || playerSpeed == DefaultNodeSpeed) &&
      (worldSpeed == 0 ==> gameOver) &&
      // at most one record per run, and only a top-ten score
      store == (if gameOver && Rank(StoreAtStart, score) <= RankingSize
                then StoreAtStart + [score] else StoreAtStart) &&
      HeightsFollowRule(Spawned, Coins, baseHeight) &&
      escapeHeight == (if Spawned == [] then None else Some(Spawned[|Spawned| - 1])) &&
      (Spawned != [] ==> last.Some?)
    }

    function RunPhase(): Phase
      reads this
    {
      if !gameOver then Playing else if worldSpeed == 0 then Over else Dying
    }

    /** `didMoveToView`: a fresh run over the given record store. */
    constructor (frameHeight: real, records: seq<int>)
      requires frameHeight >= 0.0
      ensures Valid()
      ensures jump == Ground && !gameOver && score == 0 && speedUpCount == 0
      ensures escapeHeight == None && last == None
      ensures worldSpeed == InitialSpeed && playerSpeed == DefaultNodeSpeed
      ensures store == records && baseHeight == BaseHeight(frameHeight)
      ensures StoreAtStart == records && Spawned == [] && Coins == []
    {
      jump := Ground;
      gameOver := false;
      score := 0;
      speedUpCount := 0;
      escapeHeight := None;
      last := None;
      worldSpeed := InitialSpeed;
      playerSpeed := DefaultNodeSpeed;
      store := records;
      baseHeight := BaseHeight(frameHeight);
      StoreAtStart := records;
      Spawned := [];
      Coins := [];
    }

    /** `update`: once per frame. The first frame only records its time; later
        frames fire a terrain tick once the gate has elapsed, which spawns a
        segment and, while the run is on, scores and speeds up. */
    method Update(now: real, coinDraw: nat, heightDraw: nat) returns (fired: bool)
      requires Valid()
      requires UniformDraw(ChanceRange(0.5), coinDraw)
      requires UniformDraw(3 * baseHeight, heightDraw)
      modifies this
      ensures Valid()
      ensures var start := if old(last).Some? then old(last).value else now;
              fired == GateFires(start, now, old(worldSpeed)) &&
              last == Some(if fired then now else start)
      ensures old(last).None? ==> !fired
      ensures fired ==> escapeHeight == Some(ChooseHeight(old(escapeHeight), Chance(0.5, coinDraw), heightDraw, baseHeight))
      ensures fired ==> Spawned == old(Spawned) + [escapeHeight.value] && Coins == old(Coins) + [Chance(0.5, coinDraw)]
      ensures !fired ==> escapeHeight == old(escapeHeight) && Spawned == old(Spawned) && Coins == old(Coins)
      ensures score == if fired && !old(gameOver) then old(score) + 1 else old(score)
      ensures Pace(speedUpCount, worldSpeed) ==
              if fired && !old(gameOver) then SpeedUpStep(Pace(old(speedUpCount), old(worldSpeed)))
              else Pace(old(speedUpCount), old(worldSpeed))
      ensures jump == old(jump) && gameOver == old(gameOver) && playerSpeed == old(playerSpeed)
      ensures store == old(store) && StoreAtStart == old(StoreAtStart)
    {
      var start := if last.Some? then last.value else now;
      last := Some(start);
      fired := GateFires(start, now, worldSpeed);
      if fired {
        Tick(coinDraw, heightDraw);
        last := Some(now);
      }
    }

    /** The body of a fired tick in `update`: spawn a segment, and while the
        run is on, score and speed up. */
    method Tick(coinDraw: nat, heightDraw: nat)
      requires Valid()
      requires last.Some?
      requires UniformDraw(ChanceRange(0.5), coinDraw)
      requires UniformDraw(3 * baseHeight, heightDraw)
      modifies this`escapeHeight, this`Spawned, this`Coins, this`score, this`speedUpCount, this`worldSpeed
      ensures Valid()
      ensures escapeHeight == Some(ChooseHeight(old(escapeHeight), Chance(0.5, coinDraw), heightDraw, baseHeight))
      ensures Spawned == old(Spawned) + [escapeHeight.value] && Coins == old(Coins) + [Chance(0.5, coinDraw)]
      ensures score == if !gameOver then old(score) + 1 else old(score)
      ensures Pace(speedUpCount, worldSpeed) ==
              if !gameOver then SpeedUpStep(Pace(old(speedUpCount), old(worldSpeed)))
              else Pace(old(speedUpCount), old(worldSpeed))
    {
      SetupNewGround(coinDraw, heightDraw);
      if !gameOver {
        PaceFollowsScore(score, InitialSpeed);
        ScoreUp();
        SpeedUp();
      }
    }

    /** The height step of `setupNewGround`: choose and remember the height of
        the segment being spawned. */
    method SetupNewGround(coinDraw: nat, heightDraw: nat)
      requires HeightsFollowRule(Spawned, Coins, baseHeight)
      requires escapeHeight == (if Spawned == [] then None else Some(Spawned[|Spawned| - 1]))
      requires UniformDraw(ChanceRange(0.5), coinDraw)
      requires UniformDraw(3 * baseHeight, heightDraw)
      modifies this`escapeHeight, this`Spawned, this`Coins
      ensures escapeHeight == Some(ChooseHeight(old(escapeHeight), Chance(0.5, coinDraw), heightDraw, baseHeight))
      ensures Spawned == old(Spawned) + [escapeHeight.value] && Coins == old(Coins) + [Chance(0.5, coinDraw)]
      ensures escapeHeight == Some(Spawned[|Spawned| - 1])
      ensures HeightsFollowRule(Spawned, Coins, baseHeight)
    {
      var h := ChooseHeight(escapeHeight, Chance(0.5, coinDraw), heightDraw, baseHeight);
      ChosenHeightFollowsRule(Spawned, Coins, baseHeight, Chance(0.5, coinDraw), heightDraw);
      escapeHeight := Some(h);
      Spawned := Spawned + [h];
      Coins := Coins + [Chance(0.5, coinDraw)];
    }

    /** `scoreUp`: a step of `Tick`, which runs it under the pace it then
        restores; it leaves `Valid()` to its caller. */
    method ScoreUp()
      modifies this`score
      ensures score == old(score) + 1
    {
      score := score + 1;
    }

    /** `speedUp`: a step of `Tick`, taken right after `ScoreUp`; it leaves
        `Valid()` to its caller. */
    method SpeedUp()
      modifies this`speedUpCount, this`worldSpeed
      ensures Pace(speedUpCount, worldSpeed) == SpeedUpStep(Pace(old(speedUpCount), old(worldSpeed)))
    {
      if speedUpCount > CountLimit {
        speedUpCount := 0;
        worldSpeed := worldSpeed + 1;
      } else {
        speedUpCount := speedUpCount + 1;
      }
    }

    /** `touchesBegan`: while the run is on, one step of the jump machine per
        call, with one impulse request per touch; once the run is over and the
        death animation has stopped everything, a request to show the title
        screen. */
    method TouchesBegan(touches: nat) returns (impulses: seq<int>, showTitle: bool)
      requires Valid()
      modifies this`jump
      ensures Valid()
      ensures !old(gameOver) ==> jump == AfterTap(old(jump))
      ensures old(gameOver) ==> jump == old(jump)
      ensures !old(gameOver) && TapImpulse(old(jump)).Some? ==>
              |impulses| == touches &&
              forall i :: 0 <= i < |impulses| ==> impulses[i] == TapImpulse(old(jump)).value
      ensures old(gameOver) || TapImpulse(old(jump)).None? ==> impulses == []
      ensures showTitle <==> RunPhase() == Over
    {
      impulses := [];
      showTitle := false;
      if !gameOver {
        match jump
        case Ground =>
          jump := Air;
          impulses := RequestImpulses(touches, FirstImpulse);
        case Air =>
          jump := Jumped;
          impulses := RequestImpulses(touches, SecondImpulse);
        case Jumped =>
      } else if worldSpeed == 0 && playerSpeed == 0 {
        showTitle := true;
      }
    }

    /** `didBeginContact`: ignored once the run is over; otherwise a ground
        body lands the player and a wall body ends the run, starts the death
        animation and registers the score if it ranks in the top ten. */
    method DidBeginContact(bodyA: Mask, bodyB: Mask)
      requires Valid()
      modifies this
      ensures Valid()
      ensures old(gameOver) ==> unchanged(this)
      ensures !old(gameOver) ==>
                jump == (if TouchesGround(bodyA, bodyB) then Ground else old(jump)) &&
                gameOver == TouchesWall(bodyA, bodyB) &&
                store == (if TouchesWall(bodyA, bodyB) && Rank(old(store), score) <= RankingSize
                          then old(store) + [score] else old(store))
      ensures !old(gameOver) && TouchesWall(bodyA, bodyB) ==> playerSpeed == DefaultNodeSpeed
      ensures !old(gameOver) && !TouchesWall(bodyA, bodyB) ==> playerSpeed == old(playerSpeed)
      ensures score == old(score) && speedUpCount == old(speedUpCount) && worldSpeed == old(worldSpeed)
      ensures last == old(last) && escapeHeight == old(escapeHeight)
      ensures Spawned == old(Spawned) && Coins == old(Coins) && StoreAtStart == old(StoreAtStart)
    {
      if gameOver {
        return;
      }
      if TouchesGround(bodyA, bodyB) {
        jump := Ground;
      }
      if TouchesWall(bodyA, bodyB) {
        EndRun();
      }
    }

    /** The wall branch of `didBeginContact`: end the run, start the death
        animation, and register the score if it ranks in the top ten. */
    method EndRun()
      requires Valid()
      requires !gameOver
      modifies this`gameOver, this`playerSpeed, this`store
      ensures Valid()
      ensures gameOver && playerSpeed == DefaultNodeSpeed
      ensures store == if Rank(old(store), score) <= RankingSize then old(store) + [score] else old(store)
    {
      gameOver := true;
      SetGameOverAnim();
      var ranking := Rank(store, score);
      if ranking <= RankingSize {
        RegisterNewScore();
      }
    }

    /** `setGameOverAnim`: the player node is replaced by the dead sprite, a
        fresh node running at the default speed. A step of `EndRun`; it
        leaves `Valid()` to its caller. */
    method SetGameOverAnim()
      modifies this`playerSpeed
      ensures playerSpeed == DefaultNodeSpeed
    {
      playerSpeed := DefaultNodeSpeed;
    }

    /** `registNewScore`: append a record of the current score (the store keeps
        no timestamp). A step of `EndRun`, which calls it only for a top-ten
        score; it leaves `Valid()` to its caller. */
    method RegisterNewScore()
      modifies this`store
      ensures store == old(store) + [score]
    {
      store := store + [score];
    }

    /** The completion block of the death animation: it stops the player and
        the world. */
    method DeathAnimationFinished()
      requires Valid()
      requires gameOver
      modifies this`worldSpeed, this`playerSpeed
      ensures Valid()
      ensures worldSpeed == 0 && playerSpeed == 0 && RunPhase() == Over
    {
      playerSpeed := 0;
      worldSpeed := 0;
    }
  }
}
