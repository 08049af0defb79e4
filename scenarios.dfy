/** Whole-run scenarios driven through the scene's events, as a caller sees
    them from the contracts of `GameState` alone. */
module Scenarios {
  import opened JumpMachine
  import opened Progression
  import opened Scoreboard
  import opened Game

  /** One scored tick, then a wall contact and a second one before the death
      animation ends: the run registers its score once at most, and only if
      it ranks in the top ten. */
  method WallHitTwice(frameHeight: real, records: seq<int>) returns (stored: seq<int>, score: nat)
    requires frameHeight >= 0.0
    ensures score == 1
    ensures stored == if Rank(records, 1) <= RankingSize then records + [1] else records
  {
    var g := new GameState(frameHeight, records);
    var fired := g.Update(0.0, 0, 0);
    assert !fired;
    fired := g.Update(1.0, 1, 0);
    assert fired by {
      GateFiresIff(0.0, 1.0, InitialSpeed);
    }
    g.DidBeginContact(PlayerCategory, WallCategory);
    g.DidBeginContact(WallCategory, PlayerCategory);
    stored, score := g.store, g.score;
  }

  /** Taps after a wall contact are ignored until the death animation has
      stopped the world; then a tap asks for the title screen, from which a
      new run starts with a zero score at the initial speed. */
  method EndOfRun(frameHeight: real, records: seq<int>)
    returns (earlyTitle: bool, lateTitle: bool, nextScore: nat, nextSpeed: nat)
    requires frameHeight >= 0.0
    ensures !earlyTitle && lateTitle
    ensures nextScore == 0 && nextSpeed == InitialSpeed
  {
    var g := new GameState(frameHeight, records);
    g.DidBeginContact(WallCategory, PlayerCategory);
    var impulses;
    impulses, earlyTitle := g.TouchesBegan(1);
    g.DeathAnimationFinished();
    impulses, lateTitle := g.TouchesBegan(1);
    var next := new GameState(frameHeight, g.store);
    nextScore, nextSpeed := next.score, next.worldSpeed;
  }

  /** Three taps in a row from the ground: a strong jump, a weak one, then
      nothing until a landing, after which the strong jump is available again. */
  method DoubleJump(frameHeight: real) returns (first: seq<int>, second: seq<int>, third: seq<int>, afterLanding: seq<int>)
    requires frameHeight >= 0.0
    ensures first == [FirstImpulse] && second == [SecondImpulse] && third == []
    ensures afterLanding == [FirstImpulse]
  {
    var g := new GameState(frameHeight, []);
    var title;
    first, title := g.TouchesBegan(1);
    second, title := g.TouchesBegan(1);
    third, title := g.TouchesBegan(1);
    g.DidBeginContact(PlayerCategory, GroundCategory);
    afterLanding, title := g.TouchesBegan(1);
  }
}
