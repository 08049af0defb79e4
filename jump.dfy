/** The double-jump state machine of the game scene: a tap moves the player
    from the ground into the air and from the air into the second jump; only a
    contact with a ground body brings it back to the ground. */
module JumpMachine {
  import opened Options

  /** The scene's `Jump` enum. */
  datatype Jump = Ground | Air | Jumped

  /** Vertical impulse of the first jump (from the ground). */
  const FirstImpulse: int := 33
  /** Vertical impulse of the second jump (from the air). */
  const SecondImpulse: int := 13

  /** Jumps used since the last landing. */
  function JumpsUsed(j: Jump): (n: nat)
    ensures n <= 2
    ensures n == 0 <==> j == Ground
  {
    match j
    case Ground => 0
    case Air => 1
    case Jumped => 2
  }

  /** The state after one tap while the run is on. */
  function AfterTap(j: Jump): (next: Jump)
    ensures JumpsUsed(next) == if j == Jumped then 2 else JumpsUsed(j) + 1
  {
    match j
    case Ground => Air
    case Air => Jumped
    case Jumped => Jumped
  }

  /** The impulse a tap requests for each touch it carries: the strong one
      from the ground, the weak one from the air, none after the double jump. */
  function TapImpulse(j: Jump): (dy: Option<int>)
    ensures dy.None? <==> j == Jumped
    ensures dy.Some? ==> 0 < dy.value && (j == Air ==> dy.value < FirstImpulse)
  {
    match j
    case Ground => Some(FirstImpulse)
    case Air => Some(SecondImpulse)
    case Jumped => None
  }

  /** Each touch of the set zeroes the player's velocity and applies `dy`:
      the returned sequence holds one impulse request per touch. */
  method RequestImpulses(touches: nat, dy: int) returns (requests: seq<int>)
    ensures |requests| == touches
    ensures forall i :: 0 <= i < |requests| ==> requests[i] == dy
  {
    requests := [];
    var k := 0;
    while k < touches
      invariant k <= touches
      invariant |requests| == k
      invariant forall i :: 0 <= i < k ==> requests[i] == dy
    {
      requests := requests + [dy];
      k := k + 1;
    }
  }

  function Min(a: int, b: int): int { if a <= b then a else b }

  /** The state after `n` taps with no landing in between. */
  function AfterTaps(j: Jump, n: nat): Jump
    decreases n
  {
    if n == 0 then j else AfterTaps(AfterTap(j), n - 1)
  }

  /** The number of those `n` taps that make the player jump. */
  function JumpsByTaps(j: Jump, n: nat): nat
    decreases n
  {
    if n == 0 then 0
    else (if TapImpulse(j).Some? then 1 else 0) + JumpsByTaps(AfterTap(j), n - 1)
  }

  /** However many taps arrive without a landing, at most two jumps happen
      from the ground, and none once the double jump is used. */
  lemma {:induction false} NoTripleJump(j: Jump, n: nat)
    ensures JumpsByTaps(j, n) == Min(n, 2 - JumpsUsed(j))
    ensures JumpsUsed(AfterTaps(j, n)) == Min(JumpsUsed(j) + n, 2)
    decreases n
  {
    if n > 0 {
      NoTripleJump(AfterTap(j), n - 1);
    }
  }

  /** What the jump machine sees while the run is on: a tap, or a contact
      with a ground body. */
  datatype Input = Tap | Landing

  /** The state after a stream of inputs. */
  function Run(j: Jump, inputs: seq<Input>): Jump
    decreases |inputs|
  {
    if inputs == [] then j
    else if inputs[0] == Tap then Run(AfterTap(j), inputs[1..])
    else Run(Ground, inputs[1..])
  }

  /** The number of jumps a stream of inputs makes. */
  function Jumps(j: Jump, inputs: seq<Input>): nat
    decreases |inputs|
  {
    if inputs == [] then 0
    else if inputs[0] == Tap then (if TapImpulse(j).Some? then 1 else 0) + Jumps(AfterTap(j), inputs[1..])
    else Jumps(Ground, inputs[1..])
  }

  function Landings(inputs: seq<Input>): nat
    decreases |inputs|
  {
    if inputs == [] then 0 else (if inputs[0] == Landing then 1 else 0) + Landings(inputs[1..])
  }

  /** Every landing buys at most two jumps: over any stream of inputs the
      jumps made never exceed the ones left at the start plus two per landing. */
  lemma {:induction false} JumpsBoundedByLandings(j: Jump, inputs: seq<Input>)
    ensures Jumps(j, inputs) <= 2 - JumpsUsed(j) + 2 * Landings(inputs)
    decreases |inputs|
  {
    if inputs != [] {
      if inputs[0] == Tap {
        JumpsBoundedByLandings(AfterTap(j), inputs[1..]);
      } else {
        JumpsBoundedByLandings(Ground, inputs[1..]);
      }
    }
  }

  /** After a landing, what the following taps do no longer depends on the
      state before the landing: it is as if they started on the ground. */
  lemma {:induction false} LandingResets(j: Jump, taps: nat)
    ensures Run(j, [Landing] + seq(taps, _ => Tap)) == AfterTaps(Ground, taps)
  {
    var rest := seq(taps, _ => Tap);
    assert ([Landing] + rest)[1..] == rest;
    TapsRun(Ground, taps);
  }

  lemma {:induction false} TapsRun(j: Jump, taps: nat)
    ensures Run(j, seq(taps, _ => Tap)) == AfterTaps(j, taps)
    decreases taps
  {
    if taps > 0 {
      var s := seq(taps, _ => Tap);
      assert s[1..] == seq(taps - 1, _ => Tap);
      TapsRun(AfterTap(j), taps - 1);
    }
  }
}
