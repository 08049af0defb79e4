/** Score and speed progression of the game scene: the counter behind
    `speedUp` and the time gate in `update` that paces terrain generation. */
module Progression {
  import opened Options

  /** World scroll speed, in tenths of the node speed, when a run starts (1.7). */
  const InitialSpeed: nat := 17
  /** The speed-up counter is reset, and the speed raised, once it exceeds this. */
  const CountLimit: nat := 5
  /** Number of `speedUp` calls between two speed rises: the counter runs
      0..CountLimit+1 and the call after that raises the speed. */
  const SpeedUpPeriod: nat := CountLimit + 2

  /** The speed-up counter together with the world speed (in tenths). */
  datatype Pace = Pace(count: nat, speed: nat)

  /** One `speedUp` call. */
  function SpeedUpStep(p: Pace): (q: Pace)
    ensures q.count <= CountLimit + 1
    ensures q.speed == p.speed + 1 <==> p.count > CountLimit
    ensures q.speed == p.speed || q.speed == p.speed + 1
    ensures p.count <= CountLimit ==> q.count == p.count + 1
    ensures p.count > CountLimit ==> q.count == 0
  {
    if p.count > CountLimit then Pace(0, p.speed + 1) else Pace(p.count + 1, p.speed)
  }

  /** `n` consecutive `speedUp` calls. */
  function SpeedUps(p: Pace, n: nat): Pace
    decreases n
  {
    if n == 0 then p else SpeedUps(SpeedUpStep(p), n - 1)
  }

  /** From any reachable counter value, `n` calls leave the counter at the
      position `n` steps further round a cycle of SpeedUpPeriod, and raise
      the speed once per completed cycle. */
  lemma {:induction false} SpeedUpsClosedForm(p: Pace, n: nat)
    requires p.count <= CountLimit + 1
    ensures SpeedUps(p, n) == Pace((p.count + n) % SpeedUpPeriod, p.speed + (p.count + n) / SpeedUpPeriod)
    decreases n
  {
    if n > 0 {
      var q := SpeedUpStep(p);
      SpeedUpsClosedForm(q, n - 1);
      if p.count > CountLimit {
        assert p.count == 6;
        assert (q.count + (n - 1)) % 7 == (p.count + n) % 7;
        assert (q.count + (n - 1)) / 7 + 1 == (p.count + n) / 7;
      } else {
        assert q.count + (n - 1) == p.count + n;
      }
    }
  }

  /** From a fresh run, the speed rises by one tenth on every seventh call
      and at no other call. */
  lemma SpeedRisesEverySeventhCall(speed: nat, n: nat)
    ensures SpeedUps(Pace(0, speed), n) == Pace(n % 7, speed + n / 7)
    ensures SpeedUps(Pace(0, speed), n + 1).speed == SpeedUps(Pace(0, speed), n).speed + (if n % 7 == 6 then 1 else 0)
  {
    SpeedUpsClosedForm(Pace(0, speed), n);
    SpeedUpsClosedForm(Pace(0, speed), n + 1);
  }

  /** When the counter and the speed are those of `score` scored ticks, one
      more call makes them those of `score + 1` ticks. */
  lemma PaceFollowsScore(score: nat, base: nat)
    ensures SpeedUpStep(Pace(score % SpeedUpPeriod, base + score / SpeedUpPeriod))
            == Pace((score + 1) % SpeedUpPeriod, base + (score + 1) / SpeedUpPeriod)
  {
    SpeedUpsClosedForm(Pace(score % SpeedUpPeriod, base + score / SpeedUpPeriod), 1);
    assert score % 7 + 1 == (score + 1) % 7 + 7 * ((score % 7 + 1) / 7);
  }

  /** The time between two terrain ticks, `0.6 / speed`; at speed zero the
      division yields infinity, shown here as no interval at all. */
  function Interval(speed: nat): (dt: Option<real>)
    ensures dt.None? <==> speed == 0
    ensures dt.Some? ==> dt.value * (speed as real) == 6.0
  {
    if speed == 0 then None else Some(0.6 / (speed as real / 10.0))
  }

  /** Whether `update` fires a terrain tick at `now` when the previous tick
      (or the first frame) was at `last`. */
  function GateFires(last: real, now: real, speed: nat): (fires: bool)
    ensures fires ==> speed > 0 && last < now
  {
    match Interval(speed)
    case None => false
    case Some(dt) => last + dt <= now
  }

  /** The gate fires exactly when the world is moving and enough time has
      passed for the world to scroll six tenths of a node-speed second. */
  lemma GateFiresIff(last: real, now: real, speed: nat)
    ensures GateFires(last, now, speed) <==> speed > 0 && (now - last) * (speed as real) >= 6.0
  {
  }

  /** The first frame of a run records its time and never fires the gate. */
  lemma FirstFrameNeverFires(now: real, speed: nat)
    ensures !GateFires(now, now, speed)
  {
  }

  /** A faster world fires the gate no later than a slower one. */
  lemma FasterWorldFiresSooner(last: real, now: real, slow: nat, fast: nat)
    requires slow <= fast
    requires GateFires(last, now, slow)
    ensures GateFires(last, now, fast)
  {
  }
}
