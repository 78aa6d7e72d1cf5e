/** The 50 m speed test: a stopwatch in whole seconds, a six-second minimum
    and a step-plus-linear rubric scaled to 0..100. */
module Speed {
  import opened JsMath

  /** 10 points up to 6 s, 8 points up to 8 s, then a rounded linear
      descent from 8 to 0 points that reaches 0 at 12 s. */
  function SpeedScore(t: real): (r: int)
    ensures 0 <= r <= 10
    ensures t <= 6.0 ==> r == 10
    ensures 6.0 < t <= 8.0 ==> r == 8
    ensures 12.0 <= t ==> r == 0
    ensures 8.0 < t ==> r <= 8
  {
    if t <= 6.0 then 10
    else if t <= 8.0 then 8
    else if t >= 12.0 then 0
    else Round((12.0 - t) / 4.0 * 8.0)
  }

  /** Between 8 s and 12 s the score is the rounded linear interpolation. */
  lemma SpeedScoreBetween(t: real)
    requires 8.0 < t < 12.0
    ensures SpeedScore(t) == Round((12.0 - t) / 4.0 * 8.0)
  {
  }

  /** Ten seconds sit halfway down the linear part: 4 points. */
  lemma SpeedScoreAtTen()
    ensures SpeedScore(10.0) == 4
  {
  }

  /** Running slower never scores more. */
  lemma SpeedScoreNonIncreasing(t: real, t': real)
    requires t <= t'
    ensures SpeedScore(t') <= SpeedScore(t)
  {
    if 8.0 < t && t' < 12.0 {
      RoundMonotonic((12.0 - t') / 4.0 * 8.0, (12.0 - t) / 4.0 * 8.0);
    }
  }

  const MinTimeSeconds: nat := 6

  /** The confirmed result, 0..10 scaled by ten. */
  function FinalScore(timer: nat): (r: int)
    ensures 0 <= r <= 100 && r % 10 == 0
    ensures timer <= 6 ==> r == 100
  {
    SpeedScore(timer as real) * 10
  }

  datatype ConfirmOutcome =
    | NotStarted          // "press Start first"
    | TooEarly            // under the six-second minimum
    | Finished(total: int)  // onFinish(total)

  class SpeedTest {
    var isRunning: bool
    var timer: nat   // seconds

    /** The timer is reset to zero whenever the stopwatch is not running. */
    ghost predicate Valid()
      reads this
    {
      !isRunning ==> timer == 0
    }

    /** "Confirm" is disabled unless running for at least six seconds. */
    predicate ConfirmEnabled()
      reads this
    {
      isRunning && timer >= MinTimeSeconds
    }

    constructor ()
      ensures Valid() && !isRunning && timer == 0
    {
      isRunning, timer := false, 0;
    }

    /** "Start": the stopwatch runs; it was at zero unless already running. */
    method Start()
      requires Valid()
      modifies this
      ensures Valid() && isRunning && timer == old(timer)
      ensures !old(isRunning) ==> timer == 0
    {
      isRunning := true;
    }

    /** One tick of the one-second interval, which exists only while running. */
    method Tick()
      requires Valid() && isRunning
      modifies this
      ensures Valid() && isRunning && timer == old(timer) + 1
    {
      timer := timer + 1;
    }

    /** "Confirm": refused unless running for at least six seconds;
        otherwise the run is scored, and stopping resets the timer. */
    method Confirm() returns (outcome: ConfirmOutcome)
      requires Valid()
      modifies this
      ensures Valid()
      ensures !old(isRunning) ==> outcome == NotStarted && !isRunning && timer == old(timer)
      ensures old(isRunning) && old(timer) < MinTimeSeconds ==>
        outcome == TooEarly && isRunning && timer == old(timer)
      ensures old(isRunning) && old(timer) >= MinTimeSeconds ==>
        outcome == Finished(FinalScore(old(timer))) && !isRunning && timer == 0
      ensures outcome.Finished? <==> old(ConfirmEnabled())
    {
      if !isRunning {
        return NotStarted;
      }
      if timer < MinTimeSeconds {
        return TooEarly;
      }
      outcome := Finished(FinalScore(timer));
      isRunning := false;
      timer := 0;
    }
  }
}
