/** The resistance test: run for at least 60 s, then enter the distance;
    the average speed is scored 0..10 by bands and scaled to 0..100. */
module Resistance {
  import opened JsMath
  import opened Wrappers

  /** The speed rubric: under 2 m/s nothing, then bands of 1-3, 4-6 and
      7-9 points, and 10 from 6 m/s on. */
  function SpeedBandScore(speed: real): (r: int)
    ensures 0 <= r <= 10
    ensures 6.0 <= speed ==> r == 10
    ensures 4.0 <= speed < 6.0 ==> 7 <= r <= 9
    ensures 3.0 <= speed < 4.0 ==> 4 <= r <= 6
    ensures 2.0 <= speed < 3.0 ==> 1 <= r <= 3
    ensures speed < 2.0 ==> r == 0
  {
    if speed >= 6.0 then 10
    else if speed >= 4.0 then Round((speed - 4.0) / (6.0 - 4.0) * 2.0) + 7
    else if speed >= 3.0 then Round((speed - 3.0) / (4.0 - 3.0) * 2.0) + 4
    else if speed >= 2.0 then Round((speed - 2.0) / (3.0 - 2.0) * 2.0) + 1
    else 0
  }

  /** `computeResistanceScore(distance, time)`: the rubric applied to
      distance / time. */
  function ResistanceScore(distance: real, time: real): (r: int)
    requires time > 0.0
    ensures 0 <= r <= 10
    ensures distance >= 6.0 * time ==> r == 10
    ensures distance < 2.0 * time ==> r == 0
  {
    var speed := distance / time;
    assert distance >= 6.0 * time ==> speed >= 6.0 by {
      if distance >= 6.0 * time { SpeedAtLeast(distance, time, 6.0); }
    }
    assert distance < 2.0 * time ==> speed < 2.0 by {
      if distance < 2.0 * time { SpeedBelow(distance, time, 2.0); }
    }
    SpeedBandScore(speed)
  }

  lemma SpeedAtLeast(distance: real, time: real, s: real)
    requires time > 0.0 && distance >= s * time
    ensures distance / time >= s
  {
    assert distance / time * time == distance;
    if distance / time < s {
      assert false;
    }
  }

  lemma SpeedBelow(distance: real, time: real, s: real)
    requires time > 0.0 && distance < s * time
    ensures distance / time < s
  {
    assert distance / time * time == distance;
    if distance / time >= s {
      assert false;
    }
  }

  /** A higher average speed never scores less. */
  lemma SpeedBandNonDecreasing(s: real, s': real)
    requires s <= s'
    ensures SpeedBandScore(s) <= SpeedBandScore(s')
  {
    if 4.0 <= s && s' < 6.0 {
      RoundMonotonic((s - 4.0) / 2.0 * 2.0, (s' - 4.0) / 2.0 * 2.0);
    } else if 3.0 <= s && s' < 4.0 {
      RoundMonotonic((s - 3.0) / 1.0 * 2.0, (s' - 3.0) / 1.0 * 2.0);
    } else if 2.0 <= s && s' < 3.0 {
      RoundMonotonic((s - 2.0) / 1.0 * 2.0, (s' - 2.0) / 1.0 * 2.0);
    }
  }

  const MaxSpeed: real := 8.0
  const UnlockSeconds: nat := 60

  /** 240 m in 60 s is 4 m/s, the bottom of the 7-9 band: 70 points. */
  lemma ExampleFourMetresPerSecond()
    ensures ResistanceScore(240.0, 60.0) * 10 == 70
  {
    assert 240.0 / 60.0 == 4.0;
  }

  datatype ConfirmOutcome =
    | WaitFirst             // the 60 s have not elapsed
    | InvalidDistance       // NaN or not positive
    | Incoherent            // faster than the plausible maximum
    | Finished(total: int)  // onFinish(total)

  class ResistanceTest {
    var distance: Option<real>   // the text field, parsed; None for NaN
    var timer: nat               // seconds
    var isRunning: bool
    var canEnterDistance: bool

    /** The distance is unlocked exactly when 60 s have been reached. */
    ghost predicate Valid()
      reads this
    {
      canEnterDistance <==> timer >= UnlockSeconds
    }

    /** "Confirm" and the distance field are enabled only after the unlock
        and while the stopwatch is stopped. */
    predicate ConfirmEnabled()
      reads this
    {
      canEnterDistance && !isRunning
    }

    constructor ()
      ensures Valid() && distance == None && timer == 0 && !isRunning && !canEnterDistance
    {
      distance, timer, isRunning, canEnterDistance := None, 0, false, false;
    }

    /** "Start": clears the distance, restarts the stopwatch at zero and
        locks the distance field again. */
    method Start()
      modifies this
      ensures Valid()
      ensures distance == None && timer == 0 && isRunning && !canEnterDistance
      ensures !ConfirmEnabled()
    {
      distance := None;
      isRunning := true;
      timer := 0;
      canEnterDistance := false;
    }

    /** One tick of the one-second interval, followed by the effect that
        unlocks the distance once the timer reaches 60 s. */
    method Tick()
      requires Valid() && isRunning
      modifies this
      ensures Valid()
      ensures timer == old(timer) + 1 && isRunning && distance == old(distance)
      ensures canEnterDistance <==> old(canEnterDistance) || timer == UnlockSeconds
      ensures !ConfirmEnabled()
    {
      timer := timer + 1;
      if timer >= UnlockSeconds && !canEnterDistance {
        canEnterDistance := true;
      }
    }

    /** Typing into the distance field. */
    method Enter(d: Option<real>)
      requires Valid()
      modifies this
      ensures Valid()
      ensures distance == d
      ensures timer == old(timer) && isRunning == old(isRunning)
      ensures canEnterDistance == old(canEnterDistance)
    {
      distance := d;
    }

    /** "Confirm": the checks in order (unlocked, a positive number, a
        plausible speed), then the score. */
    method Confirm() returns (outcome: ConfirmOutcome)
      requires Valid()
      modifies this
      ensures Valid()
      ensures timer == old(timer) && distance == old(distance)
      ensures canEnterDistance == old(canEnterDistance)
      ensures !old(canEnterDistance) ==> outcome == WaitFirst
      ensures old(canEnterDistance) && (old(distance).None? || old(distance).value <= 0.0) ==>
        outcome == InvalidDistance
      ensures old(canEnterDistance) && old(distance).Some? && old(distance).value > 0.0 ==>
        var speed := old(distance).value / old(timer) as real;
        && (speed > MaxSpeed ==> outcome == Incoherent)
        && (speed <= MaxSpeed ==>
              outcome == Finished(ResistanceScore(old(distance).value, old(timer) as real) * 10))
      ensures outcome.Finished? ==> !isRunning
      ensures !outcome.Finished? ==> isRunning == old(isRunning)
      ensures outcome.Finished? ==> 0 <= outcome.total <= 100 && outcome.total % 10 == 0
    {
      if !canEnterDistance {
        return WaitFirst;
      }
      if distance.None? || distance.value <= 0.0 {
        return InvalidDistance;
      }
      var d := distance.value;
      var speed := d / timer as real;
      if speed > MaxSpeed {
        return Incoherent;
      }
      outcome := Finished(ResistanceScore(d, timer as real) * 10);
      isRunning := false;
    }
  }

  /** 1000 m in 60 s (about 16.7 m/s) is refused as implausible. */
  method ExampleImplausibleRun() returns (outcome: ConfirmOutcome)
    ensures outcome == Incoherent
  {
    var test := new ResistanceTest();
    test.Start();
    while test.timer < 60
      invariant test.Valid() && test.isRunning && test.distance == None
      invariant test.timer <= 60
      decreases 60 - test.timer
    {
      test.Tick();
    }
    test.Enter(Some(1000.0));
    assert 1000.0 / 60.0 > MaxSpeed;
    outcome := test.Confirm();
  }
}
