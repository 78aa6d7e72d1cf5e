/** The strength test: five timed exercises, each scored 0..10 by a linear
    time rubric, averaged and scaled to 0..100. */
module Strength {
  import opened JsMath

  /** The rubric shared by the five exercises: 10 points up to `tOpt`
      seconds, 0 points from `tLim` on, and a rounded linear descent in
      between. */
  function TimeScore(tOpt: real, tLim: real, t: real): (r: int)
    ensures 0 <= r <= 10
    ensures t <= tOpt ==> r == 10
    ensures tOpt < t && tLim <= t ==> r == 0
  {
    if t <= tOpt then 10
    else if t >= tLim then 0
    else
      var q := (tLim - t) / (tLim - tOpt);
      assert 0.0 < q < 1.0 by { RatioInUnit(tLim - t, tLim - tOpt); }
      Round(q * 10.0)
  }

  lemma RatioInUnit(a: real, b: real)
    requires 0.0 < a < b
    ensures 0.0 < a / b < 1.0
  {
    var q := a / b;
    assert q * b == a;
    if q >= 1.0 {
      assert false;
    }
  }

  lemma RatioMonotonic(a: real, a': real, b: real)
    requires a <= a' && 0.0 < b
    ensures a / b <= a' / b
  {
  }

  /** Strictly between the two thresholds the score is the rounded
      fraction of the interval still left, times ten. */
  lemma TimeScoreBetween(tOpt: real, tLim: real, t: real)
    requires tOpt < t < tLim
    ensures TimeScore(tOpt, tLim, t) == Round((tLim - t) / (tLim - tOpt) * 10.0)
  {
  }

  /** Taking longer never scores more. */
  lemma TimeScoreNonIncreasing(tOpt: real, tLim: real, t: real, t': real)
    requires t <= t'
    ensures TimeScore(tOpt, tLim, t') <= TimeScore(tOpt, tLim, t)
  {
    if tOpt < t && t' < tLim {
      RatioMonotonic(tLim - t', tLim - t, tLim - tOpt);
      RoundMonotonic((tLim - t') / (tLim - tOpt) * 10.0, (tLim - t) / (tLim - tOpt) * 10.0);
    }
  }

  /** Push-ups: full marks up to 20 s, nothing from 45 s. */
  function PushUpsScore(t: real): (r: int)
    ensures 0 <= r <= 10 && (t <= 20.0 ==> r == 10) && (t >= 45.0 ==> r == 0)
  {
    TimeScore(20.0, 45.0, t)
  }

  /** Squats: full marks up to 25 s, nothing from 50 s. */
  function SquatsScore(t: real): (r: int)
    ensures 0 <= r <= 10 && (t <= 25.0 ==> r == 10) && (t >= 50.0 ==> r == 0)
  {
    TimeScore(25.0, 50.0, t)
  }

  /** Pull-ups: full marks up to 15 s, nothing from 40 s. */
  function PullUpsScore(t: real): (r: int)
    ensures 0 <= r <= 10 && (t <= 15.0 ==> r == 10) && (t >= 40.0 ==> r == 0)
  {
    TimeScore(15.0, 40.0, t)
  }

  /** Parallel-bar dips: full marks up to 20 s, nothing from 45 s. */
  function DipsScore(t: real): (r: int)
    ensures 0 <= r <= 10 && (t <= 20.0 ==> r == 10) && (t >= 45.0 ==> r == 0)
  {
    TimeScore(20.0, 45.0, t)
  }

  /** Dumbbell deadlift: full marks up to 20 s, nothing from 45 s. */
  function DeadliftScore(t: real): (r: int)
    ensures 0 <= r <= 10 && (t <= 20.0 ==> r == 10) && (t >= 45.0 ==> r == 0)
  {
    TimeScore(20.0, 45.0, t)
  }

  const ExerciseCount: nat := 5

  /** The exercise table: push-ups, squats, pull-ups, parallel-bar dips and
      dumbbell deadlift. */
  datatype Exercise = Exercise(name: string, repetitions: nat, minTime: nat)

  function ExerciseAt(i: nat): (e: Exercise)
    requires i < ExerciseCount
  {
    match i
    case 0 => Exercise("Flexiones", 15, 20)
    case 1 => Exercise("Sentadillas", 20, 25)
    case 2 => Exercise("Dominadas", 10, 15)
    case 3 => Exercise("Fondos en Paralelas", 12, 20)
    case _ => Exercise("Peso Muerto con Mancuernas", 12, 20)
  }

  /** The rubric each exercise uses, with the time in tenths of a second.
      Each exercise's minimum time is the optimum of its rubric, so that
      stopping exactly at the minimum earns the full 10 points; from 50 s on
      every exercise scores nothing. */
  function ExerciseScore(i: nat, tenths: nat): (r: int)
    requires i < ExerciseCount
    ensures 0 <= r <= 10
    ensures tenths <= ExerciseAt(i).minTime * 10 ==> r == 10
    ensures tenths >= 500 ==> r == 0
  {
    var t := tenths as real / 10.0;
    match i
    case 0 => PushUpsScore(t)
    case 1 => SquatsScore(t)
    case 2 => PullUpsScore(t)
    case 3 => DipsScore(t)
    case _ => DeadliftScore(t)
  }

  /** The five scores averaged on 0..10 and scaled to 0..100. */
  function FinalScore(scores: seq<int>): int
  {
    Round(Total(scores) as real / ExerciseCount as real * 10.0)
  }

  /** The final score is twice the sum of the five exercise scores, so five
      scores in 0..10 give a result in 0..100. */
  lemma {:induction false} FinalScoreRange(scores: seq<int>)
    requires |scores| == ExerciseCount
    requires forall i :: 0 <= i < |scores| ==> 0 <= scores[i] <= 10
    ensures FinalScore(scores) == 2 * Total(scores)
    ensures 0 <= FinalScore(scores) <= 100
  {
    TotalBounds(scores, 0, 10);
    RoundOfInteger(2 * Total(scores));
  }

  /** What pressing "next" did. */
  datatype NextOutcome =
    | TooEarly                           // the minimum time has not elapsed
    | Recorded(score: int)               // scored, moved to the next exercise
    | Finished(score: int, total: int)   // scored the last one; onFinish(total)

  /** The screen's state: the stopwatch in tenths of a second, whether it
      runs, the current exercise and the scores so far. */
  class StrengthTest {
    var time: nat
    var isRunning: bool
    var index: nat
    var scores: seq<int>

    ghost predicate Valid()
      reads this
    {
      && index < ExerciseCount
      && (|scores| == index || (index == ExerciseCount - 1 && |scores| == ExerciseCount))
      && forall k :: 0 <= k < |scores| ==> 0 <= scores[k] <= 10
    }

    /** True once the last exercise has been scored and the screen left. */
    predicate Done()
      reads this
    {
      |scores| == ExerciseCount
    }

    /** The "next" button is shown only while running and is disabled
        before the minimum time. */
    predicate NextEnabled()
      reads this
      requires index < ExerciseCount
    {
      isRunning && time >= ExerciseAt(index).minTime * 10
    }

    constructor ()
      ensures Valid()
      ensures time == 0 && !isRunning && index == 0 && scores == []
    {
      time, isRunning, index, scores := 0, false, 0, [];
    }

    /** "Start exercise": the stopwatch restarts from zero. */
    method Start()
      requires Valid()
      modifies this
      ensures Valid()
      ensures time == 0 && isRunning
      ensures index == old(index) && scores == old(scores)
    {
      time := 0;
      isRunning := true;
    }

    /** One 0.1-second tick of the interval, which exists only while running. */
    method Tick()
      requires Valid() && isRunning
      modifies this
      ensures Valid()
      ensures time == old(time) + 1
      ensures isRunning && index == old(index) && scores == old(scores)
    {
      time := time + 1;
    }

    /** Opening the exercise's help pauses the stopwatch. */
    method OpenHelp()
      requires Valid()
      modifies this
      ensures Valid()
      ensures !isRunning
      ensures time == old(time) && index == old(index) && scores == old(scores)
    {
      isRunning := false;
    }

    /** "Next exercise" / "Finish test". */
    method Next() returns (outcome: NextOutcome)
      requires Valid() && !Done()
      modifies this
      ensures Valid()
      ensures old(time) < ExerciseAt(old(index)).minTime * 10 ==>
        outcome == TooEarly &&
        time == old(time) && isRunning == old(isRunning) &&
        index == old(index) && scores == old(scores)
      ensures old(time) >= ExerciseAt(old(index)).minTime * 10 ==>
        var s := ExerciseScore(old(index), old(time));
        && !isRunning
        && scores == old(scores) + [s]
        && (old(index) < ExerciseCount - 1 ==>
              outcome == Recorded(s) && index == old(index) + 1 && time == 0)
        && (old(index) == ExerciseCount - 1 ==>
              outcome == Finished(s, FinalScore(scores)) && index == old(index) &&
              time == old(time) && Done())
      ensures outcome.Finished? ==> 0 <= outcome.total <= 100
      ensures old(NextEnabled()) ==> !outcome.TooEarly?
    {
      if time < ExerciseAt(index).minTime * 10 {
        return TooEarly;
      }
      isRunning := false;
      var s := ExerciseScore(index, time);
      scores := scores + [s];
      if index < ExerciseCount - 1 {
        index := index + 1;
        time := 0;
        outcome := Recorded(s);
      } else {
        FinalScoreRange(scores);
        outcome := Finished(s, FinalScore(scores));
      }
    }
  }
}
