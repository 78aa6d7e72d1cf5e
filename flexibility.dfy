/** The flexibility test: four stretches measured in centimetres, each
    scored 0..10 by a banded rubric, averaged and scaled to 0..100. */
module Flexibility {
  import opened JsMath
  import opened Wrappers

  /** Sit-and-reach for the hamstrings, clamped to 0..45 cm; the bands
      give 1-2, 3-4, 5-7 and 8-9 points, and 10 beyond 34 cm. */
  function HamstringScore(x: real): (r: int)
    ensures 0 <= r <= 10
    ensures x <= 0.0 ==> r == 0
    ensures 0.0 < x <= 8.0 ==> 1 <= r <= 2
    ensures 8.0 < x <= 17.0 ==> 3 <= r <= 4
    ensures 17.0 < x <= 25.0 ==> 5 <= r <= 7
    ensures 25.0 < x <= 34.0 ==> 8 <= r <= 9
    ensures 34.0 < x ==> r == 10
  {
    var v := Clamp(x, 0.0, 45.0);
    if v == 0.0 then 0
    else if v <= 8.0 then Round((v - 0.0) / 8.0 * 1.0) + 1
    else if v <= 17.0 then Round((v - 9.0) / 8.0 * 1.0) + 3
    else if v <= 25.0 then Round((v - 18.0) / 7.0 * 2.0) + 5
    else if v <= 34.0 then Round((v - 26.0) / 8.0 * 1.0) + 8
    else 10
  }

  /** Seated V reach, clamped to 0..35 cm; 10 points beyond 30 cm. */
  function VSitScore(x: real): (r: int)
    ensures 0 <= r <= 10
    ensures x <= 0.0 ==> r == 0
    ensures 0.0 < x <= 6.0 ==> 1 <= r <= 2
    ensures 6.0 < x <= 13.0 ==> 3 <= r <= 4
    ensures 13.0 < x <= 22.0 ==> 5 <= r <= 7
    ensures 22.0 < x <= 30.0 ==> 8 <= r <= 9
    ensures 30.0 < x ==> r == 10
  {
    var v := Clamp(x, 0.0, 35.0);
    if v == 0.0 then 0
    else if v <= 6.0 then Round((v - 0.0) / 6.0 * 1.0) + 1
    else if v <= 13.0 then Round((v - 7.0) / 6.0 * 1.0) + 3
    else if v <= 22.0 then Round((v - 14.0) / 8.0 * 2.0) + 5
    else if v <= 30.0 then Round((v - 23.0) / 7.0 * 1.0) + 8
    else 10
  }

  /** Lateral trunk flexion, clamped to 0..30 cm; nothing up to 4 cm and
      10 points beyond 25 cm. Just above 14 cm the third band's offset
      rounds to -1, so that band starts at 4 points, not 5. */
  function LateralScore(x: real): (r: int)
    ensures 0 <= r <= 10
    ensures x <= 4.0 ==> r == 0
    ensures 4.0 < x <= 8.0 ==> 1 <= r <= 2
    ensures 8.0 < x <= 14.0 ==> 3 <= r <= 4
    ensures 14.0 < x <= 18.0 ==> 4 <= r <= 7
    ensures 14.25 <= x <= 18.0 ==> 5 <= r <= 7
    ensures 18.0 < x <= 25.0 ==> 8 <= r <= 9
    ensures 25.0 < x ==> r == 10
  {
    var v := Clamp(x, 0.0, 30.0);
    if v <= 4.0 then 0
    else if v <= 8.0 then Round((v - 5.0) / 3.0 * 1.0) + 1
    else if v <= 14.0 then Round((v - 9.0) / 6.0 * 1.0) + 3
    else if v <= 18.0 then Round((v - 15.0) / 3.0 * 2.0) + 5
    else if v <= 25.0 then Round((v - 19.0) / 6.0 * 1.0) + 8
    else 10
  }

  /** Modified back scratch: the gap between the hands, clamped to
      0..15 cm; touching gives 10 points and 15 cm gives none. */
  function BackScratchScore(x: real): (r: int)
    ensures 0 <= r <= 10
    ensures x <= 0.0 ==> r == 10
    ensures 15.0 <= x ==> r == 0
  {
    var v := Clamp(x, 0.0, 15.0);
    Round((15.0 - v) / 15.0 * 10.0)
  }

  /** The documented points of the back-scratch rubric. */
  lemma BackScratchPoints()
    ensures BackScratchScore(0.0) == 10
    ensures BackScratchScore(7.5) == 5
    ensures BackScratchScore(15.0) == 0
  {
  }

  lemma HamstringNonDecreasing(x: real, x': real)
    requires x <= x'
    ensures HamstringScore(x) <= HamstringScore(x')
  {
    var v, v' := Clamp(x, 0.0, 45.0), Clamp(x', 0.0, 45.0);
    if 0.0 < v <= 8.0 && v' <= 8.0 {
      RoundMonotonic(v / 8.0 * 1.0, v' / 8.0 * 1.0);
    } else if 8.0 < v <= 17.0 && v' <= 17.0 {
      RoundMonotonic((v - 9.0) / 8.0 * 1.0, (v' - 9.0) / 8.0 * 1.0);
    } else if 17.0 < v <= 25.0 && v' <= 25.0 {
      RoundMonotonic((v - 18.0) / 7.0 * 2.0, (v' - 18.0) / 7.0 * 2.0);
    } else if 25.0 < v <= 34.0 && v' <= 34.0 {
      RoundMonotonic((v - 26.0) / 8.0 * 1.0, (v' - 26.0) / 8.0 * 1.0);
    }
  }

  lemma VSitNonDecreasing(x: real, x': real)
    requires x <= x'
    ensures VSitScore(x) <= VSitScore(x')
  {
    var v, v' := Clamp(x, 0.0, 35.0), Clamp(x', 0.0, 35.0);
    if 0.0 < v <= 6.0 && v' <= 6.0 {
      RoundMonotonic(v / 6.0 * 1.0, v' / 6.0 * 1.0);
    } else if 6.0 < v <= 13.0 && v' <= 13.0 {
      RoundMonotonic((v - 7.0) / 6.0 * 1.0, (v' - 7.0) / 6.0 * 1.0);
    } else if 13.0 < v <= 22.0 && v' <= 22.0 {
      RoundMonotonic((v - 14.0) / 8.0 * 2.0, (v' - 14.0) / 8.0 * 2.0);
    } else if 22.0 < v <= 30.0 && v' <= 30.0 {
      RoundMonotonic((v - 23.0) / 7.0 * 1.0, (v' - 23.0) / 7.0 * 1.0);
    }
  }

  lemma LateralNonDecreasing(x: real, x': real)
    requires x <= x'
    ensures LateralScore(x) <= LateralScore(x')
  {
    var v, v' := Clamp(x, 0.0, 30.0), Clamp(x', 0.0, 30.0);
    if 4.0 < v <= 8.0 && v' <= 8.0 {
      RoundMonotonic((v - 5.0) / 3.0 * 1.0, (v' - 5.0) / 3.0 * 1.0);
    } else if 8.0 < v <= 14.0 && v' <= 14.0 {
      RoundMonotonic((v - 9.0) / 6.0 * 1.0, (v' - 9.0) / 6.0 * 1.0);
    } else if 14.0 < v <= 18.0 && v' <= 18.0 {
      RoundMonotonic((v - 15.0) / 3.0 * 2.0, (v' - 15.0) / 3.0 * 2.0);
    } else if 18.0 < v <= 25.0 && v' <= 25.0 {
      RoundMonotonic((v - 19.0) / 6.0 * 1.0, (v' - 19.0) / 6.0 * 1.0);
    }
  }

  /** A smaller gap between the hands never scores less. */
  lemma BackScratchNonIncreasing(x: real, x': real)
    requires x <= x'
    ensures BackScratchScore(x') <= BackScratchScore(x)
  {
    var v, v' := Clamp(x, 0.0, 15.0), Clamp(x', 0.0, 15.0);
    RoundMonotonic((15.0 - v') / 15.0 * 10.0, (15.0 - v) / 15.0 * 10.0);
  }

  const StretchCount: nat := 4

  datatype Stretch = Stretch(name: string, minCm: real, maxCm: real)

  function StretchAt(i: nat): Stretch
    requires i < StretchCount
  {
    match i
    case 0 => Stretch("Estiramiento de Isquiotibiales", 0.0, 45.0)
    case 1 => Stretch("Estiramiento en “V” Sentado", 0.0, 35.0)
    case 2 => Stretch("Flexión Lateral de Tronco", 0.0, 30.0)
    case _ => Stretch("Back Scratch Modificado", 0.0, 15.0)
  }

  /** The rubric of the i-th stretch. */
  function StretchScore(i: nat, x: real): (r: int)
    requires i < StretchCount
    ensures 0 <= r <= 10
  {
    match i
    case 0 => HamstringScore(x)
    case 1 => VSitScore(x)
    case 2 => LateralScore(x)
    case _ => BackScratchScore(x)
  }

  /** The four scores averaged on 0..10 and scaled to 0..100. */
  function FinalScore(scores: seq<int>): int
  {
    Round(Total(scores) as real / StretchCount as real * 10.0)
  }

  lemma {:induction false} FinalScoreRange(scores: seq<int>)
    requires |scores| == StretchCount
    requires forall i :: 0 <= i < |scores| ==> 0 <= scores[i] <= 10
    ensures 0 <= FinalScore(scores) <= 100
  {
    TotalBounds(scores, 0, 10);
    RoundWithin(Total(scores) as real / 4.0 * 10.0, 0, 100);
  }

  datatype NextOutcome =
    | NotANumber                        // the text does not parse
    | OutOfRange                        // outside the stretch's min..max cm
    | Recorded(score: int)              // scored, moved to the next stretch
    | Finished(score: int, total: int)  // scored the last one; onFinish(total)

  class FlexibilityTest {
    var index: nat
    var enteredCm: Option<real>   // the text field, parsed; None for NaN
    var scores: seq<int>

    ghost predicate Valid()
      reads this
    {
      && index < StretchCount
      && (|scores| == index || (index == StretchCount - 1 && |scores| == StretchCount))
      && forall k :: 0 <= k < |scores| ==> 0 <= scores[k] <= 10
    }

    predicate Done()
      reads this
    {
      |scores| == StretchCount
    }

    constructor ()
      ensures Valid() && index == 0 && enteredCm == None && scores == []
    {
      index, enteredCm, scores := 0, None, [];
    }

    /** Typing into the centimetre field. */
    method Enter(cm: Option<real>)
      requires Valid()
      modifies this
      ensures Valid()
      ensures enteredCm == cm && index == old(index) && scores == old(scores)
    {
      enteredCm := cm;
    }

    /** "Next stretch" / "Finish flexibility". */
    method Next() returns (outcome: NextOutcome)
      requires Valid() && !Done()
      modifies this
      ensures Valid()
      ensures old(enteredCm).None? ==>
        outcome == NotANumber && index == old(index) && scores == old(scores) && enteredCm == old(enteredCm)
      ensures old(enteredCm).Some? &&
              !(StretchAt(old(index)).minCm <= old(enteredCm).value <= StretchAt(old(index)).maxCm) ==>
        outcome == OutOfRange && index == old(index) && scores == old(scores) && enteredCm == old(enteredCm)
      ensures old(enteredCm).Some? &&
              StretchAt(old(index)).minCm <= old(enteredCm).value <= StretchAt(old(index)).maxCm ==>
        var s := StretchScore(old(index), old(enteredCm).value);
        && scores == old(scores) + [s]
        && enteredCm == None
        && (old(index) < StretchCount - 1 ==> outcome == Recorded(s) && index == old(index) + 1)
        && (old(index) == StretchCount - 1 ==>
              outcome == Finished(s, FinalScore(scores)) && index == old(index) && Done())
      ensures outcome.Finished? ==> 0 <= outcome.total <= 100
    {
      if enteredCm.None? {
        return NotANumber;
      }
      var cm := enteredCm.value;
      var stretch := StretchAt(index);
      if cm < stretch.minCm || cm > stretch.maxCm {
        return OutOfRange;
      }
      var s := StretchScore(index, cm);
      scores := scores + [s];
      enteredCm := None;
      if index < StretchCount - 1 {
        index := index + 1;
        outcome := Recorded(s);
      } else {
        FinalScoreRange(scores);
        outcome := Finished(s, FinalScore(scores));
      }
    }
  }
}
