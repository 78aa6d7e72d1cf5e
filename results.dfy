/** The results screen: the overall score of an evaluation. */
module Results {
  import opened JsMath

  /** `promedio`: the rounded mean of the four category results. */
  function Promedio(fuerza: real, resistencia: real, flexibilidad: real, velocidad: real): (r: int)
    ensures
      (0.0 <= fuerza <= 100.0 && 0.0 <= resistencia <= 100.0 &&
       0.0 <= flexibilidad <= 100.0 && 0.0 <= velocidad <= 100.0) ==> 0 <= r <= 100
  {
    Round((fuerza + resistencia + flexibilidad + velocidad) / 4.0)
  }

  lemma PromedioExamples()
    ensures Promedio(80.0, 60.0, 70.0, 90.0) == 75
    ensures Promedio(100.0, 100.0, 100.0, 100.0) == 100
    ensures Promedio(0.0, 0.0, 0.0, 0.0) == 0
  {
  }

  /** The overall score does not depend on which category is which: any
      rearrangement of the four results gives the same score. */
  lemma PromedioOrderIndependent(s: seq<real>, t: seq<real>)
    requires |s| == 4 && multiset(s) == multiset(t)
    ensures |t| == 4
    ensures Promedio(s[0], s[1], s[2], s[3]) == Promedio(t[0], t[1], t[2], t[3])
  {
    assert |t| == |multiset(t)| == |multiset(s)| == 4;
    SumPermutation(s, t);
    SumOfFour(s);
    SumOfFour(t);
  }

  lemma SumOfFour(s: seq<real>)
    requires |s| == 4
    ensures Sum(s) == s[0] + s[1] + s[2] + s[3]
  {
    assert s[..1][..0] == [];
    assert Sum(s[..1]) == s[0];
    assert s[..2][..1] == s[..1];
    assert Sum(s[..2]) == s[0] + s[1];
    assert s[..3][..2] == s[..2];
    assert Sum(s[..3]) == s[0] + s[1] + s[2];
    assert s[..3] == s[..|s| - 1];
  }
}
