/** The test menu: one completion flag per category, set when that test
    reports back, and a move to the motivational screen once all are set. */
module PruebasMenu {

  datatype Category = Fuerza | Velocidad | Flexibilidad | Resistencia

  /** A flag record that names every category. */
  predicate Complete(flags: map<Category, bool>)
  {
    forall c :: c in flags
  }

  /** `{ ...prev, [tipo]: true }`. */
  function Marked(flags: map<Category, bool>, tipo: Category): (r: map<Category, bool>)
    requires Complete(flags)
    ensures Complete(r) && r[tipo]
    ensures forall c :: c != tipo ==> r[c] == flags[c]
  {
    flags[tipo := true]
  }

  /** `Object.values(completadas).every(Boolean)`. */
  predicate AllDone(flags: map<Category, bool>)
    requires Complete(flags)
  {
    forall c :: flags[c]
  }

  /** Marking never clears a flag, and marking twice is marking once. */
  lemma MarkedKeepsFlags(flags: map<Category, bool>, tipo: Category)
    requires Complete(flags)
    ensures forall c :: flags[c] ==> Marked(flags, tipo)[c]
    ensures Marked(Marked(flags, tipo), tipo) == Marked(flags, tipo)
  {
  }

  /** The flags set after a sequence of marks are exactly the ones marked,
      on top of those already set. */
  function MarkAll(flags: map<Category, bool>, tipos: seq<Category>): (r: map<Category, bool>)
    requires Complete(flags)
    ensures Complete(r)
  {
    if tipos == [] then flags else MarkAll(Marked(flags, tipos[0]), tipos[1..])
  }

  lemma {:induction false} MarkAllSets(flags: map<Category, bool>, tipos: seq<Category>)
    requires Complete(flags)
    ensures forall c :: MarkAll(flags, tipos)[c] <==> flags[c] || c in tipos
  {
    if tipos != [] {
      MarkAllSets(Marked(flags, tipos[0]), tipos[1..]);
      assert forall c :: c in tipos <==> c == tipos[0] || c in tipos[1..];
    }
  }

  /** Every category occurs in `tipos`. */
  predicate Covers(tipos: seq<Category>)
  {
    forall c :: c in tipos
  }

  const NoneDone: map<Category, bool> :=
    map[Fuerza := false, Velocidad := false, Flexibilidad := false, Resistencia := false]

  /** From a fresh menu, the move happens exactly when every category has
      reported, in whatever order. */
  lemma {:induction false} AllDoneIffEveryCategory(tipos: seq<Category>)
    ensures Complete(NoneDone)
    ensures AllDone(MarkAll(NoneDone, tipos)) <==> Covers(tipos)
  {
    assert Complete(NoneDone) by {
      forall c ensures c in NoneDone {
        match c
        case Fuerza =>
        case Velocidad =>
        case Flexibilidad =>
        case Resistencia =>
      }
    }
    MarkAllSets(NoneDone, tipos);
    forall c ensures !NoneDone[c] {
      match c
      case Fuerza =>
      case Velocidad =>
      case Flexibilidad =>
      case Resistencia =>
    }
  }

  class Menu {
    var completadas: map<Category, bool>

    ghost predicate Valid()
      reads this
    {
      Complete(completadas)
    }

    /** All four flags start false. */
    constructor ()
      ensures Valid() && completadas == NoneDone
      ensures forall c :: ButtonEnabled(c)
    {
      completadas := NoneDone;
      new;
      AllDoneIffEveryCategory([]);
    }

    /** A category's button is disabled once its test is done. */
    predicate ButtonEnabled(c: Category)
      reads this
    {
      c in completadas && !completadas[c]
    }

    /** `marcarCompletada(tipo)`; the effect that follows moves on to the
        motivational screen once every flag is set. */
    method MarcarCompletada(tipo: Category) returns (toMotivational: bool)
      requires Valid()
      modifies this
      ensures Valid() && completadas == Marked(old(completadas), tipo)
      ensures toMotivational <==> AllDone(completadas)
      ensures !ButtonEnabled(tipo)
    {
      completadas := completadas[tipo := true];
      toMotivational := forall c :: completadas[c];
    }

    /** The `onFinish` handed to a test: the score it is called with is
        dropped, only completion is recorded. */
    method OnFinish(tipo: Category, score: int) returns (toMotivational: bool)
      requires Valid()
      modifies this
      ensures Valid() && completadas == Marked(old(completadas), tipo)
      ensures toMotivational <==> AllDone(completadas)
    {
      toMotivational := MarcarCompletada(tipo);
    }
  }

  /** Runs the four tests in the given order on a fresh menu; the move to
      the motivational screen fires on the last report and not before. */
  method RunInOrder(tipos: seq<Category>) returns (fired: seq<bool>)
    ensures |fired| == |tipos|
    ensures forall i :: 0 <= i < |tipos| ==> (fired[i] <==> Covers(tipos[..i + 1]))
  {
    var menu := new Menu();
    fired := [];
    var i := 0;
    while i < |tipos|
      invariant 0 <= i <= |tipos| && |fired| == i
      invariant menu.Valid() && menu.completadas == MarkAll(NoneDone, tipos[..i])
      invariant forall k :: 0 <= k < i ==> (fired[k] <==> Covers(tipos[..k + 1]))
    {
      var f := menu.OnFinish(tipos[i], 100);
      MarkAllSnoc(NoneDone, tipos[..i], tipos[i]);
      assert tipos[..i] + [tipos[i]] == tipos[..i + 1];
      AllDoneIffEveryCategory(tipos[..i + 1]);
      fired := fired + [f];
      i := i + 1;
    }
  }

  lemma {:induction false} MarkAllSnoc(flags: map<Category, bool>, tipos: seq<Category>, t: Category)
    requires Complete(flags)
    ensures MarkAll(flags, tipos + [t]) == Marked(MarkAll(flags, tipos), t)
  {
    if tipos != [] {
      assert (tipos + [t])[1..] == tipos[1..] + [t];
      MarkAllSnoc(Marked(flags, tipos[0]), tipos[1..], t);
    }
  }
}
