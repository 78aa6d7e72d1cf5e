/** The physical-data form: BMI and its category, then one rule per field
    before moving on to the test menu. */
module PhysicalEvaluation {
  import opened Wrappers
  import opened JsMath
  import opened TextRules
  import opened Bmi

  /** The category shown under the BMI, read from the two-decimal value;
      empty while there is no positive BMI. */
  function Category(imc: Option<real>): (c: string)
    ensures c == "" <==> imc.None? || imc.value <= 0.0
    ensures imc.Some? && 0.0 < imc.value < 18.5 ==> c == "Bajo peso"
    ensures imc.Some? && 18.5 <= imc.value < 25.0 ==> c == "Peso normal"
    ensures imc.Some? && 25.0 <= imc.value < 30.0 ==> c == "Sobrepeso"
    ensures imc.Some? && 30.0 <= imc.value ==> c == "Obesidad"
  {
    if imc.None? || imc.value <= 0.0 then ""
    else if imc.value < 18.5 then "Bajo peso"
    else if imc.value < 25.0 then "Peso normal"
    else if imc.value < 30.0 then "Sobrepeso"
    else "Obesidad"
  }

  /** Position of a category on the scale, 0 for none. */
  function CategoryRank(c: string): nat
  {
    if c == "Bajo peso" then 1
    else if c == "Peso normal" then 2
    else if c == "Sobrepeso" then 3
    else if c == "Obesidad" then 4
    else 0
  }

  /** A higher positive BMI never falls into a lower category. */
  lemma CategoryMonotonic(x: real, y: real)
    requires 0.0 < x <= y
    ensures 1 <= CategoryRank(Category(Some(x))) <= CategoryRank(Category(Some(y)))
  {
  }

  /** The displayed value is what gets classified: a BMI of 18.497 shows
      18.50 and is already "Peso normal". */
  lemma CategoryOfRoundedValue()
    ensures Round2(18.497) == 18.5
    ensures Category(Some(Round2(18.497))) == "Peso normal"
  {
    assert Round2(18.497) == 18.5 by {
      assert 18.497 * 100.0 + 0.5 == 1850.2;
    }
  }

  datatype PhysForm = PhysForm(
    peso: Option<real>,          // kg; None when empty or not a number
    estatura: Option<real>,      // cm
    cintura: Option<real>,       // cm
    cadera: Option<real>,        // cm
    sexo: string,
    zonaGrasa: string,
    tipoFisico: string,
    tiempoSinEjercicio: string,
    lesiones: string,            // optional, never checked
    realizaEjercicio: string,    // "Sí" or "No" once chosen
    tipoEjercicio: string,
    metaPersonal: string)

  datatype PhysField =
    | Peso | Estatura | Sexo | Cintura | Cadera | ZonaGrasa | TipoFisico
    | TiempoSinEjercicio | RealizaEjercicio | TipoEjercicio | MetaPersonal

  /** The two-message rule of the four measurements: missing, not a number
      or not positive, else above the maximum. */
  function MeasureProblem(x: Option<real>, max: real, invalid: string, tooLarge: string): (r: Option<string>)
    ensures r.None? <==> x.Some? && 0.0 < x.value <= max
  {
    if x.None? || x.value <= 0.0 then Some(invalid)
    else if x.value > max then Some(tooLarge)
    else None
  }

  function Required(s: string, message: string): (r: Option<string>)
    ensures r.None? <==> s != ""
  {
    if s == "" then Some(message) else None
  }

  /** What each field's rule reports for a form, or None when it passes. */
  function Problem(form: PhysForm, field: PhysField): Option<string>
  {
    match field
    case Peso => MeasureProblem(form.peso, 250.0, "Peso inválido", "El peso no debe exceder 250 kg")
    case Estatura => MeasureProblem(form.estatura, 215.0, "Estatura inválida", "La estatura no debe exceder 215 cm")
    case Sexo => Required(form.sexo, "Seleccione sexo")
    case Cintura => MeasureProblem(form.cintura, 150.0, "Cintura inválida", "Circunf. cintura ≤ 150 cm")
    case Cadera => MeasureProblem(form.cadera, 200.0, "Cadera inválida", "Circunf. cadera ≤ 200 cm")
    case ZonaGrasa => Required(form.zonaGrasa, "Seleccione zona de grasa")
    case TipoFisico => Required(form.tipoFisico, "Seleccione tipo de físico")
    case TiempoSinEjercicio => Required(form.tiempoSinEjercicio, "Seleccione tiempo sin ejercicio")
    case RealizaEjercicio => Required(form.realizaEjercicio, "Seleccione si realiza ejercicio")
    case TipoEjercicio =>
      if form.realizaEjercicio == "Sí" && IsBlank(form.tipoEjercicio) then Some("Indique tipo de ejercicio") else None
    case MetaPersonal => if IsBlank(form.metaPersonal) then Some("Escriba su meta personal") else None
  }

  /** A form every rule lets through, stated field by field. */
  predicate Accepted(form: PhysForm)
  {
    && form.peso.Some? && 0.0 < form.peso.value <= 250.0
    && form.estatura.Some? && 0.0 < form.estatura.value <= 215.0
    && form.cintura.Some? && 0.0 < form.cintura.value <= 150.0
    && form.cadera.Some? && 0.0 < form.cadera.value <= 200.0
    && form.sexo != "" && form.zonaGrasa != "" && form.tipoFisico != ""
    && form.tiempoSinEjercicio != "" && form.realizaEjercicio != ""
    && (form.realizaEjercicio == "Sí" ==> !IsBlank(form.tipoEjercicio))
    && !IsBlank(form.metaPersonal)
  }

  /** No rule reports a problem exactly when the form is accepted. */
  lemma NoProblemIffAccepted(form: PhysForm)
    ensures (forall field :: Problem(form, field).None?) <==> Accepted(form)
  {
    if forall field :: Problem(form, field).None? {
      assert Problem(form, Peso).None? && Problem(form, Estatura).None?;
      assert Problem(form, Cintura).None? && Problem(form, Cadera).None?;
      assert Problem(form, Sexo).None? && Problem(form, ZonaGrasa).None?;
      assert Problem(form, TipoFisico).None? && Problem(form, TiempoSinEjercicio).None?;
      assert Problem(form, RealizaEjercicio).None? && Problem(form, TipoEjercicio).None?;
      assert Problem(form, MetaPersonal).None?;
    }
  }

  /** Any map holding exactly the failing fields is empty exactly when the
      form is accepted. */
  lemma ReportedIffRejected(form: PhysForm, errors: map<PhysField, string>)
    requires forall field :: field in errors <==> Problem(form, field).Some?
    ensures errors == map[] <==> Accepted(form)
  {
    NoProblemIffAccepted(form);
    if Accepted(form) {
      assert errors.Keys == {};
    } else {
      var field :| Problem(form, field).Some?;
      assert field in errors;
    }
  }

  /** The exercise type is asked for only from someone who exercises. */
  lemma ExerciseTypeOnlyWhenExercising(form: PhysForm)
    requires form.realizaEjercicio != "Sí"
    ensures Problem(form, TipoEjercicio).None?
  {
  }

  /** The three kinds of rule: a measurement with a range, a choice that
      must be made, a text answer that must not be blank. */
  predicate IsMeasurement(field: PhysField)
  {
    field.Peso? || field.Estatura? || field.Cintura? || field.Cadera?
  }

  predicate IsSelection(field: PhysField)
  {
    field.Sexo? || field.ZonaGrasa? || field.TipoFisico? || field.TiempoSinEjercicio? || field.RealizaEjercicio?
  }

  /** The measurement rules of `validateAndContinue`: each measurement is
      checked against its own maximum and reports one of its two messages. */
  method MeasurementErrors(form: PhysForm) returns (errors: map<PhysField, string>)
    ensures forall field :: field in errors <==> IsMeasurement(field) && Problem(form, field).Some?
    ensures forall field :: field in errors ==> errors[field] == Problem(form, field).value
  {
    errors := map[];
    var peso := MeasureProblem(form.peso, 250.0, "Peso inválido", "El peso no debe exceder 250 kg");
    if peso.Some? { errors := errors[Peso := peso.value]; }
    var estatura := MeasureProblem(form.estatura, 215.0, "Estatura inválida", "La estatura no debe exceder 215 cm");
    if estatura.Some? { errors := errors[Estatura := estatura.value]; }
    var cintura := MeasureProblem(form.cintura, 150.0, "Cintura inválida", "Circunf. cintura ≤ 150 cm");
    if cintura.Some? { errors := errors[Cintura := cintura.value]; }
    var cadera := MeasureProblem(form.cadera, 200.0, "Cadera inválida", "Circunf. cadera ≤ 200 cm");
    if cadera.Some? { errors := errors[Cadera := cadera.value]; }
  }

  /** The choices that must be made, checked for the empty selection. */
  method SelectionErrors(form: PhysForm) returns (errors: map<PhysField, string>)
    ensures forall field :: field in errors <==> IsSelection(field) && Problem(form, field).Some?
    ensures forall field :: field in errors ==> errors[field] == Problem(form, field).value
  {
    errors := map[];
    if form.sexo == "" { errors := errors[Sexo := "Seleccione sexo"]; }
    if form.zonaGrasa == "" { errors := errors[ZonaGrasa := "Seleccione zona de grasa"]; }
    if form.tipoFisico == "" { errors := errors[TipoFisico := "Seleccione tipo de físico"]; }
    if form.tiempoSinEjercicio == "" { errors := errors[TiempoSinEjercicio := "Seleccione tiempo sin ejercicio"]; }
    if form.realizaEjercicio == "" { errors := errors[RealizaEjercicio := "Seleccione si realiza ejercicio"]; }
  }

  /** The two text answers, checked after trimming; the exercise type only
      from someone who exercises. */
  method AnswerErrors(form: PhysForm) returns (errors: map<PhysField, string>)
    ensures forall field :: field in errors <==>
      (field.TipoEjercicio? || field.MetaPersonal?) && Problem(form, field).Some?
    ensures forall field :: field in errors ==> errors[field] == Problem(form, field).value
  {
    errors := map[];
    if form.realizaEjercicio == "Sí" && IsBlank(form.tipoEjercicio) {
      errors := errors[TipoEjercicio := "Indique tipo de ejercicio"];
    }
    if IsBlank(form.metaPersonal) {
      errors := errors[MetaPersonal := "Escriba su meta personal"];
    }
  }

  /** `validateAndContinue`: every rule reports into one error map, and the
      screen moves on, carrying the BMI, only when that map stays empty. */
  method ValidateAndContinue(form: PhysForm) returns (errors: map<PhysField, string>, next: Option<real>)
    ensures forall field :: field in errors <==> Problem(form, field).Some?
    ensures forall field :: field in errors ==> errors[field] == Problem(form, field).value
    ensures next.Some? <==> errors == map[]
    ensures errors == map[] <==> Accepted(form)
    ensures next.Some? ==> next == Compute(form.peso, form.estatura)
  {
    var measurements := MeasurementErrors(form);
    var selections := SelectionErrors(form);
    var answers := AnswerErrors(form);
    errors := measurements + selections + answers;
    ReportedIffRejected(form, errors);
    if errors == map[] {
      next := Compute(form.peso, form.estatura);
    } else {
      next := None;
    }
  }

  /** An accepted form always carries a BMI. */
  lemma AcceptedHasBmi(form: PhysForm)
    requires Accepted(form)
    ensures Compute(form.peso, form.estatura).Some?
  {
  }

  /** Only the raw formula is bounded away from zero: a valid 0.01 kg at
      215 cm shows a BMI of 0.00, which has no category. */
  lemma TinyWeightHasNoCategory()
    ensures Accepted(PhysForm(Some(0.01), Some(215.0), Some(80.0), Some(90.0),
                              "Otro", "Abdomen", "No sabe", "1-3 meses", "", "No", "", "Correr"))
    ensures Compute(Some(0.01), Some(215.0)) == Some(0.0)
    ensures Category(Compute(Some(0.01), Some(215.0))) == ""
  {
    assert !IsBlank("Correr") by {
      assert !IsSpace("Correr"[0]);
    }
    assert Exact(0.01, 215.0) == 0.01 / 4.6225;
    assert Round(0.01 / 4.6225 * 100.0) == 0;
  }
}
