/** The registration form: field rules, then a new account in the store. */
module Register {
  import opened TextRules
  import opened Users

  datatype RegisterForm = RegisterForm(
    apellidoPaterno: string,
    apellidoMaterno: string,
    nombre: string,
    correo: string,
    matricula: string,
    password: string,
    confirmPassword: string)

  datatype RegField =
    ApellidoPaterno | ApellidoMaterno | Nombre | Correo | Matricula | Password | ConfirmPassword

  function Message(field: RegField): string
  {
    match field
    case ApellidoPaterno => "Campo requerido"
    case ApellidoMaterno => "Campo requerido"
    case Nombre => "Campo requerido"
    case Correo => "Correo inválido"
    case Matricula => "Matrícula inválida"
    case Password => "Mínimo 6 caracteres y máximo 15"
    case ConfirmPassword => "No coincide"
  }

  /** The rule each field must meet. */
  predicate FieldOk(form: RegisterForm, field: RegField)
  {
    match field
    case ApellidoPaterno => !IsBlank(form.apellidoPaterno)
    case ApellidoMaterno => !IsBlank(form.apellidoMaterno)
    case Nombre => !IsBlank(form.nombre)
    case Correo => IsEmail(form.correo)
    case Matricula => IsMatricula(form.matricula)
    case Password => 6 <= |form.password| <= 15
    case ConfirmPassword => form.password == form.confirmPassword
  }

  predicate Accepted(form: RegisterForm)
  {
    && FieldOk(form, ApellidoPaterno) && FieldOk(form, ApellidoMaterno) && FieldOk(form, Nombre)
    && FieldOk(form, Correo) && FieldOk(form, Matricula) && FieldOk(form, Password)
    && FieldOk(form, ConfirmPassword)
  }

  /** The account registration creates: the fields as typed, with career,
      semester and sex left empty. */
  function NewUser(form: RegisterForm): (u: User)
    ensures u.matricula == form.matricula && u.password == form.password
    ensures u.correo == form.correo && u.nombre == form.nombre
    ensures u.apellidoPaterno == form.apellidoPaterno && u.apellidoMaterno == form.apellidoMaterno
    ensures u.carrera == "" && u.semestre == "" && u.sexo == ""
  {
    User(form.nombre, form.apellidoPaterno, form.apellidoMaterno, form.correo,
         form.matricula, "", "", "", form.password)
  }

  predicate IsName(field: RegField)
  {
    field.ApellidoPaterno? || field.ApellidoMaterno? || field.Nombre?
  }

  /** The three name rules: required after trimming. */
  method NameErrors(form: RegisterForm) returns (errors: map<RegField, string>)
    ensures forall field :: field in errors <==> IsName(field) && !FieldOk(form, field)
    ensures forall field :: field in errors ==> errors[field] == Message(field)
  {
    errors := map[];
    if IsBlank(form.apellidoPaterno) { errors := errors[ApellidoPaterno := Message(ApellidoPaterno)]; }
    if IsBlank(form.apellidoMaterno) { errors := errors[ApellidoMaterno := Message(ApellidoMaterno)]; }
    if IsBlank(form.nombre) { errors := errors[Nombre := Message(Nombre)]; }
  }

  /** The account rules: address, ID, password length and confirmation. */
  method AccountErrors(form: RegisterForm) returns (errors: map<RegField, string>)
    ensures forall field :: field in errors <==> !IsName(field) && !FieldOk(form, field)
    ensures forall field :: field in errors ==> errors[field] == Message(field)
  {
    errors := map[];
    if !IsEmail(form.correo) { errors := errors[Correo := Message(Correo)]; }
    if !IsMatricula(form.matricula) { errors := errors[Matricula := Message(Matricula)]; }
    if !(6 <= |form.password| <= 15) { errors := errors[Password := Message(Password)]; }
    if form.password != form.confirmPassword { errors := errors[ConfirmPassword := Message(ConfirmPassword)]; }
  }

  /** The error map of `validateAndRegister`: a field has an entry exactly
      when its rule fails, and the entry is that rule's message. */
  method Validate(form: RegisterForm) returns (errors: map<RegField, string>)
    ensures forall field :: field in errors <==> !FieldOk(form, field)
    ensures forall field :: field in errors ==> errors[field] == Message(field)
    ensures errors == map[] <==> Accepted(form)
  {
    var names := NameErrors(form);
    var account := AccountErrors(form);
    errors := names + account;
    if Accepted(form) {
      assert errors.Keys == {};
    } else {
      assert !FieldOk(form, ApellidoPaterno) || !FieldOk(form, ApellidoMaterno) || !FieldOk(form, Nombre)
        || !FieldOk(form, Correo) || !FieldOk(form, Matricula) || !FieldOk(form, Password)
        || !FieldOk(form, ConfirmPassword);
    }
  }

  /** `validateAndRegister`: an account is added only when no rule fails. */
  method ValidateAndRegister(service: UserService, form: RegisterForm) returns (errors: map<RegField, string>)
    modifies service
    ensures errors == map[] <==> Accepted(form)
    ensures errors == map[] ==> service.users == old(service.users) + [NewUser(form)]
    ensures errors != map[] ==> service.users == old(service.users)
    ensures errors == map[] ==> service.ValidateCredentials(form.matricula, form.password)
  {
    errors := Validate(form);
    if errors == map[] {
      service.AddUser(NewUser(form));
    }
  }

  /** What an accepted form guarantees about the new account: a ten-character
      ID that upper-cases to `ZS` and eight digits, a 6..15-character password
      equal to its confirmation, an address with a single `@`, and names that
      are not blank. */
  lemma AcceptedAccount(form: RegisterForm)
    requires Accepted(form)
    ensures |NewUser(form).matricula| == 10 && Upper(NewUser(form).matricula)[..2] == "ZS"
    ensures 6 <= |NewUser(form).password| <= 15 && form.confirmPassword == NewUser(form).password
    ensures forall i, j :: 0 <= i < j < |form.correo| ==> !(form.correo[i] == '@' && form.correo[j] == '@')
    ensures !IsBlank(NewUser(form).nombre) && !IsBlank(NewUser(form).apellidoPaterno)
  {
    assert FieldOk(form, Matricula) && FieldOk(form, Password) && FieldOk(form, ConfirmPassword);
    assert FieldOk(form, Correo) && FieldOk(form, Nombre) && FieldOk(form, ApellidoPaterno);
    MatriculaUpToCase(form.matricula, form.matricula);
    forall i, j | 0 <= i < j < |form.correo|
      ensures !(form.correo[i] == '@' && form.correo[j] == '@')
    {
      if form.correo[i] == '@' && form.correo[j] == '@' {
        EmailHasOneAt(form.correo, i, j);
      }
    }
  }
}
