/** The in-memory user store: a list of users, seeded with one account,
    appended to on registration and searched by student ID ignoring case. */
module Users {
  import opened Wrappers
  import opened TextRules

  datatype User = User(
    nombre: string,
    apellidoPaterno: string,
    apellidoMaterno: string,
    correo: string,
    matricula: string,
    carrera: string,
    semestre: string,
    sexo: string,
    password: string)

  /** The account the store starts with. */
  function SeedUser(): User
  {
    User("Jeshua", "Hernandez", "Benitez", "jeshua@example.com", "ZS24000001",
         "Ingeniería de Software", "8", "Masculino", "abc123456")
  }

  predicate CredentialsMatch(u: User, matricula: string, password: string)
  {
    SameIgnoringCase(u.matricula, matricula) && u.password == password
  }

  /** `users.some(...)`: some user has this student ID, ignoring case, and
      exactly this password. */
  function AnyMatch(users: seq<User>, matricula: string, password: string): (b: bool)
    ensures b <==> exists i :: 0 <= i < |users| && CredentialsMatch(users[i], matricula, password)
  {
    if users == [] then false
    else if CredentialsMatch(users[0], matricula, password) then true
    else
      var b := AnyMatch(users[1..], matricula, password);
      assert b ==> exists i :: 0 <= i < |users| && CredentialsMatch(users[i], matricula, password) by {
        if b {
          var j :| 0 <= j < |users[1..]| && CredentialsMatch(users[1..][j], matricula, password);
          assert users[j + 1] == users[1..][j];
        }
      }
      b
  }

  /** `users.find(...)`: the position of the first user with this student
      ID ignoring case, or None when there is none. */
  function FirstById(users: seq<User>, matricula: string): (r: Option<nat>)
    ensures r.None? <==> forall i :: 0 <= i < |users| ==> !SameIgnoringCase(users[i].matricula, matricula)
    ensures r.Some? ==>
      && r.value < |users|
      && SameIgnoringCase(users[r.value].matricula, matricula)
      && forall i :: 0 <= i < r.value ==> !SameIgnoringCase(users[i].matricula, matricula)
  {
    if users == [] then None
    else if SameIgnoringCase(users[0].matricula, matricula) then Some(0)
    else
      match FirstById(users[1..], matricula)
      case None =>
        assert forall i :: 1 <= i < |users| ==> users[i] == users[1..][i - 1];
        None
      case Some(k) =>
        assert forall i :: 1 <= i <= k + 1 ==> users[i] == users[1..][i - 1];
        Some(k + 1)
  }

  /** Adding a user behind an existing one with the same student ID does
      not change which user a lookup finds. */
  lemma {:induction false} FirstByIdStable(users: seq<User>, u: User, matricula: string)
    requires FirstById(users, matricula).Some?
    ensures FirstById(users + [u], matricula) == FirstById(users, matricula)
  {
    if !SameIgnoringCase(users[0].matricula, matricula) {
      assert (users + [u])[1..] == users[1..] + [u];
      FirstByIdStable(users[1..], u, matricula);
    }
  }

  class UserService {
    var users: seq<User>

    /** The store starts with the seed account only. */
    constructor ()
      ensures users == [SeedUser()]
    {
      users := [SeedUser()];
    }

    /** `addUser`: appended at the end, with no duplicate check. */
    method AddUser(user: User)
      modifies this
      ensures users == old(users) + [user]
      ensures ValidateCredentials(user.matricula, user.password)
      ensures old(GetUserByMatricula(user.matricula)).Some? ==>
        GetUserByMatricula(user.matricula) == old(GetUserByMatricula(user.matricula))
    {
      ghost var before := users;
      users := users + [user];
      assert users[|users| - 1] == user;
      SameIgnoringCaseIff(user.matricula, user.matricula);
      if FirstById(before, user.matricula).Some? {
        FirstByIdStable(before, user, user.matricula);
      }
    }

    /** `validateCredentials`. */
    function ValidateCredentials(matricula: string, password: string): (b: bool)
      reads this
      ensures b <==> exists i :: 0 <= i < |users| && CredentialsMatch(users[i], matricula, password)
    {
      AnyMatch(users, matricula, password)
    }

    /** `getUserByMatricula`: the first user whose student ID matches
        ignoring case, or undefined. */
    function GetUserByMatricula(matricula: string): (r: Option<User>)
      reads this
      ensures r.None? <==> forall i :: 0 <= i < |users| ==> !SameIgnoringCase(users[i].matricula, matricula)
      ensures r.Some? ==>
        && SameIgnoringCase(r.value.matricula, matricula)
        && exists i :: 0 <= i < |users| && users[i] == r.value &&
             forall j :: 0 <= j < i ==> !SameIgnoringCase(users[j].matricula, matricula)
    {
      match FirstById(users, matricula)
      case None => None
      case Some(i) => Some(users[i])
    }
  }

  /** A fresh store knows the seed account, under its ID in any case. */
  method SeedAccountLogsIn() returns (ok: bool, lower: bool)
    ensures ok && lower
  {
    var service := new UserService();
    ok := service.ValidateCredentials("ZS24000001", "abc123456");
    lower := service.ValidateCredentials("zs24000001", "abc123456");
    assert SameIgnoringCase(service.users[0].matricula, "zs24000001") by {
      SameIgnoringCaseIff(service.users[0].matricula, "zs24000001");
    }
    assert SameIgnoringCase(service.users[0].matricula, "ZS24000001");
  }
}
