/** `POST /api/auth/login`. The user lookup, the password hash check and
    token signing are parameters: `lookup` stands for `User.findByUsername`,
    `checkPassword` for bcrypt's comparison, `sign` for `jwt.sign` under the
    server's secret and expiry. */
module AuthRoutes {
  import opened Common

  /** A row of `users` as the lookup returns it. */
  datatype UserRecord = UserRecord(id: nat, username: string, role: string, passwordHash: string)

  /** The outcome of the lookup: a failed query, no such user, or the row. */
  datatype Lookup = LookupFailed | NotFound | Found(record: UserRecord)

  /** The JSON the route answers with. */
  datatype LoginResponse =
    | LoggedIn(token: string, user: User)
    | LoginError(status: nat, error: string)

  const CREDENTIALS_REQUIRED: string := "Nom d'utilisateur et mot de passe requis"
  const BAD_CREDENTIALS: string := "Identifiants invalides"
  const LOGIN_FAILED: string := "Erreur serveur lors de la connexion"

  function Login(username: string, password: string,
                 lookup: string -> Lookup,
                 checkPassword: (string, string) -> bool,
                 sign: User -> string): (r: LoginResponse)
    // a missing field is refused before any lookup
    ensures (username == "" || password == "") <==> r == LoginError(400, CREDENTIALS_REQUIRED)
    // an unknown user and a wrong password are indistinguishable
    ensures r.LoginError? && r.status == 401 <==>
              username != "" && password != "" &&
              (lookup(username).NotFound? ||
               (lookup(username).Found? && !checkPassword(password, lookup(username).record.passwordHash)))
    ensures r.LoginError? && r.status == 401 ==> r.error == BAD_CREDENTIALS
    // success: the payload and the returned user are exactly id, name, role
    ensures r.LoggedIn? <==>
              username != "" && password != "" && lookup(username).Found?
              && checkPassword(password, lookup(username).record.passwordHash)
    ensures r.LoggedIn? ==>
              var u := lookup(username).record;
              r.user == User(u.id, u.username, u.role) && r.token == sign(r.user)
  {
    if username == "" || password == "" then LoginError(400, CREDENTIALS_REQUIRED)
    else
      match lookup(username)
      case LookupFailed => LoginError(500, LOGIN_FAILED)
      case NotFound => LoginError(401, BAD_CREDENTIALS)
      case Found(u) =>
        if !checkPassword(password, u.passwordHash) then LoginError(401, BAD_CREDENTIALS)
        else
          var payload := User(u.id, u.username, u.role);
          LoggedIn(sign(payload), payload)
  }

  /** The password is only checked once the user is found: when the lookup
      finds nobody, or fails, the password checker has no influence. */
  lemma PasswordCheckedOnlyWhenFound(username: string, password: string, lookup: string -> Lookup,
                                     check1: (string, string) -> bool, check2: (string, string) -> bool,
                                     sign: User -> string)
    requires !lookup(username).Found?
    ensures Login(username, password, lookup, check1, sign) == Login(username, password, lookup, check2, sign)
  {
  }
}
