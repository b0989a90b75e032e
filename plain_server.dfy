/** server.js: the registration and login routes over the database and the
    session, and the dashboard route.  Each route is specified by a step function
    from the state before the request to the response and the state after it;
    the class `App` holds that state in fields and its methods follow the
    handler's statements. */
module PlainServer {
  import opened Js
  import opened Http
  import opened EmailKey
  import opened Backend
  import opened AccessGate
  import opened RoleValidation

  datatype Step = Step(response: Response, state: State)

  const RegisterMissing := "Email, password, and role are required"
  const Registered := "User registered successfully"
  const InUse := "Email is already in use"
  const RegisterFailed := "Error during registration"
  const LoginMissing := "Email and password are required"
  const LoginSucceeded := "Login successful"
  const NotFound := "User not found"
  const BadCredentials := "Incorrect email or password"

  /** The catch block of POST /register (server.js:91-96). */
  function RegisterCatch(s: State, e: JsError): Step
  {
    if e.code == Some(EmailInUse) then Step(Response(409, Message(InUse)), s)
    else Step(Response(500, Message(RegisterFailed)), s)
  }

  /** POST /register (server.js:75-97): the missing-field check, account creation, the
      write of `{ email, role }` below the sanitised email, and the error mapping.  Only a
      fully successful request writes, and the session is never touched. */
  function RegisterStep(s: State, body: RegisterBody, create: AuthOutcome, write: WriteOutcome): (t: Step)
    ensures t.state.session == s.session
    ensures t.response.status == 400 <==> !RegisterComplete(body)
    ensures !RegisterComplete(body) ==> t == Step(Response(400, Message(RegisterMissing)), s)
    ensures t.response.status == 409 <==> RegisterComplete(body) && EmailTaken(create, write)
    ensures t.response.status == 409 ==> t.response.body == Message(InUse)
    ensures t.response.status == 500 <==>
              RegisterComplete(body) && RegisterError(create, write).Some? && !EmailTaken(create, write)
    ensures t.response.status == 500 ==> t.response.body == Message(RegisterFailed)
    ensures t.response.status == OK <==> RegisterComplete(body) && create.AuthOk? && write.Written?
    ensures t.response.status == OK ==>
              t.response.body == Message(Registered) &&
              t.state.db == s.db[Key(body.email.value) := UserRecord(body.email.value, body.role.value)]
    ensures t.response.status != OK ==> t.state.db == s.db
  {
    if !RegisterComplete(body) then Step(Response(400, Message(RegisterMissing)), s)
    else
      match create
      case AuthFailed(e) => RegisterCatch(s, e)
      case AuthOk =>
        match write
        case WriteFailed(e) => RegisterCatch(s, e)
        case Written =>
          var email := body.email.value;
          Step(Response(OK, Message(Registered)),
               s.(db := s.db[Key(email) := UserRecord(email, body.role.value)]))
  }

  /** POST /login (server.js:100-129): the missing-field check, sign-in, the read of the
      record below the sanitised email, and the error mapping.  The database is never
      written; the session changes only when a record is found, and then holds its role. */
  function LoginStep(s: State, body: LoginBody, signIn: AuthOutcome, read: ReadOutcome): (t: Step)
    ensures t.state.db == s.db
    ensures t.response.status == 400 <==> !LoginComplete(body)
    ensures !LoginComplete(body) ==> t == Step(Response(400, Message(LoginMissing)), s)
    ensures t.response.status == 401 <==> LoginComplete(body) && (signIn.AuthFailed? || read.ReadFailed?)
    ensures t.response.status == 401 ==> t == Step(Response(401, Message(BadCredentials)), s)
    ensures t.response.status == 404 <==>
              LoginComplete(body) && signIn.AuthOk? && read.ReadOk? && Key(body.email.value) !in s.db
    ensures t.response.status == 404 ==> t == Step(Response(404, Message(NotFound)), s)
    ensures t.response.status == OK <==>
              LoginComplete(body) && signIn.AuthOk? && read.ReadOk? && Key(body.email.value) in s.db
    ensures t.response.status == OK ==>
              t.response.body == LoginOk(LoginSucceeded, s.db[Key(body.email.value)].role) &&
              t.state.session == Some(s.db[Key(body.email.value)].role)
    ensures t.response.status != OK ==> t.state.session == s.session
  {
    if !LoginComplete(body) then Step(Response(400, Message(LoginMissing)), s)
    else if signIn.AuthFailed? || read.ReadFailed? then Step(Response(401, Message(BadCredentials)), s)
    else
      var key := Key(body.email.value);
      if key in s.db then
        var role := s.db[key].role;
        Step(Response(OK, LoginOk(LoginSucceeded, role)), s.(session := Some(role)))
      else
        Step(Response(404, Message(NotFound)), s)
  }

  /** Registration keeps every record under the path of its own email. */
  lemma RegisterPreservesWellKeyed(s: State, body: RegisterBody, create: AuthOutcome, write: WriteOutcome)
    requires WellKeyed(s.db)
    ensures WellKeyed(RegisterStep(s, body, create, write).state.db)
  {}

  /** A record found at login belongs to an email with the same sanitised form as the one
      that logged in (not necessarily the same email). */
  lemma LoginRecordMatchesEmail(s: State, body: LoginBody, signIn: AuthOutcome, read: ReadOutcome)
    requires WellKeyed(s.db)
    requires LoginStep(s, body, signIn, read).response.status == OK
    ensures Sanitize(s.db[Key(body.email.value)].email) == Sanitize(body.email.value)
  {
    var email := body.email.value;
    KeyCollision(s.db[Key(email)].email, email);
  }

  /** After a successful registration, logging in with the same email, when the sign-in and
      the read succeed, finds the record: status 200, the registered role in the body and in
      the session. */
  lemma RegisterThenLogin(s: State, body: RegisterBody, create: AuthOutcome, write: WriteOutcome, password: string)
    requires RegisterStep(s, body, create, write).response.status == OK
    requires password != ""
    ensures var t := LoginStep(RegisterStep(s, body, create, write).state,
                               LoginBody(body.email, Some(password)), AuthOk, ReadOk);
            t.response == Response(OK, LoginOk(LoginSucceeded, body.role.value)) &&
            t.state.session == body.role
  {
    var email := body.email.value;
    var s1 := RegisterStep(s, body, create, write).state;
    assert Key(email) in s1.db && s1.db[Key(email)].role == body.role.value;
  }

  /** Sanitising is not injective, so a second account with a different email of the same
      sanitised form overwrites the first account's record once the identity service has
      created both accounts and both writes went through; the first account then logs in
      (sign-in and read succeeding) with the second account's role. */
  lemma CollidingEmailsShareRecord(s: State, first: RegisterBody, second: RegisterBody, password: string)
    requires RegisterComplete(first) && RegisterComplete(second)
    requires first.email != second.email
    requires Sanitize(first.email.value) == Sanitize(second.email.value)
    requires password != ""
    ensures var s1 := RegisterStep(s, first, AuthOk, Written).state;
            var s2 := RegisterStep(s1, second, AuthOk, Written).state;
            var t := LoginStep(s2, LoginBody(first.email, Some(password)), AuthOk, ReadOk);
            t.response == Response(OK, LoginOk(LoginSucceeded, second.role.value)) &&
            t.state.session == second.role
  {
    KeyCollision(first.email.value, second.email.value);
  }

  /** Two distinct emails that collide. */
  lemma CollidingEmailsExist()
    ensures "a.b@x.com" != "a_b@x.com" && Key("a.b@x.com") == Key("a_b@x.com")
  {
    SanitizeCollision("a.b@x.com", "a_b@x.com");
    KeyCollision("a.b@x.com", "a_b@x.com");
  }

  /** Registration does not call validateRole: any non-empty role is stored, and it reaches
      the session at login; the dashboard gate still denies it. */
  lemma UnvalidatedRoleIsStoredButDenied(s: State)
    ensures var reg := RegisterBody(Some("e@x.com"), Some("pw"), Some("admin"));
            var t1 := RegisterStep(s, reg, AuthOk, Written);
            var t2 := LoginStep(t1.state, LoginBody(Some("e@x.com"), Some("pw")), AuthOk, ReadOk);
            t1.response.status == OK && t1.state.db[Key("e@x.com")].role == "admin" &&
            t2.state.session == Some("admin") &&
            SendDashboard(t2.state.session) == Response(403, Text(AccessDenied))
  {
    var reg := RegisterBody(Some("e@x.com"), Some("pw"), Some("admin"));
    assert RegisterComplete(reg);
    assert !ValidateRole(Some("admin"));
  }

  /** The server's state: the database and one client's session. */
  class App {
    var db: Db
    var sessionRole: Option<string>

    ghost predicate Valid()
      reads this
    {
      WellKeyed(db)
    }

    function Snapshot(): State
      reads this
    {
      State(db, sessionRole)
    }

    constructor (initial: Db)
      requires WellKeyed(initial)
      ensures Valid() && db == initial && sessionRole == None
    {
      db := initial;
      sessionRole := None;
    }

    /** POST /register. */
    method Register(body: RegisterBody, create: AuthOutcome, write: WriteOutcome) returns (res: Response)
      requires Valid()
      modifies this
      ensures Valid()
      ensures Step(res, Snapshot()) == RegisterStep(old(Snapshot()), body, create, write)
    {
      if !Truthy(body.email) || !Truthy(body.password) || !Truthy(body.role) {
        return Response(400, Message(RegisterMissing));
      }
      var error: JsError;
      if create.AuthFailed? {
        error := create.error;
      } else if write.WriteFailed? {
        error := write.error;
      } else {
        var email := body.email.value;
        db := db[Key(email) := UserRecord(email, body.role.value)];
        return Response(OK, Message(Registered));
      }
      if error.code == Some(EmailInUse) {
        return Response(409, Message(InUse));
      }
      return Response(500, Message(RegisterFailed));
    }

    /** POST /login. */
    method Login(body: LoginBody, signIn: AuthOutcome, read: ReadOutcome) returns (res: Response)
      requires Valid()
      modifies this
      ensures Valid()
      ensures Step(res, Snapshot()) == LoginStep(old(Snapshot()), body, signIn, read)
    {
      if !Truthy(body.email) || !Truthy(body.password) {
        return Response(400, Message(LoginMissing));
      }
      if signIn.AuthFailed? || read.ReadFailed? {
        return Response(401, Message(BadCredentials));
      }
      var key := Key(body.email.value);
      if key in db {
        var userData := db[key];
        sessionRole := Some(userData.role);
        return Response(OK, LoginOk(LoginSucceeded, userData.role));
      }
      return Response(404, Message(NotFound));
    }

    /** GET /dashboard (server.js:47-57): reads the session and changes nothing. */
    method Dashboard() returns (res: Response)
      ensures res.status == OK <==> ValidateRole(sessionRole)
      ensures res == SendDashboard(sessionRole)
    {
      res := SendDashboard(sessionRole);
    }
  }
}
