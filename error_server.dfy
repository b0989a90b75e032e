/** sevrerwerror.js: the same routes as server.js, but every failure is handed to
    `next` and answered by one centralised error handler, and the async routes are
    wrapped so that a rejected promise reaches that handler too. */
module ErrorServer {
  import opened Js
  import opened Http
  import opened EmailKey
  import opened Backend
  import opened AccessGate
  import opened RoleValidation
  import PlainServer

  /** What a route does with a request: answer it, or call `next(error)`. */
  datatype Outcome = Respond(response: Response) | Next(error: JsError)

  const InternalError := "Internal Server Error"

  /** The centralised error handler (sevrerwerror.js:138-143): `err.status || 500` and
      `err.message || 'Internal Server Error'`, sent as `{ error: message }`.  A truthy
      status or message is kept; the handler never answers with status 0 or an empty message. */
  function HandleError(err: JsError): (r: Response)
    ensures r.body.ErrorEnvelope? && r.body.error != "" && r.status != 0
    ensures r.status == (if IntTruthy(err.status) then err.status.value else 500)
    ensures r.body.error == (if Truthy(err.message) then err.message.value else InternalError)
  {
    var status := if IntTruthy(err.status) then err.status.value else 500;
    var message := if Truthy(err.message) then err.message.value else InternalError;
    Response(status, ErrorEnvelope(message))
  }

  /** How Express finishes a request: the route's own response, or the error handler's. */
  function Dispatch(o: Outcome): (r: Response)
    ensures o.Respond? ==> r == o.response
    ensures o.Next? ==> r == HandleError(o.error)
  {
    match o
    case Respond(r) => r
    case Next(e) => HandleError(e)
  }

  /** How the promise returned by an async route settles. */
  datatype Settlement = Fulfilled(outcome: Outcome) | Rejected(reason: JsError)

  /** asyncHandler (sevrerwerror.js:48-52): `.catch(next)` turns a rejection into `next(reason)`. */
  function AsyncHandler(p: Settlement): (o: Outcome)
    ensures p.Rejected? ==> o == Next(p.reason)
    ensures p.Fulfilled? ==> o == p.outcome
  {
    match p
    case Fulfilled(o) => o
    case Rejected(e) => Next(e)
  }

  /** A rejected route promise is answered by the centralised handler. */
  lemma RejectionReachesHandler(e: JsError)
    ensures Dispatch(AsyncHandler(Rejected(e))) == HandleError(e)
    ensures Dispatch(AsyncHandler(Rejected(e))).body.ErrorEnvelope?
  {}

  datatype Routed = Routed(outcome: Outcome, state: State)

  /** GET /dashboard (sevrerwerror.js:55-65): a denial becomes `next({ status: 403, ... })`,
      so the client gets 403 with `{ error: 'Access denied' }`. */
  function DashboardOutcome(role: Option<string>): (o: Outcome)
    ensures o.Next? <==> !ValidateRole(role)
    ensures role == Some(TenantRole) ==> o == Respond(Response(OK, File(TenantDashboard)))
    ensures role == Some(LandlordRole) ==> o == Respond(Response(OK, File(LandlordDashboard)))
    ensures !ValidateRole(role) ==> Dispatch(o) == Response(403, ErrorEnvelope(AccessDenied))
  {
    var g := Gate(role);
    if g == Denied then Next(StatusError(403, AccessDenied)) else Respond(Response(OK, File(PageOf(g))))
  }

  /** POST /register (sevrerwerror.js:83-104).  A missing field and a taken email are
      answered with 400 and 409 through the handler; any other failure is passed on as it
      was thrown, so its own truthy status (else 500) and message decide the response. */
  function RegisterRoute(s: State, body: RegisterBody, create: AuthOutcome, write: WriteOutcome): (t: Routed)
    ensures t.state.session == s.session
    ensures !RegisterComplete(body) ==> t.outcome == Next(StatusError(400, PlainServer.RegisterMissing))
    ensures RegisterComplete(body) && EmailTaken(create, write) ==>
              t.outcome == Next(StatusError(409, PlainServer.InUse))
    ensures RegisterComplete(body) && RegisterError(create, write).Some? && !EmailTaken(create, write) ==>
              t.outcome == Next(RegisterError(create, write).value)
    ensures t.outcome.Respond? <==> RegisterComplete(body) && create.AuthOk? && write.Written?
    ensures t.outcome.Respond? ==>
              t.outcome.response == Response(OK, Message(PlainServer.Registered)) &&
              t.state.db == s.db[Key(body.email.value) := UserRecord(body.email.value, body.role.value)]
    ensures t.outcome.Next? ==> t.state.db == s.db
  {
    if !RegisterComplete(body) then Routed(Next(StatusError(400, PlainServer.RegisterMissing)), s)
    else
      match create
      case AuthFailed(e) => RegisterCatch(s, e)
      case AuthOk =>
        match write
        case WriteFailed(e) => RegisterCatch(s, e)
        case Written =>
          var email := body.email.value;
          Routed(Respond(Response(OK, Message(PlainServer.Registered))),
                 s.(db := s.db[Key(email) := UserRecord(email, body.role.value)]))
  }

  /** The catch block of POST /register (sevrerwerror.js:98-103). */
  function RegisterCatch(s: State, e: JsError): Routed
  {
    if e.code == Some(EmailInUse) then Routed(Next(StatusError(409, PlainServer.InUse)), s)
    else Routed(Next(e), s)
  }

  /** POST /login (sevrerwerror.js:107-135): every failure goes through `next` with its
      fixed status and message; the session is set only on the 200 path. */
  function LoginRoute(s: State, body: LoginBody, signIn: AuthOutcome, read: ReadOutcome): (t: Routed)
    ensures t.state.db == s.db
    ensures !LoginComplete(body) ==> t.outcome == Next(StatusError(400, PlainServer.LoginMissing))
    ensures LoginComplete(body) && (signIn.AuthFailed? || read.ReadFailed?) ==>
              t.outcome == Next(StatusError(401, PlainServer.BadCredentials))
    ensures LoginComplete(body) && signIn.AuthOk? && read.ReadOk? && Key(body.email.value) !in s.db ==>
              t.outcome == Next(StatusError(404, PlainServer.NotFound))
    ensures t.outcome.Respond? <==>
              LoginComplete(body) && signIn.AuthOk? && read.ReadOk? && Key(body.email.value) in s.db
    ensures t.outcome.Respond? ==>
              t.outcome.response == Response(OK, LoginOk(PlainServer.LoginSucceeded, s.db[Key(body.email.value)].role)) &&
              t.state.session == Some(s.db[Key(body.email.value)].role)
    ensures t.outcome.Next? ==> t.state.session == s.session
  {
    if !LoginComplete(body) then Routed(Next(StatusError(400, PlainServer.LoginMissing)), s)
    else if signIn.AuthFailed? || read.ReadFailed? then Routed(Next(StatusError(401, PlainServer.BadCredentials)), s)
    else
      var key := Key(body.email.value);
      if key in s.db then
        var role := s.db[key].role;
        Routed(Respond(Response(OK, LoginOk(PlainServer.LoginSucceeded, role))), s.(session := Some(role)))
      else
        Routed(Next(StatusError(404, PlainServer.NotFound)), s)
  }

  /** A registration failure other than a taken email that carries its own truthy status. */
  predicate ForwardsOwnStatus(body: RegisterBody, create: AuthOutcome, write: WriteOutcome)
  {
    RegisterComplete(body) && RegisterError(create, write).Some? && !EmailTaken(create, write)
    && IntTruthy(RegisterError(create, write).value.status)
  }

  /** Registration against server.js: the same state change always, and the same status
      except for a forwarded error with its own status, which then decides the status. */
  lemma RegisterAgreesWithPlain(s: State, body: RegisterBody, create: AuthOutcome, write: WriteOutcome)
    ensures var p := PlainServer.RegisterStep(s, body, create, write);
            var e := RegisterRoute(s, body, create, write);
            e.state == p.state &&
            (!ForwardsOwnStatus(body, create, write) ==> Dispatch(e.outcome).status == p.response.status) &&
            (ForwardsOwnStatus(body, create, write) ==>
               Dispatch(e.outcome).status == RegisterError(create, write).value.status.value)
  {}

  /** Login against server.js: the same state change, the same status, and each failure's
      message moves from `{ message }` to `{ error }`. */
  lemma LoginAgreesWithPlain(s: State, body: LoginBody, signIn: AuthOutcome, read: ReadOutcome)
    ensures var p := PlainServer.LoginStep(s, body, signIn, read);
            var e := LoginRoute(s, body, signIn, read);
            e.state == p.state && Dispatch(e.outcome).status == p.response.status &&
            (p.response.body.Message? ==> Dispatch(e.outcome).body == ErrorEnvelope(p.response.body.message)) &&
            (p.response.status == OK ==> Dispatch(e.outcome) == p.response)
  {}

  /** The dashboard against server.js: the same status and, when granted, the same page. */
  lemma DashboardAgreesWithPlain(role: Option<string>)
    ensures Dispatch(DashboardOutcome(role)).status == SendDashboard(role).status
    ensures SendDashboard(role).status == OK ==> Dispatch(DashboardOutcome(role)) == SendDashboard(role)
  {}

  /** The role guard's rejection, once it reaches the handler, is 400 with its fixed message. */
  lemma RoleGuardThroughHandler(role: Option<string>)
    requires !ValidateRole(role)
    ensures RoleGuard(role).Reject? && HandleError(RoleGuard(role).error) == Response(400, ErrorEnvelope(RoleMessage))
  {}

  /** The server's state: the database and one client's session. */
  class App {
    var db: Db
    var sessionRole: Option<string>

    ghost predicate Valid()
      reads this
    {
      WellKeyed(db)
    }

    function Snapshot(): State
      reads this
    {
      State(db, sessionRole)
    }

    constructor (initial: Db)
      requires WellKeyed(initial)
      ensures Valid() && db == initial && sessionRole == None
    {
      db := initial;
      sessionRole := None;
    }

    /** POST /register, answered by the route or, through `next`, by the error handler.  The
        route catches every error it awaits, so its promise always settles fulfilled. */
    method Register(body: RegisterBody, create: AuthOutcome, write: WriteOutcome) returns (res: Response)
      requires Valid()
      modifies this
      ensures Valid()
      ensures var t := RegisterRoute(old(Snapshot()), body, create, write);
              res == Dispatch(AsyncHandler(Fulfilled(t.outcome))) && Snapshot() == t.state
    {
      var o: Outcome;
      if !Truthy(body.email) || !Truthy(body.password) || !Truthy(body.role) {
        o := Next(StatusError(400, PlainServer.RegisterMissing));
      } else if create.AuthFailed? || write.WriteFailed? {
        var error := if create.AuthFailed? then create.error else write.error;
        if error.code == Some(EmailInUse) {
          o := Next(StatusError(409, PlainServer.InUse));
        } else {
          o := Next(error);
        }
      } else {
        var email := body.email.value;
        db := db[Key(email) := UserRecord(email, body.role.value)];
        o := Respond(Response(OK, Message(PlainServer.Registered)));
      }
      res := Dispatch(AsyncHandler(Fulfilled(o)));
    }

    /** POST /login, answered by the route or, through `next`, by the error handler. */
    method Login(body: LoginBody, signIn: AuthOutcome, read: ReadOutcome) returns (res: Response)
      requires Valid()
      modifies this
      ensures Valid()
      ensures var t := LoginRoute(old(Snapshot()), body, signIn, read);
              res == Dispatch(AsyncHandler(Fulfilled(t.outcome))) && Snapshot() == t.state
    {
      var o: Outcome;
      if !Truthy(body.email) || !Truthy(body.password) {
        o := Next(StatusError(400, PlainServer.LoginMissing));
      } else if signIn.AuthFailed? || read.ReadFailed? {
        o := Next(StatusError(401, PlainServer.BadCredentials));
      } else {
        var key := Key(body.email.value);
        if key in db {
          var userData := db[key];
          sessionRole := Some(userData.role);
          o := Respond(Response(OK, LoginOk(PlainServer.LoginSucceeded, userData.role)));
        } else {
          o := Next(StatusError(404, PlainServer.NotFound));
        }
      }
      res := Dispatch(AsyncHandler(Fulfilled(o)));
    }

    /** GET /dashboard: reads the session and changes nothing. */
    method Dashboard() returns (res: Response)
      ensures res.status == OK <==> ValidateRole(sessionRole)
      ensures res == Dispatch(DashboardOutcome(sessionRole))
    {
      res := Dispatch(DashboardOutcome(sessionRole));
    }
  }
}
