/** What the route handlers see of the hosted auth service and database: the
    stored user records, the session, and the outcome of each remote call.  The
    remote calls themselves are not modelled; each handler receives the outcome
    of its calls as a parameter. */
module Backend {
  import opened Js
  import opened EmailKey

  /** The record `{ email, role }` written below `users/<sanitised email>`. */
  datatype UserRecord = UserRecord(email: string, role: string)

  /** The part of the database the routes touch: path to record. */
  type Db = map<string, UserRecord>

  /** The database together with the requesting client's session role. */
  datatype State = State(db: Db, session: Option<string>)

  /** Outcome of `createUserWithEmailAndPassword` or `signInWithEmailAndPassword`. */
  datatype AuthOutcome = AuthOk | AuthFailed(error: JsError)

  /** Outcome of `set(ref, value)`. */
  datatype WriteOutcome = Written | WriteFailed(error: JsError)

  /** Outcome of `get(ref)`: either the read goes through (and sees the database) or it throws. */
  datatype ReadOutcome = ReadOk | ReadFailed(error: JsError)

  /** The code the identity provider uses for a taken email. */
  const EmailInUse := "auth/email-already-in-use"

  /** The registration body `{ email, password, role }` and the login body `{ email, password }`. */
  datatype RegisterBody = RegisterBody(email: Option<string>, password: Option<string>, role: Option<string>)
  datatype LoginBody = LoginBody(email: Option<string>, password: Option<string>)

  predicate RegisterComplete(b: RegisterBody)
  {
    Truthy(b.email) && Truthy(b.password) && Truthy(b.role)
  }

  predicate LoginComplete(b: LoginBody)
  {
    Truthy(b.email) && Truthy(b.password)
  }

  /** The error a failed registration throws: the one from account creation if that failed,
      otherwise the one from the database write. */
  function RegisterError(create: AuthOutcome, write: WriteOutcome): Option<JsError>
  {
    if create.AuthFailed? then Some(create.error)
    else if write.WriteFailed? then Some(write.error)
    else None
  }

  /** The catch block's test `error.code === 'auth/email-already-in-use'`. */
  predicate EmailTaken(create: AuthOutcome, write: WriteOutcome)
  {
    var e := RegisterError(create, write);
    e.Some? && e.value.code == Some(EmailInUse)
  }

  /** Every record is stored under the path of its own email and carries the non-empty
      email and role that registration demands. */
  ghost predicate WellKeyed(db: Db)
  {
    forall k :: k in db ==> k == Key(db[k].email) && db[k].email != "" && db[k].role != ""
  }
}
