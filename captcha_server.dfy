/** serverWreCAPTCHA.js: the `/verify-recaptcha` route.  The call to the
    verification service is not modelled; the route receives what that call
    produced.  Its `/dashboard` route is the one of server.js,
    `AccessGate.SendDashboard`. */
module CaptchaServer {
  import opened Js
  import opened Http

  /** What `fetch(...)` followed by `response.json()` produced: a reply whose `success`
      field is truthy or not, or an exception. */
  datatype Verification = Answered(success: bool) | Threw(error: JsError)

  const NoToken := "No reCAPTCHA token provided."
  const Verified := "reCAPTCHA verified successfully."
  const NotVerified := "reCAPTCHA verification failed."
  const VerifyError := "Error verifying reCAPTCHA."

  /** POST /verify-recaptcha (serverWreCAPTCHA.js:73-91).  Without a token the verifier is
      never asked; otherwise its answer decides between 200, 400 and 500, and the body's
      `success` field is true exactly on the 200 path. */
  function VerifyRecaptcha(token: Option<string>, verifier: Verification): (r: Response)
    ensures r.body.Captcha? && (r.body.success <==> r.status == OK)
    ensures r.status in {OK, 400, 500}
    ensures !Truthy(token) ==> r == Response(400, Captcha(false, NoToken, None))
    ensures Truthy(token) && verifier == Answered(true) ==> r == Response(OK, Captcha(true, Verified, None))
    ensures Truthy(token) && verifier == Answered(false) ==> r == Response(400, Captcha(false, NotVerified, None))
    ensures Truthy(token) && verifier.Threw? ==>
              r == Response(500, Captcha(false, VerifyError, Some(verifier.error)))
  {
    if !Truthy(token) then Response(400, Captcha(false, NoToken, None))
    else
      match verifier
      case Answered(success) =>
        if success then Response(OK, Captcha(true, Verified, None))
        else Response(400, Captcha(false, NotVerified, None))
      case Threw(e) => Response(500, Captcha(false, VerifyError, Some(e)))
  }

  /** A missing or empty token is answered without consulting the verifier. */
  lemma MissingTokenIgnoresVerifier(token: Option<string>, v1: Verification, v2: Verification)
    requires !Truthy(token)
    ensures VerifyRecaptcha(token, v1) == VerifyRecaptcha(token, v2)
  {}

  /** Only a verifier that answered with a truthy `success` yields status 200. */
  lemma SuccessOnlyWhenVerified(token: Option<string>, verifier: Verification)
    ensures VerifyRecaptcha(token, verifier).status == OK <==> Truthy(token) && verifier == Answered(true)
  {}
}
