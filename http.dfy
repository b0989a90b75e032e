/** The HTTP responses the routes produce: a status code and one of the body
    shapes written by `res.sendFile`, `res.send` and `res.json`. */
module Http {
  import opened Js

  /** The static files that `res.sendFile` serves from the dashboard route. */
  datatype Page = TenantDashboard | LandlordDashboard

  datatype Body =
    | File(page: Page)                                  // res.sendFile(...)
    | Text(text: string)                                // res.send('...')
    | Message(message: string)                          // res.json({ message })
    | LoginOk(message: string, role: string)            // res.json({ message, role })
    | ErrorEnvelope(error: string)                      // res.json({ error })
    | Captcha(success: bool, message: string, detail: Option<JsError>)  // res.json({ success, message[, error] })

  /** A response; `res.sendFile` and `res.json` without `res.status` send 200. */
  datatype Response = Response(status: int, body: Body)

  const OK := 200
}
