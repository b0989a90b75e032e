/** The `/dashboard` decision shared by all three servers: the session role picks
    the tenant page, the landlord page, or a denial.  The session is only read. */
module AccessGate {
  import opened Js
  import opened Http
  import opened RoleValidation

  datatype Grant = Tenant | Landlord | Denied

  /** server.js:48-56: `=== 'tenant'`, else `=== 'landlord'`, else deny. */
  function Gate(role: Option<string>): (g: Grant)
    ensures g != Denied <==> ValidateRole(role)
    ensures g == Tenant <==> role == Some(TenantRole)
    ensures g == Landlord <==> role == Some(LandlordRole)
  {
    if role == Some(TenantRole) then Tenant
    else if role == Some(LandlordRole) then Landlord
    else Denied
  }

  const AccessDenied := "Access denied"

  /** The page served for a granted role. */
  function PageOf(g: Grant): Page
    requires g != Denied
  {
    if g == Tenant then TenantDashboard else LandlordDashboard
  }

  /** The response of server.js and serverWreCAPTCHA.js: the page (status 200) or
      status 403 with the plain text 'Access denied'. */
  function SendDashboard(role: Option<string>): (r: Response)
    ensures r.status == OK <==> ValidateRole(role)
    ensures role == Some(TenantRole) ==> r == Response(OK, File(TenantDashboard))
    ensures role == Some(LandlordRole) ==> r == Response(OK, File(LandlordDashboard))
    ensures !ValidateRole(role) ==> r == Response(403, Text(AccessDenied))
  {
    var g := Gate(role);
    if g == Denied then Response(403, Text(AccessDenied)) else Response(OK, File(PageOf(g)))
  }
}
