/** rolevalidation.js: `validateRole` and the guard that turns a bad role into a
    400 error handed to `next`. */
module RoleValidation {
  import opened Js

  const TenantRole := "tenant"
  const LandlordRole := "landlord"
  const RoleMessage := "Role must be either 'tenant' or 'landlord'"

  /** The two roles an account can have. */
  const Roles: set<string> := {TenantRole, LandlordRole}

  /** validateRole (rolevalidation.js:1-3): strict equality with one of the two literals;
      an absent role (`undefined`) equals neither. */
  function ValidateRole(role: Option<string>): (ok: bool)
    ensures ok <==> role.Some? && role.value in Roles
  {
    role == Some(TenantRole) || role == Some(LandlordRole)
  }

  lemma TenantAccepted()
    ensures ValidateRole(Some("tenant"))
  {}

  lemma LandlordAccepted()
    ensures ValidateRole(Some("landlord"))
  {}

  /** The comparison is exact: no case folding, no trimming, and absence fails. */
  lemma NearMissesRejected()
    ensures !ValidateRole(Some("Tenant"))
    ensures !ValidateRole(Some(""))
    ensures !ValidateRole(Some(" tenant"))
    ensures !ValidateRole(Some("admin"))
    ensures !ValidateRole(None)
  {}

  /** What the guard does with a request: let it continue or stop it with an error for `next`. */
  datatype Guard = Continue | Reject(error: JsError)

  /** The guard of rolevalidation.js:4-6: a role that fails validateRole is rejected with
      status 400 and the fixed message; every valid role lets the request continue. */
  function RoleGuard(role: Option<string>): (g: Guard)
    ensures g.Reject? <==> !ValidateRole(role)
    ensures g.Reject? ==> g.error == StatusError(400, RoleMessage)
  {
    if !ValidateRole(role) then Reject(StatusError(400, RoleMessage)) else Continue
  }
}
