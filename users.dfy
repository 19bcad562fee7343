/** Users of an organisation: their role and whether they may authorise
    high-value transactions. */
module Users {

  import opened Common

  const Roles: seq<string> := ["user", "admin", "manager", "compliance_officer"]

  datatype User = User(
    id: int,
    email: string,
    firstName: string,
    lastName: string,
    role: string,
    authorizedForHighValue: bool)
  {
    predicate IsAdmin() { role == "admin" }

    predicate IsComplianceOfficer() { role == "compliance_officer" }

    predicate IsManager() { role == "manager" }

    /** The flag, or a role that implies it. */
    predicate AuthorizedForHighValue() {
      authorizedForHighValue || IsAdmin() || IsComplianceOfficer()
    }

    predicate CanApproveTransactions() {
      IsAdmin() || IsManager() || IsComplianceOfficer()
    }
  }

  /** The user's validation errors, in declaration order; `otherEmails` are
      the e-mail addresses of every other stored user. */
  function UserErrors(u: User, otherEmails: seq<string>): (errs: seq<FieldError>)
    ensures errs == [] <==>
      !Blank(u.email) && u.email !in otherEmails && EmailFormat(u.email) &&
      !Blank(u.firstName) && !Blank(u.lastName) && u.role in Roles
  {
    PresenceErrors("email", u.email)
    + (if u.email in otherEmails then [FieldError("email", "has already been taken")] else [])
    + (if EmailFormat(u.email) then [] else [FieldError("email", "is invalid")])
    + PresenceErrors("first_name", u.firstName)
    + PresenceErrors("last_name", u.lastName)
    + InclusionErrors("role", u.role, Roles, "is not included in the list")
  }

  /** The three privileged roles exclude one another. */
  lemma RolesExclusive(u: User)
    ensures !(u.IsAdmin() && u.IsComplianceOfficer())
    ensures !(u.IsAdmin() && u.IsManager())
    ensures !(u.IsManager() && u.IsComplianceOfficer())
  {
  }

  /** A manager may approve transactions but, without the explicit flag, is
      not authorised for high-value ones. */
  lemma ManagerApprovesButNotHighValue(u: User)
    requires u.IsManager() && !u.authorizedForHighValue
    ensures u.CanApproveTransactions() && !u.AuthorizedForHighValue()
  {
  }

  /** High-value authorisation that does not come from the flag comes from a
      role that may also approve transactions. */
  lemma RoleAuthorisationImpliesApproval(u: User)
    requires u.AuthorizedForHighValue() && !u.authorizedForHighValue
    ensures u.CanApproveTransactions()
  {
  }
}
