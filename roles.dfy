/**
 * The user profile cached by the session, and the three role strings the
 * front end compares against. A role string that is none of the three (or
 * the absence of a user) is `Other`.
 */
module Roles {
  import opened Wrappers

  /** The profile returned by `/auth/login` and kept under the `user` key. */
  datatype User = User(id: string, name: string, email: string, role: string)

  const DirectorRole: string := "Usuário interno - Diretor da Divisão"
  const AuditorRole: string := "Usuário interno - Auditor"
  const AuditedRole: string := "Usuário externo - Auditado"

  /** `raw` is `user?.role`: `None` when there is no user. */
  datatype Role = Director | Auditor | Audited | Other(raw: Option<string>)

  predicate IsKnownRoleName(s: string) {
    s == DirectorRole || s == AuditorRole || s == AuditedRole
  }

  /** A role value that `Classify` can produce: `Other` never carries a known name. */
  predicate WellFormed(r: Role) {
    r.Other? ==> r.raw.None? || !IsKnownRoleName(r.raw.value)
  }

  /** The exact, case-sensitive comparisons of `user?.role` against the three literals. */
  function Classify(role: Option<string>): (r: Role)
    ensures WellFormed(r)
    ensures r == Director <==> role == Some(DirectorRole)
    ensures r == Auditor <==> role == Some(AuditorRole)
    ensures r == Audited <==> role == Some(AuditedRole)
  {
    if role == Some(DirectorRole) then Director
    else if role == Some(AuditorRole) then Auditor
    else if role == Some(AuditedRole) then Audited
    else Other(role)
  }

  /** `user?.role` as a role. */
  function RoleOf(user: Option<User>): (r: Role)
    ensures r == Director <==> user.Some? && user.value.role == DirectorRole
    ensures r == Auditor <==> user.Some? && user.value.role == AuditorRole
    ensures r == Audited <==> user.Some? && user.value.role == AuditedRole
    ensures r.Other? ==> r.raw == (if user.Some? then Some(user.value.role) else None)
  {
    Classify(if user.Some? then Some(user.value.role) else None)
  }

  /** The role string a role stands for; inverse of `Classify`. */
  function RoleName(r: Role): Option<string> {
    match r
    case Director => Some(DirectorRole)
    case Auditor => Some(AuditorRole)
    case Audited => Some(AuditedRole)
    case Other(raw) => raw
  }

  /** `Classify` loses nothing: it and `RoleName` are mutually inverse. */
  lemma ClassifyRoundTrip(role: Option<string>, r: Role)
    ensures RoleName(Classify(role)) == role
    ensures WellFormed(r) ==> Classify(RoleName(r)) == r
  {
  }

  /** The three role strings are pairwise distinct, so each known role has one name. */
  lemma RoleNamesDistinct()
    ensures DirectorRole != AuditorRole && DirectorRole != AuditedRole && AuditorRole != AuditedRole
  {
    assert |DirectorRole| == 36 && |AuditorRole| == 25 && |AuditedRole| == 26;
  }
}
