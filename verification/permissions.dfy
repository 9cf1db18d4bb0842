/** The access-control predicates of api/permissions.py, as functions of who is asking
    and of the report being asked about. */
module Permissions {
  import opened Wrappers
  import opened Models

  /** The requesting user: Django's anonymous user, or an account (which may lack a profile). */
  datatype Requester = Anonymous | Member(account: Account)

  /** `user.is_authenticated`: true of every account, false of the anonymous user. */
  predicate IsAuthenticated(u: Requester) {
    u.Member?
  }

  /** `hasattr(user, 'profile')`. */
  predicate HasProfile(u: Requester) {
    u.Member? && u.account.profile.Some?
  }

  /** The role stored on the requester's profile, when there is one. */
  function RoleOf(u: Requester): (role: Option<Role>)
    ensures role.Some? <==> HasProfile(u)
  {
    if HasProfile(u) then Some(u.account.profile.value.role) else None
  }

  /** `obj.citizen == request.user`: a model instance never equals the anonymous user. */
  predicate IsCitizenOf(u: Requester, r: Report) {
    u.Member? && u.account.id == r.citizen
  }

  /** `obj.assigned_technician == request.user`; an unassigned report matches nobody. */
  predicate IsAssignedTo(u: Requester, r: Report) {
    u.Member? && r.assignedTechnician == Some(u.account.id)
  }

  /** The outcome of a permission check whose body may raise: `Fault` stands for the
      exception (a server error) raised when the body reads a profile that is not there. */
  datatype Verdict = Grant | Refuse | Fault

  /** IsAdminUser.has_permission: signed in, with a profile, whose role is admin. */
  predicate IsAdminUser(u: Requester)
    ensures IsAdminUser(u) <==> RoleOf(u) == Some(Admin)
  {
    IsAuthenticated(u) && HasProfile(u) && u.account.profile.value.role == Admin
  }

  /** IsTechnicianUser.has_permission: signed in, with a profile, whose role is technician. */
  predicate IsTechnicianUser(u: Requester)
    ensures IsTechnicianUser(u) <==> RoleOf(u) == Some(Technician)
  {
    IsAuthenticated(u) && HasProfile(u) && u.account.profile.value.role == Technician
  }

  /** IsOwnerOrAdmin.has_object_permission: an admin, or the report's own citizen. */
  predicate IsOwnerOrAdmin(u: Requester, r: Report)
    ensures IsOwnerOrAdmin(u, r) <==> RoleOf(u) == Some(Admin) || IsCitizenOf(u, r)
  {
    IsAdminUser(u) || IsCitizenOf(u, r)
  }

  /** IsAdminOrAssignedTechnician.has_object_permission. It reads the profile's role without
      first checking that the user is signed in or has a profile, so either lack raises. */
  function IsAdminOrAssignedTechnician(u: Requester, r: Report): (v: Verdict)
    ensures v == Fault <==> !HasProfile(u)
    ensures v == Grant <==> RoleOf(u) == Some(Admin) || (RoleOf(u) == Some(Technician) && IsAssignedTo(u, r))
  {
    if !HasProfile(u) then Fault
    else
      var role := u.account.profile.value.role;
      if role == Admin then Grant
      else if role == Technician && r.assignedTechnician == Some(u.account.id) then Grant
      else Refuse
  }

  /** IsOwnerAdminOrAssignedTechnician.has_object_permission: anyone signed in with a profile who
      is an admin, the report's citizen, or the user it is assigned to (whatever that user's role). */
  predicate IsOwnerAdminOrAssignedTechnician(u: Requester, r: Report)
    ensures IsOwnerAdminOrAssignedTechnician(u, r) <==>
      HasProfile(u) && (RoleOf(u) == Some(Admin) || IsCitizenOf(u, r) || IsAssignedTo(u, r))
  {
    if !(IsAuthenticated(u) && HasProfile(u)) then false
    else if u.account.profile.value.role == Admin then true
    else if u.account.id == r.citizen then true
    else if r.assignedTechnician == Some(u.account.id) then true
    else false
  }

  // ---------------------------------------------------------------------------
  // Properties
  // ---------------------------------------------------------------------------

  /** The two role predicates admit exactly the signed-in users whose profile carries that role,
      and no user passes both. */
  lemma RolePredicatesMatchRole(u: Requester)
    ensures IsAdminUser(u) <==> RoleOf(u) == Some(Admin)
    ensures IsTechnicianUser(u) <==> RoleOf(u) == Some(Technician)
    ensures !(IsAdminUser(u) && IsTechnicianUser(u))
    ensures u.Anonymous? ==> !IsAdminUser(u) && !IsTechnicianUser(u)
  {
  }

  /** An admin passes IsOwnerOrAdmin on every report; anyone else only on their own reports,
      and the anonymous user on none. */
  lemma OwnerOrAdminAdmitsOwnersAndAdmins(u: Requester, r: Report)
    ensures IsAdminUser(u) ==> IsOwnerOrAdmin(u, r)
    ensures !IsAdminUser(u) ==> (IsOwnerOrAdmin(u, r) <==> IsCitizenOf(u, r))
    ensures u.Anonymous? ==> !IsOwnerOrAdmin(u, r)
  {
  }

  /** The status-change permission admits admins and the assigned technician only: the citizen
      who filed the report is refused unless that user is also an admin or the assigned technician. */
  lemma CitizenOwnerIsRefusedStatusChange(u: Requester, r: Report)
    requires RoleOf(u) == Some(Citizen)
    ensures IsAdminOrAssignedTechnician(u, r) == Refuse
  {
  }

  /** For a signed-in user with a profile, being allowed to change a report's status implies being
      allowed to view it. The converse fails: see ViewingDoesNotImplyStatusChange. */
  lemma StatusChangeImpliesDetailAccess(u: Requester, r: Report)
    requires IsAuthenticated(u) && HasProfile(u)
    ensures IsAdminOrAssignedTechnician(u, r) != Fault
    ensures IsAdminOrAssignedTechnician(u, r) == Grant ==> IsOwnerAdminOrAssignedTechnician(u, r)
  {
  }

  /** The detail permission checks no role on its assignment branch, and admits the owner:
      a citizen who filed a report may view it but not change its status. */
  lemma ViewingDoesNotImplyStatusChange(acc: Account, r: Report)
    requires acc.profile.Some? && acc.profile.value.role == Citizen
    requires r.citizen == acc.id
    ensures IsOwnerAdminOrAssignedTechnician(Member(acc), r)
    ensures IsAdminOrAssignedTechnician(Member(acc), r) == Refuse
  {
  }

  /** Neither an anonymous user nor an account without a profile can view a report, even their own. */
  lemma DetailAccessNeedsProfile(u: Requester, r: Report)
    requires !HasProfile(u)
    ensures !IsOwnerAdminOrAssignedTechnician(u, r)
    ensures IsAdminOrAssignedTechnician(u, r) == Fault
  {
  }

  /** A user the report is assigned to may view it whatever that user's role, provided a profile exists. */
  lemma AssignedUserMayViewWhateverRole(u: Requester, r: Report)
    requires HasProfile(u) && IsAssignedTo(u, r)
    ensures IsOwnerAdminOrAssignedTechnician(u, r)
  {
  }
}
