/** The report-changing views of api/views.py: creating a report, assigning a technician,
    the role-indexed status workflow, the admin's free editor, and a technician's remark.
    Each view is a function from the requester, the row(s) it touches and the request body
    to the HTTP outcome and, on success, the saved row. Row lookup by id (404) is not modelled
    except where a view does it by hand. */
module ReportViews {
  import opened Wrappers
  import opened Models
  import opened Permissions
  import opened Serializers

  // ---------------------------------------------------------------------------
  // The status workflow (ReportStatusUpdateView.update)
  // ---------------------------------------------------------------------------

  /** The transition table, indexed by role then by current status; a role with no entry may not
      change status at all, and a current status with no entry admits no next status. */
  function ValidTransitions(role: Role): Option<map<Status, seq<Status>>> {
    match role
    case Technician => Some(map[Assigned := [InProgress], InProgress := [Resolved]])
    case Admin => Some(map[Resolved := [Closed, Assigned], Received := [Assigned, Closed]])
    case Citizen => None
  }

  /** `valid_transitions[role].get(current) or []`. */
  function AllowedNext(role: Role, current: Status): seq<Status>
    requires ValidTransitions(role).Some?
  {
    var table := ValidTransitions(role).value;
    if current in table then table[current] else []
  }

  /** The workflow as a plain list of permitted (role, from, to) moves. */
  const PermittedMoves: set<(Role, Status, Status)> :=
    {(Technician, Assigned, InProgress), (Technician, InProgress, Resolved),
     (Admin, Resolved, Closed), (Admin, Resolved, Assigned),
     (Admin, Received, Assigned), (Admin, Received, Closed)}

  /** The table and the list describe the same moves. */
  lemma TableMatchesPermittedMoves(role: Role, from: Status, to: Status)
    ensures (role, from, to) in PermittedMoves <==>
      ValidTransitions(role).Some? && to in AllowedNext(role, from)
  {
  }

  /** A role's allowed list for a status holds exactly that role's permitted moves from it. */
  lemma AllowedListIsPermittedMoves(role: Role, from: Status)
    requires ValidTransitions(role).Some?
    ensures forall t :: t in AllowedNext(role, from) <==> (role, from, t) in PermittedMoves
  {
    forall t
      ensures t in AllowedNext(role, from) <==> (role, from, t) in PermittedMoves
    {
      TableMatchesPermittedMoves(role, from, t);
    }
  }

  /** Every status the table can lead to is one of the column's six stored values. */
  lemma TransitionTargetsAreStatusChoices(role: Role, from: Status, to: Status)
    requires ValidTransitions(role).Some? && to in AllowedNext(role, from)
    ensures StatusName(to) in StatusChoices
    ensures to != PendingAnalysis && to != Received
  {
  }

  /** Python's `str` of the optional requested status, as it appears in the error message. */
  function PyText(v: Option<string>): string {
    match v
    case None => "None"
    case Some(s) => s
  }

  /** The responses of the status view. */
  datatype StatusResponse =
    | StatusChanged(report: Report)                                  // 200
    | PermissionDenied                                               // 403, from the object permission
    | RoleForbidden(error: string)                                   // 403, from the role check
    | TransitionRejected(error: string, allowedNextStatuses: seq<Status>)  // 400
    | ServerError                                                    // 500, an exception in the permission

  const NoStatusRole: string := "You do not have a role that can change status."

  function TransitionError(current: Status, requested: Option<string>): string {
    "Cannot change status from '" + StatusName(current) + "' to '" + PyText(requested) + "'."
  }

  /** The body of ReportStatusUpdateView.update for a requester whose profile has `role`: the
      role must have a table, the requested status must be listed for the current one, and then
      the status serializer saves the request. */
  function UpdateStatus(role: Role, report: Report, input: ReportInput, partial: bool): (resp: StatusResponse)
    ensures resp.RoleForbidden? <==> role == Citizen
    ensures resp.StatusChanged? <==> RequestsPermittedMove(role, report.status, input)
    ensures resp.StatusChanged? ==>
      resp.report == report.(status := ParseStatus(input.status.value).value)
    ensures resp.TransitionRejected? ==>
      forall t :: t in resp.allowedNextStatuses <==> (role, report.status, t) in PermittedMoves
    ensures resp.TransitionRejected? ==>
      ValidTransitions(role).Some?
      && resp.allowedNextStatuses == AllowedNext(role, report.status)
      && resp.error == TransitionError(report.status, input.status)
    ensures !resp.ServerError? && !resp.PermissionDenied?
  {
    if ValidTransitions(role).None? then RoleForbidden(NoStatusRole)
    else
      var allowed := AllowedNext(role, report.status);
      AllowedListIsPermittedMoves(role, report.status);
      var requested := input.status;
      var target := if requested.Some? then ParseStatus(requested.value) else None;
      if target.None? || target.value !in allowed then
        TransitionRejected(TransitionError(report.status, requested), allowed)
      else
        StatusSerializerSetsStatus(report, input, partial, target.value);
        StatusChanged(Deserialize(StatusSerializerFields, report, input, partial).value)
  }

  /** The body names a status that `role` may move a report to from `from`. */
  predicate RequestsPermittedMove(role: Role, from: Status, input: ReportInput) {
    input.status.Some? && ParseStatus(input.status.value).Some?
    && (role, from, ParseStatus(input.status.value).value) in PermittedMoves
  }

  /** ReportStatusUpdateView as a whole: the object permission runs first (it reads the profile,
      so a user without one makes it raise), then the role-indexed workflow. */
  function StatusUpdateView(u: Requester, report: Report, input: ReportInput, partial: bool): (resp: StatusResponse)
    ensures resp.ServerError? <==> !HasProfile(u)
    ensures resp.StatusChanged? <==>
      (RoleOf(u) == Some(Admin) || (RoleOf(u) == Some(Technician) && IsAssignedTo(u, report)))
      && RequestsPermittedMove(RoleOf(u).value, report.status, input)
    ensures IsAdminOrAssignedTechnician(u, report) == Grant ==>
      resp == UpdateStatus(RoleOf(u).value, report, input, partial)
    ensures resp.StatusChanged? ==> resp.report == report.(status := ParseStatus(input.status.value).value)
    ensures resp.StatusChanged? ==> ChangedFields(report, resp.report) <= {StatusField}
    ensures RoleOf(u) == Some(Citizen) ==> resp == PermissionDenied
    ensures !resp.RoleForbidden?
  {
    match IsAdminOrAssignedTechnician(u, report)
    case Fault => ServerError
    case Refuse => PermissionDenied
    case Grant => UpdateStatus(u.account.profile.value.role, report, input, partial)
  }

  /** A requester whose role has no table is turned away with 403 and the report kept as it was;
      through the whole view the object permission already refuses such a requester. */
  lemma CitizenCannotChangeStatus(u: Requester, report: Report, input: ReportInput, partial: bool)
    requires RoleOf(u) == Some(Citizen)
    ensures UpdateStatus(Citizen, report, input, partial) == RoleForbidden(NoStatusRole)
    ensures StatusUpdateView(u, report, input, partial) == PermissionDenied
  {
  }

  /** No status request moves a report out of Pending Analysis or out of Closed: both have no
      entry for either role, so the answer is 400 with an empty list of next statuses. */
  lemma PendingAndClosedHaveNoNextStatus(role: Role, report: Report, input: ReportInput, partial: bool)
    requires role != Citizen
    requires report.status == PendingAnalysis || report.status == Closed
    ensures UpdateStatus(role, report, input, partial).TransitionRejected?
    ensures UpdateStatus(role, report, input, partial).allowedNextStatuses == []
  {
  }

  /** A technician can only move a report forward, Assigned to In Progress to Resolved. */
  lemma TechnicianMovesForwardOnly(report: Report, input: ReportInput, partial: bool)
    requires UpdateStatus(Technician, report, input, partial).StatusChanged?
    ensures report.status == Assigned ==> UpdateStatus(Technician, report, input, partial).report.status == InProgress
    ensures report.status == InProgress ==> UpdateStatus(Technician, report, input, partial).report.status == Resolved
    ensures report.status == Assigned || report.status == InProgress
  {
  }

  // ---------------------------------------------------------------------------
  // Assignment (ReportAssignView.perform_update)
  // ---------------------------------------------------------------------------

  datatype AssignResponse = Assignment(report: Report) | AssignDenied

  /** ReportAssignView: admins only. The assignment serializer saves `assigned_technician`; a
      report that was Received or Pending Analysis becomes Assigned, any other keeps its status. */
  function AssignView(u: Requester, report: Report, input: ReportInput, partial: bool): (resp: AssignResponse)
    ensures resp.Assignment? <==> IsAdminUser(u)
    ensures resp.Assignment? && report.status in {Received, PendingAnalysis} ==> resp.report.status == Assigned
    ensures resp.Assignment? && report.status !in {Received, PendingAnalysis} ==> resp.report.status == report.status
    ensures resp.Assignment? && input.assignedTechnician.Some? ==>
      resp.report.assignedTechnician == input.assignedTechnician.value
    ensures resp.Assignment? && input.assignedTechnician.None? ==>
      resp.report.assignedTechnician == report.assignedTechnician
    ensures resp.Assignment? ==> ChangedFields(report, resp.report) <= {AssignedTechnicianField, StatusField}
  {
    if !IsAdminUser(u) then AssignDenied
    else
      AssignmentSerializerWritesOnlyTechnician(report, input, partial);
      var saved := Deserialize(AssignmentSerializerFields, report, input, partial).value;
      assert SameAt(report, saved, StatusField);
      if report.status in {Received, PendingAnalysis} then Assignment(saved.(status := Assigned))
      else Assignment(saved)
  }

  /** Clearing the technician of a Received report still marks it Assigned, with nobody on it. */
  lemma UnassigningStillMarksAssigned(u: Requester, report: Report)
    requires IsAdminUser(u) && report.status == Received
    ensures AssignView(u, report, EmptyInput.(assignedTechnician := Some(None)), true).report.status == Assigned
    ensures AssignView(u, report, EmptyInput.(assignedTechnician := Some(None)), true).report.assignedTechnician.None?
  {
  }

  // ---------------------------------------------------------------------------
  // Creation (ReportCreateView.perform_create)
  // ---------------------------------------------------------------------------

  datatype CreateResponse = ReportCreated(report: Report) | NotAuthenticated | CreateInvalid(errors: map<ReportField, string>)

  /** The row a new report starts from before the request is saved onto it: every column at its
      model default. The coordinates have no default; the serializer requires both. */
  function BlankReport(id: ReportId, uploadId: string, citizen: UserId, now: Timestamp): Report {
    Report(id, uploadId, citizen, None, None, "", None, 0.0, 0.0, None, DefaultStatus, None, None, None, now)
  }

  /** The creation serializer's checks: both coordinates present, the category and the
      priority, when given, null, empty or one of their choices, and an uploaded photo, when
      given, a named, non-empty picture. */
  predicate CreateBodyValid(input: ReportInput) {
    input.latitude.Some? && input.longitude.Some?
    && ImageKeyError(input.image).None?
    && (input.category.None? || ValidOptionalChoice(input.category.value, IsCategory))
    && (input.aiPriority.None? || ValidOptionalChoice(input.aiPriority.value, IsPriority))
  }

  /** The creation serializer rejects a body exactly when one of its checks fails. */
  lemma CreateValidation(blank: Report, input: ReportInput)
    ensures Deserialize(CreateSerializerFields, blank, input, false).Success? <==> CreateBodyValid(input)
  {
    if CreateBodyValid(input) {
      forall f | f in CreateSerializerFields
        ensures KeyError(input, f, false).None?
      {
      }
    } else if input.latitude.None? {
      assert KeyError(input, LatitudeField, false).Some?;
    } else if input.longitude.None? {
      assert KeyError(input, LongitudeField, false).Some?;
    } else if ImageKeyError(input.image).Some? {
      assert KeyError(input, ImageField, false).Some?;
    } else if !(input.category.None? || ValidOptionalChoice(input.category.value, IsCategory)) {
      assert KeyError(input, CategoryField, false).Some?;
    } else {
      assert KeyError(input, AiPriorityField, false).Some?;
    }
  }

  /** ReportCreateView: any signed-in user. The creation serializer validates and saves its keys;
      the view then names the requester as the citizen and sets Pending Analysis. The analysis
      task is started afterwards, as a separate step (Tasks.AnalyzeReportImageTask). */
  function CreateReport(u: Requester, input: ReportInput, id: ReportId, uploadId: string, now: Timestamp)
    : (resp: CreateResponse)
    ensures resp.NotAuthenticated? <==> !IsAuthenticated(u)
    ensures resp.CreateInvalid? <==> IsAuthenticated(u) && !CreateBodyValid(input)
    ensures resp.ReportCreated? ==> resp.report == NewReportRow(u.account.id, input, id, uploadId, now)
    ensures resp.ReportCreated? ==> resp.report.status == PendingAnalysis && resp.report.citizen == u.account.id
    ensures resp.ReportCreated? ==>
      Some(resp.report.latitude) == input.latitude && Some(resp.report.longitude) == input.longitude
  {
    if !IsAuthenticated(u) then NotAuthenticated
    else
      var blank := BlankReport(id, uploadId, u.account.id, now);
      var res := Deserialize(CreateSerializerFields, blank, input, false);
      CreateValidation(blank, input);
      if res.Failure? then CreateInvalid(res.error)
      else ReportCreated(NewReportRow(u.account.id, input, id, uploadId, now))
  }

  /** The row `perform_create` saves: the creation serializer's keys written onto a blank row,
      then the requester as citizen and Pending Analysis as status; an uploaded photo is stored
      under the new report's own folder. */
  function NewReportRow(citizen: UserId, input: ReportInput, id: ReportId, uploadId: string, now: Timestamp)
    : (r: Report)
    ensures r.status == PendingAnalysis && r.citizen == citizen && r.assignedTechnician.None?
    ensures r.aiClassification.None? && r.aiSuggestion.None?
    ensures r.id == id && r.uploadId == uploadId && r.createdAt == now
    ensures input.latitude.Some? ==> r.latitude == input.latitude.value
    ensures input.longitude.Some? ==> r.longitude == input.longitude.value
    ensures input.image.GetOr(None).Some? ==> r.image == Some(ReportImagePath(r, input.image.value.value.name))
    ensures input.image.GetOr(None).Some? ==> HasImage(r)
    ensures input.image.GetOr(None).None? ==> r.image.None?
    ensures input.category.Some? ==> r.category == input.category.value
    ensures input.category.None? ==> r.category.None?
    ensures input.description.Some? ==> r.description == input.description.value
    ensures input.description.None? ==> r.description == ""
    ensures input.address.Some? ==> r.address == input.address.value
    ensures input.address.None? ==> r.address.None?
    ensures input.aiPriority.Some? ==> r.aiPriority == input.aiPriority.value
    ensures input.aiPriority.None? ==> r.aiPriority.None?
  {
    var row := Write(CreateSerializerFields, BlankReport(id, uploadId, citizen, now), input)
      .(citizen := citizen, status := PendingAnalysis);
    match row.image
    case None => row
    case Some(name) => row.(image := Some(ReportImagePath(row, name)))
  }

  /** A client cannot choose a new report's citizen, status or technician: those keys are ignored. */
  lemma CreationIgnoresOwnershipKeys(u: Requester, input: ReportInput, id: ReportId, uploadId: string, now: Timestamp,
                                     citizen: UserId, status: string, tech: Option<UserId>)
    ensures CreateReport(u, input.(citizen := Some(citizen), status := Some(status), assignedTechnician := Some(tech)), id, uploadId, now)
         == CreateReport(u, input.(citizen := None, status := None, assignedTechnician := None), id, uploadId, now)
  {
    var a := input.(citizen := Some(citizen), status := Some(status), assignedTechnician := Some(tech));
    var b := input.(citizen := None, status := None, assignedTechnician := None);
    if IsAuthenticated(u) {
      var blank := BlankReport(id, uploadId, u.account.id, now);
      UnlistedKeysAreIgnored(CreateSerializerFields, blank, a, b, false);
    }
  }

  // ---------------------------------------------------------------------------
  // The admin editor (ReportAdminDetailView, PUT/PATCH)
  // ---------------------------------------------------------------------------

  datatype EditResponse = Edited(report: Report) | EditDenied | EditInvalid(errors: map<ReportField, string>)

  /** ReportAdminDetailView's update: admins only, through the admin update serializer. */
  function AdminEditView(u: Requester, report: Report, input: ReportInput, partial: bool): (resp: EditResponse)
    ensures resp.EditDenied? <==> !IsAdminUser(u)
    ensures IsAdminUser(u) ==>
      (resp.Edited? <==> Deserialize(AdminUpdateSerializerFields, report, input, partial).Success?)
    ensures resp.Edited? ==> resp.report == Deserialize(AdminUpdateSerializerFields, report, input, partial).value
    ensures resp.EditInvalid? ==> resp.errors == Deserialize(AdminUpdateSerializerFields, report, input, partial).error
    ensures resp.Edited? ==> ChangedFields(report, resp.report) <= AdminUpdateSerializerFields
    ensures resp.Edited? && input.status.Some? ==> StatusName(resp.report.status) == input.status.value
  {
    if !IsAdminUser(u) then EditDenied
    else
      match Deserialize(AdminUpdateSerializerFields, report, input, partial)
      case Failure(errors) => EditInvalid(errors)
      case Success(saved) =>
        DeserializeWritesOnlyWhitelist(AdminUpdateSerializerFields, report, input, partial);
        DeserializeSetsNamedStatus(AdminUpdateSerializerFields, report, input, partial);
        Edited(saved)
  }

  /** The editor does not consult the transition table: an admin can reopen a Closed report. */
  lemma EditorBypassesWorkflow(u: Requester, report: Report)
    requires IsAdminUser(u) && report.status == Closed
    ensures AdminEditView(u, report, EmptyInput.(status := Some("Received")), true).Edited?
    ensures AdminEditView(u, report, EmptyInput.(status := Some("Received")), true).report.status == Received
    ensures (Admin, Closed, Received) !in PermittedMoves
  {
    EditorSetsAnyStatus(u, report, Received, true);
  }

  /** For every admin, current status and named status, the editor stores exactly that status
      and changes nothing else, whatever the transition table says about the move. */
  lemma EditorSetsAnyStatus(u: Requester, report: Report, target: Status, partial: bool)
    requires IsAdminUser(u)
    ensures AdminEditView(u, report, EmptyInput.(status := Some(StatusName(target))), partial)
         == Edited(report.(status := target))
  {
    var input := EmptyInput.(status := Some(StatusName(target)));
    assert ParseStatus(StatusName(target)) == Some(target);
    assert forall f :: f in AdminUpdateSerializerFields ==> KeyError(input, f, partial).None?;
    DeserializeIsWrite(AdminUpdateSerializerFields, report, input, partial);
  }

  // ---------------------------------------------------------------------------
  // Technician remarks (ReportUpdateCreateView.perform_create)
  // ---------------------------------------------------------------------------

  datatype RemarkResponse =
    | RemarkCreated(update: ReportUpdate)
    | RemarkNotAuthenticated(detail: string)  // 401 or 403, as the authentication settings decide
    | RemarkDenied(detail: string)            // 403
    | RemarkInvalid(errors: map<string, string>)  // 400
    | RemarkServerError                       // 500
    | RemarkNotFound(error: string)           // 404

  const NoCredentials: string := "Authentication credentials were not provided."
  const DefaultDenied: string := "You do not have permission to perform this action."
  const NotAssignedMessage: string := "You are not assigned to this report."
  const ReportNotFound: string := "Report not found."

  /** A signed-in technician sending a remark that passes validation. */
  predicate PostsValidRemark(u: Requester, input: UpdateInput) {
    IsTechnicianUser(u) && RemarkErrors(input) == map[]
  }

  /** ReportUpdateCreateView: technicians only (an anonymous requester is told that credentials
      are missing); the body is validated first; then the report is looked up by hand and the
      requester's assignment checked. Both refusals are written so that they raise something
      else: a missing report raises a `Response`, which is not an exception, and the refusal of
      an unassigned technician names `PermissionDenied` in a module that does not define it;
      either way the client gets a server error. The update is saved with the requester as its
      technician whatever the body says. */
  function AddRemarkView(u: Requester, reports: map<ReportId, Report>, reportId: ReportId,
                         input: UpdateInput, id: nat, now: Timestamp): (resp: RemarkResponse)
    ensures resp.RemarkNotAuthenticated? <==> !IsAuthenticated(u)
    ensures resp.RemarkNotAuthenticated? ==> resp.detail == NoCredentials
    ensures IsAuthenticated(u) && !IsTechnicianUser(u) ==> resp == RemarkDenied(DefaultDenied)
    ensures IsTechnicianUser(u) && RemarkErrors(input) != map[] ==> resp == RemarkInvalid(RemarkErrors(input))
    ensures resp.RemarkCreated? <==>
      PostsValidRemark(u, input) && reportId in reports && reports[reportId].assignedTechnician == Some(u.account.id)
    ensures resp.RemarkServerError? <==>
      PostsValidRemark(u, input) && (reportId !in reports || reports[reportId].assignedTechnician != Some(u.account.id))
    ensures resp.RemarkCreated? ==>
      resp.update.technician == u.account.id && resp.update.report == reports[reportId].id
      && resp.update.remark == input.remark.value
    ensures resp.RemarkCreated? ==>
      resp.update == CreateReportUpdate(input, reports[reportId], u.account.id, id, now).value
    ensures resp.RemarkCreated? && input.image.GetOr(None).Some? ==>
      resp.update.image == Some(UpdateImagePath(resp.update, reports[reportId], input.image.value.value.name))
    ensures !resp.RemarkNotFound?
  {
    if !IsAuthenticated(u) then RemarkNotAuthenticated(NoCredentials)
    else if !IsTechnicianUser(u) then RemarkDenied(DefaultDenied)
    else if RemarkErrors(input) != map[] then RemarkInvalid(RemarkErrors(input))
    else
      assert "remark" !in RemarkErrors(input);
      if reportId !in reports then RemarkServerError
      else if reports[reportId].assignedTechnician != Some(u.account.id) then RemarkServerError
      else RemarkCreated(CreateReportUpdate(input, reports[reportId], u.account.id, id, now).value)
  }

  /** The view as its authors evidently meant it: a missing report answers 404 "Report not
      found." and an unassigned technician 403 "You are not assigned to this report."; every
      other outcome is the view's own. */
  function AddRemarkViewIntended(u: Requester, reports: map<ReportId, Report>, reportId: ReportId,
                                 input: UpdateInput, id: nat, now: Timestamp): (resp: RemarkResponse)
    ensures !resp.RemarkServerError?
    ensures resp.RemarkNotFound? <==> PostsValidRemark(u, input) && reportId !in reports
    ensures resp.RemarkNotFound? ==> resp.error == ReportNotFound
    ensures resp == RemarkDenied(NotAssignedMessage) <==>
      PostsValidRemark(u, input) && reportId in reports && reports[reportId].assignedTechnician != Some(u.account.id)
    ensures !AddRemarkView(u, reports, reportId, input, id, now).RemarkServerError? ==>
      resp == AddRemarkView(u, reports, reportId, input, id, now)
  {
    match AddRemarkView(u, reports, reportId, input, id, now)
    case RemarkServerError =>
      if reportId !in reports then RemarkNotFound(ReportNotFound) else RemarkDenied(NotAssignedMessage)
    case other => other
  }

  /** As written, a technician's valid remark on a report id with no report is a server error. */
  lemma MissingReportCrashesTheView(u: Requester, reports: map<ReportId, Report>, reportId: ReportId,
                                    input: UpdateInput, id: nat, now: Timestamp)
    requires PostsValidRemark(u, input) && reportId !in reports
    ensures AddRemarkView(u, reports, reportId, input, id, now) == RemarkServerError
  {
  }

  /** With the intended lookup the same request is answered 404. */
  lemma MissingReportIsNotFound(u: Requester, reports: map<ReportId, Report>, reportId: ReportId,
                                input: UpdateInput, id: nat, now: Timestamp)
    requires PostsValidRemark(u, input) && reportId !in reports
    ensures AddRemarkViewIntended(u, reports, reportId, input, id, now) == RemarkNotFound(ReportNotFound)
  {
  }

  /** As written, a technician's valid remark on an existing report assigned to someone else (or
      to no one) is a server error. */
  lemma UnassignedTechnicianCrashesTheView(u: Requester, reports: map<ReportId, Report>, reportId: ReportId,
                                           input: UpdateInput, id: nat, now: Timestamp)
    requires PostsValidRemark(u, input) && reportId in reports
    requires reports[reportId].assignedTechnician != Some(u.account.id)
    ensures AddRemarkView(u, reports, reportId, input, id, now) == RemarkServerError
  {
  }

  /** With the intended refusal the same request is answered 403 with the view's own message. */
  lemma UnassignedTechnicianIsRefused(u: Requester, reports: map<ReportId, Report>, reportId: ReportId,
                                      input: UpdateInput, id: nat, now: Timestamp)
    requires PostsValidRemark(u, input) && reportId in reports
    requires reports[reportId].assignedTechnician != Some(u.account.id)
    ensures AddRemarkViewIntended(u, reports, reportId, input, id, now) == RemarkDenied(NotAssignedMessage)
  {
  }
}
