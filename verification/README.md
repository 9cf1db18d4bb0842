# Urja-Setu backend rules in Dafny

Urja-Setu is a service for reporting electrical faults. A citizen files a report with a photo
and a location. A background task runs an object detector on the photo and, from the labels it
sees, a small rule engine derives a classification and a suggested action. An admin assigns the
report to a technician. The technician moves it along a fixed status workflow and adds remarks.
The admin closes it.

This project models the rules of the Django REST backend and of the password-reset page. Each
is a pure function over immutable records, and the project proves what those functions
guarantee:

- `models.dfy` (`Models`): the stored records, the choice sets with their defaults, and the
  upload-path functions.
- `text_case.dfy` (`TextCase`): ASCII case folding, which account creation and the
  case-insensitive email lookup both use.
- `permissions.dfy` (`Permissions`): the five permission classes. They take the requester,
  which is either anonymous or an account with an optional profile.
  - `IsAdminOrAssignedTechnician` reads the profile without checking that one exists. Its
    verdict therefore has three values: grant, refuse, or fault, where fault is the exception.
- `ai_service.dfy` (`AiService`): the rule engine, from detected labels to a classification and
  a suggestion.
- `serializers.dfy` (`Serializers`):
  - the writable-field whitelist of each report serializer, with `ChangedFields` as the
    "nothing else changes" measure;
  - choice validation;
  - the read-only keys of a technician's update;
  - the login, registration and staff-account rules, including how `create_user` normalizes
    the stored email.
- `tasks.dfy` (`Tasks`): the image-analysis task. It is a later step over the report table, and
  the detector's output is a parameter.
- `report_views.dfy` (`ReportViews`): the views that change reports:
  - creation, and assignment;
  - the role-indexed status workflow, with its 403 and 400 answers;
  - the admin editor, and technicians' remarks.
- `report_queries.dfy` (`ReportQueries`):
  - the citizen's and the technician's lists, newest first;
  - the admin dashboard: counts, the category map, and the seven daily buckets.
- `auth_views.dfy` (`AuthViews`): login, password change, and the two password-reset steps.
  Replies are modelled as status plus JSON body.
- `reset_page.dfy` (`ResetPage`): the two forms of the reset page.
  - The confirm form checks its input locally before it posts.
  - Each form maps the server's reply to one message line.
  - Lemmas connect the page's behaviour to the server model.

How the model represents the source's data:

- A day is an integer: `DayOf(t) = t / 86400`.
- Python's set of detected labels is a sequence in the set's iteration order. The order matters
  in exactly one place, the fallback classification `list(detected_classes)[0]`.
- Enumerated request keys arrive as raw strings. The serializer checks them against the choices.

Three behaviours are proved as written and noted here.

1. Self-registration accepts any role, admin included (`Serializers.RegistrationMayChooseAdminRole`).
2. The registration uniqueness check compares emails exactly, but the reset lookup ignores case.
   Two accounts whose emails differ only in letter case therefore make the reset request raise.
   The reset page reports the resulting HTML 500 as a connection failure
   (`ResetPage.CaseTwinAccountsLookLikeAnOutage`). Because `create_user` lower-cases the domain
   before storing, an address differing from a stored one only in its domain's case even ends up
   stored identically (`AuthViews.DomainCaseVariantBreaksReset`).
3. The daily-report query has a lower date bound only, so a report dated after "today" adds an
   eighth day to the map (`ReportQueries.FutureDatedReportAddsAKey`).

## Model

| member | source | states |
|---|---|---|
| Models.ParseRole | api/models.py:28-31 | the stored role names are exactly citizen, admin, technician, each naming one role |
| Models.DefaultProfile | api/models.py:39-46 | a profile created with nothing but defaults has role citizen, blank name and phone, and no gender, department or specialization |
| Models.ParseStatus | api/models.py:61-68 | a status string is accepted exactly when it is one of the six stored names, and names that status |
| Models.StatusChoicesAreExactlySix | api/models.py:61-68 | the choice list has six distinct entries and every status appears in it |
| Models.ParseCategory | api/models.py:55-60 | the category choices are exactly Safety Hazard, Maintenance, Power Theft, Other |
| Models.ParsePriority | api/models.py:69-73 | the priority choices are exactly High, Medium, Low |
| Models.ParseSuggestionStatus | api/models.py:100-104 | the suggestion-status choices are exactly Submitted, In Review, Implemented, Archived |
| Models.ReportImagePath | api/models.py:9-14 | a citizen's image is stored under the report's own folder `reports/<upload_id>/`, in its `citizen/` sub-folder, under the uploaded file name |
| Models.UpdateImagePath | api/models.py:16-21 | the image of a technician update is stored under the folder of the report the update belongs to, in its `technician/` sub-folder |
| Models.CitizenAndTechnicianPathsDiffer | api/models.py:14-21 | for the same report and file name, the two paths share the report folder but differ |
| Models.CitizenPathsNeverCollide | api/models.py:9-14 | two reports with different slash-free upload ids never share a citizen image path |
| Models.TechnicianPathsNeverCollide | api/models.py:16-21 | updates of reports with different slash-free upload ids never share an image path |
| Models.CitizenAndTechnicianUploadsNeverCollide | api/models.py:9-21 | no citizen image path equals any technician image path |
| Permissions.IsAdminOrAssignedTechnician | api/permissions.py:19-25 | fault exactly when the requester has no profile; grant exactly for an admin or for the technician the report is assigned to |
| Permissions.IsAdminUser | api/permissions.py:5-7 | holds exactly for a requester whose profile has the admin role |
| Permissions.IsTechnicianUser | api/permissions.py:9-11 | holds exactly for a requester whose profile has the technician role |
| Permissions.IsOwnerOrAdmin | api/permissions.py:13-17 | holds exactly for an admin or for the report's own citizen, with or without a profile |
| Permissions.IsOwnerAdminOrAssignedTechnician | api/permissions.py:27-39 | holds exactly for a signed-in user with a profile who is an admin, the report's citizen, or the user it is assigned to |
| Permissions.RolePredicatesMatchRole | api/permissions.py:5-11 | IsAdminUser and IsTechnicianUser hold exactly for signed-in users whose profile has that role; never both, never for the anonymous user |
| Permissions.OwnerOrAdminAdmitsOwnersAndAdmins | api/permissions.py:13-17 | admins pass on every report; anyone else passes exactly on their own reports |
| Permissions.CitizenOwnerIsRefusedStatusChange | api/permissions.py:19-25 | a requester with the citizen role is refused the status-change permission, even on their own report |
| Permissions.StatusChangeImpliesDetailAccess | api/permissions.py:19-39 | for a signed-in user with a profile, the status-change permission never faults and implies the detail permission |
| Permissions.ViewingDoesNotImplyStatusChange | api/permissions.py:28-39 | the citizen who filed a report may view it but is refused the status change |
| Permissions.DetailAccessNeedsProfile | api/permissions.py:28-32 | without a profile the detail permission is denied and the status-change permission faults |
| Permissions.AssignedUserMayViewWhateverRole | api/permissions.py:37-38 | the user a report is assigned to may view it whatever that user's role |
| AiService.DetermineClassificationAndSuggestion | api/ai_service.py:25-56 | empty input gives Unclassified with manual review; otherwise the classification is a detected label, Transformer first and Electric Pole next; the suggestion is emergency dispatch exactly when an emergency label is present, then specialised crew, then tree trimming, then routine inspection |
| AiService.MoreLabelsNeverLessUrgent | api/ai_service.py:37-43 | detecting a superset of labels never yields a less urgent suggestion |
| AiService.OrderOnlyAffectsFallbackClassification | api/ai_service.py:37-51 | the suggestion depends only on which labels were seen; so does the classification when Transformer or Electric Pole was seen |
| AiService.FallbackClassificationIsFirstLabel | api/ai_service.py:50-51 | with neither preferred class present, the classification is the first label the set yields |
| Serializers.ChangedFields | api/models.py:76-89 | a column is reported changed exactly when the two rows differ in it |
| Serializers.NoChangedFieldsMeansSameRow | api/models.py:76-89 | no changed column means the two rows are equal |
| Serializers.Deserialize | api/serializers.py:105-121 | validation fails exactly when a whitelisted key is invalid, naming exactly those keys; on success each supplied whitelisted key is written and every other column keeps its value |
| Serializers.DeserializeWritesOnlyWhitelist | api/serializers.py:105-121 | a saved update changes no column outside the serializer's field list |
| Serializers.DeserializeSetsNamedStatus | api/serializers.py:115-121 | a serializer whose fields include status saves the status the request names |
| Serializers.DeserializeIsIdempotent | api/serializers.py:105-121 | saving the same request body twice gives the same row as saving it once |
| Serializers.UnlistedKeysAreIgnored | api/serializers.py:81-84 | two request bodies that agree on the whitelisted keys produce the same outcome |
| Serializers.StatusSerializerWritesOnlyStatus | api/serializers.py:105-108 | a valid status body changes the status column and nothing else |
| Serializers.StatusSerializerSetsStatus | api/serializers.py:105-108 | a body naming a status saves exactly the row with that status |
| Serializers.AssignmentSerializerWritesOnlyTechnician | api/serializers.py:110-113 | the assignment serializer always validates, writes the technician it is given and changes nothing else |
| Serializers.AdminEditorKeepsOwnershipAndEvidence | api/serializers.py:115-121 | the admin editor never changes the citizen, the image, the upload id or the coordinates |
| Serializers.UpdateSuggestionStatus | api/serializers.py:123-126 | fails exactly on an unknown status name; otherwise only the status changes, to the one named |
| Serializers.SuggestionErrors | api/serializers.py:99-103 | one error per failing key: `suggestion_text` when missing ("This field is required.") or empty ("This field may not be blank."), `status` when it is not a choice; both when both fail |
| Serializers.CreateSuggestion | api/serializers.py:99-103 | a suggestion is created exactly when the text is present and non-empty and any given status is valid; otherwise the answer is the error of every failing key; the suggestion belongs to the requester and has the status the body names, or Submitted when it names none |
| Serializers.CreationIsDefaultThenStatusUpdate | api/serializers.py:99-126 | creating a suggestion with valid text gives the same outcome as creating it with the default status and then applying the status serializer to the same body, and a second application of the status serializer changes nothing |
| Serializers.CreateReportUpdate | api/serializers.py:68-73 | the update is created exactly when no key fails validation, and otherwise the answer is the error of every failing key; its technician, id and creation time come from the server and its report is the parent; an uploaded photo is stored at the parent report's technician path under its file name |
| Serializers.RemarkErrors | api/serializers.py:68-73 | one error per failing key: `remark` when missing or empty, `image` when the uploaded photo fails the image checks; both when both fail |
| Serializers.UploadError | api/models.py:121 | an uploaded photo is refused exactly when it has no file name ("No filename could be determined."), else when it is empty ("The submitted file is empty."), else when it is not a readable picture (DRF's invalid-image message) |
| Serializers.ReadOnlyKeysAreIgnored | api/serializers.py:72-73 | the client's id, technician and created_at never affect the saved update |
| Serializers.ValidateLogin | api/serializers.py:17-19 | login succeeds exactly for an authenticated, active account, returning it; otherwise "Incorrect Credentials" |
| Serializers.NormalizeEmail | api/serializers.py:33 | `create_user` stores the address with the part after its last `@` lower-cased and the rest kept; without `@` it is stored as given; the cut point does not move |
| Serializers.NormalizeEmailIsIdempotent | api/serializers.py:33 | normalizing a stored address again leaves it unchanged |
| Serializers.AccountErrors | api/serializers.py:26-51 | one error per failing key: `email` when an account already stores that exact address, `password` when blank or (for registration) missing, `profile` when missing; all failing keys together |
| Serializers.CreateAccount | api/serializers.py:33-37 | the save fails exactly when the username is taken (a database error, not a field error); otherwise the username is the email as given, the stored email is its normalized form, and the profile is saved with the account |
| Serializers.Register | api/serializers.py:26-37 | any failing key gives the error map of every failing key; registration succeeds exactly when the password is present and non-blank, a profile is given, and neither the email nor the username is taken; the account then has the email as username, its normalized form as email, and the given password and profile |
| Serializers.CreateManagedUser | api/serializers.py:39-51 | any failing key gives the error map of every failing key; creation succeeds exactly when the password is absent or non-blank, a profile is given, and neither the email nor the username is taken; a missing password becomes DefaultPassword123, a given one is used |
| Serializers.RegistrationMayChooseAdminRole | api/serializers.py:26-37 | self-registration with role admin and a fresh email succeeds and yields an admin |
| Tasks.RunAiAnalysis | api/ai_service.py:13-23 | no answer exactly when the detector gave none; otherwise exactly the rule engine's answer on the detected labels, Unclassified for none and a detected label otherwise |
| Tasks.ApplyAnalysis | api/tasks.py:12-27 | no image leaves the row unchanged; with one the status becomes Received and the classification and suggestion are copied, or the classification becomes Manual Review Required with the suggestion kept; only those three columns change |
| Tasks.AnalyzeReportImageTask | api/tasks.py:5-29 | a named report with an image becomes the analysis applied to it; no other report changes; a missing id or a report without an image changes nothing; ai_priority is never touched |
| Tasks.AnalysisIsIdempotent | api/tasks.py:10-27 | running the task twice on the same detector output equals running it once |
| Tasks.CreatedReportIsAnalysedIffPhotographed | api/views.py:111-114 | the task started on a new report moves it to Received when it was filed with a photo and leaves it in Pending Analysis otherwise |
| ReportViews.TableMatchesPermittedMoves | api/views.py:257-259 | the transition table allows exactly the six listed (role, from, to) moves |
| ReportViews.AllowedListIsPermittedMoves | api/views.py:257-259 | the list a role gets for a current status is exactly its permitted moves from that status |
| ReportViews.TransitionTargetsAreStatusChoices | api/views.py:257 | every target in the table is one of the six stored statuses |
| ReportViews.UpdateStatus | api/views.py:256-262 | 403 exactly for the citizen role; the status changes exactly on a permitted move and nothing else changes; any other request is 400 with the message naming both statuses and the role's allowed list for the current status, in the table's order (empty when the current status has no entry) |
| ReportViews.StatusUpdateView | api/views.py:250-262 | server error exactly without a profile; the status changes exactly when an admin or the assigned technician requests a move the table permits, and then only the status changes; a citizen is refused before the table |
| ReportViews.CitizenCannotChangeStatus | api/views.py:258 | a requester with the citizen role never changes a report's status |
| ReportViews.PendingAndClosedHaveNoNextStatus | api/views.py:257-260 | no request moves a report out of Pending Analysis or Closed |
| ReportViews.TechnicianMovesForwardOnly | api/views.py:257 | a technician only moves Assigned to In Progress and In Progress to Resolved |
| ReportViews.AssignView | api/views.py:180-187 | admins only; a Received or Pending Analysis report becomes Assigned, any other keeps its status; only the technician and status columns change |
| ReportViews.UnassigningStillMarksAssigned | api/views.py:184-187 | clearing the technician of a Received report still marks it Assigned |
| ReportViews.CreateValidation | api/serializers.py:81-84 | the creation serializer accepts a body exactly when both coordinates are present, an uploaded photo passes the image checks, and the category and priority, when given, are null, empty or a choice |
| ReportViews.CreateReport | api/views.py:105-112 | anonymous requests are refused; a signed-in user's body is rejected exactly when the creation checks fail; otherwise the saved row has that user as citizen, status Pending Analysis and the given coordinates |
| ReportViews.NewReportRow | api/views.py:111-112 | the saved row has the requester as citizen, status Pending Analysis, no technician and no analysis; the category, description, address, priority and coordinates the body gives, each at its model default when absent; and an uploaded photo stored under the report's own citizen path |
| ReportViews.CreationIgnoresOwnershipKeys | api/serializers.py:81-84 | a client's citizen, status or technician keys never affect the created report |
| ReportViews.AdminEditView | api/views.py:173-178 | admins only; for an admin the edit succeeds exactly when the admin update serializer validates the body, saving exactly its row, and otherwise answers its errors; an edit changes only the serializer's seven columns and sets any status it names |
| ReportViews.EditorBypassesWorkflow | api/views.py:173-178 | through the editor an admin can set a Closed report back to Received, which the workflow forbids |
| ReportViews.EditorSetsAnyStatus | api/views.py:173-178 | for every admin, current status and named status, the editor stores exactly that status and changes nothing else, whether or not the workflow lists the move |
| ReportViews.AddRemarkView | api/views.py:229-239 | an anonymous requester is told credentials are missing; other non-technicians get the default 403; the body is validated first and an invalid one answers the error of every failing key; a server error exactly when the report is missing or not assigned to the requester; otherwise the update the serializer builds is saved, with the requester as technician whatever the body says |
| ReportViews.MissingReportCrashesTheView | api/views.py:236-237 | every valid remark for a report id with no report gives a server error, not 404 |
| ReportViews.AddRemarkViewIntended | api/views.py:236-238 | never a server error; a missing report answers 404 "Report not found."; an unassigned technician 403 "You are not assigned to this report."; every other outcome is the view's own |
| ReportViews.MissingReportIsNotFound | api/views.py:236-237 | with the intended lookup every valid remark for a missing report is answered 404 |
| ReportViews.UnassignedTechnicianCrashesTheView | api/views.py:238 | every valid remark by a technician not assigned to an existing report gives a server error, not 403 |
| ReportViews.UnassignedTechnicianIsRefused | api/views.py:238 | with the intended refusal the same request is answered 403 "You are not assigned to this report." |
| ReportQueries.Where | api/views.py:127 | selects every row the filter keeps, as many times as it occurs, and no other |
| ReportQueries.SortNewestFirst | api/views.py:127 | the result is ordered newest first and is a permutation of the input |
| ReportQueries.MyReports | api/views.py:123-127 | exactly the requester's own reports, each as often as in the table, newest first |
| ReportQueries.AssignedReports | api/views.py:222-227 | exactly the reports assigned to the caller with status Assigned or In Progress, newest first |
| ReportQueries.MyReportsView | api/views.py:123-127 | listed exactly for a signed-in requester; the list is exactly their reports, newest first |
| ReportQueries.AssignedReportsView | api/views.py:222-227 | listed exactly for a technician; the list is exactly their open assignments, newest first |
| ReportQueries.ClosedWorkLeavesTheList | api/views.py:227 | a report in any status other than Assigned or In Progress is in no technician's list |
| ReportQueries.ReportsByCategory | api/views.py:164-165 | the keys are exactly the non-empty categories present; each maps to the number of reports in it |
| ReportQueries.DailyReports | api/views.py:166-169 | the keys are the seven days up to today plus any later day with reports; each value is the number of reports created that day |
| ReportQueries.DailyReportsHaveSevenKeys | api/views.py:166-169 | with no report dated after today, the keys are exactly the seven days today-6 to today, zero where no report was made |
| ReportQueries.FutureDatedReportAddsAKey | api/views.py:167-169 | a report dated after today adds its day as an extra key |
| ReportQueries.DisjointSelectionsFit | api/views.py:160-161 | the in-progress and resolved counts together never exceed the number of rows |
| ReportQueries.CreatedOnCountsTheDay | api/views.py:163 | the count of reports created on a day is that day's multiplicity in the created-day column |
| ReportQueries.InStatusCountsTheStatus | api/views.py:162-163 | the number of rows in a status is the multiplicity of that status in the status column |
| ReportQueries.Dashboard | api/views.py:158-170 | total is the row count; in progress and resolved are the numbers of rows in those statuses, and together never exceed the total; new-today equals today's entry of the daily map; the category and daily maps are the per-category and per-day counts |
| ReportQueries.DashboardView | api/views.py:156-171 | figures are given exactly to admins, and they are the dashboard's figures for the table |
| AuthViews.TextFieldError | api/serializers.py:53-55 | a required string field errs exactly when it is missing or empty |
| AuthViews.LoginView | api/views.py:45-53 | a token, id, email and role are returned exactly for present credentials of an active account with a profile; missing or empty fields are reported per key; bad credentials give "Incorrect Credentials"; an active account without a profile is a server error |
| AuthViews.ChangePasswordView | api/views.py:55-69 | anonymous requests are refused; missing or empty fields are reported per key with 400; the password changes exactly when both fields are present and the old one is the current password; a wrong old password gives 400 "Wrong password." |
| AuthViews.Authenticate | api/serializers.py:17-18 | the username/password backend the login calls: it returns only an active account of the table with that username and password, and in a table of unique usernames it returns one exactly when such an account exists |
| AuthViews.PasswordChangeMovesTheLogin | api/views.py:45-69 | once a password change is saved, signing in with the new password yields that account, and signing in with a different old password is refused with "Incorrect Credentials" |
| TextCase.FoldIsIdempotent | api/views.py:76 | ASCII case folding is idempotent |
| AuthViews.AccountsWithEmail | api/views.py:76 | exactly the accounts whose email equals the given one ignoring case, each as often as in the table |
| AuthViews.PasswordResetRequest | api/views.py:71-84 | 400 exactly for a missing or empty email; one mail exactly when one account matches, sent to its stored address; a server error exactly when several match; otherwise the generic 200 |
| AuthViews.ResetRequestDoesNotRevealAccounts | api/views.py:75-84 | a registered and an unknown email get the same reply; only the registered one sends mail |
| AuthViews.StoredEmailMatchesTypedEmail | api/views.py:76 | an account's normalized stored email matches, ignoring case, the address it was created with |
| AuthViews.TwoMatchesMakeResetFail | api/views.py:76-77 | two different accounts matching the typed address make the reset request fail |
| AuthViews.DomainCaseVariantBreaksReset | api/serializers.py:28-33 | an address differing from a stored one only in its domain's case passes the uniqueness check and is stored equal to it, after which every reset request for it fails |
| AuthViews.FindAccount | api/views.py:93 | returns an account with the given id, or none exactly when no account has it |
| AuthViews.SetPassword | api/views.py:96-97 | the accounts with the id get the new password; all others are untouched |
| AuthViews.PasswordResetConfirm | api/views.py:86-99 | 400 "required" when a field is missing or empty; 200 exactly when the uid decodes to an account whose token checks, and only then is that account's password changed; every other complete request is 400 "Invalid token or user ID." |
| AuthViews.UnknownUidChangesNothing | api/views.py:91-99 | a uid naming no account gives "Invalid token or user ID." and changes nothing |
| ResetPage.ErrorOr | Test/app.js:28-31 | a present non-empty error is shown, otherwise the fallback |
| ResetPage.ShowReply | Test/app.js:14-35 | a connection or JSON failure shows the connection message; a 2xx reply is the only success; other JSON replies show the error or the fallback, and a permission refusal, which has no `error` key, the fallback |
| ResetPage.ShowRequestResult | Test/app.js:23-34 | on success the server message with the console hint appended; otherwise the error or "An error occurred." |
| ResetPage.EmptyEmailShowsRequiredError | Test/app.js:11-30 | submitting an empty email shows the server's "Email is required." as an error |
| ResetPage.EveryAddressShowsTheSameNotice | Test/app.js:25-27 | every address matched by at most one account shows the same success line |
| ResetPage.CaseTwinAccountsLookLikeAnOutage | Test/app.js:23-34 | two case-twin accounts make the page report a connection failure |
| ResetPage.ConfirmSubmit | Test/app.js:53-71 | a local error exactly when the passwords differ (checked first) or uid or token is missing or empty; otherwise it sends uid, token and password |
| ResetPage.ShowConfirmResult | Test/app.js:74-85 | on success the server message, empty when absent; otherwise the error or the link fallback |
| ResetPage.PostedRequestsHaveLinkParts | Test/app.js:53-63 | a posted request always has matching passwords, a uid and a token |
| ResetPage.EmptyPasswordsReachTheServer | Test/app.js:53-81 | two empty passwords pass the page's check and show the server's "uid, token, and password are required." |
| ResetPage.ValidLinkResetsThePassword | Test/app.js:65-78 | a valid link with matching passwords shows the server's success line and stores the new password |

## Left out

- Object detection, meaning YOLO model loading and inference. The labels the detector reports are a parameter of the task.
- The background thread that starts the analysis. The analysis is modelled as a later, separate step.
- Sending mail. The reset request's mail is an output value.
- PDF rendering.
- Token creation, password hashing, base64 uid encoding and the reset-token generator. Each is a parameter or a plain value; `password` stands for what `check_password` accepts.
- Django's authentication backend inside the login view. The view takes what `authenticate` returned as a parameter; `AuthViews.Authenticate` models the username/password backend for the lemmas that connect a password change to the login.
- Wall-clock time and time zones. `today` is a parameter and days are integers. `resolved_at` and `updated_at` are not modelled, because the stamp at views.py:261 goes to an object that `super().update` does not save.
- URL routing, the seed scripts, the browser portals' JavaScript, and the DOM and `fetch`.
- The 404 that `get_object` answers for a missing primary key in the status, assignment, detail and editor views. Those views take the row itself; only the remark view, which looks its report up by hand, models a missing row.
- Foreign-key existence checks on `assigned_technician`. Technicians are user ids and are not looked up.
- Email format, maximum lengths and decimal precision of coordinates. These are checked by DRF field validators that the model does not include.
- The suggestion list views (views.py:129-133, 151-154) and the technician and user lists (views.py:144-149, 208-216). They are plain admin or owner querysets, not part of the modelled core.
- The response serializers' nested representations (ReportListDetailSerializer and friends). Replies carry the rows themselves.
- Serializers.CreateSuggestion: does not strip surrounding whitespace as DRF's CharField does, so a whitespace-only text counts as non-blank.
- Serializers.CreateReportUpdate: does not strip surrounding whitespace, as above; stores the photo at the upload path exactly, without the storage's renaming and sanitising of file names. Whether a file opens as a picture is an input of the upload, not computed.
- ReportViews.NewReportRow: stores the photo at the upload path exactly, without the storage's renaming and sanitising of file names.
- Serializers.NormalizeEmail: lower-cases ASCII letters only, where Python's `str.lower` lower-cases every letter.
- Serializers.CreateAccount: keeps the username exactly as typed, without the NFKC normalization `normalize_username` applies; the two differ only for addresses with non-ASCII compatibility characters.
- Serializers.Register: does not strip surrounding whitespace from the password or the email as DRF's CharField and EmailField do, so a padded email is saved as the username and compared by the uniqueness check with its padding, and a whitespace-only password counts as non-blank; does not enforce the password's 128-character limit; the nested profile, when present, is taken as valid, so an unknown role or gender choice inside it is not reported.
- Serializers.CreateManagedUser: does not strip surrounding whitespace from the password or the email, so a whitespace-only password is accepted and stored where DRF answers "This field may not be blank.", a padded one is stored with its padding, and a padded email is saved and checked for uniqueness as given; as for registration, the nested profile's own choices are taken as valid.
- Serializers.AccountErrors: checks the email and password without stripping their surrounding whitespace (see Serializers.Register); gives one message per key where DRF gives a list; assumes the email passed DRF's format check; a missing or malformed email is not modelled.
- AuthViews.LoginView: does not strip whitespace or check the email format before authenticating; its field and `non_field_errors` entries are one message each, where DRF gives a list per key.
- AuthViews.ChangePasswordView: does not strip whitespace; its error bodies carry one message per key, where DRF's serializer errors and the view's own `["Wrong password."]` are lists; the permission refusal's status and body depend on the framework's settings and are one `Denied` value.
- AuthViews.AccountsWithEmail: folds ASCII letters only; the database's case-insensitive match may fold more.
- Serializers.Deserialize: the error map is keyed by column with one message each, where DRF gives a list per key.
- Serializers.SuggestionErrors: one message per key, where DRF gives a list per key.
- Serializers.RemarkErrors: one message per key, where DRF gives a list per key.
- AuthViews.RequiredTextErrors: one message per key, where DRF gives a list per key.

## Findings

| source | as written | input that shows it | evidently intended | confidence | as-written member | corrected member |
|---|---|---|---|---|---|---|
| api/views.py:237 | `raise Response(...)`: a `Response` is not an exception, so Python raises `TypeError` and the client gets a 500 | a technician posts a valid remark for a report id with no report | answer 404 with `{"error": "Report not found."}` | high (not executed) | ReportViews.MissingReportCrashesTheView | ReportViews.AddRemarkViewIntended |
| api/views.py:238 | `permissions.PermissionDenied(...)`: `permissions` is `rest_framework.permissions` (views.py:19), which does not define `PermissionDenied`, so the name lookup raises `AttributeError` and the client gets a 500 | a technician posts a valid remark for an existing report assigned to someone else or to no one | answer 403 with "You are not assigned to this report." | high (not executed) | ReportViews.UnassignedTechnicianCrashesTheView | ReportViews.AddRemarkViewIntended |
