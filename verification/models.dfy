/** The persistent entities of the backend (api/models.py): the enumerations stored as
    text columns, the Profile / Report / Suggestion / ReportUpdate records, and the
    functions that place uploaded images under a per-report folder. */
module Models {
  import opened Wrappers

  type UserId = nat
  type ReportId = nat

  /** A point in time, in whole seconds; the model has no wall clock. */
  type Timestamp = int

  const SecondsPerDay: nat := 86400

  /** The calendar day (days since the epoch) a timestamp falls on; time zones are not modelled. */
  function DayOf(t: Timestamp): int {
    t / SecondsPerDay
  }

  // ---------------------------------------------------------------------------
  // Profile.Role
  // ---------------------------------------------------------------------------

  datatype Role = Citizen | Admin | Technician

  function RoleName(role: Role): string {
    match role
    case Citizen => "citizen"
    case Admin => "admin"
    case Technician => "technician"
  }

  /** Reads a stored role; `None` for text that is none of the three choices. */
  function ParseRole(s: string): (r: Option<Role>)
    ensures forall role :: RoleName(role) == s <==> r == Some(role)
  {
    if s == "citizen" then Some(Citizen)
    else if s == "admin" then Some(Admin)
    else if s == "technician" then Some(Technician)
    else None
  }

  /** A new profile is a citizen unless told otherwise. */
  const DefaultRole: Role := Citizen

  datatype Gender = Male | Female | OtherGender

  datatype Profile = Profile(
    fullName: string,
    phoneNumber: string,
    role: Role,
    gender: Option<Gender>,
    department: Option<string>,
    specialization: Option<string>)

  /** The fields a profile gets when only the role is known; every other field takes its default. */
  function DefaultProfile(): (p: Profile)
    ensures p.role == Citizen
    ensures p.fullName == "" && p.phoneNumber == ""
    ensures p.gender.None? && p.department.None? && p.specialization.None?
  {
    Profile("", "", DefaultRole, None, None, None)
  }

  /** Django's `User` joined with its optional one-to-one `Profile`.
      `password` stands for the credential `check_password` accepts; hashing is not modelled. */
  datatype Account = Account(
    id: UserId,
    username: string,
    email: string,
    password: string,
    isActive: bool,
    profile: Option<Profile>)

  // ---------------------------------------------------------------------------
  // Report.STATUS_CHOICES, CATEGORY_CHOICES, PRIORITY_CHOICES
  // ---------------------------------------------------------------------------

  datatype Status = PendingAnalysis | Received | Assigned | InProgress | Resolved | Closed

  function StatusName(s: Status): string {
    match s
    case PendingAnalysis => "Pending Analysis"
    case Received => "Received"
    case Assigned => "Assigned"
    case InProgress => "In Progress"
    case Resolved => "Resolved"
    case Closed => "Closed"
  }

  /** Reads a status as it arrives in a request or sits in the column. */
  function ParseStatus(s: string): (r: Option<Status>)
    ensures forall st :: StatusName(st) == s <==> r == Some(st)
  {
    if s == "Pending Analysis" then Some(PendingAnalysis)
    else if s == "Received" then Some(Received)
    else if s == "Assigned" then Some(Assigned)
    else if s == "In Progress" then Some(InProgress)
    else if s == "Resolved" then Some(Resolved)
    else if s == "Closed" then Some(Closed)
    else None
  }

  /** The stored values of the status column, in declaration order. */
  const StatusChoices: seq<string> :=
    ["Pending Analysis", "Received", "Assigned", "In Progress", "Resolved", "Closed"]

  const AllStatuses: set<Status> :=
    {PendingAnalysis, Received, Assigned, InProgress, Resolved, Closed}

  /** A report row created without an explicit status is Received. */
  const DefaultStatus: Status := Received

  /** The status column admits exactly six values, each the name of exactly one status. */
  lemma StatusChoicesAreExactlySix()
    ensures |StatusChoices| == 6
    ensures forall i, j :: 0 <= i < j < |StatusChoices| ==> StatusChoices[i] != StatusChoices[j]
    ensures forall s: Status :: s in AllStatuses && StatusName(s) in StatusChoices
    ensures forall n :: n in StatusChoices <==> ParseStatus(n).Some?
    ensures |AllStatuses| == 6
    ensures DefaultStatus in AllStatuses
  {
    forall s: Status
      ensures s in AllStatuses && StatusName(s) in StatusChoices
    {
      match s
      case PendingAnalysis => assert StatusChoices[0] == StatusName(s);
      case Received => assert StatusChoices[1] == StatusName(s);
      case Assigned => assert StatusChoices[2] == StatusName(s);
      case InProgress => assert StatusChoices[3] == StatusName(s);
      case Resolved => assert StatusChoices[4] == StatusName(s);
      case Closed => assert StatusChoices[5] == StatusName(s);
    }
  }

  datatype Category = SafetyHazard | Maintenance | PowerTheft | OtherCategory

  function CategoryName(c: Category): string {
    match c
    case SafetyHazard => "Safety Hazard"
    case Maintenance => "Maintenance"
    case PowerTheft => "Power Theft"
    case OtherCategory => "Other"
  }

  function ParseCategory(s: string): (r: Option<Category>)
    ensures forall c :: CategoryName(c) == s <==> r == Some(c)
  {
    if s == "Safety Hazard" then Some(SafetyHazard)
    else if s == "Maintenance" then Some(Maintenance)
    else if s == "Power Theft" then Some(PowerTheft)
    else if s == "Other" then Some(OtherCategory)
    else None
  }

  datatype Priority = High | Medium | Low

  function PriorityName(p: Priority): string {
    match p
    case High => "High"
    case Medium => "Medium"
    case Low => "Low"
  }

  function ParsePriority(s: string): (r: Option<Priority>)
    ensures forall p :: PriorityName(p) == s <==> r == Some(p)
  {
    if s == "High" then Some(High)
    else if s == "Medium" then Some(Medium)
    else if s == "Low" then Some(Low)
    else None
  }

  // ---------------------------------------------------------------------------
  // Suggestion.Status
  // ---------------------------------------------------------------------------

  datatype SuggestionStatus = Submitted | InReview | Implemented | Archived

  function SuggestionStatusName(s: SuggestionStatus): string {
    match s
    case Submitted => "Submitted"
    case InReview => "In Review"
    case Implemented => "Implemented"
    case Archived => "Archived"
  }

  function ParseSuggestionStatus(s: string): (r: Option<SuggestionStatus>)
    ensures forall st :: SuggestionStatusName(st) == s <==> r == Some(st)
  {
    if s == "Submitted" then Some(Submitted)
    else if s == "In Review" then Some(InReview)
    else if s == "Implemented" then Some(Implemented)
    else if s == "Archived" then Some(Archived)
    else None
  }

  /** A suggestion row created without an explicit status is Submitted. */
  const DefaultSuggestionStatus: SuggestionStatus := Submitted

  // ---------------------------------------------------------------------------
  // Records
  // ---------------------------------------------------------------------------

  /** A citizen's report. `category` and `aiPriority` are the raw nullable text columns
      (either may hold the empty string); `image` is the stored file name, if any. The `updated_at` and
      `resolved_at` stamps are not modelled. */
  datatype Report = Report(
    id: ReportId,
    uploadId: string,
    citizen: UserId,
    assignedTechnician: Option<UserId>,
    category: Option<string>,
    description: string,
    image: Option<string>,
    latitude: real,
    longitude: real,
    address: Option<string>,
    status: Status,
    aiClassification: Option<string>,
    aiPriority: Option<string>,
    aiSuggestion: Option<string>,
    createdAt: Timestamp)

  /** Python's truth test on an image field: a file is attached when its name is non-empty. */
  predicate HasImage(r: Report) {
    r.image.Some? && r.image.value != ""
  }

  datatype Suggestion = Suggestion(
    id: nat,
    citizen: UserId,
    text: string,
    status: SuggestionStatus,
    createdAt: Timestamp)

  /** A technician's remark on a report, with an optional photo. */
  datatype ReportUpdate = ReportUpdate(
    id: nat,
    report: ReportId,
    technician: UserId,
    remark: string,
    image: Option<string>,
    createdAt: Timestamp)

  // ---------------------------------------------------------------------------
  // Upload paths
  // ---------------------------------------------------------------------------

  /** The folder every image of one report lives under: `reports/<upload_id>/`. */
  function UploadFolder(uploadId: string): (folder: string)
    ensures |folder| == |uploadId| + 9
    ensures folder[..8] == "reports/" && folder[|folder| - 1] == '/'
  {
    "reports/" + uploadId + "/"
  }

  /** Where a citizen's photo of `report` is stored. */
  function ReportImagePath(report: Report, filename: string): (path: string)
    ensures UploadFolder(report.uploadId) <= path
    ensures path[|UploadFolder(report.uploadId)|..] == "citizen/" + filename
  {
    "reports/" + report.uploadId + "/citizen/" + filename
  }

  /** Where the photo of technician update `update` is stored: `parent` is the report the update
      belongs to, and the photo goes under that report's folder. */
  function UpdateImagePath(update: ReportUpdate, parent: Report, filename: string): (path: string)
    requires update.report == parent.id
    ensures UploadFolder(parent.uploadId) <= path
    ensures path[|UploadFolder(parent.uploadId)|..] == "technician/" + filename
  {
    "reports/" + parent.uploadId + "/technician/" + filename
  }

  /** For one report and one file name, the citizen's and the technician's copies share the
      report's folder but are different files. */
  lemma CitizenAndTechnicianPathsDiffer(report: Report, update: ReportUpdate, filename: string)
    requires update.report == report.id
    ensures ReportImagePath(report, filename) != UpdateImagePath(update, report, filename)
    ensures UploadFolder(report.uploadId) <= ReportImagePath(report, filename)
    ensures UploadFolder(report.uploadId) <= UpdateImagePath(update, report, filename)
  {
    var k := |UploadFolder(report.uploadId)|;
    assert ReportImagePath(report, filename)[k] == 'c';
    assert UpdateImagePath(update, report, filename)[k] == 't';
  }

  /** The index of the first slash in `s`, or `|s|` when there is none. */
  function FirstSlash(s: string): (k: nat)
    ensures k <= |s|
    ensures k < |s| ==> s[k] == '/'
    ensures forall i :: 0 <= i < k ==> s[i] != '/'
  {
    if |s| == 0 || s[0] == '/' then 0 else 1 + FirstSlash(s[1..])
  }

  /** A slash-free head followed by a slash-led tail: the first slash is where the tail begins. */
  lemma FirstSlashAfterHead(u: string, t: string)
    requires '/' !in u
    requires |t| > 0 && t[0] == '/'
    ensures FirstSlash(u + t) == |u|
  {
    var s := u + t;
    assert s[|u|] == '/';
    assert forall i :: 0 <= i < |u| ==> s[i] == u[i] && s[i] != '/';
  }

  /** The folder part of an upload path: the text between `reports/` and the next slash. */
  lemma FolderOfPath(u: string, rest: string)
    requires '/' !in u
    requires |rest| > 0 && rest[0] == '/'
    ensures FirstSlash(("reports/" + u + rest)[8..]) == |u|
    ensures ("reports/" + u + rest)[8..8 + |u|] == u
    ensures ("reports/" + u + rest)[8 + |u|..] == rest
  {
    assert ("reports/" + u + rest)[8..] == u + rest;
    FirstSlashAfterHead(u, rest);
  }

  /** When upload ids contain no slash (true of a UUID's text), a citizen photo's path
      identifies the report folder and the file name: two uploads never collide. */
  lemma CitizenPathsNeverCollide(r1: Report, f1: string, r2: Report, f2: string)
    requires '/' !in r1.uploadId && '/' !in r2.uploadId
    ensures ReportImagePath(r1, f1) == ReportImagePath(r2, f2) ==> r1.uploadId == r2.uploadId && f1 == f2
  {
    var p1, p2 := ReportImagePath(r1, f1), ReportImagePath(r2, f2);
    var c1, c2 := "/citizen/" + f1, "/citizen/" + f2;
    assert p1 == "reports/" + r1.uploadId + c1;
    assert p2 == "reports/" + r2.uploadId + c2;
    FolderOfPath(r1.uploadId, c1);
    FolderOfPath(r2.uploadId, c2);
    if p1 == p2 {
      assert c1 == c2;
      assert f1 == c1[9..];
    }
  }

  /** The same for technician photos. */
  lemma TechnicianPathsNeverCollide(u1: ReportUpdate, r1: Report, f1: string, u2: ReportUpdate, r2: Report, f2: string)
    requires u1.report == r1.id && u2.report == r2.id
    requires '/' !in r1.uploadId && '/' !in r2.uploadId
    ensures UpdateImagePath(u1, r1, f1) == UpdateImagePath(u2, r2, f2) ==> r1.uploadId == r2.uploadId && f1 == f2
  {
    var p1, p2 := UpdateImagePath(u1, r1, f1), UpdateImagePath(u2, r2, f2);
    var t1, t2 := "/technician/" + f1, "/technician/" + f2;
    assert p1 == "reports/" + r1.uploadId + t1;
    assert p2 == "reports/" + r2.uploadId + t2;
    FolderOfPath(r1.uploadId, t1);
    FolderOfPath(r2.uploadId, t2);
    if p1 == p2 {
      assert t1 == t2;
      assert f1 == t1[12..];
    }
  }

  /** No citizen photo path is ever a technician photo path, whatever reports and file names. */
  lemma CitizenAndTechnicianUploadsNeverCollide(r1: Report, f1: string, u2: ReportUpdate, r2: Report, f2: string)
    requires u2.report == r2.id
    requires '/' !in r1.uploadId && '/' !in r2.uploadId
    ensures ReportImagePath(r1, f1) != UpdateImagePath(u2, r2, f2)
  {
    var p1, p2 := ReportImagePath(r1, f1), UpdateImagePath(u2, r2, f2);
    var c1, t2 := "/citizen/" + f1, "/technician/" + f2;
    assert p1 == "reports/" + r1.uploadId + c1;
    assert p2 == "reports/" + r2.uploadId + t2;
    FolderOfPath(r1.uploadId, c1);
    FolderOfPath(r2.uploadId, t2);
    var k := |r1.uploadId|;
    if k == |r2.uploadId| {
      assert p1[9 + k] == 'c' && p2[9 + k] == 't';
    } else {
      assert FirstSlash(p1[8..]) != FirstSlash(p2[8..]);
    }
  }
}
