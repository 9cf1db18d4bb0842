/** The request-validation and write rules of api/serializers.py: which keys of a request body
    each serializer writes to a row (its writable-field whitelist), how the choice-valued keys
    are checked, the read-only keys of a technician's update, and the rules for logging in,
    registering and creating staff accounts. */
module Serializers {
  import opened Wrappers
  import opened Models
  import opened TextCase

  // ---------------------------------------------------------------------------
  // Report columns and what changed between two rows
  // ---------------------------------------------------------------------------

  datatype ReportField =
    | IdField | UploadIdField | CitizenField | AssignedTechnicianField | CategoryField
    | DescriptionField | ImageField | LatitudeField | LongitudeField | AddressField
    | StatusField | AiClassificationField | AiPriorityField | AiSuggestionField | CreatedAtField

  const AllReportFields: set<ReportField> :=
    {IdField, UploadIdField, CitizenField, AssignedTechnicianField, CategoryField,
     DescriptionField, ImageField, LatitudeField, LongitudeField, AddressField,
     StatusField, AiClassificationField, AiPriorityField, AiSuggestionField, CreatedAtField}

  /** The key a column goes by in request and response bodies. */
  function JsonKey(f: ReportField): string {
    match f
    case IdField => "id"
    case UploadIdField => "upload_id"
    case CitizenField => "citizen"
    case AssignedTechnicianField => "assigned_technician"
    case CategoryField => "category"
    case DescriptionField => "description"
    case ImageField => "image"
    case LatitudeField => "latitude"
    case LongitudeField => "longitude"
    case AddressField => "address"
    case StatusField => "status"
    case AiClassificationField => "ai_classification"
    case AiPriorityField => "ai_priority"
    case AiSuggestionField => "ai_suggestion"
    case CreatedAtField => "created_at"
  }

  /** Rows `a` and `b` hold the same value in column `f`. */
  predicate SameAt(a: Report, b: Report, f: ReportField) {
    match f
    case IdField => a.id == b.id
    case UploadIdField => a.uploadId == b.uploadId
    case CitizenField => a.citizen == b.citizen
    case AssignedTechnicianField => a.assignedTechnician == b.assignedTechnician
    case CategoryField => a.category == b.category
    case DescriptionField => a.description == b.description
    case ImageField => a.image == b.image
    case LatitudeField => a.latitude == b.latitude
    case LongitudeField => a.longitude == b.longitude
    case AddressField => a.address == b.address
    case StatusField => a.status == b.status
    case AiClassificationField => a.aiClassification == b.aiClassification
    case AiPriorityField => a.aiPriority == b.aiPriority
    case AiSuggestionField => a.aiSuggestion == b.aiSuggestion
    case CreatedAtField => a.createdAt == b.createdAt
  }

  /** The columns in which two rows differ. */
  function ChangedFields(a: Report, b: Report): (fs: set<ReportField>)
    ensures forall f :: f in fs <==> !SameAt(a, b, f)
  {
    EveryFieldListed();
    set f | f in AllReportFields && !SameAt(a, b, f)
  }

  lemma EveryFieldListed()
    ensures forall f: ReportField :: f in AllReportFields
  {
    forall f: ReportField
      ensures f in AllReportFields
    {
      match f
      case IdField =>
      case UploadIdField =>
      case CitizenField =>
      case AssignedTechnicianField =>
      case CategoryField =>
      case DescriptionField =>
      case ImageField =>
      case LatitudeField =>
      case LongitudeField =>
      case AddressField =>
      case StatusField =>
      case AiClassificationField =>
      case AiPriorityField =>
      case AiSuggestionField =>
      case CreatedAtField =>
    }
  }

  /** Two rows that differ in no column are the same row, and conversely. */
  lemma NoChangedFieldsMeansSameRow(a: Report, b: Report)
    ensures ChangedFields(a, b) == {} <==> a == b
  {
    if ChangedFields(a, b) == {} {
      forall f
        ensures SameAt(a, b, f)
      {
        assert f !in ChangedFields(a, b);
      }
      SameInEveryColumn(a, b);
    }
  }

  /** Rows that agree in every column are equal. */
  lemma SameInEveryColumn(a: Report, b: Report)
    requires forall f :: SameAt(a, b, f)
    ensures a == b
  {
    assert SameAt(a, b, IdField) && SameAt(a, b, UploadIdField) && SameAt(a, b, CitizenField);
    assert SameAt(a, b, AssignedTechnicianField) && SameAt(a, b, CategoryField);
    assert SameAt(a, b, DescriptionField) && SameAt(a, b, ImageField) && SameAt(a, b, LatitudeField);
    assert SameAt(a, b, LongitudeField) && SameAt(a, b, AddressField) && SameAt(a, b, StatusField);
    assert SameAt(a, b, AiClassificationField) && SameAt(a, b, AiPriorityField);
    assert SameAt(a, b, AiSuggestionField) && SameAt(a, b, CreatedAtField);
  }

  // ---------------------------------------------------------------------------
  // Request bodies and writable-field whitelists
  // ---------------------------------------------------------------------------

  /** A file part of a multipart request: the file name the client sent, the size of its body
      in bytes, and whether the imaging library opens the body as a picture (decided outside
      this model). */
  datatype Upload = Upload(name: string, size: nat, opensAsImage: bool)

  const NoFileNameMessage: string := "No filename could be determined."
  const EmptyFileMessage: string := "The submitted file is empty."
  const InvalidImageMessage: string :=
    "Upload a valid image. The file you uploaded was either not an image or a corrupted image."

  /** DRF's ImageField on an uploaded file: it needs a file name, then a non-empty body, then a
      body the imaging library can open; the first check that fails names the error. The views
      that take uploads parse multipart and form bodies only, and Django's multipart parser drops
      a file part whose file name is empty, so the no-name answer is not reachable through them. */
  function UploadError(up: Upload): (e: Option<string>)
    ensures e.None? <==> up.name != "" && up.size > 0 && up.opensAsImage
    ensures up.name == "" ==> e == Some(NoFileNameMessage)
    ensures up.name != "" && up.size == 0 ==> e == Some(EmptyFileMessage)
    ensures up.name != "" && up.size > 0 && !up.opensAsImage ==> e == Some(InvalidImageMessage)
  {
    if up.name == "" then Some(NoFileNameMessage)
    else if up.size == 0 then Some(EmptyFileMessage)
    else if !up.opensAsImage then Some(InvalidImageMessage)
    else None
  }

  /** The error of an optional, nullable image key: an absent key and an explicit null pass. */
  function ImageKeyError(v: Option<Option<Upload>>): (e: Option<string>)
    ensures e.Some? <==> v.Some? && v.value.Some? && UploadError(v.value.value).Some?
    ensures e.Some? ==> e == UploadError(v.value.value)
  {
    if v.Some? && v.value.Some? then UploadError(v.value.value) else None
  }

  /** The file name an image column is saved with before `upload_to` places it. */
  function StoredName(v: Option<Upload>): (name: Option<string>)
    ensures name.None? <==> v.None?
    ensures name.Some? ==> name.value == v.value.name
  {
    match v
    case None => None
    case Some(up) => Some(up.name)
  }

  /** The keys a request body may carry for a report. `None` is an absent key and, for nullable
      columns, `Some(None)` an explicit JSON null. Choice-valued keys arrive as raw text. */
  datatype ReportInput = ReportInput(
    citizen: Option<UserId>,
    assignedTechnician: Option<Option<UserId>>,
    category: Option<Option<string>>,
    description: Option<string>,
    image: Option<Option<Upload>>,
    latitude: Option<real>,
    longitude: Option<real>,
    address: Option<Option<string>>,
    status: Option<string>,
    aiClassification: Option<Option<string>>,
    aiPriority: Option<Option<string>>,
    aiSuggestion: Option<Option<string>>)

  const EmptyInput: ReportInput :=
    ReportInput(None, None, None, None, None, None, None, None, None, None, None, None)

  /** ReportStatusSerializer: `status` only. */
  const StatusSerializerFields: set<ReportField> := {StatusField}
  /** ReportAssignmentSerializer: `assigned_technician` only. */
  const AssignmentSerializerFields: set<ReportField> := {AssignedTechnicianField}
  /** AdminReportUpdateSerializer. */
  const AdminUpdateSerializerFields: set<ReportField> :=
    {CategoryField, DescriptionField, StatusField, AssignedTechnicianField,
     AiClassificationField, AiPriorityField, AiSuggestionField}
  /** ReportCreateSerializer. */
  const CreateSerializerFields: set<ReportField> :=
    {CategoryField, DescriptionField, ImageField, LatitudeField, LongitudeField, AddressField, AiPriorityField}

  /** The request carries a key for column `f`. */
  predicate Supplied(input: ReportInput, f: ReportField) {
    match f
    case CitizenField => input.citizen.Some?
    case AssignedTechnicianField => input.assignedTechnician.Some?
    case CategoryField => input.category.Some?
    case DescriptionField => input.description.Some?
    case ImageField => input.image.Some?
    case LatitudeField => input.latitude.Some?
    case LongitudeField => input.longitude.Some?
    case AddressField => input.address.Some?
    case StatusField => input.status.Some?
    case AiClassificationField => input.aiClassification.Some?
    case AiPriorityField => input.aiPriority.Some?
    case AiSuggestionField => input.aiSuggestion.Some?
    case _ => false
  }

  /** DRF's message for a value outside a field's choices. */
  function InvalidChoice(s: string): string {
    "\"" + s + "\" is not a valid choice."
  }

  const RequiredMessage: string := "This field is required."
  const BlankMessage: string := "This field may not be blank."

  /** A nullable, blank-allowed choice column accepts null, the empty string, or a choice. */
  predicate ValidOptionalChoice(v: Option<string>, isChoice: string -> bool) {
    v.None? || v.value == "" || isChoice(v.value)
  }

  predicate IsCategory(s: string) { ParseCategory(s).Some? }
  predicate IsPriority(s: string) { ParsePriority(s).Some? }

  /** The validation error the serializer reports for column `f`, if any. A full (non-partial)
      write also demands the keys that have neither a default nor a null allowance. */
  function KeyError(input: ReportInput, f: ReportField, partial: bool): (e: Option<string>)
    ensures e.Some? && f == StatusField ==> input.status.Some? && ParseStatus(input.status.value).None?
    ensures e.Some? && f in {LatitudeField, LongitudeField} ==> !partial
    ensures e.Some? && f == ImageField ==> e == ImageKeyError(input.image)
  {
    match f
    case StatusField =>
      if input.status.Some? && ParseStatus(input.status.value).None? then Some(InvalidChoice(input.status.value)) else None
    case CategoryField =>
      if input.category.Some? && !ValidOptionalChoice(input.category.value, IsCategory)
      then Some(InvalidChoice(input.category.value.value)) else None
    case AiPriorityField =>
      if input.aiPriority.Some? && !ValidOptionalChoice(input.aiPriority.value, IsPriority)
      then Some(InvalidChoice(input.aiPriority.value.value)) else None
    case ImageField => ImageKeyError(input.image)
    case LatitudeField => if !partial && input.latitude.None? then Some(RequiredMessage) else None
    case LongitudeField => if !partial && input.longitude.None? then Some(RequiredMessage) else None
    case _ => None
  }

  /** The value of column `f` in `r` is the one the request supplied for it. */
  predicate Carries(r: Report, input: ReportInput, f: ReportField) {
    match f
    case CitizenField => input.citizen == Some(r.citizen)
    case AssignedTechnicianField => input.assignedTechnician == Some(r.assignedTechnician)
    case CategoryField => input.category == Some(r.category)
    case DescriptionField => input.description == Some(r.description)
    case ImageField => input.image.Some? && r.image == StoredName(input.image.value)
    case LatitudeField => input.latitude == Some(r.latitude)
    case LongitudeField => input.longitude == Some(r.longitude)
    case AddressField => input.address == Some(r.address)
    case StatusField => input.status == Some(StatusName(r.status))
    case AiClassificationField => input.aiClassification == Some(r.aiClassification)
    case AiPriorityField =>
      input.aiPriority.Some? && r.aiPriority == input.aiPriority.value
    case AiSuggestionField => input.aiSuggestion == Some(r.aiSuggestion)
    case _ => false
  }

  function Take<T>(f: ReportField, fields: set<ReportField>, given: Option<T>, current: T): T {
    if f in fields && given.Some? then given.value else current
  }

  /** Saves the supplied keys of `fields` onto `r`, a key the status column cannot read
      leaving it alone (validation rules that case out beforehand). */
  function Write(fields: set<ReportField>, r: Report, input: ReportInput): Report {
    var status :=
      if StatusField in fields && input.status.Some? && ParseStatus(input.status.value).Some?
      then ParseStatus(input.status.value).value else r.status;
    Report(
      r.id, r.uploadId,
      Take(CitizenField, fields, input.citizen, r.citizen),
      Take(AssignedTechnicianField, fields, input.assignedTechnician, r.assignedTechnician),
      Take(CategoryField, fields, input.category, r.category),
      Take(DescriptionField, fields, input.description, r.description),
      Take(ImageField, fields, if input.image.Some? then Some(StoredName(input.image.value)) else None, r.image),
      Take(LatitudeField, fields, input.latitude, r.latitude),
      Take(LongitudeField, fields, input.longitude, r.longitude),
      Take(AddressField, fields, input.address, r.address),
      status,
      Take(AiClassificationField, fields, input.aiClassification, r.aiClassification),
      Take(AiPriorityField, fields, input.aiPriority, r.aiPriority),
      Take(AiSuggestionField, fields, input.aiSuggestion, r.aiSuggestion),
      r.createdAt)
  }

  /** Column by column: a supplied writable key is carried into the row, every other column kept. */
  lemma WriteCarriesAndKeeps(fields: set<ReportField>, r: Report, input: ReportInput)
    requires StatusField in fields && input.status.Some? ==> ParseStatus(input.status.value).Some?
    ensures forall f :: f in fields && Supplied(input, f) ==> Carries(Write(fields, r, input), input, f)
    ensures forall f :: f !in fields || !Supplied(input, f) ==> SameAt(r, Write(fields, r, input), f)
  {
    var w := Write(fields, r, input);
    forall f | f in fields && Supplied(input, f)
      ensures Carries(w, input, f)
    {
      match f
      case StatusField =>
        var st := ParseStatus(input.status.value).value;
        assert StatusName(st) == input.status.value;
      case _ =>
    }
    forall f | f !in fields || !Supplied(input, f)
      ensures SameAt(r, w, f)
    {
    }
  }

  /** A model serializer whose writable keys are `fields`, validating `input` and saving it onto `r`.
      Keys outside `fields` are ignored; supplied keys inside it overwrite their column; every other
      column keeps its value. Any validation error leaves the row as it was. */
  function Deserialize(fields: set<ReportField>, r: Report, input: ReportInput, partial: bool)
    : (res: Result<Report, map<ReportField, string>>)
    ensures res.Failure? <==> exists f :: f in fields && KeyError(input, f, partial).Some?
    ensures res.Failure? ==> forall f :: f in res.error <==> f in fields && KeyError(input, f, partial).Some?
    ensures res.Success? ==> forall f :: f in fields && Supplied(input, f) ==> Carries(res.value, input, f)
    ensures res.Success? ==> forall f :: f !in fields || !Supplied(input, f) ==> SameAt(r, res.value, f)
  {
    if exists f :: f in fields && KeyError(input, f, partial).Some? then
      Failure(map f | f in fields && KeyError(input, f, partial).Some? :: KeyError(input, f, partial).value)
    else
      assert KeyError(input, StatusField, partial).None? || StatusField !in fields;
      WriteCarriesAndKeeps(fields, r, input);
      Success(Write(fields, r, input))
  }

  /** Without validation errors, a save is exactly the column-wise write. */
  lemma DeserializeIsWrite(fields: set<ReportField>, r: Report, input: ReportInput, partial: bool)
    requires forall f :: f in fields ==> KeyError(input, f, partial).None?
    ensures Deserialize(fields, r, input, partial) == Success(Write(fields, r, input))
  {
  }

  /** Two request bodies carry the same value (or the same absence) for column `f`. */
  predicate SameKey(a: ReportInput, b: ReportInput, f: ReportField) {
    match f
    case CitizenField => a.citizen == b.citizen
    case AssignedTechnicianField => a.assignedTechnician == b.assignedTechnician
    case CategoryField => a.category == b.category
    case DescriptionField => a.description == b.description
    case ImageField => a.image == b.image
    case LatitudeField => a.latitude == b.latitude
    case LongitudeField => a.longitude == b.longitude
    case AddressField => a.address == b.address
    case StatusField => a.status == b.status
    case AiClassificationField => a.aiClassification == b.aiClassification
    case AiPriorityField => a.aiPriority == b.aiPriority
    case AiSuggestionField => a.aiSuggestion == b.aiSuggestion
    case _ => true
  }

  lemma SameKeysSameErrors(fields: set<ReportField>, a: ReportInput, b: ReportInput, partial: bool)
    requires forall f :: f in fields ==> SameKey(a, b, f)
    ensures forall f :: f in fields ==> KeyError(a, f, partial) == KeyError(b, f, partial)
  {
    forall f | f in fields
      ensures KeyError(a, f, partial) == KeyError(b, f, partial)
    {
      assert SameKey(a, b, f);
    }
  }

  lemma SameKeysSameWrite(fields: set<ReportField>, r: Report, a: ReportInput, b: ReportInput)
    requires forall f :: f in fields ==> SameKey(a, b, f)
    ensures Write(fields, r, a) == Write(fields, r, b)
  {
    var wa, wb := Write(fields, r, a), Write(fields, r, b);
    assert wa.status == wb.status by {
      assert StatusField in fields ==> SameKey(a, b, StatusField);
    }
    assert wa.citizen == wb.citizen by {
      assert CitizenField in fields ==> SameKey(a, b, CitizenField);
    }
    assert wa.assignedTechnician == wb.assignedTechnician by {
      assert AssignedTechnicianField in fields ==> SameKey(a, b, AssignedTechnicianField);
    }
    assert wa.category == wb.category by {
      assert CategoryField in fields ==> SameKey(a, b, CategoryField);
    }
    assert wa.description == wb.description by {
      assert DescriptionField in fields ==> SameKey(a, b, DescriptionField);
    }
    assert wa.image == wb.image by {
      assert ImageField in fields ==> SameKey(a, b, ImageField);
    }
    assert wa.latitude == wb.latitude by {
      assert LatitudeField in fields ==> SameKey(a, b, LatitudeField);
    }
    assert wa.longitude == wb.longitude by {
      assert LongitudeField in fields ==> SameKey(a, b, LongitudeField);
    }
    assert wa.address == wb.address by {
      assert AddressField in fields ==> SameKey(a, b, AddressField);
    }
    assert wa.aiClassification == wb.aiClassification by {
      assert AiClassificationField in fields ==> SameKey(a, b, AiClassificationField);
    }
    assert wa.aiPriority == wb.aiPriority by {
      assert AiPriorityField in fields ==> SameKey(a, b, AiPriorityField);
    }
    assert wa.aiSuggestion == wb.aiSuggestion by {
      assert AiSuggestionField in fields ==> SameKey(a, b, AiSuggestionField);
    }
  }

  /** Keys outside a serializer's whitelist make no difference at all: two bodies that agree on
      the writable keys are validated and saved identically. */
  lemma UnlistedKeysAreIgnored(fields: set<ReportField>, r: Report, a: ReportInput, b: ReportInput, partial: bool)
    requires forall f :: f in fields ==> SameKey(a, b, f)
    ensures Deserialize(fields, r, a, partial) == Deserialize(fields, r, b, partial)
  {
    SameKeysSameErrors(fields, a, b, partial);
    var ea := map f | f in fields && KeyError(a, f, partial).Some? :: KeyError(a, f, partial).value;
    var eb := map f | f in fields && KeyError(b, f, partial).Some? :: KeyError(b, f, partial).value;
    assert ea.Keys == eb.Keys;
    assert ea == eb;
    if forall f :: f in fields ==> KeyError(a, f, partial).None? {
      SameKeysSameWrite(fields, r, a, b);
    }
  }

  /** A successful save changes no column outside the serializer's writable keys. */
  lemma DeserializeWritesOnlyWhitelist(fields: set<ReportField>, r: Report, input: ReportInput, partial: bool)
    requires Deserialize(fields, r, input, partial).Success?
    ensures ChangedFields(r, Deserialize(fields, r, input, partial).value) <= fields
  {
  }

  /** A whitelist with the status column saves the status a valid request names. */
  lemma DeserializeSetsNamedStatus(fields: set<ReportField>, r: Report, input: ReportInput, partial: bool)
    requires StatusField in fields && Deserialize(fields, r, input, partial).Success?
    ensures input.status.Some? ==> StatusName(Deserialize(fields, r, input, partial).value.status) == input.status.value
  {
    if input.status.Some? {
      assert Supplied(input, StatusField);
      assert Carries(Deserialize(fields, r, input, partial).value, input, StatusField);
    }
  }

  /** Saving the same request twice is the same as saving it once. */
  lemma DeserializeIsIdempotent(fields: set<ReportField>, r: Report, input: ReportInput, partial: bool)
    requires Deserialize(fields, r, input, partial).Success?
    ensures Deserialize(fields, Deserialize(fields, r, input, partial).value, input, partial)
         == Deserialize(fields, r, input, partial)
  {
  }

  /** The status serializer changes at most `status`, and sets it to the requested choice. */
  lemma StatusSerializerWritesOnlyStatus(r: Report, input: ReportInput, partial: bool)
    requires input.status.Some? && ParseStatus(input.status.value).Some?
    ensures Deserialize(StatusSerializerFields, r, input, partial).Success?
    ensures ChangedFields(r, Deserialize(StatusSerializerFields, r, input, partial).value) <= {StatusField}
    ensures Deserialize(StatusSerializerFields, r, input, partial).value.status == ParseStatus(input.status.value).value
  {
    var res := Deserialize(StatusSerializerFields, r, input, partial);
    assert forall f :: f in StatusSerializerFields ==> KeyError(input, f, partial).None?;
    assert Carries(res.value, input, StatusField);
  }

  /** The status serializer's save, row for row: a valid requested status replaces the current
      one and nothing else. */
  lemma StatusSerializerSetsStatus(r: Report, input: ReportInput, partial: bool, target: Status)
    requires input.status == Some(StatusName(target))
    ensures Deserialize(StatusSerializerFields, r, input, partial) == Success(r.(status := target))
  {
    assert ParseStatus(input.status.value) == Some(target);
    assert forall f :: f in StatusSerializerFields ==> KeyError(input, f, partial).None?;
  }

  /** The assignment serializer never fails and changes at most `assigned_technician`. */
  lemma AssignmentSerializerWritesOnlyTechnician(r: Report, input: ReportInput, partial: bool)
    ensures Deserialize(AssignmentSerializerFields, r, input, partial).Success?
    ensures ChangedFields(r, Deserialize(AssignmentSerializerFields, r, input, partial).value) <= {AssignedTechnicianField}
    ensures input.assignedTechnician.Some? ==>
      Deserialize(AssignmentSerializerFields, r, input, partial).value.assignedTechnician == input.assignedTechnician.value
  {
    var res := Deserialize(AssignmentSerializerFields, r, input, partial);
    assert forall f :: f in AssignmentSerializerFields ==> KeyError(input, f, partial).None?;
    if input.assignedTechnician.Some? {
      assert Carries(res.value, input, AssignedTechnicianField);
    }
  }

  /** The admin editor cannot move a report to another citizen, re-date it, or replace its
      photo, location or image folder. */
  lemma AdminEditorKeepsOwnershipAndEvidence(r: Report, input: ReportInput, partial: bool)
    requires Deserialize(AdminUpdateSerializerFields, r, input, partial).Success?
    ensures Deserialize(AdminUpdateSerializerFields, r, input, partial).value.citizen == r.citizen
    ensures Deserialize(AdminUpdateSerializerFields, r, input, partial).value.image == r.image
    ensures Deserialize(AdminUpdateSerializerFields, r, input, partial).value.uploadId == r.uploadId
    ensures Deserialize(AdminUpdateSerializerFields, r, input, partial).value.latitude == r.latitude
    ensures Deserialize(AdminUpdateSerializerFields, r, input, partial).value.longitude == r.longitude
    ensures Deserialize(AdminUpdateSerializerFields, r, input, partial).value.createdAt == r.createdAt
  {
    var w := Deserialize(AdminUpdateSerializerFields, r, input, partial).value;
    assert CitizenField !in AdminUpdateSerializerFields && ImageField !in AdminUpdateSerializerFields;
    assert LatitudeField !in AdminUpdateSerializerFields && LongitudeField !in AdminUpdateSerializerFields;
    assert SameAt(r, w, CitizenField) && SameAt(r, w, ImageField);
    assert SameAt(r, w, LatitudeField) && SameAt(r, w, LongitudeField);
  }

  // ---------------------------------------------------------------------------
  // Suggestions
  // ---------------------------------------------------------------------------

  /** The keys a suggestion request may carry. */
  datatype SuggestionInput = SuggestionInput(text: Option<string>, status: Option<string>)

  /** SuggestionStatusUpdateSerializer: writes `status` only, after checking it is a choice. */
  function UpdateSuggestionStatus(s: Suggestion, input: SuggestionInput): (res: Result<Suggestion, string>)
    ensures input.status.Some? && ParseSuggestionStatus(input.status.value).None? <==> res.Failure?
    ensures res.Success? ==> (res.value.id == s.id && res.value.citizen == s.citizen
      && res.value.text == s.text && res.value.createdAt == s.createdAt)
    ensures res.Success? && input.status.Some? ==> SuggestionStatusName(res.value.status) == input.status.value
    ensures res.Success? && input.status.None? ==> res.value == s
  {
    match input.status
    case None => Success(s)
    case Some(raw) =>
      match ParseSuggestionStatus(raw)
      case None => Failure(InvalidChoice(raw))
      case Some(st) => Success(s.(status := st))
  }

  /** SuggestionSerializer's validation errors, one per failing key: `suggestion_text` is
      required and may not be blank, and `status`, when given, must be a choice. */
  function SuggestionErrors(input: SuggestionInput): (errors: map<string, string>)
    ensures "suggestion_text" in errors <==> !(input.text.Some? && input.text.value != "")
    ensures "status" in errors <==> input.status.Some? && ParseSuggestionStatus(input.status.value).None?
    ensures errors.Keys <= {"suggestion_text", "status"}
    ensures "suggestion_text" in errors ==>
      errors["suggestion_text"] == (if input.text.None? then RequiredMessage else BlankMessage)
    ensures "status" in errors ==> errors["status"] == InvalidChoice(input.status.value)
  {
    var textErrors: map<string, string> :=
      if input.text.None? then map["suggestion_text" := RequiredMessage]
      else if input.text.value == "" then map["suggestion_text" := BlankMessage]
      else map[];
    if input.status.Some? && ParseSuggestionStatus(input.status.value).None?
    then textErrors["status" := InvalidChoice(input.status.value)]
    else textErrors
  }

  /** SuggestionSerializer on creation: every failing key is reported; otherwise the text is
      saved for the submitter, and the status, which is writable, is the one the submitter
      picked or Submitted by default. */
  function CreateSuggestion(citizen: UserId, input: SuggestionInput, id: nat, now: Timestamp)
    : (res: Result<Suggestion, map<string, string>>)
    ensures res.Success? <==> (input.text.Some? && input.text.value != ""
      && (input.status.None? || ParseSuggestionStatus(input.status.value).Some?))
    ensures res.Failure? ==> res.error == SuggestionErrors(input)
    ensures res.Success? ==> (res.value.citizen == citizen && res.value.text == input.text.value
      && res.value.id == id && res.value.createdAt == now)
    ensures res.Success? && input.status.Some? ==> res.value.status == ParseSuggestionStatus(input.status.value).value
    ensures res.Success? && input.status.None? ==> res.value.status == DefaultSuggestionStatus
  {
    var errors := SuggestionErrors(input);
    if errors != map[] then Failure(errors)
    else
      assert "suggestion_text" !in errors && "status" !in errors;
      var created := Suggestion(id, citizen, input.text.value, DefaultSuggestionStatus, now);
      match input.status
      case None => Success(created)
      case Some(raw) => Success(created.(status := ParseSuggestionStatus(raw).value))
  }

  /** With valid text, creation is the default suggestion followed by the status serializer on
      the same body; applying the status serializer once more changes nothing. */
  lemma CreationIsDefaultThenStatusUpdate(citizen: UserId, input: SuggestionInput, id: nat, now: Timestamp)
    requires input.text.Some? && input.text.value != ""
    ensures CreateSuggestion(citizen, input, id, now).Success? <==>
      UpdateSuggestionStatus(Suggestion(id, citizen, input.text.value, DefaultSuggestionStatus, now), input).Success?
    ensures CreateSuggestion(citizen, input, id, now).Success? ==>
      CreateSuggestion(citizen, input, id, now).value
        == UpdateSuggestionStatus(Suggestion(id, citizen, input.text.value, DefaultSuggestionStatus, now), input).value
    ensures CreateSuggestion(citizen, input, id, now).Success? ==>
      UpdateSuggestionStatus(CreateSuggestion(citizen, input, id, now).value, input)
        == Success(CreateSuggestion(citizen, input, id, now).value)
  {
    var created := CreateSuggestion(citizen, input, id, now);
    if created.Success? && input.status.Some? {
      assert ParseSuggestionStatus(input.status.value).Some?;
    }
  }

  // ---------------------------------------------------------------------------
  // Technician updates: id, technician and created_at are read-only
  // ---------------------------------------------------------------------------

  /** The keys a report-update request may carry, read-only ones included. */
  datatype UpdateInput = UpdateInput(
    id: Option<nat>,
    remark: Option<string>,
    image: Option<Option<Upload>>,
    technician: Option<UserId>,
    createdAt: Option<Timestamp>)

  /** ReportUpdateSerializer's validation errors, one per failing key: the remark is required
      and may not be blank, and an uploaded photo must pass the image checks. */
  function RemarkErrors(input: UpdateInput): (errors: map<string, string>)
    ensures "remark" in errors <==> !(input.remark.Some? && input.remark.value != "")
    ensures "image" in errors <==> ImageKeyError(input.image).Some?
    ensures errors.Keys <= {"remark", "image"}
    ensures input.remark.None? ==> errors["remark"] == RequiredMessage
    ensures input.remark == Some("") ==> errors["remark"] == BlankMessage
    ensures "image" in errors ==> errors["image"] == ImageKeyError(input.image).value
  {
    var remarkErrors: map<string, string> :=
      if input.remark.None? then map["remark" := RequiredMessage]
      else if input.remark.value == "" then map["remark" := BlankMessage]
      else map[];
    match ImageKeyError(input.image)
    case None => remarkErrors
    case Some(e) => remarkErrors["image" := e]
  }

  /** ReportUpdateSerializer on creation, saved against report `parent`. The client's `id`,
      `technician` and `created_at` are ignored, the row's come from the server; an uploaded
      photo is stored under the parent report's folder. */
  function CreateReportUpdate(input: UpdateInput, parent: Report, technician: UserId, id: nat, now: Timestamp)
    : (res: Result<ReportUpdate, map<string, string>>)
    ensures res.Failure? <==> RemarkErrors(input) != map[]
    ensures res.Failure? ==> res.error == RemarkErrors(input)
    ensures res.Success? ==> (res.value.technician == technician && res.value.id == id
      && res.value.createdAt == now && res.value.report == parent.id && res.value.remark == input.remark.value)
    ensures res.Success? && input.image.GetOr(None).Some? ==>
      res.value.image == Some(UpdateImagePath(res.value, parent, input.image.value.value.name))
    ensures res.Success? && input.image.GetOr(None).None? ==> res.value.image.None?
  {
    var errors := RemarkErrors(input);
    if errors != map[] then Failure(errors)
    else
      assert "remark" !in errors;
      var update := ReportUpdate(id, parent.id, technician, input.remark.value, None, now);
      match input.image.GetOr(None)
      case None => Success(update)
      case Some(up) => Success(update.(image := Some(UpdateImagePath(update, parent, up.name))))
  }

  /** Whatever read-only keys the client sends, the update it creates is the same. */
  lemma ReadOnlyKeysAreIgnored(a: UpdateInput, b: UpdateInput, parent: Report, technician: UserId, id: nat, now: Timestamp)
    requires a.remark == b.remark && a.image == b.image
    ensures CreateReportUpdate(a, parent, technician, id, now) == CreateReportUpdate(b, parent, technician, id, now)
  {
  }

  // ---------------------------------------------------------------------------
  // Accounts
  // ---------------------------------------------------------------------------

  const IncorrectCredentials: string := "Incorrect Credentials"

  /** LoginSerializer.validate. `authenticated` is what Django's authentication backend returned
      for the email (used as the username) and password; the backend itself is not modelled. */
  function ValidateLogin(authenticated: Option<Account>): (res: Result<Account, string>)
    ensures res.Success? <==> authenticated.Some? && authenticated.value.isActive
    ensures res.Success? ==> res.value == authenticated.value
    ensures res.Failure? ==> res.error == IncorrectCredentials
  {
    if authenticated.Some? && authenticated.value.isActive then Success(authenticated.value)
    else Failure(IncorrectCredentials)
  }

  /** The body of a registration or a staff-account creation. The email has passed the email
      format check; the nested profile is absent (`None`) or a valid profile. */
  datatype AccountInput = AccountInput(email: string, password: Option<string>, profile: Option<Profile>)

  const DefaultPassword: string := "DefaultPassword123"
  const UniqueMessage: string := "This field must be unique."

  /** Why an account could not be created. `UsernameTaken` is the database's uniqueness error on
      the username column, which no validator anticipates (a server error). */
  datatype CreateError = FieldErrors(errors: map<string, string>) | UsernameTaken

  /** The position of the last `@` in `s`, where `rsplit("@", 1)` cuts it, if there is one. */
  function LastAt(s: string): (i: Option<nat>)
    ensures i.Some? ==> i.value < |s| && s[i.value] == '@' && forall j :: i.value < j < |s| ==> s[j] != '@'
    ensures i.None? ==> forall j :: 0 <= j < |s| ==> s[j] != '@'
    decreases |s|
  {
    if |s| == 0 then None
    else if s[|s| - 1] == '@' then Some(|s| - 1)
    else LastAt(s[..|s| - 1])
  }

  /** Any position holding the last `@` is the one LastAt finds; with no `@` it finds none. */
  lemma LastAtIsUnique(s: string, i: Option<nat>)
    requires i.Some? ==> i.value < |s| && s[i.value] == '@' && forall j :: i.value < j < |s| ==> s[j] != '@'
    requires i.None? ==> forall j :: 0 <= j < |s| ==> s[j] != '@'
    ensures LastAt(s) == i
  {
  }

  /** `BaseUserManager.normalize_email`: the part after the last `@` is lower-cased and the rest is
      kept; an address without `@` is stored as given. */
  function NormalizeEmail(email: string): (n: string)
    ensures |n| == |email|
    ensures LastAt(n) == LastAt(email)
    ensures LastAt(email).None? ==> n == email
    ensures LastAt(email).Some? ==> n[..LastAt(email).value + 1] == email[..LastAt(email).value + 1]
    ensures LastAt(email).Some? ==> n[LastAt(email).value + 1..] == Fold(email[LastAt(email).value + 1..])
  {
    match LastAt(email)
    case None => email
    case Some(i) =>
      FoldedDomainKeepsLastAt(email, i);
      email[..i + 1] + Fold(email[i + 1..])
  }

  /** Folding the part after the last `@` leaves that `@` the last one. */
  lemma FoldedDomainKeepsLastAt(email: string, i: nat)
    requires LastAt(email) == Some(i)
    ensures LastAt(email[..i + 1] + Fold(email[i + 1..])) == Some(i)
  {
    var n := email[..i + 1] + Fold(email[i + 1..]);
    FoldKeepsAt(email[i + 1..]);
    assert n[i] == '@';
    assert forall j :: i < j < |n| ==> n[j] == Fold(email[i + 1..])[j - i - 1];
    LastAtIsUnique(n, Some(i));
  }

  /** Normalizing a stored address again changes nothing. */
  lemma NormalizeEmailIsIdempotent(email: string)
    ensures NormalizeEmail(NormalizeEmail(email)) == NormalizeEmail(email)
  {
    var n := NormalizeEmail(email);
    if LastAt(email).Some? {
      var i := LastAt(email).value;
      FoldIsIdempotent(email[i + 1..]);
      assert n == n[..i + 1] + n[i + 1..];
    }
  }

  /** UniqueValidator on the email: an account already stores exactly this address. */
  predicate EmailTaken(existing: seq<Account>, email: string) {
    exists a :: a in existing && a.email == email
  }

  /** The username column's uniqueness: an account already has this username. */
  predicate NameInUse(existing: seq<Account>, username: string) {
    exists a :: a in existing && a.username == username
  }

  /** The validation errors of an account body, one per failing key: the email must not be
      stored on an existing account (UniqueValidator), the nested profile is required, and the
      password may not be blank, and must be present when `passwordRequired`. */
  function AccountErrors(existing: seq<Account>, input: AccountInput, passwordRequired: bool)
    : (errors: map<string, string>)
    ensures "email" in errors <==> EmailTaken(existing, input.email)
    ensures "password" in errors <==> (passwordRequired && input.password.None?) || input.password == Some("")
    ensures "profile" in errors <==> input.profile.None?
    ensures errors.Keys <= {"email", "password", "profile"}
    ensures "email" in errors ==> errors["email"] == UniqueMessage
    ensures "password" in errors ==> errors["password"] == (if input.password.None? then RequiredMessage else BlankMessage)
    ensures "profile" in errors ==> errors["profile"] == RequiredMessage
  {
    var emailErrors: map<string, string> :=
      if EmailTaken(existing, input.email) then map["email" := UniqueMessage] else map[];
    var passwordErrors :=
      if input.password.None? && passwordRequired then emailErrors["password" := RequiredMessage]
      else if input.password == Some("") then emailErrors["password" := BlankMessage]
      else emailErrors;
    if input.profile.None? then passwordErrors["profile" := RequiredMessage] else passwordErrors
  }

  /** The save shared by both account serializers: `create_user` takes the email as given for
      the username and stores it normalized, and the profile is saved with the account. A
      username already in use is the database's uniqueness error. */
  function CreateAccount(existing: seq<Account>, email: string, password: string, profile: Profile, id: UserId)
    : (res: Result<Account, CreateError>)
    ensures res.Failure? <==> NameInUse(existing, email)
    ensures res.Failure? ==> res.error == UsernameTaken
    ensures res.Success? ==> (res.value.username == email && res.value.email == NormalizeEmail(email)
      && res.value.password == password && res.value.profile == Some(profile) && res.value.id == id
      && res.value.isActive)
  {
    if NameInUse(existing, email) then Failure(UsernameTaken)
    else Success(Account(id, email, NormalizeEmail(email), password, true, Some(profile)))
  }

  /** RegisterSerializer: every failing key is reported; a valid body is saved with its
      password, and the profile, role included, is taken from the request as given. */
  function Register(existing: seq<Account>, input: AccountInput, id: UserId): (res: Result<Account, CreateError>)
    ensures AccountErrors(existing, input, true) != map[] ==>
      res == Failure(FieldErrors(AccountErrors(existing, input, true)))
    ensures AccountErrors(existing, input, true) == map[] ==>
      res == CreateAccount(existing, input.email, input.password.value, input.profile.value, id)
    ensures res.Success? <==>
      input.password.Some? && input.password.value != "" && input.profile.Some?
      && !EmailTaken(existing, input.email) && !NameInUse(existing, input.email)
    ensures res.Success? ==> (res.value.username == input.email && res.value.email == NormalizeEmail(input.email)
      && Some(res.value.password) == input.password && Some(res.value.profile.value) == input.profile)
  {
    var errors := AccountErrors(existing, input, true);
    if errors != map[] then Failure(FieldErrors(errors))
    else
      assert "password" !in errors && "profile" !in errors;
      CreateAccount(existing, input.email, input.password.value, input.profile.value, id)
  }

  /** UserManagementSerializer: every failing key is reported; the password is optional and
      defaults to DefaultPassword123. */
  function CreateManagedUser(existing: seq<Account>, input: AccountInput, id: UserId): (res: Result<Account, CreateError>)
    ensures AccountErrors(existing, input, false) != map[] ==>
      res == Failure(FieldErrors(AccountErrors(existing, input, false)))
    ensures AccountErrors(existing, input, false) == map[] ==>
      res == CreateAccount(existing, input.email, input.password.GetOr(DefaultPassword), input.profile.value, id)
    ensures res.Success? <==>
      input.password != Some("") && input.profile.Some?
      && !EmailTaken(existing, input.email) && !NameInUse(existing, input.email)
    ensures res.Success? ==> (res.value.username == input.email && res.value.email == NormalizeEmail(input.email)
      && Some(res.value.profile.value) == input.profile)
    ensures res.Success? && input.password.None? ==> res.value.password == DefaultPassword
    ensures res.Success? && input.password.Some? ==> res.value.password == input.password.value
  {
    var errors := AccountErrors(existing, input, false);
    if errors != map[] then Failure(FieldErrors(errors))
    else
      assert "profile" !in errors;
      CreateAccount(existing, input.email, input.password.GetOr(DefaultPassword), input.profile.value, id)
  }

  /** Self-registration accepts whatever role the request names, admin included. */
  lemma RegistrationMayChooseAdminRole(existing: seq<Account>, input: AccountInput, id: UserId)
    requires input.profile.Some? && input.profile.value.role == Admin
    requires input.password.Some? && input.password.value != ""
    requires !EmailTaken(existing, input.email) && !NameInUse(existing, input.email)
    ensures Register(existing, input, id).Success?
    ensures Register(existing, input, id).value.profile.value.role == Admin
  {
  }
}
