/** The review form of the QA review drawer: the raw values the form holds,
    the per-field rules of its object schema, the issues a failed submit
    reports, and the default values for adding and for editing. */
module ReviewForm {
  import opened Results
  import opened Types
  import opened Constants

  /** What the form holds: every field is still a string here. */
  datatype FormData = FormData(
    memberFirmIntranetName: string,
    firmType: string,
    memberContact: string,
    reviewerName: string,
    country: string,
    reviewerStatus: string,
    partnerStatus: string,
    reviewPlanned: string,
    reviewEndDate: string,
    currentGrading: string,
    previousGrading: string,
    qaReviewStatus: string)

  datatype Field =
    | MemberFirmIntranetNameField | FirmTypeField | MemberContactField | ReviewerNameField
    | CountryField | ReviewerStatusField | PartnerStatusField | ReviewPlannedField
    | ReviewEndDateField | CurrentGradingField | PreviousGradingField | QaReviewStatusField

  /** The schema's keys. */
  const ALL_FIELDS: set<Field> := {
    MemberFirmIntranetNameField, FirmTypeField, MemberContactField, ReviewerNameField,
    CountryField, ReviewerStatusField, PartnerStatusField, ReviewPlannedField,
    ReviewEndDateField, CurrentGradingField, PreviousGradingField, QaReviewStatusField
  }

  lemma AllFieldsListed()
    ensures forall f: Field :: f in ALL_FIELDS
  {
    forall f: Field ensures f in ALL_FIELDS {
      match f
      case MemberFirmIntranetNameField =>
      case FirmTypeField =>
      case MemberContactField =>
      case ReviewerNameField =>
      case CountryField =>
      case ReviewerStatusField =>
      case PartnerStatusField =>
      case ReviewPlannedField =>
      case ReviewEndDateField =>
      case CurrentGradingField =>
      case PreviousGradingField =>
      case QaReviewStatusField =>
    }
  }

  /** The fields with a "must not be empty" rule. */
  const REQUIRED_TEXT_FIELDS: set<Field> := {
    MemberFirmIntranetNameField, ReviewerNameField, CountryField, ReviewPlannedField,
    ReviewEndDateField, CurrentGradingField, PreviousGradingField
  }

  /** A reported problem: the schema's own message, or the enumeration check
      (whose wording belongs to the validation library). */
  datatype IssueKind = Message(text: string) | InvalidEnumValue

  function Value(form: FormData, f: Field): string {
    match f
    case MemberFirmIntranetNameField => form.memberFirmIntranetName
    case FirmTypeField => form.firmType
    case MemberContactField => form.memberContact
    case ReviewerNameField => form.reviewerName
    case CountryField => form.country
    case ReviewerStatusField => form.reviewerStatus
    case PartnerStatusField => form.partnerStatus
    case ReviewPlannedField => form.reviewPlanned
    case ReviewEndDateField => form.reviewEndDate
    case CurrentGradingField => form.currentGrading
    case PreviousGradingField => form.previousGrading
    case QaReviewStatusField => form.qaReviewStatus
  }

  /** The rule of one field. The email grammar is the validation library's
      and is taken as the parameter `isEmail`. Country and gradings only
      have to be non-empty; no order between the two dates is required. */
  function FieldOk(form: FormData, f: Field, isEmail: string -> bool): (ok: bool)
    ensures f in REQUIRED_TEXT_FIELDS ==> (ok <==> Value(form, f) != "")
    ensures f == MemberContactField ==> (ok <==> isEmail(form.memberContact))
    ensures f == FirmTypeField ==> (ok <==> exists t: FirmType :: t.Label() == form.firmType)
    ensures f == ReviewerStatusField ==> (ok <==> exists t: ReviewerStatus :: t.Label() == form.reviewerStatus)
    ensures f == PartnerStatusField ==> (ok <==> exists t: PartnerStatus :: t.Label() == form.partnerStatus)
    ensures f == QaReviewStatusField ==> (ok <==> exists t: QaStatus :: t.Label() == form.qaReviewStatus)
  {
    var v := Value(form, f);
    match f
    case FirmTypeField => FirmTypeFromLabel(v).Some?
    case MemberContactField => isEmail(v)
    case ReviewerStatusField => ReviewerStatusFromLabel(v).Some?
    case PartnerStatusField => PartnerStatusFromLabel(v).Some?
    case QaReviewStatusField => QaStatusFromLabel(v).Some?
    case _ => |v| >= 1
  }

  /** The issue a failing field reports: the schema's own message for the
      text and email rules, the library's enumeration check otherwise. */
  function IssueKindOf(f: Field): (issue: IssueKind)
    ensures issue.Message? <==> f in REQUIRED_TEXT_FIELDS || f == MemberContactField
    ensures issue.Message? ==> |issue.text| > 0
  {
    match f
    case MemberFirmIntranetNameField => Message("Firm name is required")
    case MemberContactField => Message("Valid email is required")
    case ReviewerNameField => Message("Reviewer name is required")
    case CountryField => Message("Country is required")
    case ReviewPlannedField => Message("Review planned date is required")
    case ReviewEndDateField => Message("Review end date is required")
    case CurrentGradingField => Message("Current grading is required")
    case PreviousGradingField => Message("Previous grading is required")
    case _ => InvalidEnumValue
  }

  /** No two fields share a message, so an error's text names its field. */
  lemma IssueMessagesDistinct()
    ensures forall f, g :: IssueKindOf(f).Message? && IssueKindOf(f) == IssueKindOf(g) ==> f == g
  {
  }

  /** The errors of a submit, keyed by field as the form shows them: every
      field is checked, and each failing field has exactly its own message. */
  function Errors(form: FormData, isEmail: string -> bool): (errors: map<Field, IssueKind>)
    ensures forall f :: f in errors <==> !FieldOk(form, f, isEmail)
    ensures forall f :: f in errors ==> errors[f] == IssueKindOf(f)
  {
    AllFieldsListed();
    map f | f in ALL_FIELDS && !FieldOk(form, f, isEmail) :: IssueKindOf(f)
  }

  /** The typed review that a form whose every rule holds stands for. */
  function Parse(form: FormData, isEmail: string -> bool): (r: ReviewFields)
    requires forall f :: FieldOk(form, f, isEmail)
    ensures ToForm(r) == form
  {
    assert FieldOk(form, FirmTypeField, isEmail) && FieldOk(form, ReviewerStatusField, isEmail);
    assert FieldOk(form, PartnerStatusField, isEmail) && FieldOk(form, QaReviewStatusField, isEmail);
    ReviewFields(
      form.memberFirmIntranetName,
      FirmTypeFromLabel(form.firmType).value,
      form.memberContact,
      form.reviewerName,
      form.country,
      ReviewerStatusFromLabel(form.reviewerStatus).value,
      PartnerStatusFromLabel(form.partnerStatus).value,
      form.reviewPlanned,
      form.reviewEndDate,
      form.currentGrading,
      form.previousGrading,
      QaStatusFromLabel(form.qaReviewStatus).value)
  }

  /** The form values that show a review: the labels of its twelve non-id fields. */
  function ToForm(r: ReviewFields): FormData {
    FormData(
      r.memberFirmIntranetName, r.firmType.Label(), r.memberContact, r.reviewerName,
      r.country, r.reviewerStatus.Label(), r.partnerStatus.Label(), r.reviewPlanned,
      r.reviewEndDate, r.currentGrading, r.previousGrading, r.qaReviewStatus.Label())
  }

  /** Submitting the form: the typed review when every rule holds, otherwise
      all the issues at once. A successful result shows as the very form that
      was submitted. */
  function Validate(form: FormData, isEmail: string -> bool): (r: Result<ReviewFields, map<Field, IssueKind>>)
    ensures r.Success? <==> forall f :: FieldOk(form, f, isEmail)
    ensures r.Success? ==> ToForm(r.value) == form
    ensures r.Failure? ==> |r.error| > 0 && r.error == Errors(form, isEmail)
  {
    var errors := Errors(form, isEmail);
    if errors == map[] then
      Success(Parse(form, isEmail))
    else
      Failure(errors)
  }

  /** The seven text fields with a "must not be empty" rule are filled in. */
  predicate RequiredTextPresent(r: ReviewFields) {
    && r.memberFirmIntranetName != "" && r.reviewerName != ""
    && r.country != "" && r.reviewPlanned != "" && r.reviewEndDate != ""
    && r.currentGrading != "" && r.previousGrading != ""
  }

  /** The text fields of a stored review that the schema constrains. */
  predicate Acceptable(r: ReviewFields, isEmail: string -> bool) {
    RequiredTextPresent(r) && isEmail(r.memberContact)
  }

  /** Showing an acceptable review in the form and submitting it unchanged
      gives back that review. */
  lemma EditRoundTrip(r: ReviewFields, isEmail: string -> bool)
    requires Acceptable(r, isEmail)
    ensures Validate(ToForm(r), isEmail) == Success(r)
  {
    var form := ToForm(r);
    assert forall f :: FieldOk(form, f, isEmail);
  }

  /** A form is accepted exactly when it shows an acceptable review. */
  lemma AcceptedIffAcceptable(form: FormData, isEmail: string -> bool)
    ensures Validate(form, isEmail).Success? <==>
            exists r :: ToForm(r) == form && Acceptable(r, isEmail)
  {
    if Validate(form, isEmail).Success? {
      var r := Validate(form, isEmail).value;
      assert FieldOk(form, MemberFirmIntranetNameField, isEmail) && FieldOk(form, MemberContactField, isEmail);
      assert FieldOk(form, ReviewerNameField, isEmail) && FieldOk(form, CountryField, isEmail);
      assert FieldOk(form, ReviewPlannedField, isEmail) && FieldOk(form, ReviewEndDateField, isEmail);
      assert FieldOk(form, CurrentGradingField, isEmail) && FieldOk(form, PreviousGradingField, isEmail);
      assert ToForm(r) == form && Acceptable(r, isEmail);
    } else {
      if r :| ToForm(r) == form && Acceptable(r, isEmail) {
        EditRoundTrip(r, isEmail);
        assert false;
      }
    }
  }

  /** The defaults when editing: the edited review's twelve non-id fields. */
  function EditDefaults(review: QAReview): (form: FormData)
    ensures form.memberFirmIntranetName == review.fields.memberFirmIntranetName
    ensures form.memberContact == review.fields.memberContact
    ensures FirmTypeFromLabel(form.firmType) == Some(review.fields.firmType)
    ensures QaStatusFromLabel(form.qaReviewStatus) == Some(review.fields.qaReviewStatus)
    ensures ReviewerStatusFromLabel(form.reviewerStatus) == Some(review.fields.reviewerStatus)
    ensures PartnerStatusFromLabel(form.partnerStatus) == Some(review.fields.partnerStatus)
    ensures form.country == review.fields.country && form.reviewerName == review.fields.reviewerName
    ensures form.reviewPlanned == review.fields.reviewPlanned && form.reviewEndDate == review.fields.reviewEndDate
    ensures form.currentGrading == review.fields.currentGrading
    ensures form.previousGrading == review.fields.previousGrading
  {
    ToForm(review.fields)
  }

  /** The defaults when adding: preset enumerations, empty text. */
  const ADD_DEFAULTS: FormData := FormData(
    "", CurrentMembers.Label(), "", "", "", ReviewerActive.Label(), PartnerApproved.Label(),
    "", "", "", "", NotStarted.Label())

  /** The add defaults: the seven required text fields and the contact are
      empty; the enumerations are preset to Current Members, Active, Approved
      and Not Started. */
  lemma AddDefaultsShape()
    ensures forall f :: f in REQUIRED_TEXT_FIELDS || f == MemberContactField ==> Value(ADD_DEFAULTS, f) == ""
    ensures FirmTypeFromLabel(ADD_DEFAULTS.firmType) == Some(CurrentMembers)
    ensures ReviewerStatusFromLabel(ADD_DEFAULTS.reviewerStatus) == Some(ReviewerActive)
    ensures PartnerStatusFromLabel(ADD_DEFAULTS.partnerStatus) == Some(PartnerApproved)
    ensures QaStatusFromLabel(ADD_DEFAULTS.qaReviewStatus) == Some(NotStarted)
  {
  }

  /** Submitting the untouched blank form fails on exactly the required text
      fields, and on the contact unless the empty string counts as an email;
      the preset enumerations pass. */
  lemma BlankFormFails(isEmail: string -> bool)
    ensures Validate(ADD_DEFAULTS, isEmail).Failure?
    ensures forall f :: !FieldOk(ADD_DEFAULTS, f, isEmail) <==>
              f in REQUIRED_TEXT_FIELDS || (f == MemberContactField && !isEmail(""))
  {
    AddDefaultsShape();
    assert !FieldOk(ADD_DEFAULTS, MemberFirmIntranetNameField, isEmail);
    forall f ensures !FieldOk(ADD_DEFAULTS, f, isEmail) <==>
                     f in REQUIRED_TEXT_FIELDS || (f == MemberContactField && !isEmail("")) {
      if f !in REQUIRED_TEXT_FIELDS && f != MemberContactField {
        assert f == FirmTypeField || f == ReviewerStatusField || f == PartnerStatusField || f == QaReviewStatusField;
      }
    }
  }

  /** A country outside the country list, grades outside the grading list and
      an end date before the planned date are all accepted. */
  lemma NoVocabularyOrDateOrderCheck(contact: string, isEmail: string -> bool)
    requires isEmail(contact)
    ensures "Atlantis" !in COUNTRIES && "Z" !in GRADINGS && "Q" !in GRADINGS
    ensures Validate(FormData("Acme LLP", "Prospect", contact, "R. Smith", "Atlantis", "Active",
                              "Approved", "2025-12-31", "2025-01-01", "Z", "Q", "Completed"), isEmail).Success?
  {
    var form := FormData("Acme LLP", "Prospect", contact, "R. Smith", "Atlantis", "Active",
                         "Approved", "2025-12-31", "2025-01-01", "Z", "Q", "Completed");
    assert forall f :: FieldOk(form, f, isEmail);
  }

  /** A bad contact on an otherwise valid form is reported alone. */
  lemma OnlyBadEmailReported(r: ReviewFields, contact: string, isEmail: string -> bool)
    requires RequiredTextPresent(r) && !isEmail(contact)
    ensures Validate(ToForm(r.(memberContact := contact)), isEmail)
            == Failure(map[MemberContactField := Message("Valid email is required")])
  {
    var form := ToForm(r.(memberContact := contact));
    assert forall f :: f != MemberContactField ==> FieldOk(form, f, isEmail);
    assert Errors(form, isEmail).Keys == {MemberContactField};
    assert Errors(form, isEmail) == map[MemberContactField := Message("Valid email is required")];
  }
}
