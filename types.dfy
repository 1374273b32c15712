/** The record shapes of the dashboard and their enumerated fields. Each
    string-literal union becomes a datatype whose `Label()` is the literal
    the program stores and displays. */
module Types {
  import opened Results
  import opened Seqs

  /** The glyph the program uses for a blocked reviewer or partner. */
  const BLOCKED: string := "\U{26D4}"

  datatype FirmType = Prospect | CurrentMembers {
    function Label(): string {
      match this
      case Prospect => "Prospect"
      case CurrentMembers => "Current Members"
    }
  }

  datatype ReviewerStatus = ReviewerBlocked | ReviewerActive {
    function Label(): string {
      match this
      case ReviewerBlocked => BLOCKED
      case ReviewerActive => "Active"
    }
  }

  datatype PartnerStatus = PartnerBlocked | PartnerApproved {
    function Label(): string {
      match this
      case PartnerBlocked => BLOCKED
      case PartnerApproved => "Approved"
    }
  }

  /** The lifecycle field of a review. */
  datatype QaStatus = NotStarted | InProgress | Completed {
    function Label(): string {
      match this
      case NotStarted => "Not Started"
      case InProgress => "In Progress"
      case Completed => "Completed"
    }
  }

  /** The status of a reviewer, a member firm or a user. */
  datatype ActiveStatus = Active | Inactive {
    function Label(): string {
      match this
      case Active => "Active"
      case Inactive => "Inactive"
    }
  }

  datatype Role = Admin | TechnicalDirector | ReviewerRole | UserRole {
    function Label(): string {
      match this
      case Admin => "Admin"
      case TechnicalDirector => "Technical Director"
      case ReviewerRole => "Reviewer"
      case UserRole => "User"
    }
  }

  /** The fields of a review other than its id, as the review form submits them. */
  datatype ReviewFields = ReviewFields(
    memberFirmIntranetName: string,
    firmType: FirmType,
    memberContact: string,
    reviewerName: string,
    country: string,
    reviewerStatus: ReviewerStatus,
    partnerStatus: PartnerStatus,
    reviewPlanned: string,
    reviewEndDate: string,
    currentGrading: string,
    previousGrading: string,
    qaReviewStatus: QaStatus)

  datatype QAReview = QAReview(id: string, fields: ReviewFields)

  /** `assignedReviews` is a stored number, not derived from any review list. */
  datatype Reviewer = Reviewer(
    id: string,
    name: string,
    email: string,
    status: ActiveStatus,
    specializations: seq<string>,
    assignedReviews: int)

  /** `totalReviews` is a stored number, not derived from any review list. */
  datatype MemberFirm = MemberFirm(
    id: string,
    name: string,
    intranetName: string,
    country: string,
    contactPerson: string,
    email: string,
    phone: string,
    status: ActiveStatus,
    totalReviews: int)

  datatype User = User(
    id: string,
    name: string,
    email: string,
    role: Role,
    status: ActiveStatus,
    lastLogin: string)

  // ---------------------------------------------------------------------
  // Reading a stored string back into an enumeration (what `z.enum` accepts)

  function FirmTypeFromLabel(s: string): (r: Option<FirmType>)
    ensures r.Some? ==> r.value.Label() == s
    ensures forall t: FirmType :: t.Label() == s ==> r == Some(t)
  {
    if s == "Prospect" then Some(Prospect)
    else if s == "Current Members" then Some(CurrentMembers)
    else None
  }

  function ReviewerStatusFromLabel(s: string): (r: Option<ReviewerStatus>)
    ensures r.Some? ==> r.value.Label() == s
    ensures forall t: ReviewerStatus :: t.Label() == s ==> r == Some(t)
  {
    if s == BLOCKED then Some(ReviewerBlocked)
    else if s == "Active" then Some(ReviewerActive)
    else None
  }

  function PartnerStatusFromLabel(s: string): (r: Option<PartnerStatus>)
    ensures r.Some? ==> r.value.Label() == s
    ensures forall t: PartnerStatus :: t.Label() == s ==> r == Some(t)
  {
    if s == BLOCKED then Some(PartnerBlocked)
    else if s == "Approved" then Some(PartnerApproved)
    else None
  }

  function QaStatusFromLabel(s: string): (r: Option<QaStatus>)
    ensures r.Some? ==> r.value.Label() == s
    ensures forall t: QaStatus :: t.Label() == s ==> r == Some(t)
  {
    if s == "Not Started" then Some(NotStarted)
    else if s == "In Progress" then Some(InProgress)
    else if s == "Completed" then Some(Completed)
    else None
  }

  /** Each union has the literals it lists and no others. */
  lemma EnumerationsAreClosed(s: string)
    ensures QaStatusFromLabel(s).Some? <==> s in ["Not Started", "In Progress", "Completed"]
    ensures FirmTypeFromLabel(s).Some? <==> s in ["Prospect", "Current Members"]
    ensures ReviewerStatusFromLabel(s).Some? <==> s in [BLOCKED, "Active"]
    ensures PartnerStatusFromLabel(s).Some? <==> s in [BLOCKED, "Approved"]
  {
  }

  // ---------------------------------------------------------------------
  // Selections over a review list shared by several pages

  /** `reviews.filter(r => r.qaReviewStatus === st)`. */
  function ByStatus(reviews: seq<QAReview>, st: QaStatus): (r: seq<QAReview>)
    ensures IsSubsequence(r, reviews)
    ensures forall i :: 0 <= i < |r| ==> r[i].fields.qaReviewStatus == st
    ensures forall i :: 0 <= i < |reviews| && reviews[i].fields.qaReviewStatus == st ==> reviews[i] in r
    ensures forall x :: multiset(r)[x] == if x.fields.qaReviewStatus == st then multiset(reviews)[x] else 0
    ensures |r| == |set i | 0 <= i < |reviews| && reviews[i].fields.qaReviewStatus == st|
  {
    var p := (x: QAReview) => x.fields.qaReviewStatus == st;
    FilterIsSubsequence(reviews, p);
    FilterMultiplicity(reviews, p);
    FilterLengthCountsPositions(reviews, p);
    assert Positions(reviews, p) == set i | 0 <= i < |reviews| && reviews[i].fields.qaReviewStatus == st by {
      forall i | 0 <= i < |reviews| ensures p(reviews[i]) == (reviews[i].fields.qaReviewStatus == st) { }
    }
    Filter(reviews, p)
  }

  /** Because the status is a closed three-value enumeration, the three
      status selections together account for every review exactly once. */
  lemma {:induction false} ByStatusPartition(reviews: seq<QAReview>)
    ensures |ByStatus(reviews, NotStarted)| + |ByStatus(reviews, InProgress)| + |ByStatus(reviews, Completed)|
            == |reviews|
  {
    if reviews != [] {
      ByStatusPartition(reviews[1..]);
    }
  }

  function Ids(reviews: seq<QAReview>): (ids: seq<string>)
    ensures |ids| == |reviews|
    ensures forall i :: 0 <= i < |reviews| ==> ids[i] == reviews[i].id
  {
    Map(reviews, (r: QAReview) => r.id)
  }

  /** No two reviews share an id. */
  predicate UniqueIds(reviews: seq<QAReview>) {
    forall i, j :: 0 <= i < j < |reviews| ==> reviews[i].id != reviews[j].id
  }
}
