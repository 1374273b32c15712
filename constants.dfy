/** The closed vocabularies and lookup tables shared by the pages: the
    option lists the form's pickers offer, the badge colour and short-label
    tables, and the country and grading lists. */
module Constants {
  import opened Types

  const QA_REVIEW_STATUS_OPTIONS: seq<string> := ["Not Started", "In Progress", "Completed"]
  const REVIEWER_STATUS_OPTIONS: seq<string> := [BLOCKED, "Active"]
  const PARTNER_STATUS_OPTIONS: seq<string> := [BLOCKED, "Approved"]
  const FIRM_TYPE_OPTIONS: seq<string> := ["Prospect", "Current Members"]

  const STATUS_COLORS: map<string, string> := map[
    "Not Started" := "bg-gray-100 text-gray-800",
    "In Progress" := "bg-blue-100 text-blue-800",
    "Completed" := "bg-green-100 text-green-800",
    "Active" := "bg-green-100 text-green-800",
    "Inactive" := "bg-red-100 text-red-800",
    BLOCKED := "bg-red-100 text-red-800",
    "Approved" := "bg-green-100 text-green-800",
    "Prospect" := "bg-yellow-100 text-yellow-800",
    "Current Members" := "bg-blue-100 text-blue-800"
  ]

  const SHORT_LABELS: map<string, string> := map[
    "Prospect" := "Pros",
    "Current Members" := "Curr",
    "Not Started" := "Not Started",
    "In Progress" := "In Prog",
    "Completed" := "Done"
  ]

  const COUNTRIES: seq<string> := [
    "United States", "United Kingdom", "Canada", "Australia", "Germany",
    "France", "Netherlands", "Singapore", "Japan", "South Korea"
  ]

  const GRADINGS: seq<string> := ["A+", "A", "A-", "B+", "B", "B-", "C+", "C", "C-", "D", "F"]

  predicate Distinct(s: seq<string>) {
    forall i, j :: 0 <= i < j < |s| ==> s[i] != s[j]
  }

  /** Each option list is its union, literal for literal and in declaration order. */
  lemma OptionListsMatchUnions()
    ensures QA_REVIEW_STATUS_OPTIONS == [NotStarted.Label(), InProgress.Label(), Completed.Label()]
    ensures REVIEWER_STATUS_OPTIONS == [ReviewerBlocked.Label(), ReviewerActive.Label()]
    ensures PARTNER_STATUS_OPTIONS == [PartnerBlocked.Label(), PartnerApproved.Label()]
    ensures FIRM_TYPE_OPTIONS == [Prospect.Label(), CurrentMembers.Label()]
    ensures forall s :: s in QA_REVIEW_STATUS_OPTIONS <==> QaStatusFromLabel(s).Some?
    ensures forall s :: s in FIRM_TYPE_OPTIONS <==> FirmTypeFromLabel(s).Some?
    ensures forall s :: s in REVIEWER_STATUS_OPTIONS <==> ReviewerStatusFromLabel(s).Some?
    ensures forall s :: s in PARTNER_STATUS_OPTIONS <==> PartnerStatusFromLabel(s).Some?
  {
  }

  /** Every value of every enumerated status or type field has a colour entry,
      `Inactive` included. */
  lemma StatusColorsCoverEnumerations()
    ensures forall t: FirmType :: t.Label() in STATUS_COLORS
    ensures forall t: ReviewerStatus :: t.Label() in STATUS_COLORS
    ensures forall t: PartnerStatus :: t.Label() in STATUS_COLORS
    ensures forall t: QaStatus :: t.Label() in STATUS_COLORS
    ensures forall t: ActiveStatus :: t.Label() in STATUS_COLORS
    ensures forall k :: k in STATUS_COLORS ==> STATUS_COLORS[k] != ""
  {
  }

  /** Short labels exist for the firm types and the review statuses only. */
  lemma ShortLabelsCoverage()
    ensures forall t: FirmType :: t.Label() in SHORT_LABELS
    ensures forall t: QaStatus :: t.Label() in SHORT_LABELS
    ensures forall t: ActiveStatus :: t.Label() !in SHORT_LABELS
    ensures BLOCKED !in SHORT_LABELS && "Approved" !in SHORT_LABELS
  {
  }

  lemma GradingsShape()
    ensures |GRADINGS| == 11 && Distinct(GRADINGS)
    ensures GRADINGS[0] == "A+" && GRADINGS[|GRADINGS| - 1] == "F"
  {
  }

  lemma CountriesShape()
    ensures |COUNTRIES| == 10 && Distinct(COUNTRIES)
  {
  }
}
