/** The status badge: which text it shows and which colour class it takes,
    for any status string at all. */
module StatusBadge {
  import opened Types
  import opened Constants

  datatype Variant = Default | Short

  /** The colour used when the status has no (non-empty) colour entry. */
  const FALLBACK_COLOR: string := "bg-gray-100 text-gray-800"

  /** The badge text: the short label when the short variant is asked for and
      one exists, the status itself otherwise. */
  function DisplayText(status: string, variant: Variant): (text: string)
    ensures variant == Default ==> text == status
    ensures variant == Short && status in SHORT_LABELS ==> text == SHORT_LABELS[status]
    ensures status !in SHORT_LABELS ==> text == status
  {
    if variant == Short && status in SHORT_LABELS then SHORT_LABELS[status] else status
  }

  /** The colour class: the table's entry unless it is missing or empty
      (JavaScript's `||` treats an empty string as missing). */
  function ColorClass(status: string): (cls: string)
    ensures cls != ""
    ensures status in STATUS_COLORS && STATUS_COLORS[status] != "" ==> cls == STATUS_COLORS[status]
    ensures status !in STATUS_COLORS ==> cls == FALLBACK_COLOR
  {
    if status in STATUS_COLORS && STATUS_COLORS[status] != "" then STATUS_COLORS[status] else FALLBACK_COLOR
  }

  /** For the program's own tables the colour is simply the entry when there is one. */
  lemma ColorIsTableEntryOrFallback(status: string)
    ensures ColorClass(status) == if status in STATUS_COLORS then STATUS_COLORS[status] else FALLBACK_COLOR
  {
    StatusColorsCoverEnumerations();
  }

  /** The short variant abbreviates the review statuses as Done and In Prog,
      leaves Not Started as it is, and abbreviates the firm types. */
  lemma ShortLabelsOfReviewStatuses()
    ensures DisplayText(Completed.Label(), Short) == "Done"
    ensures DisplayText(InProgress.Label(), Short) == "In Prog"
    ensures DisplayText(NotStarted.Label(), Short) == "Not Started"
    ensures DisplayText(Prospect.Label(), Short) == "Pros"
    ensures DisplayText(CurrentMembers.Label(), Short) == "Curr"
  {
  }

  /** Statuses without a short label show their full text in either variant. */
  lemma UnabbreviatedStatusesShowFullText(v: Variant)
    ensures DisplayText(BLOCKED, v) == BLOCKED
    ensures DisplayText("Approved", v) == "Approved"
    ensures forall t: ActiveStatus :: DisplayText(t.Label(), v) == t.Label()
  {
    ShortLabelsCoverage();
  }

  /** Every enumerated status or type value gets its own table colour, never the fallback
      (except Not Started, whose table colour happens to equal it). */
  lemma EnumeratedValuesUseTableColors()
    ensures forall t: QaStatus :: ColorClass(t.Label()) == STATUS_COLORS[t.Label()]
    ensures forall t: ActiveStatus :: ColorClass(t.Label()) == STATUS_COLORS[t.Label()]
    ensures ColorClass(Prospect.Label()) == "bg-yellow-100 text-yellow-800"
    ensures ColorClass(BLOCKED) == "bg-red-100 text-red-800"
    ensures ColorClass(Inactive.Label()) == "bg-red-100 text-red-800"
  {
    StatusColorsCoverEnumerations();
  }
}
