/** The QA reviews page: the review list it owns, saving an edited or a new
    review, the status filter with its `all` case, and the per-card counts. */
module QaReviews {
  import opened Results
  import opened Seqs
  import opened Types

  /** The selected filter card: `all` or one review status. */
  datatype StatusFilter = All | Only(status: QaStatus) {
    function Value(): string {
      match this
      case All => "all"
      case Only(st) => st.Label()
    }
  }

  datatype FilterCard = FilterCard(title: string, value: StatusFilter)

  const STATUS_FILTERS: seq<FilterCard> := [
    FilterCard("Total Reviews", All),
    FilterCard("Not Started", Only(NotStarted)),
    FilterCard("In Progress", Only(InProgress)),
    FilterCard("Completed", Only(Completed))
  ]

  function CardValues(): set<StatusFilter> {
    set c | c in STATUS_FILTERS :: c.value
  }

  /** The four cards offer every filter value exactly once; the `all` card
      carries the value "all" and each status card its status's own text,
      which is also its title. */
  lemma FilterCardsCoverFilters()
    ensures forall f: StatusFilter :: f in CardValues()
    ensures forall k, l :: 0 <= k < l < |STATUS_FILTERS| ==> STATUS_FILTERS[k].value != STATUS_FILTERS[l].value
    ensures STATUS_FILTERS[0].title == "Total Reviews" && STATUS_FILTERS[0].value.Value() == "all"
    ensures forall k :: 1 <= k < |STATUS_FILTERS| ==> STATUS_FILTERS[k].value.Value() == STATUS_FILTERS[k].title
  {
    forall f: StatusFilter ensures f in CardValues() {
      var k := match f
        case All => 0
        case Only(NotStarted) => 1
        case Only(InProgress) => 2
        case Only(Completed) => 3;
      assert STATUS_FILTERS[k] in STATUS_FILTERS && STATUS_FILTERS[k].value == f;
    }
  }

  /** Saving an edit: the record with the edited id takes the submitted fields
      and keeps its id; every other record, the length and the order stay. */
  function UpdateById(data: seq<QAReview>, id: string, submitted: ReviewFields): (r: seq<QAReview>)
    ensures |r| == |data|
    ensures forall i :: 0 <= i < |data| && data[i].id == id ==> r[i] == QAReview(id, submitted)
    ensures forall i :: 0 <= i < |data| && data[i].id != id ==> r[i] == data[i]
    ensures Ids(r) == Ids(data)
  {
    Map(data, (item: QAReview) => if item.id == id then QAReview(id, submitted) else item)
  }

  lemma UpdateAbsentIdIsNoOp(data: seq<QAReview>, id: string, submitted: ReviewFields)
    requires id !in Ids(data)
    ensures UpdateById(data, id, submitted) == data
  {
    assert forall i :: 0 <= i < |data| ==> data[i].id != Ids(data)[i] || data[i].id != id;
  }

  /** Saving an edit keeps the ids, so unique ids stay unique. */
  lemma UpdateKeepsUniqueIds(data: seq<QAReview>, id: string, submitted: ReviewFields)
    requires UniqueIds(data)
    ensures UniqueIds(UpdateById(data, id, submitted))
  {
    var r := UpdateById(data, id, submitted);
    forall i, j | 0 <= i < j < |r| ensures r[i].id != r[j].id {
      assert r[i].id == Ids(r)[i] == Ids(data)[i] == data[i].id;
      assert r[j].id == Ids(r)[j] == Ids(data)[j] == data[j].id;
    }
  }

  /** Saving a new review whose id differs from every stored id keeps the ids unique. */
  lemma AppendFreshKeepsUniqueIds(data: seq<QAReview>, newId: string, submitted: ReviewFields)
    requires UniqueIds(data) && newId !in Ids(data)
    ensures UniqueIds(data + [QAReview(newId, submitted)])
  {
    var r := data + [QAReview(newId, submitted)];
    forall i, j | 0 <= i < j < |r| ensures r[i].id != r[j].id {
      if j == |data| {
        assert Ids(data)[i] == data[i].id;
      }
    }
  }

  /** The table's rows: all reviews for `all`, otherwise exactly the reviews
      with that status, in their original order. */
  function Filtered(data: seq<QAReview>, filter: StatusFilter): (r: seq<QAReview>)
    ensures filter == All ==> r == data
    ensures IsSubsequence(r, data)
    ensures filter.Only? ==> forall i :: 0 <= i < |r| ==> r[i].fields.qaReviewStatus == filter.status
    ensures filter.Only? ==> forall i :: 0 <= i < |data| && data[i].fields.qaReviewStatus == filter.status ==> data[i] in r
    ensures filter.Only? ==> forall x :: multiset(r)[x] == if x.fields.qaReviewStatus == filter.status then multiset(data)[x] else 0
  {
    match filter
    case All => SubsequenceReflexive(data); data
    case Only(st) => ByStatus(data, st)
  }

  /** The number on a filter card: the list length for `all`, otherwise the
      number of reviews with that status; always the size of that card's view. */
  function CardCount(data: seq<QAReview>, filter: StatusFilter): (count: nat)
    ensures count == |Filtered(data, filter)|
    ensures filter == All ==> count == |data|
    ensures filter.Only? ==> count == |set i | 0 <= i < |data| && data[i].fields.qaReviewStatus == filter.status|
    ensures count <= |data|
  {
    match filter
    case All => |data|
    case Only(st) => |ByStatus(data, st)|
  }

  /** The three status cards add up to the total card. */
  lemma CardCountsSumToTotal(data: seq<QAReview>)
    ensures CardCount(data, Only(NotStarted)) + CardCount(data, Only(InProgress)) + CardCount(data, Only(Completed))
            == CardCount(data, All)
  {
    ByStatusPartition(data);
  }

  /** A newly saved review is shown under its own status card and under no
      other status card. */
  lemma NewReviewShownUnderItsStatusOnly(data: seq<QAReview>, newId: string, submitted: ReviewFields, st: QaStatus)
    ensures QAReview(newId, submitted) in Filtered(data + [QAReview(newId, submitted)], Only(submitted.qaReviewStatus))
    ensures st != submitted.qaReviewStatus ==>
              QAReview(newId, submitted) !in Filtered(data + [QAReview(newId, submitted)], Only(st))
  {
    var r := data + [QAReview(newId, submitted)];
    assert r[|data|] == QAReview(newId, submitted);
  }

  /** The page's state: the review list, the review being edited, the
      selected filter card and whether the drawer is open. */
  class QaReviewsPage {
    var data: seq<QAReview>
    var editingReview: Option<QAReview>
    var statusFilter: StatusFilter
    var isDrawerOpen: bool

    constructor (initial: seq<QAReview>)
      ensures data == initial && editingReview == None && statusFilter == All && !isDrawerOpen
    {
      data := initial;
      editingReview := None;
      statusFilter := All;
      isDrawerOpen := false;
    }

    /** The rows the table is given. */
    function FilteredData(): (rows: seq<QAReview>)
      reads this
      ensures IsSubsequence(rows, data)
      ensures statusFilter == All ==> rows == data
      ensures statusFilter.Only? ==> forall i :: 0 <= i < |rows| ==> rows[i].fields.qaReviewStatus == statusFilter.status
      ensures statusFilter.Only? ==>
        forall x :: multiset(rows)[x] == if x.fields.qaReviewStatus == statusFilter.status then multiset(data)[x] else 0
    {
      Filtered(data, statusFilter)
    }

    /** Saving the drawer: an edit replaces the record with the edited id, a
        new review is appended with the clock reading `newId` as its id. The
        review being edited is cleared either way. */
    method HandleSave(reviewData: ReviewFields, newId: string)
      modifies this
      ensures editingReview == None
      ensures old(editingReview).Some? ==> data == UpdateById(old(data), old(editingReview).value.id, reviewData)
      ensures old(editingReview).None? ==> data == old(data) + [QAReview(newId, reviewData)]
      ensures UniqueIds(old(data)) && (old(editingReview).None? ==> newId !in Ids(old(data))) ==> UniqueIds(data)
      ensures statusFilter == old(statusFilter) && isDrawerOpen == old(isDrawerOpen)
    {
      match editingReview {
        case Some(editing) =>
          if UniqueIds(data) {
            UpdateKeepsUniqueIds(data, editing.id, reviewData);
          }
          data := UpdateById(data, editing.id, reviewData);
        case None =>
          if UniqueIds(data) && newId !in Ids(data) {
            AppendFreshKeepsUniqueIds(data, newId, reviewData);
          }
          data := data + [QAReview(newId, reviewData)];
      }
      editingReview := None;
    }

    /** Opening the drawer on a row. */
    method HandleEdit(review: QAReview)
      modifies this
      ensures editingReview == Some(review) && isDrawerOpen
      ensures data == old(data) && statusFilter == old(statusFilter)
    {
      editingReview := Some(review);
      isDrawerOpen := true;
    }

    /** Opening the drawer for a new review. */
    method HandleAdd()
      modifies this
      ensures editingReview == None && isDrawerOpen
      ensures data == old(data) && statusFilter == old(statusFilter)
    {
      editingReview := None;
      isDrawerOpen := true;
    }

    /** Closing the drawer without saving. */
    method HandleClose()
      modifies this
      ensures editingReview == None && !isDrawerOpen
      ensures data == old(data) && statusFilter == old(statusFilter)
    {
      isDrawerOpen := false;
      editingReview := None;
    }

    /** Clicking a card, or pressing Enter or Space on it, selects its filter
        value and changes nothing else. */
    method SelectCard(card: FilterCard)
      modifies this
      ensures statusFilter == card.value
      ensures data == old(data) && editingReview == old(editingReview) && isDrawerOpen == old(isDrawerOpen)
    {
      statusFilter := card.value;
    }
  }
}
