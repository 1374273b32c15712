/** The dashboard: the four review counts, the recent-reviews list and the
    status pie chart. */
module Dashboard {
  import opened Types

  datatype Stats = Stats(totalReviews: nat, completedReviews: nat, inProgressReviews: nat, notStartedReviews: nat)

  /** The stat cards. The total is the list length and, the status being a
      closed three-value enumeration, the three status counts add up to it. */
  function StatsOf(reviews: seq<QAReview>): (st: Stats)
    ensures st.totalReviews == |reviews|
    ensures st.completedReviews == |ByStatus(reviews, Completed)|
    ensures st.inProgressReviews == |ByStatus(reviews, InProgress)|
    ensures st.notStartedReviews == |ByStatus(reviews, NotStarted)|
    ensures st.completedReviews == |set i | 0 <= i < |reviews| && reviews[i].fields.qaReviewStatus == Completed|
    ensures st.inProgressReviews == |set i | 0 <= i < |reviews| && reviews[i].fields.qaReviewStatus == InProgress|
    ensures st.notStartedReviews == |set i | 0 <= i < |reviews| && reviews[i].fields.qaReviewStatus == NotStarted|
    ensures st.completedReviews <= st.totalReviews
    ensures st.inProgressReviews <= st.totalReviews
    ensures st.notStartedReviews <= st.totalReviews
    ensures st.completedReviews + st.inProgressReviews + st.notStartedReviews == st.totalReviews
  {
    ByStatusPartition(reviews);
    Stats(|reviews|, |ByStatus(reviews, Completed)|, |ByStatus(reviews, InProgress)|, |ByStatus(reviews, NotStarted)|)
  }

  const RECENT_LIMIT: nat := 5

  /** `reviews.slice(0, 5)`: the first five reviews, or all of them when there are fewer. */
  function Recent(reviews: seq<QAReview>): (r: seq<QAReview>)
    ensures |r| == if |reviews| < RECENT_LIMIT then |reviews| else RECENT_LIMIT
    ensures r <= reviews
  {
    if |reviews| < RECENT_LIMIT then reviews else reviews[..RECENT_LIMIT]
  }

  datatype Slice = Slice(name: string, value: nat, color: string)

  /** The pie chart's data: fixed numbers, not counted from any review list. */
  const STATUS_DATA: seq<Slice> := [
    Slice("Not Started", 2, "#6B7280"),
    Slice("In Progress", 2, "#3B82F6"),
    Slice("Completed", 1, "#10B981")
  ]

  /** The pie chart shows the same numbers as the stat cards exactly when the
      list happens to have two Not Started, two In Progress and one Completed
      review; for every other list the two disagree. */
  lemma PieChartIndependentOfReviews(reviews: seq<QAReview>)
    ensures (STATUS_DATA[0].value == StatsOf(reviews).notStartedReviews
             && STATUS_DATA[1].value == StatsOf(reviews).inProgressReviews
             && STATUS_DATA[2].value == StatsOf(reviews).completedReviews)
            <==> (|ByStatus(reviews, NotStarted)| == 2 && |ByStatus(reviews, InProgress)| == 2
                  && |ByStatus(reviews, Completed)| == 1)
  {
  }
}
