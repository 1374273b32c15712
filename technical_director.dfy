/** The technical director's page: the queue of completed reviews awaiting
    approval, approving and rejecting (both remove the entry), and the
    high-risk selection by current grading. */
module TechnicalDirector {
  import opened Seqs
  import opened Types
  import opened Constants

  /** The queue the page starts with: the Completed reviews, in order. */
  function InitialQueue(reviews: seq<QAReview>): (q: seq<QAReview>)
    ensures IsSubsequence(q, reviews)
    ensures forall i :: 0 <= i < |q| ==> q[i].fields.qaReviewStatus == Completed
    ensures forall i :: 0 <= i < |reviews| && reviews[i].fields.qaReviewStatus == Completed ==> reviews[i] in q
    ensures forall x :: multiset(q)[x] == if x.fields.qaReviewStatus == Completed then multiset(reviews)[x] else 0
  {
    ByStatus(reviews, Completed)
  }

  /** `prev.filter(r => r.id !== reviewId)`: every entry with the id goes, the
      rest stay in order. */
  function RemoveId(queue: seq<QAReview>, id: string): (r: seq<QAReview>)
    ensures IsSubsequence(r, queue)
    ensures |r| <= |queue|
    ensures forall i :: 0 <= i < |r| ==> r[i].id != id
    ensures forall i :: 0 <= i < |queue| && queue[i].id != id ==> queue[i] in r
    ensures forall x :: multiset(r)[x] == if x.id != id then multiset(queue)[x] else 0
  {
    var keep := (x: QAReview) => x.id != id;
    FilterIsSubsequence(queue, keep);
    FilterMultiplicity(queue, keep);
    Filter(queue, keep)
  }

  /** Removing an id no entry has leaves the queue as it is. */
  lemma RemoveAbsentIsNoOp(queue: seq<QAReview>, id: string)
    requires forall i :: 0 <= i < |queue| ==> queue[i].id != id
    ensures RemoveId(queue, id) == queue
  {
    FilterKeepsAll(queue, (x: QAReview) => x.id != id);
  }

  /** So approving or rejecting the same id twice is the same as once. */
  lemma RemoveIdempotent(queue: seq<QAReview>, id: string)
    ensures RemoveId(RemoveId(queue, id), id) == RemoveId(queue, id)
  {
    RemoveAbsentIsNoOp(RemoveId(queue, id), id);
  }

  /** `includes('C') || includes('D') || === 'F'` on the current grading. */
  function IsHighRiskGrade(grade: string): (high: bool)
    ensures high <==> (exists i :: 0 <= i < |grade| && (grade[i] == 'C' || grade[i] == 'D')) || grade == "F"
  {
    'C' in grade || 'D' in grade || grade == "F"
  }

  function HighRiskReviews(reviews: seq<QAReview>): (r: seq<QAReview>)
    ensures IsSubsequence(r, reviews)
    ensures forall i :: 0 <= i < |r| ==> IsHighRiskGrade(r[i].fields.currentGrading)
    ensures forall i :: 0 <= i < |reviews| && IsHighRiskGrade(reviews[i].fields.currentGrading) ==> reviews[i] in r
    ensures forall x :: multiset(r)[x] == if IsHighRiskGrade(x.fields.currentGrading) then multiset(reviews)[x] else 0
  {
    var risky := (x: QAReview) => IsHighRiskGrade(x.fields.currentGrading);
    FilterIsSubsequence(reviews, risky);
    FilterMultiplicity(reviews, risky);
    Filter(reviews, risky)
  }

  /** Over the grading vocabulary, exactly the last five entries, C+, C, C-,
      D and F, are high risk. */
  lemma HighRiskGradings()
    ensures forall k :: 0 <= k < |GRADINGS| ==> (IsHighRiskGrade(GRADINGS[k]) <==> k >= 6)
    ensures GRADINGS[6..] == ["C+", "C", "C-", "D", "F"]
  {
  }

  /** Selecting the high-risk grades from the vocabulary yields C+, C, C-, D, F in that order. */
  lemma HighRiskSelectionOfGradings()
    ensures Filter(GRADINGS, IsHighRiskGrade) == ["C+", "C", "C-", "D", "F"]
  {
    HighRiskGradings();
    FilterOfSplit(GRADINGS, IsHighRiskGrade, 6);
  }

  /** A grade such as "F-" or "E" is not high risk: only the exact text "F" is. */
  lemma OnlyExactFIsHighRisk()
    ensures !IsHighRiskGrade("F-") && !IsHighRiskGrade("F+") && !IsHighRiskGrade("E") && IsHighRiskGrade("F")
    ensures IsHighRiskGrade("B/C") && IsHighRiskGrade("D+")
  {
  }

  class TechnicalDirectorPage {
    /** The reviews the page reads (never changed by it). */
    const reviews: seq<QAReview>
    var pendingApprovals: seq<QAReview>

    /** Whatever has been approved or rejected, the queue is what is left of the
        Completed reviews, in order. */
    ghost predicate Valid()
      reads this
    {
      IsSubsequence(pendingApprovals, InitialQueue(reviews))
    }

    constructor (mockReviews: seq<QAReview>)
      ensures reviews == mockReviews
      ensures pendingApprovals == InitialQueue(mockReviews)
      ensures Valid()
    {
      reviews := mockReviews;
      pendingApprovals := InitialQueue(mockReviews);
      new;
      SubsequenceReflexive(InitialQueue(mockReviews));
    }

    method HandleApprove(reviewId: string)
      requires Valid()
      modifies this
      ensures Valid()
      ensures pendingApprovals == RemoveId(old(pendingApprovals), reviewId)
      ensures |pendingApprovals| <= |old(pendingApprovals)|
    {
      SubsequenceTransitive(RemoveId(pendingApprovals, reviewId), pendingApprovals, InitialQueue(reviews));
      pendingApprovals := RemoveId(pendingApprovals, reviewId);
    }

    /** Rejecting has the same effect on the queue as approving; only the toast differs. */
    method HandleReject(reviewId: string)
      requires Valid()
      modifies this
      ensures Valid()
      ensures pendingApprovals == RemoveId(old(pendingApprovals), reviewId)
      ensures |pendingApprovals| <= |old(pendingApprovals)|
    {
      SubsequenceTransitive(RemoveId(pendingApprovals, reviewId), pendingApprovals, InitialQueue(reviews));
      pendingApprovals := RemoveId(pendingApprovals, reviewId);
    }

    /** The queue never holds more than the Completed reviews. */
    lemma QueueBounded()
      requires Valid()
      ensures |pendingApprovals| <= |InitialQueue(reviews)|
    {
      SubsequenceNotLonger(pendingApprovals, InitialQueue(reviews));
    }
  }
}
