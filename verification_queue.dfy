/** The faculty verification queue: the records still waiting for a decision. */
module VerificationQueue {
  import opened Wrappers
  import opened Achievements
  import opened Seqs
  import ReviewAchievement
  import AchievementsList

  predicate NeedsReview(a: Achievement) {
    a.status == "pending" || a.status == "under_review"
  }

  /**
   * The queue: an order-preserving selection of the fetched records holding
   * every pending or under-review record, as often as it was fetched, and no
   * verified or rejected one.
   */
  function Queue(all: seq<Achievement>): (q: seq<Achievement>)
    ensures IsSubsequence(q, all) && |q| <= |all|
    ensures forall a :: a in q ==> NeedsReview(a) && a.status != "verified" && a.status != "rejected"
    ensures forall a :: a in all ==> multiset(q)[a] == if NeedsReview(a) then multiset(all)[a] else 0
  {
    FilterSpec(NeedsReview, all);
    Filter(NeedsReview, all)
  }

  /** Filtering the queue again gives the same queue. */
  lemma QueueIdempotent(all: seq<Achievement>)
    ensures Queue(Queue(all)) == Queue(all)
  {
    FilterIdempotent(NeedsReview, all);
  }

  /** The queue holds exactly the records on which the review page offers some action. */
  lemma {:induction false} QueueIsActionable(a: Achievement)
    ensures NeedsReview(a) <==> ReviewAchievement.OfferedTargets(a.status) != []
  {
    var ts := ReviewAchievement.OfferedTargets(a.status);
    match ParseStatus(a.status)
    case None =>
    case Some(st) =>
      assert st.Name() == a.status;
      if st == Pending {
        assert ReviewAchievement.Transition(st, UnderReview);
        assert UnderReview in ts;
      } else if st == UnderReview {
        assert ReviewAchievement.Transition(st, Verified);
        assert Verified in ts;
      }
  }

  /** `getStatusVariant` on the queue page; the four known statuses and the default. */
  function StatusVariant(status: string): (v: string)
    ensures v == "outline" <==> ParseStatus(status).None?
    ensures status == "pending" ==> v == "default"
    ensures status == "under_review" ==> v == "secondary"
    ensures status == "verified" ==> v == "success"
    ensures status == "rejected" ==> v == "destructive"
  {
    match status
    case "pending" => "default"
    case "under_review" => "secondary"
    case "verified" => "success"
    case "rejected" => "destructive"
    case _ => "outline"
  }

  /** The queue and the student's list draw every status with the same badge. */
  lemma StatusVariantAgrees(status: string)
    ensures StatusVariant(status) == AchievementsList.StatusVariant(status)
  {
  }
}
