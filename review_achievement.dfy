/**
 * The reviewer's page for one achievement: which status changes it offers
 * for the record's current status, when the record is locked, and the
 * handler that sends a status change to the store.
 */
module ReviewAchievement {
  import opened Wrappers
  import opened Achievements
  import opened Text
  import opened Ui

  /** A button that moves the record to `target`. */
  datatype Action = Action(target: Status, caption: string)

  /**
   * The status changes the page offers, as a transition relation: a pending
   * record can be taken under review, a record under review can be approved
   * or rejected, and nothing else.
   */
  predicate Transition(from: Status, to: Status) {
    || (from == Pending && to == UnderReview)
    || (from == UnderReview && to == Verified)
    || (from == UnderReview && to == Rejected)
  }

  /**
   * The primary button for a status (`getNextAction`): it exists exactly for
   * pending and under-review records and always performs a transition, the
   * forward one (under review rather than rejected, verified rather than
   * rejected).
   */
  function NextAction(status: string): (r: Option<Action>)
    ensures r.Some? <==> status == "pending" || status == "under_review"
    ensures r.Some? ==> ParseStatus(status).Some? && Transition(ParseStatus(status).value, r.value.target)
    ensures r.Some? ==> r.value.target != Rejected
  {
    if status == "pending" then Some(Action(UnderReview, "Start Review"))
    else if status == "under_review" then Some(Action(Verified, "Approve"))
    else None
  }

  /** A verified record is locked: no buttons, and the comment box is disabled. */
  predicate IsLocked(status: string) {
    status == "verified"
  }

  predicate ShowsPrimary(status: string) {
    NextAction(status).Some? && !IsLocked(status)
  }

  predicate ShowsReject(status: string) {
    status == "under_review" && !IsLocked(status)
  }

  predicate CommentDisabled(status: string, isSubmitting: bool) {
    IsLocked(status) || isSubmitting
  }

  /**
   * The targets of the buttons the page renders, in screen order. They are
   * exactly the successors of the current status in `Transition`, never the
   * current status itself and never `pending`; an unrecognised status gets
   * no button.
   */
  function OfferedTargets(status: string): (r: seq<Status>)
    ensures ParseStatus(status).Some? ==>
              forall t :: t in r <==> Transition(ParseStatus(status).value, t)
    ensures ParseStatus(status).None? ==> r == []
    ensures forall t :: t in r ==> t.Name() != status && t != Pending
    ensures forall i, j :: 0 <= i < j < |r| ==> r[i] != r[j]
  {
    (if ShowsPrimary(status) then [NextAction(status).value.target] else [])
    + (if ShowsReject(status) then [Rejected] else [])
  }

  /** The badge colour on this page: only verified and rejected are singled out. */
  function StatusBadge(status: string): (v: string)
    ensures v == "secondary" <==> status != "verified" && status != "rejected"
    ensures v != "secondary" ==> v == (if status == "verified" then "success" else "destructive")
  {
    if status == "verified" then "success"
    else if status == "rejected" then "destructive"
    else "secondary"
  }

  /** The labels of the buttons: a pending record offers "Start Review", one under review "Approve" and "Reject". */
  lemma ButtonsPerStatus()
    ensures OfferedTargets("pending") == [UnderReview] && !ShowsReject("pending")
    ensures NextAction("pending") == Some(Action(UnderReview, "Start Review"))
    ensures OfferedTargets("under_review") == [Verified, Rejected]
    ensures NextAction("under_review") == Some(Action(Verified, "Approve"))
    ensures OfferedTargets("verified") == [] && CommentDisabled("verified", false)
    ensures OfferedTargets("rejected") == [] && !CommentDisabled("rejected", false)
  {
  }

  /** How far along the workflow a status is; every transition moves forward. */
  function Rank(s: Status): nat {
    match s
    case Pending => 0
    case UnderReview => 1
    case Verified => 2
    case Rejected => 2
  }

  /** A sequence of statuses each reached from the previous one by an offered action. */
  predicate IsRun(run: seq<Status>) {
    forall i :: 0 < i < |run| ==> Transition(run[i - 1], run[i])
  }

  /**
   * The offered actions never cycle: along a run the statuses strictly
   * progress, so a record passes through at most three statuses, and a run
   * of three starts at pending, goes through under review and ends verified
   * or rejected.
   */
  lemma {:induction false} RunsAreShort(run: seq<Status>)
    requires IsRun(run)
    ensures |run| <= 3
    ensures |run| == 3 ==> run[0] == Pending && run[1] == UnderReview && Rank(run[2]) == 2
  {
    if |run| > 0 {
      RunRanks(run, |run| - 1);
    }
    if |run| == 3 {
      RunRanks(run, 1);
    }
  }

  lemma {:induction false} RunRanks(run: seq<Status>, i: nat)
    requires IsRun(run) && i < |run|
    ensures Rank(run[i]) >= Rank(run[0]) + i
  {
    if i > 0 {
      RunRanks(run, i - 1);
    }
  }

  /** The one status update the page sends per accepted click. */
  datatype StatusCall = StatusCall(id: string, target: Status, comment: string, whileSubmitting: bool)

  /** A rejection whose comment `trim`s to nothing is refused before any call. */
  predicate LacksRejectionComment(target: Status, comment: string) {
    target == Rejected && Trim(comment) == []
  }

  /** Exactly a rejection with an empty or whitespace-only comment is refused. */
  lemma LacksRejectionCommentIffBlank(target: Status, comment: string)
    ensures LacksRejectionComment(target, comment) <==> target == Rejected && AllWhitespace(comment)
  {
    TrimEmptyIffBlank(comment);
  }

  class ReviewPage {
    /** The `:id` route parameter. */
    const id: Option<string>
    var comment: string
    var isSubmitting: bool
    /** Calls to `updateAchievementStatus`, in order. */
    var calls: seq<StatusCall>
    var effects: seq<Effect>

    constructor (id: Option<string>)
      ensures this.id == id && comment == "" && !isSubmitting
      ensures calls == [] && effects == []
    {
      this.id := id;
      comment := "";
      isSubmitting := false;
      calls := [];
      effects := [];
    }

    /**
     * `handleStatusUpdate`: without a route id nothing happens; a rejection
     * without a comment only shows a toast; otherwise exactly one update is
     * sent while `isSubmitting` is set, the flag is cleared afterwards, and
     * the page returns to the queue only when the store reports no error.
     */
    method HandleStatusUpdate(newStatus: Status, serverError: Option<string>)
      modifies this
      ensures comment == old(comment)
      ensures id.None? ==>
                isSubmitting == old(isSubmitting) && calls == old(calls) && effects == old(effects)
      ensures id.Some? && LacksRejectionComment(newStatus, comment) ==>
                && isSubmitting == old(isSubmitting) && calls == old(calls)
                && effects == old(effects) + [Toast("Rejection requires a comment")]
      ensures id.Some? && !LacksRejectionComment(newStatus, comment) ==>
                && !isSubmitting
                && calls == old(calls) + [StatusCall(id.value, newStatus, comment, true)]
                && effects == old(effects) +
                     if serverError.None?
                     then [Toast("Status updated successfully"), Navigate("/faculty/queue")]
                     else [Toast("Error updating status")]
    {
      if id.None? {
        return;
      }
      if newStatus == Rejected && Trim(comment) == [] {
        effects := effects + [Toast("Rejection requires a comment")];
        return;
      }
      isSubmitting := true;
      calls := calls + [StatusCall(id.value, newStatus, comment, isSubmitting)];
      if serverError.None? {
        effects := effects + [Toast("Status updated successfully"), Navigate("/faculty/queue")];
      } else {
        effects := effects + [Toast("Error updating status")];
      }
      isSubmitting := false;
    }
  }
}
