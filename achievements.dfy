/**
 * The achievement record as the pages receive it from the store, and the
 * four-valued status vocabulary of the verification workflow.
 *
 * A record's `status` is kept as the string the store delivered, so that the
 * pages' `default:` branches for an unrecognised value are part of the model;
 * `ParseStatus` and `Status.Name` connect it with the `Status` enumeration.
 */
module Achievements {
  import opened Wrappers

  datatype Status = Pending | UnderReview | Verified | Rejected {
    /** The status as it is spelled in the store and in the filter controls. */
    function Name(): string {
      match this
      case Pending => "pending"
      case UnderReview => "under_review"
      case Verified => "verified"
      case Rejected => "rejected"
    }
  }

  /** Reads a stored status string; `None` for anything outside the vocabulary. */
  function ParseStatus(s: string): (r: Option<Status>)
    ensures r.Some? ==> r.value.Name() == s
    ensures r.None? <==> forall st: Status :: st.Name() != s
  {
    if s == "pending" then Some(Pending)
    else if s == "under_review" then Some(UnderReview)
    else if s == "verified" then Some(Verified)
    else if s == "rejected" then Some(Rejected)
    else None
  }

  /** Distinct statuses have distinct names, so the string form loses nothing. */
  lemma NameInjective(a: Status, b: Status)
    ensures a.Name() == b.Name() ==> a == b
  {
    if a.Name() == b.Name() {
      assert ParseStatus(a.Name()) == Some(a);
      assert ParseStatus(b.Name()) == Some(b);
    }
  }

  /** A stored record; `None` stands for a null description or file URL. */
  datatype Achievement = Achievement(
    id: string,
    title: string,
    description: Option<string>,
    category: string,
    fileUrl: Option<string>,
    status: string)
}
