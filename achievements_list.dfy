/**
 * The student's list of their own achievements: the status badge, the edit
 * lock, the search and filter controls, and the category options.
 */
module AchievementsList {
  import opened Wrappers
  import opened Achievements
  import opened Text
  import opened Seqs
  import ReviewAchievement

  /**
   * `getStatusVariant`: each of the four statuses gets its own badge variant,
   * and exactly the values outside the vocabulary get "outline".
   */
  function StatusVariant(status: string): (v: string)
    ensures v == "outline" <==> ParseStatus(status).None?
    ensures status == "pending" ==> v == "default"
    ensures status == "under_review" ==> v == "secondary"
    ensures status == "verified" ==> v == "success"
    ensures status == "rejected" ==> v == "destructive"
    ensures v in {"success", "default", "secondary", "destructive", "outline"}
  {
    if status == "verified" then "success"
    else if status == "pending" then "default"
    else if status == "under_review" then "secondary"
    else if status == "rejected" then "destructive"
    else "outline"
  }

  /** Distinct statuses are shown with distinct badges. */
  lemma StatusVariantInjective(a: Status, b: Status)
    ensures StatusVariant(a.Name()) == StatusVariant(b.Name()) ==> a == b
  {
  }

  /** `canEdit`: the Edit button is enabled exactly for pending and rejected records. */
  predicate CanEdit(status: string)
    ensures CanEdit(status) <==> ParseStatus(status) == Some(Pending) || ParseStatus(status) == Some(Rejected)
    ensures CanEdit(status) ==> !ReviewAchievement.IsLocked(status)
  {
    status == "pending" || status == "rejected"
  }

  /**
   * The edit lock against the review workflow: every action a reviewer is
   * offered locks the record against editing, except a rejection, which hands
   * it back to the student; and a record the review page locks (verified) is
   * never editable.
   */
  lemma {:induction false} ReviewActionsLockEditing(from: Status, to: Status)
    ensures to in ReviewAchievement.OfferedTargets(from.Name()) ==> (CanEdit(to.Name()) <==> to == Rejected)
    ensures ReviewAchievement.IsLocked(from.Name()) ==> !CanEdit(from.Name())
    ensures CanEdit(from.Name()) <==> from == Pending || from == Rejected
  {
    assert ParseStatus(from.Name()) == Some(from);
  }

  /** The three controls of the list, combined as the page's `filter` callback combines them. */
  predicate Matches(a: Achievement, searchTerm: string, filterCategory: string, filterStatus: string) {
    && (searchTerm == "" || Includes(Lower(a.title), Lower(searchTerm)))
    && (filterCategory == "all" || a.category == filterCategory)
    && (filterStatus == "all" || a.status == filterStatus)
  }

  /**
   * `filteredAchievements`: an order-preserving selection of the list that
   * keeps every matching record (as often as it occurs) and nothing else; the
   * search looks at the title only, case-insensitively; with no search and
   * both filters on "all" the list is shown unchanged.
   */
  function Filtered(achievements: seq<Achievement>, searchTerm: string, filterCategory: string,
                    filterStatus: string): (r: seq<Achievement>)
    ensures IsSubsequence(r, achievements)
    ensures forall a :: a in r ==>
              && (searchTerm != "" ==> Includes(Lower(a.title), Lower(searchTerm)))
              && (filterCategory != "all" ==> a.category == filterCategory)
              && (filterStatus != "all" ==> a.status == filterStatus)
    ensures forall a :: a in achievements ==>
              multiset(r)[a] == if Matches(a, searchTerm, filterCategory, filterStatus)
                                then multiset(achievements)[a] else 0
    ensures searchTerm == "" && filterCategory == "all" && filterStatus == "all" ==> r == achievements
  {
    var p := (a: Achievement) => Matches(a, searchTerm, filterCategory, filterStatus);
    FilterSpec(p, achievements);
    if searchTerm == "" && filterCategory == "all" && filterStatus == "all" then
      FilterKeepsAll(p, achievements);
      Filter(p, achievements)
    else
      Filter(p, achievements)
  }

  function Categories(achievements: seq<Achievement>): (r: seq<string>)
    ensures |r| == |achievements| && forall i :: 0 <= i < |r| ==> r[i] == achievements[i].category
  {
    if achievements == [] then [] else [achievements[0].category] + Categories(achievements[1..])
  }

  /**
   * The options of the category filter: every category that occurs in the
   * list, each once, ordered by first occurrence, and no other.
   */
  function CategoryOptions(achievements: seq<Achievement>): (r: seq<string>)
    ensures forall c :: c in r <==> exists a :: a in achievements && a.category == c
    ensures forall c :: c in r ==> c in Categories(achievements)
    ensures forall i, j :: 0 <= i < j < |r| ==> r[i] != r[j]
    ensures forall i, j :: 0 <= i < j < |r| ==>
              IndexOf(Categories(achievements), r[i]) < IndexOf(Categories(achievements), r[j])
  {
    var cs := Categories(achievements);
    var r := Distinct(cs);
    assert forall c :: c in cs <==> exists a :: a in achievements && a.category == c by {
      forall c | c in cs ensures exists a :: a in achievements && a.category == c {
        var i :| 0 <= i < |cs| && cs[i] == c;
        assert achievements[i] in achievements;
      }
    }
    r
  }
}
