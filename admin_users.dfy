/** The administrator's user table: loading, the search box and the role badges. */
module AdminUsers {
  import opened Wrappers
  import opened Text
  import opened Seqs

  datatype User = User(id: string, name: string, email: string, role: string, createdAt: string)

  /** The search callback: the lower-cased term occurs in the lower-cased name or e-mail. */
  predicate UserMatches(u: User, searchTerm: string) {
    Includes(Lower(u.name), Lower(searchTerm)) || Includes(Lower(u.email), Lower(searchTerm))
  }

  function UserSearch(searchTerm: string): User -> bool {
    u => UserMatches(u, searchTerm)
  }

  /**
   * `filteredUsers`: an order-preserving selection of the users holding each
   * user whose name or e-mail contains the term (ignoring case) and no other;
   * an empty term keeps everyone.
   */
  function FilteredUsers(users: seq<User>, searchTerm: string): (r: seq<User>)
    ensures IsSubsequence(r, users)
    ensures forall u :: u in r ==> UserMatches(u, searchTerm)
    ensures forall u :: u in users ==>
              multiset(r)[u] == if UserMatches(u, searchTerm) then multiset(users)[u] else 0
    ensures searchTerm == "" ==> r == users
  {
    FilterSpec(UserSearch(searchTerm), users);
    if searchTerm == "" then
      FilterKeepsAll(UserSearch(searchTerm), users);
      Filter(UserSearch(searchTerm), users)
    else
      Filter(UserSearch(searchTerm), users)
  }

  /** The case the term is typed in does not change the result. */
  lemma SearchIgnoresCase(users: seq<User>, searchTerm: string)
    ensures FilteredUsers(users, Upper(searchTerm)) == FilteredUsers(users, searchTerm)
  {
    LowerOfUpper(searchTerm);
    FilterExtensional(UserSearch(Upper(searchTerm)), UserSearch(searchTerm), users);
  }

  const KnownRoles: set<string> := {"admin", "faculty", "student"}

  /** `getRoleColor`: red, blue and green for the three roles, gray for any other. */
  function RoleColor(role: string): (c: string)
    ensures c == "bg-gray-100 text-gray-800" <==> role !in KnownRoles
    ensures role == "admin" ==> c == "bg-red-100 text-red-800"
    ensures role == "faculty" ==> c == "bg-blue-100 text-blue-800"
    ensures role == "student" ==> c == "bg-green-100 text-green-800"
  {
    match role
    case "admin" => "bg-red-100 text-red-800"
    case "faculty" => "bg-blue-100 text-blue-800"
    case "student" => "bg-green-100 text-green-800"
    case _ => "bg-gray-100 text-gray-800"
  }

  /** `getRoleBadgeVariant`: one variant per role, "outline" for any other. */
  function RoleBadgeVariant(role: string): (v: string)
    ensures v == "outline" <==> role !in KnownRoles
    ensures role == "admin" ==> v == "destructive"
    ensures role == "faculty" ==> v == "secondary"
    ensures role == "student" ==> v == "default"
  {
    match role
    case "admin" => "destructive"
    case "faculty" => "secondary"
    case "student" => "default"
    case _ => "outline"
  }

  /** The colour and the badge tell roles apart in the same way. */
  lemma RoleStylesAgree(r1: string, r2: string)
    ensures RoleColor(r1) == RoleColor(r2) <==> RoleBadgeVariant(r1) == RoleBadgeVariant(r2)
    ensures r1 in KnownRoles && r2 in KnownRoles ==> (RoleBadgeVariant(r1) == RoleBadgeVariant(r2) <==> r1 == r2)
  {
  }

  /** The table's state around `loadUsers`. */
  class UsersPage {
    var users: seq<User>
    var loading: bool
    var error: Option<string>

    constructor()
      ensures users == [] && loading && error == None
    {
      users := [];
      loading := true;
      error := None;
    }

    /**
     * `loadUsers`: a query error keeps the old list and sets "Failed to load
     * users"; a successful query replaces the list, a null result by the empty
     * list; loading ends either way.
     */
    method LoadUsers(fetched: Result<Option<seq<User>>, string>)
      modifies this
      ensures !loading
      ensures fetched.Failure? ==> users == old(users) && error == Some("Failed to load users")
      ensures fetched.Success? ==> error == None && users == fetched.value.GetOr([])
    {
      loading := true;
      error := None;
      if fetched.Failure? {
        error := Some("Failed to load users");
      } else {
        users := fetched.value.GetOr([]);
      }
      loading := false;
    }
  }
}
