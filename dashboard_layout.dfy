/**
 * The layout that wraps every dashboard page: the access check run after the
 * session is known, the guard on what it renders, and logging out.
 */
module DashboardLayout {
  import opened Wrappers
  import opened Ui

  datatype Role = Student | Faculty | Admin {
    function Name(): string {
      match this
      case Student => "student"
      case Faculty => "faculty"
      case Admin => "admin"
    }
  }

  /** What the auth hook reports: still loading, a signed-in user, and the user's profile role. */
  datatype Session = Session(loading: bool, hasUser: bool, profileRole: Option<string>)

  const LoginRoute := "/login"

  /** The outcome of the access check. */
  datatype Access = Wait | SignIn | Denied | Granted

  /**
   * The decision the effect takes: nothing while loading; no user or no
   * profile sends to sign-in; a required role the profile does not have is
   * denied; otherwise access is granted.
   */
  function Decide(session: Session, requiredRole: Option<Role>): (a: Access)
    ensures a == Wait <==> session.loading
    ensures a == SignIn <==> !session.loading && (!session.hasUser || session.profileRole.None?)
    ensures a == Denied <==> !session.loading && session.hasUser && session.profileRole.Some?
                             && requiredRole.Some? && session.profileRole.value != requiredRole.value.Name()
  {
    if session.loading then Wait
    else if !session.hasUser || session.profileRole.None? then SignIn
    else if requiredRole.Some? && session.profileRole.value != requiredRole.value.Name() then Denied
    else Granted
  }

  /** The toast and redirect each decision produces. */
  function AccessEffects(a: Access): seq<Effect> {
    match a
    case Wait => []
    case SignIn => [Navigate(LoginRoute)]
    case Denied => [Toast("Access Denied"), Navigate(LoginRoute)]
    case Granted => []
  }

  /** The render guard: content is shown only once loading is over and there is a user with a profile. */
  predicate Renders(session: Session)
    ensures Renders(session) <==> Decide(session, None) == Granted
    ensures Renders(session) <==> forall r: Role :: Decide(session, Some(r)) in {Granted, Denied}
  {
    // one role's decision, naming the instance the converse of the second ensures needs
    var student := Decide(session, Some(Student));
    !session.loading && session.hasUser && session.profileRole.Some?
  }

  /**
   * The effect redirects exactly when the session is known and either lacks a
   * user or profile or lacks the required role; a page without a required
   * role, or whose role matches, never redirects.
   */
  lemma RedirectsExactly(session: Session, requiredRole: Option<Role>)
    ensures Navigate(LoginRoute) in AccessEffects(Decide(session, requiredRole)) <==>
              !session.loading &&
              (!Renders(session) || (requiredRole.Some? && session.profileRole.value != requiredRole.value.Name()))
    ensures requiredRole.None? ==> Decide(session, requiredRole) != Denied
  {
  }

  /**
   * The render guard does not look at the role: a signed-in user with the
   * wrong role has the page content rendered while the effect denies access.
   */
  lemma WrongRoleStillRenders(requiredRole: Role, otherRole: string)
    requires otherRole != requiredRole.Name()
    ensures var s := Session(false, true, Some(otherRole));
            Renders(s) && Decide(s, Some(requiredRole)) == Denied
  {
  }

  /** The toast and redirect `handleLogout` produces for the outcome of `signOut`. */
  function LogoutEffects(signOutError: Option<string>): (r: seq<Effect>)
    ensures Navigate(LoginRoute) in r <==> signOutError.None?
  {
    if signOutError.None? then [Toast("Logged out"), Navigate(LoginRoute)] else [Toast("Logout failed")]
  }

  /** The layout's observable side effects. */
  class Layout {
    const requiredRole: Option<Role>
    var effects: seq<Effect>

    constructor(requiredRole: Option<Role>)
      ensures this.requiredRole == requiredRole && effects == []
    {
      this.requiredRole := requiredRole;
      effects := [];
    }

    /** The access effect, run with the current session. */
    method CheckAccess(session: Session)
      modifies this
      ensures effects == old(effects) + AccessEffects(Decide(session, requiredRole))
    {
      if !session.loading {
        if !session.hasUser || session.profileRole.None? {
          effects := effects + [Navigate(LoginRoute)];
          return;
        }
        if requiredRole.Some? && session.profileRole.value != requiredRole.value.Name() {
          effects := effects + [Toast("Access Denied"), Navigate(LoginRoute)];
          return;
        }
      }
    }

    /** `handleLogout`: the success toast and redirect, or the failure toast with no redirect. */
    method HandleLogout(signOutError: Option<string>)
      modifies this
      ensures effects == old(effects) + LogoutEffects(signOutError)
    {
      if signOutError.None? {
        effects := effects + [Toast("Logged out")];
        effects := effects + [Navigate(LoginRoute)];
      } else {
        effects := effects + [Toast("Logout failed")];
      }
    }
  }
}
