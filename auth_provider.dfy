/** The session provider (src/components/auth/auth-provider.tsx): the signed-in user and
    the role fields mirrored from it, restored from browser storage on load, set by
    `login` and cleared by `logout`; the redirect rule, the render gate and `useAuth`.
    Browser storage is a field holding the stored text; navigation is a ghost log. */
module AuthProvider {
  import opened Types

  /** Where the redirect effect navigates, if anywhere. */
  function RedirectTarget(isLoading: bool, hasUser: bool, pathname: string): (r: Option<string>)
    ensures isLoading ==> r == None
    ensures !isLoading && !hasUser && pathname != "/login" ==> r == Some("/login")
    ensures !isLoading && hasUser && pathname == "/login" ==> r == Some("/dashboard")
    ensures r.None? <==> isLoading || (hasUser <==> pathname != "/login")
  {
    if !isLoading then
      if !hasUser && pathname != "/login" then Some("/login")
      else if hasUser && pathname == "/login" then Some("/dashboard")
      else None
    else None
  }

  datatype View = LoadingScreen | RedirectingScreen | Children

  /** What the provider renders: the loading screen while loading away from the login
      page, the redirecting screen when signed out away from it, otherwise its children. */
  function Render(isLoading: bool, hasUser: bool, pathname: string): (v: View)
    ensures v == LoadingScreen <==> isLoading && pathname != "/login"
    ensures v == RedirectingScreen <==> !isLoading && !hasUser && pathname != "/login"
    ensures v == Children <==> !(isLoading && pathname != "/login") && !(!isLoading && !hasUser && pathname != "/login")
  {
    if isLoading && pathname != "/login" then LoadingScreen
    else if !isLoading && !hasUser && pathname != "/login" then RedirectingScreen
    else Children
  }

  /** The gate and the redirect agree: the redirecting screen shows exactly while a
      redirect to the login page is due, and once loading is over, protected pages are
      only rendered for a signed-in user. */
  lemma GateMatchesRedirect(isLoading: bool, hasUser: bool, pathname: string)
    ensures Render(isLoading, hasUser, pathname) == RedirectingScreen <==> RedirectTarget(isLoading, hasUser, pathname) == Some("/login")
    ensures Render(isLoading, hasUser, pathname) == Children && pathname != "/login" ==> !isLoading && hasUser
    ensures Render(isLoading, hasUser, pathname) == Children ==> RedirectTarget(isLoading, hasUser, pathname) != Some("/login")
  {
  }

  /** The context value the provider hands to its children. */
  datatype AuthContext = AuthContext(user: Option<User>, roleType: Option<UserRoleType>, specificRole: Option<UserSpecificRole>, isLoading: bool)

  /** `useAuth`: the nearest provider's context, or an error outside any provider. */
  function UseAuth(context: Option<AuthContext>): (r: Outcome<AuthContext>)
    ensures context.Some? ==> r == Ok(context.value)
    ensures context.None? ==> r == Fail("useAuth must be used within an AuthProvider")
  {
    if context.None? then Fail("useAuth must be used within an AuthProvider") else Ok(context.value)
  }

  /** A stored value is used only when it is a non-empty string. */
  predicate Truthy(stored: Option<string>) {
    stored.Some? && stored.value != ""
  }

  class AuthProvider {
    var user: Option<User>
    var roleType: Option<UserRoleType>
    var specificRole: Option<UserSpecificRole>
    var isLoading: bool
    /** `localStorage['insightFlowUser']` */
    var stored: Option<string>
    /** Every `router.push` target, in order. */
    ghost var navigations: seq<string>

    /** The role fields mirror the current user, and are null without one. */
    predicate Valid()
      reads this
    {
      && roleType == (if user.Some? then Some(user.value.roleType) else None)
      && specificRole == (if user.Some? then user.value.specificRole else None)
    }

    constructor(stored: Option<string>)
      ensures Valid()
      ensures user == None && isLoading && this.stored == stored && navigations == []
    {
      user := None;
      roleType := None;
      specificRole := None;
      isLoading := true;
      this.stored := stored;
      navigations := [];
    }

    /** The context value handed to the children. */
    function Context(): (c: AuthContext)
      reads this
      ensures c.user == user && c.isLoading == isLoading
      ensures Valid() ==> c.roleType == (if user.Some? then Some(user.value.roleType) else None)
    {
      AuthContext(user, roleType, specificRole, isLoading)
    }

    /** The initial load: a stored user that parses is restored together with its role
        fields; one that does not parse is removed from storage. Loading ends either way. */
    method LoadStoredUser(parse: string -> Option<User>)
      requires Valid()
      modifies this
      ensures Valid()
      ensures !isLoading && navigations == old(navigations)
      ensures Truthy(old(stored)) && parse(old(stored).value).Some? ==>
        user == parse(old(stored).value) && stored == old(stored)
      ensures Truthy(old(stored)) && parse(old(stored).value).None? ==>
        user == old(user) && stored == None
      ensures !Truthy(old(stored)) ==> user == old(user) && stored == old(stored)
    {
      if Truthy(stored) {
        var parsed := parse(stored.value);
        match parsed {
          case Some(u) =>
            user := Some(u);
            roleType := Some(u.roleType);
            specificRole := u.specificRole;
          case None =>
            stored := None;
        }
      }
      isLoading := false;
    }

    /** `login`: stores the user, mirrors its role fields and goes to the dashboard.
        `serialize` stands for `JSON.stringify`. */
    method Login(userData: User, serialize: User -> string)
      modifies this
      ensures Valid()
      ensures user == Some(userData) && stored == Some(serialize(userData))
      ensures roleType == Some(userData.roleType) && specificRole == userData.specificRole
      ensures isLoading == old(isLoading)
      ensures navigations == old(navigations) + ["/dashboard"]
    {
      stored := Some(serialize(userData));
      user := Some(userData);
      roleType := Some(userData.roleType);
      specificRole := userData.specificRole;
      navigations := navigations + ["/dashboard"];
    }

    /** `logout`: removes the stored user, clears the user and role fields and goes to
        the login page. */
    method Logout()
      modifies this
      ensures Valid()
      ensures user == None && roleType == None && specificRole == None && stored == None
      ensures isLoading == old(isLoading)
      ensures navigations == old(navigations) + ["/login"]
    {
      stored := None;
      user := None;
      roleType := None;
      specificRole := None;
      navigations := navigations + ["/login"];
    }

    /** The redirect effect, run for the current path. */
    method Redirect(pathname: string)
      modifies this
      ensures user == old(user) && roleType == old(roleType) && specificRole == old(specificRole)
      ensures isLoading == old(isLoading) && stored == old(stored)
      ensures var t := RedirectTarget(isLoading, user.Some?, pathname);
        navigations == old(navigations) + (if t.Some? then [t.value] else [])
    {
      var t := RedirectTarget(isLoading, user.Some?, pathname);
      if t.Some? {
        navigations := navigations + [t.value];
      }
    }
  }
}
