/** The route guard of the application shell and the protection flags of its routes. */
module App {
  import opened Outcomes
  import opened Text
  import opened AuthContext

  /** What `ProtectedRoute` renders: the loading view, a redirect, or its children. */
  datatype Guard = ShowLoading | Redirect(to: string) | RenderChildren

  /** `ProtectedRoute`: wait while loading, send visitors without a user to the login page, send
      non-administrators away from admin-only routes to the member area, and otherwise render. */
  function ProtectedRoute(loading: bool, user: Option<User>, profile: Option<Profile>, adminOnly: bool): (g: Guard)
    ensures g == ShowLoading <==> loading
    ensures !loading && user.None? ==> g == Redirect("/login")
    ensures g == Redirect("/member") <==> !loading && user.Some? && adminOnly && !IsAdmin(profile)
    ensures g == RenderChildren <==> !loading && user.Some? && (!adminOnly || IsAdmin(profile))
  {
    if loading then ShowLoading
    else if user.None? then Redirect("/login")
    else if adminOnly && !(profile.Some? && profile.value.role == Admin) &&
            !(profile.Some? && profile.value.role == SuperAdmin) then Redirect("/member")
    else RenderChildren
  }

  /** A react-router pattern ending in a slash and a star matches its prefix and everything
      below it. Routes are not case-sensitive by default, so the pathname is compared with the
      (lower-case) prefix after ASCII case folding. */
  function Below(pathname: string, prefix: string): (b: bool)
    ensures b ==> |pathname| >= |prefix| && ToLower(pathname)[..|prefix|] == prefix
  {
    var p := ToLower(pathname);
    p == prefix || StartsWith(p, prefix + "/")
  }

  /** Whether a pathname is below a prefix depends only on its letters up to case. */
  lemma BelowIgnoresCase(pathname: string, other: string, prefix: string)
    requires |pathname| == |other|
    requires forall i :: 0 <= i < |pathname| ==> LowerChar(pathname[i]) == LowerChar(other[i])
    ensures Below(pathname, prefix) <==> Below(other, prefix)
  {
    ToLowerIgnoresCase(pathname, other);
  }

  /** No pathname is below both the admin and the member tree: they differ in their second
      character. */
  lemma TreesAreDisjoint(pathname: string)
    ensures !(Below(pathname, "/admin") && Below(pathname, "/member"))
  {
    if Below(pathname, "/admin") {
      assert ToLower(pathname)[1] == 'a';
    }
  }

  /** The guard a pathname is rendered under: `Some(adminOnly)` for the two guarded route
      trees, `None` for the public pages, the login and the registration page. */
  function Protection(pathname: string): (p: Option<bool>)
    ensures p == Some(true) <==> Below(pathname, "/admin")
    ensures p == Some(false) <==> Below(pathname, "/member")
  {
    TreesAreDisjoint(pathname);
    if Below(pathname, "/admin") then Some(true)
    else if Below(pathname, "/member") then Some(false)
    else None
  }

  /** What is shown at `pathname`: a guarded tree goes through `ProtectedRoute`; anything else
      renders as it is. */
  function GuardAt(pathname: string, loading: bool, user: Option<User>, profile: Option<Profile>): (g: Guard)
    ensures Protection(pathname).None? ==> g == RenderChildren
    ensures Protection(pathname).Some? ==> g == ProtectedRoute(loading, user, profile, Protection(pathname).value)
    ensures g.Redirect? ==> g.to == "/login" || g.to == "/member"
  {
    match Protection(pathname)
    case Some(adminOnly) => ProtectedRoute(loading, user, profile, adminOnly)
    case None => RenderChildren
  }

  /** Every redirect of the guard lands on a page that renders: the login page is unguarded,
      and the member area admits every signed-in user. So the guard never redirects twice. */
  lemma GuardRedirectsSettle(pathname: string, loading: bool, user: Option<User>, profile: Option<Profile>)
    ensures GuardAt(pathname, loading, user, profile).Redirect? ==>
              GuardAt(GuardAt(pathname, loading, user, profile).to, loading, user, profile) == RenderChildren
  {
    assert !Below("/login", "/admin") && !Below("/login", "/member") by {
      assert ToLower("/login")[1] == 'l';
    }
    assert Below("/member", "/member") && !Below("/member", "/admin") by {
      LowerFixedPath("/member");
    }
  }

  lemma LowerFixedPath(path: string)
    requires forall i :: 0 <= i < |path| ==> !IsAsciiUpper(path[i])
    ensures ToLower(path) == path
  {
    ToLowerFixed(path);
  }

  /** A signed-in member (or a user whose profile is missing) is kept out of every admin page,
      whatever the letter case the address is typed in. */
  lemma MembersNeverSeeAdminPages(pathname: string, user: Option<User>, profile: Option<Profile>)
    requires Below(pathname, "/admin") && user.Some? && !IsAdmin(profile)
    ensures GuardAt(pathname, false, user, profile) == Redirect("/member")
  {
  }

  /** The admin tree typed in capitals is guarded like the lower-case one. */
  lemma CapitalisedAdminIsGuarded(user: Option<User>, profile: Option<Profile>)
    requires user.Some? && !IsAdmin(profile)
    ensures GuardAt("/ADMIN", false, user, profile) == Redirect("/member")
    ensures GuardAt("/Admin/users", false, user, profile) == Redirect("/member")
    ensures GuardAt("/ADMIN", false, None, None) == Redirect("/login")
  {
    var a := ToLower("/ADMIN");
    assert forall i :: 0 <= i < 6 ==> a[i] == "/admin"[i];
    var b := ToLower("/Admin/users");
    assert forall i :: 0 <= i < 12 ==> b[i] == "/admin/users"[i];
    assert b[..7] == "/admin/";
  }
}
