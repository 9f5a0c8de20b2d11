/** The authentication context: the demo-mode identity derivations, the profile lookup with
    auto-provisioning, the admin test, and the provider whose state (`user`, `profile`,
    `session`, `loading` and the stored demo-session slot) sign-in, sign-up, sign-out and the
    start-up restore update. Every backend call is a parameter carrying its outcome; the clock
    is the parameter `now`. */
module AuthContext {
  import opened Outcomes
  import opened Text

  datatype Role = Admin | Member | SuperAdmin

  /** The fields of the backend's user object the core reads or sets; `name` is
      `user_metadata.name`. */
  datatype User = User(id: string, email: Option<string>, name: Option<string>, createdAt: int)

  datatype Profile = Profile(
    id: string,
    email: string,
    fullName: Option<string>,
    phone: Option<string>,
    avatarUrl: Option<string>,
    role: Role,
    createdAt: int,
    updatedAt: int)

  datatype Session = Session(
    accessToken: string,
    refreshToken: string,
    expiresIn: int,
    tokenType: string,
    user: User)

  datatype DemoAccount = DemoAccount(password: string, role: Role)

  /** The built-in demo accounts, keyed by normalised email. */
  const DemoUsers: map<string, DemoAccount> := map[
    "admin@example.com" := DemoAccount("admin123", Admin),
    "superadmin@example.com" := DemoAccount("super123", SuperAdmin),
    "member@example.com" := DemoAccount("member123", Member),
    "demo@example.com" := DemoAccount("demo123", Member)
  ]

  /** The local-storage slot `gym_demo_session`: `{email, role}` as written by a demo sign-in
      or sign-up, or text that does not parse to such a record. */
  datatype StoredEntry = Demo(email: string, role: Role) | Unparseable

  /** The demo user, profile and session that sign-in, sign-up and restore install together. */
  datatype DemoIdentity = DemoIdentity(user: User, profile: Profile, session: Session)

  predicate StartsWith(s: string, prefix: string)
  {
    |prefix| <= |s| && s[..|prefix|] == prefix
  }

  /** The backend client is created only when both the URL and the anon key are set. */
  function ClientExists(url: string, key: string): (r: bool)
    ensures r <==> url != "" && key != ""
  {
    url != "" && key != ""
  }

  /** The backend counts as configured only with a client, a non-empty URL and a key that
      looks like a JWT (starts with "eyJ"); otherwise the provider runs in demo mode. */
  function IsSupabaseConfigured(url: string, key: string): (r: bool)
    ensures r <==> url != "" && |key| >= 3 && key[0] == 'e' && key[1] == 'y' && key[2] == 'J'
    ensures r ==> ClientExists(url, key)
  {
    ClientExists(url, key) && url != "" && key != "" && StartsWith(key, "eyJ")
  }

  /** `demo-` followed by the email with its first '@' replaced by "-at-" and then the first '.'
      of that result replaced by "-dot-". */
  function DemoId(email: string): (r: string)
    ensures |r| >= 5 + |email|
  {
    "demo-" + ReplaceFirst(ReplaceFirst(email, '@', "-at-"), '.', "-dot-")
  }

  /** Every demo id starts with "demo-", and an email with neither '@' nor '.' is copied
      unchanged after it. */
  lemma DemoIdShape(email: string)
    ensures DemoId(email)[..5] == "demo-"
    ensures '@' !in email && '.' !in email ==> DemoId(email) == "demo-" + email
  {
  }

  /** When the local part has no '.', the first '.' replaced is the domain's. */
  lemma DemoIdDotInDomain(local: string, domain: string)
    requires '@' !in local && '.' !in local
    ensures DemoId(local + "@" + domain) == "demo-" + local + "-at-" + ReplaceFirst(domain, '.', "-dot-")
  {
    var head := local + "-at-";
    AtReplaced(local, domain);
    NoDotAfterAt(local);
    ReplaceFirstSkips(head, domain, '.', "-dot-");
    assert "demo-" + (head + ReplaceFirst(domain, '.', "-dot-")) ==
           "demo-" + local + "-at-" + ReplaceFirst(domain, '.', "-dot-");
  }

  lemma AtReplaced(local: string, domain: string)
    requires '@' !in local
    ensures ReplaceFirst(local + "@" + domain, '@', "-at-") == (local + "-at-") + domain
  {
    assert local + "@" + domain == local + ['@'] + domain;
    ReplaceFirstAt(local, '@', domain, "-at-");
  }

  lemma NoDotAfterAt(local: string)
    requires '.' !in local
    ensures '.' !in local + "-at-"
  {
    assert forall x :: x in local + "-at-" ==> x in local || x in "-at-";
  }

  /** When the local part has a '.', only its first '.' is replaced and the domain keeps its
      dots. */
  lemma DemoIdDotInLocal(before: string, after: string, domain: string)
    requires '@' !in before && '@' !in after && '.' !in before
    ensures DemoId((before + "." + after) + "@" + domain) == "demo-" + (before + "-dot-" + after) + "-at-" + domain
  {
    var local := before + "." + after;
    assert '@' !in local by {
      assert forall x :: x in local ==> x in before || x == '.' || x in after;
    }
    assert local + "@" + domain == local + ['@'] + domain;
    ReplaceFirstAt(local, '@', domain, "-at-");
    var rest := after + "-at-" + domain;
    assert local + "-at-" + domain == before + ['.'] + rest;
    ReplaceFirstAt(before, '.', rest, "-dot-");
    assert before + "-dot-" + rest == (before + "-dot-" + after) + "-at-" + domain;
  }

  /** Demo ids are not unique: moving a "-dot-" between the local part and the domain, against
      a '.' moving the other way, gives a different email with the same id (for instance
      "a-dot-b@c.d" and "a.b@c-dot-d"). */
  lemma DemoIdCollides(x: string, y: string, z: string, w: string)
    requires '@' !in x && '@' !in y && '.' !in x && '.' !in y && '.' !in z
    ensures (x + "-dot-" + y) + "@" + (z + "." + w) != (x + "." + y) + "@" + (z + "-dot-" + w)
    ensures DemoId((x + "-dot-" + y) + "@" + (z + "." + w)) == DemoId((x + "." + y) + "@" + (z + "-dot-" + w))
  {
    var first := (x + "-dot-" + y) + "@" + (z + "." + w);
    var second := (x + "." + y) + "@" + (z + "-dot-" + w);
    assert first[|x|] == '-' && second[|x|] == '.';
    assert '.' !in "-dot-" && '@' !in "-dot-";
    DemoIdDotInDomain(x + "-dot-" + y, z + "." + w);
    assert z + "." + w == z + ['.'] + w;
    ReplaceFirstAt(z, '.', w, "-dot-");
    DemoIdDotInLocal(x, y, z + "-dot-" + w);
  }

  /** `createDemoUser`: the user's name is the email's local part. */
  function DemoUser(email: string, now: int): (u: User)
    ensures u.id == DemoId(email) && u.email == Some(email) && u.name == Some(LocalPart(email))
  {
    User(DemoId(email), Some(email), Some(LocalPart(email)), now)
  }

  /** `createDemoProfile`: the full name is the local part with its first letter upper-cased;
      phone and avatar are empty. */
  function DemoProfile(email: string, role: Role, now: int): (p: Profile)
    ensures p.id == DemoId(email) && p.email == email && p.role == role
    ensures p.fullName == Some(Capitalize(LocalPart(email)))
    ensures p.phone == None && p.avatarUrl == None && p.createdAt == now && p.updatedAt == now
  {
    Profile(DemoId(email), email, Some(Capitalize(LocalPart(email))), None, None, role, now, now)
  }

  /** `createDemoSession`. */
  function DemoSession(user: User): (s: Session)
    ensures s.user == user
    ensures s.accessToken == "demo-token" && s.refreshToken == "demo-refresh-token"
    ensures s.expiresIn == 3600 && s.tokenType == "bearer"
  {
    Session("demo-token", "demo-refresh-token", 3600, "bearer", user)
  }

  /** The user, profile and session a demo sign-in or restore installs for `email` and `role`:
      they name one identity, carry the given role, and the session holds that user. */
  function DemoSignIn(email: string, role: Role, now: int): (d: DemoIdentity)
    ensures d.session.user == d.user
    ensures d.profile.id == d.user.id == DemoId(email)
    ensures d.user.email == Some(d.profile.email) && d.profile.email == email
    ensures d.profile.role == role
  {
    var user := DemoUser(email, now);
    DemoIdentity(user, DemoProfile(email, role, now), DemoSession(user))
  }

  /** The profile full name of `local@domain` in demo mode is the capitalised local part. */
  lemma DemoFullNameIsCapitalisedLocalPart(local: string, domain: string, role: Role, now: int)
    requires '@' !in local
    ensures DemoProfile(local + "@" + domain, role, now).fullName == Some(Capitalize(local))
  {
    LocalPartOf(local, domain);
  }

  /** The role a demo sign-in grants: the table's role when the normalised email is a demo
      account and the password matches, otherwise member. */
  function SignInRole(normalizedEmail: string, password: string): (r: Role)
    ensures r != Member ==> normalizedEmail in DemoUsers && DemoUsers[normalizedEmail].password == password
    ensures normalizedEmail in DemoUsers && DemoUsers[normalizedEmail].password == password ==>
              r == DemoUsers[normalizedEmail].role
  {
    if normalizedEmail in DemoUsers && DemoUsers[normalizedEmail].password == password
    then DemoUsers[normalizedEmail].role
    else Member
  }

  /** Demo sign-in grants an administrative role for exactly two credential pairs, whatever
      the letter case and surrounding white space of the typed email. */
  lemma SignInGrantsAdminOnlyToAdminAccounts(email: string, password: string)
    ensures SignInRole(NormalizeEmail(email), password) != Member <==>
              (NormalizeEmail(email) == "admin@example.com" && password == "admin123") ||
              (NormalizeEmail(email) == "superadmin@example.com" && password == "super123")
  {
    AdminRoleKeys(NormalizeEmail(email), password);
  }

  lemma AdminRoleKeys(e: string, password: string)
    ensures SignInRole(e, password) != Member <==>
              (e == "admin@example.com" && password == "admin123") ||
              (e == "superadmin@example.com" && password == "super123")
  {
    if e in DemoUsers {
      assert e == "admin@example.com" || e == "superadmin@example.com" ||
             e == "member@example.com" || e == "demo@example.com";
    }
  }

  /** A known demo email with a wrong password still signs in, as a member. */
  lemma WrongPasswordSignsInAsMember(normalizedEmail: string, password: string)
    requires normalizedEmail in DemoUsers && password != DemoUsers[normalizedEmail].password
    ensures SignInRole(normalizedEmail, password) == Member
  {
  }

  /** `profile?.role === 'admin' || profile?.role === 'super_admin'`: a missing profile and a
      member are the only non-admins. */
  function IsAdmin(profile: Option<Profile>): (r: bool)
    ensures r <==> profile.Some? && profile.value.role != Member
  {
    profile.Some? && (profile.value.role == Admin || profile.value.role == SuperAdmin)
  }

  /** The row `fetchProfile` inserts when a signed-in user has no profile yet, as the backend
      hands it back (phone and avatar unset, both timestamps `now`). */
  function ProvisionedProfile(userId: string, email: string, now: int): (p: Profile)
    ensures p.id == userId && p.email == email && p.role == Member
    ensures p.fullName == Some(LocalPart(email))
  {
    Profile(userId, email, Some(LocalPart(email)), None, None, Member, now, now)
  }

  /** `fetchProfile`: nothing in demo mode or without a client; the stored profile when there
      is one; a newly provisioned member profile when there is none and an email is known; and
      nothing on any backend error. `lookup` is the select's outcome, `insertError` the
      insert's. */
  function FetchProfile(hasClient: bool, isDemoMode: bool, userId: string, userEmail: Option<string>,
                        lookup: Outcome<Option<Profile>>, insertError: Option<string>, now: int): (r: Option<Profile>)
    ensures !hasClient || isDemoMode || lookup.Err? ==> r == None
    ensures hasClient && !isDemoMode && lookup.Ok? && lookup.value.Some? ==> r == lookup.value
    ensures r.Some? && (lookup.Ok? && lookup.value.None?) ==>
              userEmail.Some? && userEmail.value != "" && insertError.None? &&
              r == Some(ProvisionedProfile(userId, userEmail.value, now))
    ensures (hasClient && !isDemoMode && lookup == Ok(None) && userEmail.Some? && userEmail.value != "" &&
             insertError.None?) ==> r.Some? && r.value.role == Member
  {
    if !hasClient || isDemoMode then None
    else match lookup
      case Err(_) => None
      case Ok(data) =>
        if data.None? && userEmail.Some? && userEmail.value != "" then
          if insertError.Some? then None else Some(ProvisionedProfile(userId, userEmail.value, now))
        else data
  }

  /** The profile a demo sign-up installs: the demo profile of a member, with the given name
      (or the local part when the name is missing or empty) and the given phone (or none). */
  function SignedUpProfile(email: string, name: Option<string>, phone: Option<string>, now: int): (p: Profile)
    ensures p.id == DemoId(email) && p.email == email && p.role == Member
    ensures p.fullName == Some(OrElse(name, LocalPart(email))) && p.phone == OrNull(phone)
  {
    DemoProfile(email, Member, now).(fullName := Some(OrElse(name, LocalPart(email))), phone := OrNull(phone))
  }

  /** The provider's state. `stored` is the demo-session slot of local storage. */
  class AuthProvider {
    var user: Option<User>
    var profile: Option<Profile>
    var session: Option<Session>
    var loading: bool
    var stored: Option<StoredEntry>
    const hasClient: bool
    const isDemoMode: bool

    /** The session, when there is one, carries the user; a profile never outlives the user;
        and in demo mode a signed-in user always has a profile that the stored slot
        describes (so a reload restores the same email and role). */
    ghost predicate Valid()
      reads this
    {
      && (!isDemoMode ==> hasClient)
      && (session.Some? ==> user == Some(session.value.user))
      && (session.None? ==> user.None?)
      && (profile.Some? ==> user.Some?)
      && (isDemoMode && user.Some? ==>
            profile.Some? && profile.value.id == user.value.id &&
            stored == Some(Demo(profile.value.email, profile.value.role)))
    }

    predicate SignedOut()
      reads this
    {
      user.None? && profile.None? && session.None?
    }

    /** Mounting the provider: nothing signed in, loading, demo mode decided once from the
        configuration. */
    constructor (url: string, key: string, slot: Option<StoredEntry>)
      ensures Valid() && SignedOut() && loading && stored == slot
      ensures hasClient == ClientExists(url, key) && isDemoMode == !IsSupabaseConfigured(url, key)
    {
      user, profile, session := None, None, None;
      loading := true;
      stored := slot;
      hasClient := ClientExists(url, key);
      isDemoMode := !IsSupabaseConfigured(url, key);
    }

    method Install(d: DemoIdentity)
      modifies this
      ensures user == Some(d.user) && profile == Some(d.profile) && session == Some(d.session)
      ensures loading == old(loading) && stored == old(stored)
    {
      user := Some(d.user);
      profile := Some(d.profile);
      session := Some(d.session);
    }

    /** `initAuth`, run once at mount. Demo mode restores a stored `{email, role}` (and drops an
        unreadable slot); otherwise the backend session (or its absence) and the user's profile
        are installed, and a failed session lookup changes nothing. Loading ends on every path. */
    method InitAuth(now: int, current: Outcome<Option<Session>>, lookup: Outcome<Option<Profile>>,
                    insertError: Option<string>)
      requires Valid() && SignedOut()
      modifies this
      ensures Valid() && !loading
      ensures isDemoMode && old(stored).Some? && old(stored).value.Demo? ==>
                var d := DemoSignIn(old(stored).value.email, old(stored).value.role, now);
                user == Some(d.user) && profile == Some(d.profile) && session == Some(d.session) &&
                stored == old(stored)
      ensures isDemoMode && old(stored) == Some(Unparseable) ==> SignedOut() && stored == None
      ensures isDemoMode && old(stored) == None ==> SignedOut() && stored == None
      ensures !isDemoMode && current.Err? ==> SignedOut() && stored == old(stored)
      ensures !isDemoMode && current.Ok? ==>
                session == current.value && stored == old(stored) &&
                (current.value.None? ==> SignedOut()) &&
                (current.value.Some? ==>
                   var u := current.value.value.user;
                   user == Some(u) &&
                   profile == FetchProfile(hasClient, isDemoMode, u.id, u.email, lookup, insertError, now))
    {
      if isDemoMode {
        match stored {
          case Some(Demo(email, role)) =>
            Install(DemoSignIn(email, role, now));
          case Some(Unparseable) =>
            stored := None;
          case None =>
        }
        loading := false;
        return;
      }
      match current {
        case Err(_) =>
        case Ok(s) =>
          session := s;
          if s.Some? {
            user := Some(s.value.user);
            profile := FetchProfile(hasClient, isDemoMode, s.value.user.id, s.value.user.email, lookup, insertError, now);
          } else {
            user := None;
          }
      }
      loading := false;
    }

    /** `signIn`. In demo mode it never fails: the normalised email signs in with the role
        `SignInRole` grants, and `{email, role}` is stored. Otherwise the backend's error is
        returned and the state is left to the auth-change listener. */
    method SignIn(email: string, password: string, now: int, backendError: Option<string>)
      returns (error: Option<string>)
      requires Valid()
      modifies this
      ensures Valid() && loading == old(loading)
      ensures isDemoMode ==>
                var e := NormalizeEmail(email);
                var d := DemoSignIn(e, SignInRole(e, password), now);
                error == None && stored == Some(Demo(e, SignInRole(e, password))) &&
                user == Some(d.user) && profile == Some(d.profile) && session == Some(d.session)
      ensures !isDemoMode ==>
                error == backendError && user == old(user) && profile == old(profile) &&
                session == old(session) && stored == old(stored)
    {
      if isDemoMode {
        var e := NormalizeEmail(email);
        var role := SignInRole(e, password);
        stored := Some(Demo(e, role));
        Install(DemoSignIn(e, role, now));
        return None;
      }
      error := backendError;
    }

    /** `signUp`. In demo mode it never fails and signs the normalised email in as a member whose
        full name is the given name (or the local part when the name is empty or missing) and
        whose phone is the given one (or none). Otherwise the backend's error is returned. */
    method SignUp(email: string, password: string, name: Option<string>, phone: Option<string>,
                  now: int, backendError: Option<string>)
      returns (error: Option<string>)
      requires Valid()
      modifies this
      ensures Valid() && loading == old(loading)
      ensures isDemoMode ==>
                var e := NormalizeEmail(email);
                var u := DemoUser(e, now);
                error == None && stored == Some(Demo(e, Member)) &&
                user == Some(u) && session == Some(DemoSession(u)) &&
                profile == Some(SignedUpProfile(e, name, phone, now))
      ensures !isDemoMode ==>
                error == backendError && user == old(user) && profile == old(profile) &&
                session == old(session) && stored == old(stored)
    {
      if isDemoMode {
        var e := NormalizeEmail(email);
        var u := DemoUser(e, now);
        var p := SignedUpProfile(e, name, phone, now);
        assert p.id == u.id && p.email == e && p.role == Member;
        stored := Some(Demo(e, Member));
        Install(DemoIdentity(u, p, DemoSession(u)));
        return None;
      }
      error := backendError;
    }

    /** `signOut`. Demo mode clears the stored slot and the state. Otherwise the state is cleared
        once the backend call completes; if it throws, nothing changes. */
    method SignOut(backend: CallResult)
      requires Valid()
      modifies this
      ensures Valid() && loading == old(loading)
      ensures isDemoMode ==> SignedOut() && stored == None
      ensures !isDemoMode ==> stored == old(stored)
      ensures !isDemoMode && backend.Completed? ==> SignedOut()
      ensures !isDemoMode && backend.Threw? ==>
                user == old(user) && profile == old(profile) && session == old(session)
    {
      if isDemoMode {
        stored := None;
        user, profile, session := None, None, None;
        return;
      }
      if backend.Completed? {
        user, profile, session := None, None, None;
      }
    }

    /** `refreshProfile`: outside demo mode, reload the signed-in user's profile. */
    method RefreshProfile(now: int, lookup: Outcome<Option<Profile>>, insertError: Option<string>)
      requires Valid()
      modifies this
      ensures Valid()
      ensures user == old(user) && session == old(session) && stored == old(stored) && loading == old(loading)
      ensures old(user).Some? && !isDemoMode ==>
                profile == FetchProfile(hasClient, isDemoMode, old(user).value.id, old(user).value.email,
                                        lookup, insertError, now)
      ensures old(user).None? || isDemoMode ==> profile == old(profile)
    {
      if user.Some? && !isDemoMode {
        profile := FetchProfile(hasClient, isDemoMode, user.value.id, user.value.email, lookup, insertError, now);
      }
    }

    /** The auth-change listener, registered only outside demo mode: install the new session,
        its user and that user's profile (none when signed out), and stop loading. */
    method OnAuthStateChange(newSession: Option<Session>, now: int, lookup: Outcome<Option<Profile>>,
                             insertError: Option<string>)
      requires Valid() && !isDemoMode
      modifies this
      ensures Valid() && !loading && stored == old(stored)
      ensures session == newSession
      ensures newSession.None? ==> SignedOut()
      ensures newSession.Some? ==>
                var u := newSession.value.user;
                user == Some(u) &&
                profile == FetchProfile(hasClient, isDemoMode, u.id, u.email, lookup, insertError, now)
    {
      session := newSession;
      if newSession.Some? {
        var u := newSession.value.user;
        user := Some(u);
        profile := FetchProfile(hasClient, isDemoMode, u.id, u.email, lookup, insertError, now);
      } else {
        user := None;
        profile := None;
      }
      loading := false;
    }
  }

  /** The slot a demo sign-in writes holds the installed profile's email and role, and
      restoring from exactly those two fields rebuilds the same user, profile and session (for
      the same clock reading). */
  lemma RestoreAfterSignInIsSameIdentity(email: string, role: Role, now: int)
    ensures var d := DemoSignIn(email, role, now);
            DemoSignIn(d.profile.email, d.profile.role, now) == d
  {
  }

  /** Restoring the slot a demo sign-up wrote does not bring back the name given at sign-up:
      the restored full name is the capitalised local part. */
  lemma RestoreAfterSignUpLosesName(e: string, name: string, now: int)
    requires name != "" && name != Capitalize(LocalPart(e))
    ensures DemoSignIn(e, Member, now).profile.fullName != Some(OrElse(Some(name), LocalPart(e)))
  {
  }
}
