/** The session store (`AuthProvider`): who is signed in, their backend profile, and
    whether the first answer is still pending. The identity provider and the backend
    are outside the model: their answers arrive as events (a session or none, a
    profile or a failed request, a sign-out result). A profile request is started by
    one event and settles in a later one, so events from different requests can
    interleave; the store applies each one as it comes, with no ordering guard. */
module Session {
  import opened Common
  import opened Text

  /** The identity provider's user: stable id and email. */
  datatype User = User(id: string, email: string)

  /** The backend profile as the pages read it; `role` is "family", "nanny" or absent
      while onboarding is incomplete. */
  datatype Profile = Profile(role: Option<string>, fullName: Option<string>)

  /** `profile?.role` where the pages test it for truthiness: present only when there
      is a profile whose role is a non-empty string. */
  function RoleOf(profile: Option<Profile>): (role: Option<string>)
    ensures role.Some? <==> profile.Some? && Truthy(profile.value.role)
    ensures role.Some? ==> role == profile.value.role && role.value != ""
  {
    if profile.Some? && Truthy(profile.value.role) then profile.value.role else None
  }

  datatype AuthState = AuthState(user: Option<User>, profile: Option<Profile>, loading: bool)

  /** `useState(null)`, `useState(null)`, `useState(true)`. */
  const Initial: AuthState := AuthState(None, None, true)

  /** `GET /users/me?auth_id=<id>&email=<email>`, as sent by fetchProfile. */
  datatype ProfileRequest = ProfileRequest(authId: string, email: string)

  /** What reaches the store. A settled profile request carries the parsed body, which
      is `None` when the backend answered with a JSON `null`. */
  datatype Event =
    | InitialSession(session: Option<User>)               // initAuth, once getSession resolves
    | SessionChanged(session: Option<User>)               // the onAuthStateChange listener
    | ProfileFetched(result: ApiResult<Option<Profile>>)  // a fetchProfile request settles
    | SignOutDone(failed: bool)                           // logout, once signOut resolves

  /** The state after one event. */
  function Step(s: AuthState, e: Event): (r: AuthState)
    // both session events copy the session's user, and only they change the user
    ensures (e.InitialSession? || e.SessionChanged?) ==> r.user == e.session
    ensures !(e.InitialSession? || e.SessionChanged?) ==> r.user == s.user
    // a session change without a user clears everything and stops loading
    ensures e.SessionChanged? && e.session.None? ==> r == AuthState(None, None, false)
    // with a user, only the user changes until the profile request settles
    ensures (e.InitialSession? || e.SessionChanged?) && e.session.Some? ==> r == s.(user := e.session)
    // the initial check without a session stops loading and leaves the profile alone
    ensures e.InitialSession? && e.session.None? ==> r == AuthState(None, s.profile, false)
    // a settled profile request always stops loading; an answered one stores whatever the
    // body was, `null` included, and a failed one keeps the profile
    ensures e.ProfileFetched? ==> !r.loading && r.user == s.user
    ensures e.ProfileFetched? && e.result.Ok? ==> r.profile == e.result.data
    ensures e.ProfileFetched? && e.result.Failed? ==> r.profile == s.profile
    // logout clears the profile only when signOut reported no error
    ensures e.SignOutDone? ==> r == (if e.failed then s else s.(profile := None))
  {
    match e
    case InitialSession(session) =>
      if session.Some? then s.(user := session) else AuthState(None, s.profile, false)
    case SessionChanged(session) =>
      if session.Some? then s.(user := session) else AuthState(None, None, false)
    case ProfileFetched(result) =>
      AuthState(s.user, if result.Ok? then result.data else s.profile, false)
    case SignOutDone(failed) =>
      if failed then s else s.(profile := None)
  }

  /** The profile request an event starts, if any: the session events with a user fetch
      that user's profile by id and email. */
  function RequestOf(e: Event): (req: Option<ProfileRequest>)
    ensures req.Some? <==> (e.InitialSession? || e.SessionChanged?) && e.session.Some?
    ensures req.Some? ==> req.value == ProfileRequest(e.session.value.id, e.session.value.email)
  {
    if (e.InitialSession? || e.SessionChanged?) && e.session.Some? then
      Some(ProfileRequest(e.session.value.id, e.session.value.email))
    else None
  }

  /** `refreshProfile`: nothing without a user, else a new request for the current user. */
  function RefreshRequest(s: AuthState): (req: Option<ProfileRequest>)
    ensures req.None? <==> s.user.None?
    ensures req.Some? ==> req.value.authId == s.user.value.id && req.value.email == s.user.value.email
  {
    if s.user.None? then None else Some(ProfileRequest(s.user.value.id, s.user.value.email))
  }

  /** The state after a sequence of events, in order. */
  function Run(s: AuthState, events: seq<Event>): AuthState
    decreases |events|
  {
    if events == [] then s else Run(Step(s, events[0]), events[1..])
  }

  /** The user the last session event carried, or `current` if there was none. */
  function LastSessionUser(events: seq<Event>, current: Option<User>): Option<User>
    decreases |events|
  {
    if events == [] then current
    else
      var last := events[|events| - 1];
      if last.InitialSession? || last.SessionChanged? then last.session
      else LastSessionUser(events[..|events| - 1], current)
  }

  lemma {:induction false} RunAppend(s: AuthState, events: seq<Event>, e: Event)
    ensures Run(s, events + [e]) == Step(Run(s, events), e)
    decreases |events|
  {
    if events == [] {
      assert [e][1..] == [];
    } else {
      assert (events + [e])[1..] == events[1..] + [e];
      RunAppend(Step(s, events[0]), events[1..], e);
    }
  }

  /** The store's user is always the one the latest session event reported. */
  lemma {:induction false} UserIsLastSession(s: AuthState, events: seq<Event>)
    ensures Run(s, events).user == LastSessionUser(events, s.user)
    decreases |events|
  {
    if events != [] {
      var init := events[..|events| - 1];
      assert events == init + [events[|events| - 1]];
      RunAppend(s, init, events[|events| - 1]);
      UserIsLastSession(s, init);
    }
  }

  /** Nothing sets `loading` back to true: once the store has settled it stays settled. */
  lemma {:induction false} LoadingNeverReturns(s: AuthState, events: seq<Event>)
    requires !s.loading
    ensures !Run(s, events).loading
    decreases |events|
  {
    if events != [] {
      LoadingNeverReturns(Step(s, events[0]), events[1..]);
    }
  }

  /** A session change that arrives while an earlier profile request is in flight does
      not cancel it: signing in, signing out, and then the first request settling leaves
      a profile with no user. */
  lemma StaleProfileSurvivesSignOut(u: User, p: Profile)
    ensures Run(Initial, [SessionChanged(Some(u)), SessionChanged(None), ProfileFetched(Ok(Some(p)))])
            == AuthState(None, Some(p), false)
  {
    var evs := [SessionChanged(Some(u)), SessionChanged(None), ProfileFetched(Ok(Some(p)))];
    var s1 := Step(Initial, evs[0]);
    var s2 := Step(s1, evs[1]);
    var s3 := Step(s2, evs[2]);
    assert s3 == AuthState(None, Some(p), false);
    assert evs[1..][1..][1..] == [];
    calc {
      Run(Initial, evs);
      Run(s1, evs[1..]);
      Run(s2, evs[1..][1..]);
      Run(s3, evs[1..][1..][1..]);
    }
  }

  /** A profile reply whose body is JSON `null` is stored as it is: after a switch to
      another user, a `null` answer leaves no profile, not the previous user's. */
  lemma NullProfileReplyClears(a: User, b: User, p: Profile)
    ensures Run(AuthState(Some(a), Some(p), false), [SessionChanged(Some(b)), ProfileFetched(Ok(None))])
            == AuthState(Some(b), None, false)
  {
    var evs := [SessionChanged(Some(b)), ProfileFetched(Ok(None))];
    var s1 := Step(AuthState(Some(a), Some(p), false), evs[0]);
    var s2 := Step(s1, evs[1]);
    assert evs[1..][1..] == [];
    calc {
      Run(AuthState(Some(a), Some(p), false), evs);
      Run(s1, evs[1..]);
      Run(s2, evs[1..][1..]);
    }
  }

  /** `profile?.full_name?.split(' ')[0] ?? fallback`, the dashboards' greeting: the
      fallback when there is no profile or no full name, else the full name's text up to
      its first space (all of it when there is none, and "" when it starts with one). */
  function GreetingName(profile: Option<Profile>, fallback: string): (name: string)
    ensures profile.None? || profile.value.fullName.None? ==> name == fallback
    ensures profile.Some? && profile.value.fullName.Some? ==>
      name <= profile.value.fullName.value && ' ' !in name
    ensures profile.Some? && profile.value.fullName.Some? && |name| < |profile.value.fullName.value| ==>
      profile.value.fullName.value[|name|] == ' '
  {
    FirstWordOr(if profile.Some? then profile.value.fullName else None, fallback)
  }

  /** `email.split('@')[0]`, the placeholder full name `signup` sends: the text before
      the first '@' (all of it when there is none). */
  function PlaceholderName(email: string): (name: string)
    ensures name <= email && '@' !in name
    ensures |name| < |email| ==> email[|name|] == '@'
  {
    Split(email, '@')[0]
  }

  /** The store as a mutable object, one method per handler. */
  class AuthProvider {
    var user: Option<User>
    var profile: Option<Profile>
    var loading: bool

    function State(): AuthState
      reads this
    {
      AuthState(user, profile, loading)
    }

    constructor ()
      ensures State() == Initial
    {
      user, profile, loading := None, None, true;
    }

    /** initAuth, once getSession has answered `session`. */
    method InitAuth(session: Option<User>) returns (req: Option<ProfileRequest>)
      modifies this
      ensures State() == Step(old(State()), InitialSession(session))
      ensures req == RequestOf(InitialSession(session))
    {
      user := session;
      if session.Some? {
        req := Some(ProfileRequest(session.value.id, session.value.email));
      } else {
        loading := false;
        req := None;
      }
    }

    /** The onAuthStateChange listener. */
    method OnAuthStateChange(session: Option<User>) returns (req: Option<ProfileRequest>)
      modifies this
      ensures State() == Step(old(State()), SessionChanged(session))
      ensures req == RequestOf(SessionChanged(session))
    {
      user := session;
      if session.Some? {
        req := Some(ProfileRequest(session.value.id, session.value.email));
      } else {
        profile := None;
        loading := false;
        req := None;
      }
    }

    /** The end of fetchProfile: `try setProfile(data) finally setLoading(false)`. */
    method ProfileSettled(result: ApiResult<Option<Profile>>)
      modifies this
      ensures State() == Step(old(State()), ProfileFetched(result))
    {
      if result.Ok? {
        profile := result.data;
      }
      loading := false;
    }

    /** refreshProfile: `user && fetchProfile(user.id, user.email)`. */
    method RefreshProfile() returns (req: Option<ProfileRequest>)
      ensures req == RefreshRequest(State())
    {
      if user.None? {
        req := None;
      } else {
        req := Some(ProfileRequest(user.value.id, user.value.email));
      }
    }

    /** logout, once signOut has answered; `threw` when it reported an error. */
    method Logout(signOutFailed: bool) returns (threw: bool)
      modifies this
      ensures State() == Step(old(State()), SignOutDone(signOutFailed))
      ensures threw == signOutFailed
    {
      if signOutFailed {
        return true;
      }
      profile := None;
      threw := false;
    }
  }
}
