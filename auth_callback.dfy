/** The web OAuth callback page (`AuthCallback`): it waits for the session store to
    settle and then sends the user to their dashboard or to onboarding, unless its
    single 8000 ms timer has fired first, in which case it sends them to the login
    page. The timer is an object field; its expiry is an event. */
module AuthCallback {
  import opened Common
  import opened Text
  import opened Session

  /** The delay of the page's one timer, in milliseconds. */
  const TimeoutMs: nat := 8000

  /** A `navigate(path, { replace })` call. */
  datatype Navigation = Navigation(path: string, replace: bool)

  /** The navigation effect, as a function of the page's `timedOut` flag and the
      store's `loading` and `profile`; None while it waits. The user is not an input:
      the page does not check that anyone is signed in. */
  function Decide(timedOut: bool, loading: bool, profile: Option<Profile>): (nav: Option<Navigation>)
    ensures timedOut ==> nav == Some(Navigation("/login", true))
    ensures !timedOut && loading ==> nav.None?
    ensures !timedOut && !loading && RoleOf(profile).Some? ==>
      nav == Some(Navigation("/dashboard/" + RoleOf(profile).value, true))
    ensures !timedOut && !loading && RoleOf(profile).None? ==> nav == Some(Navigation("/select-profile", true))
  {
    if timedOut then Some(Navigation("/login", true))
    else if loading then None
    else match RoleOf(profile)
      case Some(role) => Some(Navigation("/dashboard/" + role, true))
      case None => Some(Navigation("/select-profile", true))
  }

  /** Every navigation replaces the history entry, and once the store has settled (or
      the timer has fired) there is exactly one destination: the login page, onboarding,
      or a dashboard. */
  lemma {:induction false} OneDestination(timedOut: bool, loading: bool, profile: Option<Profile>)
    ensures var nav := Decide(timedOut, loading, profile);
      && (nav.Some? ==> nav.value.replace)
      && (nav.Some? <==> timedOut || !loading)
      && (nav.Some? ==>
            var p := nav.value.path;
            (p == "/login") || (p == "/select-profile") || ("/dashboard/" <= p && |p| > |"/dashboard/"|))
  {
    var nav := Decide(timedOut, loading, profile);
    if nav.Some? && !timedOut && RoleOf(profile).Some? {
      var role := RoleOf(profile).value;
      assert nav.value.path == "/dashboard/" + role;
      assert "/dashboard/" <= "/dashboard/" + role;
    }
  }

  /** The page's timer events: the mount effect arms it, it fires after TimeoutMs,
      and the effect's cleanup clears it. */
  datatype TimerEvent = Mounted | Elapsed | Unmounted

  datatype TimerState = TimerState(timedOut: bool, armed: bool)

  const InitialTimer: TimerState := TimerState(false, false)

  function TimerStep(t: TimerState, e: TimerEvent): TimerState
  {
    match e
    case Mounted => t.(armed := true)
    case Elapsed => if t.armed then TimerState(true, false) else t
    case Unmounted => t.(armed := false)
  }

  function RunTimer(t: TimerState, events: seq<TimerEvent>): TimerState
    decreases |events|
  {
    if events == [] then t else RunTimer(TimerStep(t, events[0]), events[1..])
  }

  lemma {:induction false} RunTimerAppend(t: TimerState, events: seq<TimerEvent>, e: TimerEvent)
    ensures RunTimer(t, events + [e]) == TimerStep(RunTimer(t, events), e)
    decreases |events|
  {
    if events == [] {
      assert [e][1..] == [];
    } else {
      assert (events + [e])[1..] == events[1..] + [e];
      RunTimerAppend(TimerStep(t, events[0]), events[1..], e);
    }
  }

  /** `timedOut` starts false and only the timer sets it: it is true exactly when the
      timer elapsed right after being armed, with no cleanup in between; and the timer is
      armed exactly when the latest event is the mount. */
  lemma {:induction false} TimedOutOnlyByArmedTimer(events: seq<TimerEvent>)
    ensures RunTimer(InitialTimer, events).armed <==> events != [] && events[|events| - 1] == Mounted
    ensures RunTimer(InitialTimer, events).timedOut <==>
      exists j :: 0 < j < |events| && events[j] == Elapsed && events[j - 1] == Mounted
    decreases |events|
  {
    if events != [] {
      var init := events[..|events| - 1];
      var last := events[|events| - 1];
      assert events == init + [last];
      RunTimerAppend(InitialTimer, init, last);
      TimedOutOnlyByArmedTimer(init);
      if RunTimer(InitialTimer, events).timedOut && !RunTimer(InitialTimer, init).timedOut {
        var j := |events| - 1;
        assert events[j] == Elapsed && events[j - 1] == Mounted;
      }
      if exists j :: 0 < j < |events| && events[j] == Elapsed && events[j - 1] == Mounted {
        var j :| 0 < j < |events| && events[j] == Elapsed && events[j - 1] == Mounted;
        if j < |events| - 1 {
          assert init[j] == Elapsed && init[j - 1] == Mounted;
        }
      }
      if exists j :: 0 < j < |init| && init[j] == Elapsed && init[j - 1] == Mounted {
        var j :| 0 < j < |init| && init[j] == Elapsed && init[j - 1] == Mounted;
        assert events[j] == Elapsed && events[j - 1] == Mounted;
      }
    }
  }

  class AuthCallbackPage {
    var timedOut: bool
    var armed: bool

    constructor ()
      ensures timedOut == false && armed == false
    {
      timedOut, armed := false, false;
    }

    function Timer(): TimerState
      reads this
    {
      TimerState(timedOut, armed)
    }

    /** The first effect: `setTimeout(() => setTimedOut(true), TimeoutMs)`; `delayMs` is
        the delay the timer is armed with. */
    method Mount() returns (delayMs: nat)
      modifies this
      ensures Timer() == TimerStep(old(Timer()), Mounted)
      ensures delayMs == TimeoutMs
    {
      armed := true;
      delayMs := TimeoutMs;
    }

    /** TimeoutMs have passed since the timer was armed. */
    method Elapse()
      modifies this
      ensures Timer() == TimerStep(old(Timer()), Elapsed)
    {
      if armed {
        timedOut, armed := true, false;
      }
    }

    /** The first effect's cleanup: `clearTimeout(timer)`. */
    method Cleanup()
      modifies this
      ensures Timer() == TimerStep(old(Timer()), Unmounted)
    {
      armed := false;
    }

    /** The second effect, run on every change of `profile`, `loading` or `timedOut`. */
    method Navigate(loading: bool, profile: Option<Profile>) returns (nav: Option<Navigation>)
      ensures nav == Decide(timedOut, loading, profile)
    {
      if timedOut {
        return Some(Navigation("/login", true));
      }
      if loading {
        return None;
      }
      if profile.Some? && Truthy(profile.value.role) {
        nav := Some(Navigation("/dashboard/" + profile.value.role.value, true));
      } else {
        nav := Some(Navigation("/select-profile", true));
      }
    }
  }
}
