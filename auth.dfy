/**
 * The PIN session (src/hooks/use-auth.ts): the stored user profile, whether this browser
 * session has entered the PIN, and whether the profile is still being read. Writing the
 * profile and the session flag to the browser's storage is not modelled; what a read of
 * that storage returned is a parameter of `Load`.
 */
module Auth {
  import opened Wrappers
  import opened Types

  /** The profile entered at setup. */
  datatype UserProfile = UserProfile(name: string, designation: string, pin: string, cnic: string)

  /** The three pieces of state the hook exposes. */
  datatype AuthState = AuthState(user: Option<UserProfile>, isAuthenticated: bool, isAuthLoading: bool)

  /** Before anything is read: no user, not signed in, loading. */
  const Initial: AuthState := AuthState(None, false, true)

  /** The session flag that marks a signed-in browser session. */
  const SessionOpen: string := "true"

  // ---------------------------------------------------------------------------
  // The transitions
  // ---------------------------------------------------------------------------

  /**
   * Reading storage on start: a stored profile becomes the user, and an open session flag
   * signs in; an unreadable profile stops the read before the session flag is looked at.
   * Loading ends either way. Nothing here signs out.
   */
  function Loaded(s: AuthState, profile: Stored<UserProfile>, session: Option<string>): (t: AuthState)
    ensures !t.isAuthLoading
    ensures t.user == if profile.Stored? then Some(profile.value) else s.user
    ensures t.isAuthenticated <==>
              s.isAuthenticated || (!profile.Unreadable? && session == Some(SessionOpen))
  {
    match profile
    case Unreadable => s.(isAuthLoading := false)
    case NothingStored =>
      s.(isAuthenticated := s.isAuthenticated || session == Some(SessionOpen), isAuthLoading := false)
    case Stored(p) =>
      AuthState(Some(p), s.isAuthenticated || session == Some(SessionOpen), false)
  }

  /**
   * Setting up a profile: when the profile is saved it becomes the user, and when the
   * session flag is then saved as well the session is signed in and the answer is true. A
   * save that fails ends the setup there and answers false.
   */
  function SetUp(s: AuthState, profile: UserProfile, profileSaved: bool, sessionSaved: bool): (r: (AuthState, bool))
    ensures r.1 <==> profileSaved && sessionSaved
    ensures r.0.user == if profileSaved then Some(profile) else s.user
    ensures r.0.isAuthenticated <==> s.isAuthenticated || r.1
    ensures r.0.isAuthLoading == s.isAuthLoading
  {
    if !profileSaved then (s, false)
    else if !sessionSaved then (s.(user := Some(profile)), false)
    else (s.(user := Some(profile), isAuthenticated := true), true)
  }

  /**
   * Updating the profile: when it is saved it replaces the user and the answer is true;
   * otherwise nothing changes and the answer is false. The session is left as it was.
   */
  function Updated(s: AuthState, profile: UserProfile, profileSaved: bool): (r: (AuthState, bool))
    ensures r.1 == profileSaved
    ensures r.0.user == if profileSaved then Some(profile) else s.user
    ensures r.0.isAuthenticated == s.isAuthenticated && r.0.isAuthLoading == s.isAuthLoading
  {
    if profileSaved then (s.(user := Some(profile)), true) else (s, false)
  }

  /** Whether `pin` is the current user's PIN; there is none to match without a user. */
  predicate PinMatches(s: AuthState, pin: string)
  {
    s.user.Some? && s.user.value.pin == pin
  }

  /** Checking a PIN: a match signs in and answers true; anything else answers false and changes nothing. */
  function PinChecked(s: AuthState, pin: string): (r: (AuthState, bool))
    ensures r.1 <==> PinMatches(s, pin)
    ensures r.1 ==> r.0 == s.(isAuthenticated := true)
    ensures !r.1 ==> r.0 == s
  {
    if s.user.Some? && s.user.value.pin == pin then (s.(isAuthenticated := true), true)
    else (s, false)
  }

  /** Logging out signs out and keeps the user. */
  function LoggedOut(s: AuthState): (t: AuthState)
    ensures !t.isAuthenticated
    ensures t.user == s.user && t.isAuthLoading == s.isAuthLoading
  {
    s.(isAuthenticated := false)
  }

  // ---------------------------------------------------------------------------
  // The hook's state
  // ---------------------------------------------------------------------------

  class AuthSession {
    var user: Option<UserProfile>
    var isAuthenticated: bool
    var isAuthLoading: bool

    function State(): AuthState
      reads this
    {
      AuthState(user, isAuthenticated, isAuthLoading)
    }

    constructor ()
      ensures State() == Initial
    {
      user := None;
      isAuthenticated := false;
      isAuthLoading := true;
    }

    method Load(profile: Stored<UserProfile>, session: Option<string>)
      modifies this
      ensures State() == Loaded(old(State()), profile, session)
    {
      match profile {
        case Unreadable =>
        case NothingStored =>
          if session == Some(SessionOpen) {
            isAuthenticated := true;
          }
        case Stored(p) =>
          user := Some(p);
          if session == Some(SessionOpen) {
            isAuthenticated := true;
          }
      }
      isAuthLoading := false;
    }

    /**
     * setupUser: `profileSaved` and `sessionSaved` say whether writing the profile and
     * then the session flag to storage succeeded.
     */
    method SetupUser(profile: UserProfile, profileSaved: bool, sessionSaved: bool) returns (ok: bool)
      modifies this
      ensures (State(), ok) == SetUp(old(State()), profile, profileSaved, sessionSaved)
    {
      if !profileSaved {
        return false;
      }
      user := Some(profile);
      if !sessionSaved {
        return false;
      }
      isAuthenticated := true;
      ok := true;
    }

    /** updateUser: `profileSaved` says whether writing the profile to storage succeeded. */
    method UpdateUser(profile: UserProfile, profileSaved: bool) returns (ok: bool)
      modifies this
      ensures (State(), ok) == Updated(old(State()), profile, profileSaved)
    {
      if !profileSaved {
        return false;
      }
      user := Some(profile);
      ok := true;
    }

    method CheckPin(pin: string) returns (ok: bool)
      modifies this
      ensures (State(), ok) == PinChecked(old(State()), pin)
    {
      if user.Some? && user.value.pin == pin {
        isAuthenticated := true;
        ok := true;
      } else {
        ok := false;
      }
    }

    method Logout()
      modifies this
      ensures State() == LoggedOut(old(State()))
    {
      isAuthenticated := false;
    }
  }

  // ---------------------------------------------------------------------------
  // What the transitions promise together
  // ---------------------------------------------------------------------------

  /** Signed in only with a user to sign in as. */
  predicate SignedInHasUser(s: AuthState)
  {
    s.isAuthenticated ==> s.user.Some?
  }

  /** Setup, update, PIN checks and logout never leave a session signed in without a user. */
  lemma TransitionsKeepUser(s: AuthState, profile: UserProfile, pin: string, profileSaved: bool, sessionSaved: bool)
    requires SignedInHasUser(s)
    ensures SignedInHasUser(SetUp(s, profile, profileSaved, sessionSaved).0)
    ensures SignedInHasUser(Updated(s, profile, profileSaved).0)
    ensures SignedInHasUser(PinChecked(s, pin).0)
    ensures SignedInHasUser(LoggedOut(s))
  {
  }

  /**
   * Loading does not keep that promise: an open session flag signs in even when no profile
   * is stored.
   */
  lemma LoadSignsInWithoutUser()
    ensures var t := Loaded(Initial, NothingStored, Some(SessionOpen));
            t.isAuthenticated && t.user.None?
  {
  }

  /** After logging out, only the current user's PIN signs in again. */
  lemma LogoutThenPin(s: AuthState, pin: string)
    ensures var r := PinChecked(LoggedOut(s), pin);
            && (r.0.isAuthenticated <==> PinMatches(s, pin))
            && r.0.user == s.user
  {
  }

  /** A PIN check that fails, repeated, still fails and still changes nothing. */
  lemma FailedPinIsStable(s: AuthState, pin: string)
    requires !PinChecked(s, pin).1
    ensures PinChecked(PinChecked(s, pin).0, pin) == (s, false)
  {
  }

  /** From the start, loading signs in exactly when a readable profile and an open session flag are found. */
  lemma LoadFromStart(profile: Stored<UserProfile>, session: Option<string>)
    ensures var t := Loaded(Initial, profile, session);
            && (t.isAuthenticated <==> !profile.Unreadable? && session == Some(SessionOpen))
            && !t.isAuthLoading
  {
  }

  /** A call made on the hook after loading, with the outcome of any storage write it makes. */
  datatype Action =
    | SetupUserCall(profile: UserProfile, profileSaved: bool, sessionSaved: bool)
    | UpdateUserCall(profile: UserProfile, profileSaved: bool)
    | CheckPinCall(pin: string)
    | LogoutCall

  /** The state after one call. */
  function Step(s: AuthState, a: Action): AuthState
  {
    match a
    case SetupUserCall(p, saved, sessionSaved) => SetUp(s, p, saved, sessionSaved).0
    case UpdateUserCall(p, saved) => Updated(s, p, saved).0
    case CheckPinCall(pin) => PinChecked(s, pin).0
    case LogoutCall => LoggedOut(s)
  }

  /** The state after the calls `actions`, in order. */
  function Run(s: AuthState, actions: seq<Action>): AuthState
    decreases |actions|
  {
    if |actions| == 0 then s else Run(Step(s, actions[0]), actions[1..])
  }

  /**
   * Once a user is known, any sequence of calls keeps both the user and the promise that a
   * signed-in session has one; loading is never restarted.
   */
  lemma {:induction false} RunKeepsUser(s: AuthState, actions: seq<Action>)
    requires SignedInHasUser(s)
    ensures SignedInHasUser(Run(s, actions))
    ensures s.user.Some? ==> Run(s, actions).user.Some?
    ensures Run(s, actions).isAuthLoading == s.isAuthLoading
    decreases |actions|
  {
    if |actions| > 0 {
      match actions[0] {
        case SetupUserCall(p, saved, sessionSaved) => TransitionsKeepUser(s, p, "", saved, sessionSaved);
        case UpdateUserCall(p, saved) => TransitionsKeepUser(s, p, "", saved, false);
        case CheckPinCall(pin) => TransitionsKeepUser(s, UserProfile("", "", "", ""), pin, false, false);
        case LogoutCall =>
      }
      RunKeepsUser(Step(s, actions[0]), actions[1..]);
    }
  }

  /** A session ends signed out after a logout followed only by PIN checks that all fail. */
  lemma {:induction false} FailedPinsAfterLogout(s: AuthState, pins: seq<string>)
    requires forall i :: 0 <= i < |pins| ==> !PinMatches(s, pins[i])
    ensures var t := Run(LoggedOut(s), seq(|pins|, i requires 0 <= i < |pins| => CheckPinCall(pins[i])));
            !t.isAuthenticated && t.user == s.user
    decreases |pins|
  {
    if |pins| > 0 {
      var calls := seq(|pins|, i requires 0 <= i < |pins| => CheckPinCall(pins[i]));
      assert calls[1..] == seq(|pins| - 1, i requires 0 <= i < |pins| - 1 => CheckPinCall(pins[1..][i]));
      assert Step(LoggedOut(s), calls[0]) == LoggedOut(s);
      FailedPinsAfterLogout(s, pins[1..]);
    }
  }
}
