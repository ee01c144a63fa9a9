/** The user store slice: the signed-in user with their preferences, the
    plain reducers and the settled login and profile requests. */
module UserStore {
  import opened Wrappers
  import opened Text

  datatype Role = Student | Admin

  datatype Prefs = Prefs(
    notifications: bool,
    darkMode: bool,
    focusDuration: int,
    reminderFrequency: string)

  /** `Partial<User['settings']>`: each field present or absent. */
  datatype PrefsPatch = PrefsPatch(
    notifications: Option<bool>,
    darkMode: Option<bool>,
    focusDuration: Option<int>,
    reminderFrequency: Option<string>)

  const NoPrefsChanges := PrefsPatch(None, None, None, None)

  datatype User = User(
    id: string,
    name: string,
    email: string,
    role: Role,
    avatar: Option<string>,
    settings: Prefs)

  /** `{ ...settings, ...patch }`: a present field wins, an absent one keeps
      the old value. */
  function MergePrefs(s: Prefs, p: PrefsPatch): (r: Prefs)
    ensures p.notifications.Some? ==> r.notifications == p.notifications.value
    ensures p.notifications.None? ==> r.notifications == s.notifications
    ensures p.darkMode.Some? ==> r.darkMode == p.darkMode.value
    ensures p.darkMode.None? ==> r.darkMode == s.darkMode
    ensures p.focusDuration.Some? ==> r.focusDuration == p.focusDuration.value
    ensures p.focusDuration.None? ==> r.focusDuration == s.focusDuration
    ensures p.reminderFrequency.Some? ==> r.reminderFrequency == p.reminderFrequency.value
    ensures p.reminderFrequency.None? ==> r.reminderFrequency == s.reminderFrequency
  {
    Prefs(
      p.notifications.GetOr(s.notifications),
      p.darkMode.GetOr(s.darkMode),
      p.focusDuration.GetOr(s.focusDuration),
      p.reminderFrequency.GetOr(s.reminderFrequency))
  }

  function OrElse<T>(later: Option<T>, earlier: Option<T>): Option<T>
  {
    if later.Some? then later else earlier
  }

  /** One patch after another, as a single patch: the later field wins. */
  function ThenPatch(first: PrefsPatch, second: PrefsPatch): PrefsPatch
  {
    PrefsPatch(
      OrElse(second.notifications, first.notifications),
      OrElse(second.darkMode, first.darkMode),
      OrElse(second.focusDuration, first.focusDuration),
      OrElse(second.reminderFrequency, first.reminderFrequency))
  }

  /** An empty patch changes nothing, a patch applied twice is applied
      once, and two patches in turn are their composition. */
  lemma MergePrefsLaws(s: Prefs, p: PrefsPatch, q: PrefsPatch)
    ensures MergePrefs(s, NoPrefsChanges) == s
    ensures MergePrefs(MergePrefs(s, p), p) == MergePrefs(s, p)
    ensures MergePrefs(MergePrefs(s, p), q) == MergePrefs(s, ThenPatch(p, q))
  {
  }

  /** What a login request yields: `payload.user`, which may be absent. */
  datatype LoginResponse = LoginResponse(user: Option<User>)

  class UserSlice {
    var currentUser: Option<User>
    var isAuthenticated: bool
    var loading: bool
    var error: Option<string>

    /** Holding a user always means being signed in; the converse is not
        kept, since a login response without a user still signs in. */
    predicate Valid()
      reads this
    {
      currentUser.Some? ==> isAuthenticated
    }

    /** `initialState`. */
    constructor()
      ensures currentUser.None? && !isAuthenticated && !loading && error.None? && Valid()
    {
      currentUser := None;
      isAuthenticated := false;
      loading := false;
      error := None;
    }

    /** `logout`. */
    method Logout()
      requires Valid()
      modifies this
      ensures currentUser.None? && !isAuthenticated && error.None? && Valid()
      ensures loading == old(loading)
    {
      currentUser := None;
      isAuthenticated := false;
      error := None;
    }

    /** `updateUserSettings`: merged into the user's preferences; without a
        user nothing happens. */
    method UpdateUserSettings(patch: PrefsPatch)
      requires Valid()
      modifies this
      ensures old(currentUser).None? ==> currentUser.None?
      ensures old(currentUser).Some? ==>
                currentUser == Some(old(currentUser).value.(settings := MergePrefs(old(currentUser).value.settings, patch)))
      ensures isAuthenticated == old(isAuthenticated) && loading == old(loading) && error == old(error)
      ensures Valid()
    {
      if currentUser.Some? {
        var u := currentUser.value;
        currentUser := Some(u.(settings := MergePrefs(u.settings, patch)));
      }
    }

    /** `clearError`. */
    method ClearError()
      requires Valid()
      modifies this
      ensures error.None? && Valid()
      ensures currentUser == old(currentUser) && isAuthenticated == old(isAuthenticated) && loading == old(loading)
    {
      error := None;
    }

    /** `loginUser.pending`. */
    method LoginPending()
      requires Valid()
      modifies this
      ensures loading && error.None? && Valid()
      ensures currentUser == old(currentUser) && isAuthenticated == old(isAuthenticated)
    {
      loading := true;
      error := None;
    }

    /** `loginUser.fulfilled`. */
    method LoginFulfilled(payload: LoginResponse)
      requires Valid()
      modifies this
      ensures !loading && currentUser == payload.user && isAuthenticated && Valid()
      ensures error == old(error)
    {
      loading := false;
      currentUser := payload.user;
      isAuthenticated := true;
    }

    /** `loginUser.rejected`: the error's message, or 'Login failed'. */
    method LoginRejected(message: Option<string>)
      requires Valid()
      modifies this
      ensures !loading && error == Some(MessageOr(message, "Login failed")) && Valid()
      ensures currentUser == old(currentUser) && isAuthenticated == old(isAuthenticated)
    {
      loading := false;
      error := Some(MessageOr(message, "Login failed"));
    }

    /** `fetchUserProfile.pending`: unlike a login, the error stays. */
    method ProfilePending()
      requires Valid()
      modifies this
      ensures loading && Valid()
      ensures currentUser == old(currentUser) && isAuthenticated == old(isAuthenticated) && error == old(error)
    {
      loading := true;
    }

    /** `fetchUserProfile.fulfilled`: the payload is the user. */
    method ProfileFulfilled(payload: User)
      requires Valid()
      modifies this
      ensures !loading && currentUser == Some(payload) && isAuthenticated && Valid()
      ensures error == old(error)
    {
      loading := false;
      currentUser := Some(payload);
      isAuthenticated := true;
    }

    /** `fetchUserProfile.rejected`. */
    method ProfileRejected(message: Option<string>)
      requires Valid()
      modifies this
      ensures !loading && error == Some(MessageOr(message, "Failed to fetch profile")) && Valid()
      ensures currentUser == old(currentUser) && isAuthenticated == old(isAuthenticated)
    {
      loading := false;
      error := Some(MessageOr(message, "Failed to fetch profile"));
    }
  }
}
