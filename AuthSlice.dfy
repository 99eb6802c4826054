/** The auth slice of the Redux store (src/features/auth/authSlice.js): the state
    record, its reducers, the profile provisioning rule and the three thunks. The
    auth provider and the `profiles` table are oracles: their replies are
    parameters. */
module AuthSlice {
  import opened JsValues

  /** The `user_metadata` fields the provisioning rule reads. */
  datatype UserMetadata = UserMetadata(
    displayName: Option<string>,
    fullName: Option<string>,
    name: Option<string>,
    avatarUrl: Option<string>)

  /** The provider's user record embedded in a session. */
  datatype User = User(id: string, email: Option<string>, metadata: UserMetadata)

  /** A provider session: an opaque token and, normally, the signed-in user. */
  datatype Session = Session(accessToken: string, user: Option<User>)

  /** A row of the `profiles` table. */
  datatype Profile = Profile(id: string, displayName: Option<string>, avatarUrl: Option<string>)

  /** The slice state `{session, profile, isLoading, error}`. */
  datatype AuthState = AuthState(
    session: Option<Session>,
    profile: Option<Profile>,
    isLoading: bool,
    error: Option<string>)

  const InitialAuthState := AuthState(None, None, false, None)

  /** `session?.user`. */
  function SessionUser(session: Option<Session>): Option<User>
  {
    if session.Some? then session.value.user else None
  }

  // ---------------------------------------------------------------------------
  // Profile provisioning.

  /** The error code the backend gives when `.single()` finds no row. */
  const NotFoundCode := "PGRST116"
  const MissingUserMessage := "User data not available for profile creation."
  const ProfileFetchFailedMessage := "Failed to fetch user profile."

  /** The first truthy candidate, or `fallback` when none is: the value of
      `c0 || c1 || ... || fallback`. */
  function FirstTruthy(candidates: seq<Option<string>>, fallback: Option<string>): (r: Option<string>)
    ensures r in candidates || r == fallback
    decreases |candidates|
  {
    if |candidates| == 0 then fallback
    else if Truthy(candidates[0]) then candidates[0]
    else FirstTruthy(candidates[1..], fallback)
  }

  /** `FirstTruthy` picks the earliest truthy candidate, and falls back only when no
      candidate is truthy. */
  lemma {:induction false} FirstTruthyIsFirst(candidates: seq<Option<string>>, fallback: Option<string>)
    ensures (forall i :: 0 <= i < |candidates| ==> !Truthy(candidates[i]))
            ==> FirstTruthy(candidates, fallback) == fallback
    ensures (exists i :: 0 <= i < |candidates| && Truthy(candidates[i]))
            ==> exists i :: 0 <= i < |candidates| && Truthy(candidates[i])
                  && FirstTruthy(candidates, fallback) == candidates[i]
                  && forall j :: 0 <= j < i ==> !Truthy(candidates[j])
    decreases |candidates|
  {
    if |candidates| > 0 && !Truthy(candidates[0]) {
      var tail := candidates[1..];
      FirstTruthyIsFirst(tail, fallback);
      assert forall i :: 1 <= i < |candidates| ==> candidates[i] == tail[i - 1];
      if exists i :: 0 <= i < |candidates| && Truthy(candidates[i]) {
        var i :| 0 <= i < |candidates| && Truthy(candidates[i]);
        assert Truthy(tail[i - 1]);
        var k :| 0 <= k < |tail| && Truthy(tail[k]) && FirstTruthy(tail, fallback) == tail[k]
                 && forall j :: 0 <= j < k ==> !Truthy(tail[j]);
        assert forall j :: 0 <= j < k + 1 ==> !Truthy(candidates[j]) by {
          forall j | 0 <= j < k + 1 ensures !Truthy(candidates[j]) {
            if j > 0 { assert candidates[j] == tail[j - 1]; }
          }
        }
        assert Truthy(candidates[k + 1]) && FirstTruthy(candidates, fallback) == candidates[k + 1];
      }
    } else if |candidates| > 0 {
      assert Truthy(candidates[0]);
    }
  }

  /** The profile built for a user who has none yet. */
  function NewProfile(userId: string, user: User): Profile
  {
    var md := user.metadata;
    Profile(userId, Or(Or(Or(md.displayName, md.fullName), md.name), user.email), Or(md.avatarUrl, None))
  }

  /** A new profile belongs to the given user; its display name is the first truthy
      one of the metadata display name, full name and name, and the email when none
      is; its avatar is the metadata avatar when that is truthy and null otherwise. */
  lemma NewProfileFields(userId: string, user: User)
    ensures NewProfile(userId, user).id == userId
    ensures NewProfile(userId, user).displayName
            == FirstTruthy([user.metadata.displayName, user.metadata.fullName, user.metadata.name], user.email)
    ensures Truthy(NewProfile(userId, user).displayName)
            <==> Truthy(user.metadata.displayName) || Truthy(user.metadata.fullName)
                 || Truthy(user.metadata.name) || Truthy(user.email)
    ensures NewProfile(userId, user).avatarUrl
            == if Truthy(user.metadata.avatarUrl) then user.metadata.avatarUrl else None
  {
    var md := user.metadata;
    var cs := [md.displayName, md.fullName, md.name];
    assert cs[1..] == [md.fullName, md.name];
    assert cs[1..][1..] == [md.name];
    assert cs[1..][1..][1..] == [];
    assert FirstTruthy(cs[1..][1..][1..], user.email) == user.email;
    assert FirstTruthy(cs[1..][1..], user.email) == Or(md.name, user.email);
    assert FirstTruthy(cs[1..], user.email) == Or(md.fullName, Or(md.name, user.email));
    assert FirstTruthy(cs, user.email) == Or(md.displayName, Or(md.fullName, Or(md.name, user.email)));
  }

  /** The reply to `.from('profiles').select('*').eq('id', userId).single()`. */
  datatype ProfileLookup = Found(profile: Profile) | LookupFailed(code: string, message: Option<string>)

  /** The reply to `.insert([newProfile]).select().single()`: the row the backend
      stored and sends back, or the insert's error. */
  datatype InsertReply = Inserted(row: Profile) | InsertFailed(message: Option<string>)

  /** What `fetchUserProfile` settles with, and the profile it asked the backend to
      insert, if any. */
  datatype ProfileFetch = ProfileFetch(outcome: ThunkResult<Profile>, insertRequest: Option<Profile>)

  /** The payload creator of `fetchUserProfile`: an existing profile is returned as
      it is; on the not-found code a profile is built and inserted, provided a user
      object was given, and the row the insert returns is the result; every other
      failure rejects with its message. */
  function ResolveProfile(userId: string, user: Option<User>, lookup: ProfileLookup, insertReply: InsertReply)
    : (f: ProfileFetch)
    ensures f.insertRequest.Some? <==> lookup.LookupFailed? && lookup.code == NotFoundCode && user.Some?
    ensures f.insertRequest.Some? ==> f.insertRequest.value == NewProfile(userId, user.value)
    ensures lookup.Found? ==> f.outcome == Fulfilled(lookup.profile)
    ensures f.outcome.Fulfilled? <==> lookup.Found? || (f.insertRequest.Some? && insertReply.Inserted?)
    ensures f.insertRequest.Some? && insertReply.Inserted? ==> f.outcome == Fulfilled(insertReply.row)
    ensures lookup.LookupFailed? && lookup.code == NotFoundCode && user.None?
            ==> f.outcome == Rejected(Some(MissingUserMessage))
    ensures lookup.LookupFailed? && lookup.code != NotFoundCode ==> f.outcome == Rejected(lookup.message)
    ensures f.insertRequest.Some? && insertReply.InsertFailed? ==> f.outcome == Rejected(insertReply.message)
  {
    match lookup
    case Found(profile) => ProfileFetch(Fulfilled(profile), None)
    case LookupFailed(code, message) =>
      if code != NotFoundCode then ProfileFetch(Rejected(message), None)
      else if user.None? then ProfileFetch(Rejected(Some(MissingUserMessage)), None)
      else
        var created := NewProfile(userId, user.value);
        match insertReply
        case Inserted(row) => ProfileFetch(Fulfilled(row), Some(created))
        case InsertFailed(insertMessage) => ProfileFetch(Rejected(insertMessage), Some(created))
  }

  /** Whenever the lookup only ever finds the asked-for user's row and the insert
      stores the id it was sent, a fulfilled fetch yields a profile whose id is that
      user's id. */
  lemma ResolvedProfileBelongsToUser(userId: string, user: Option<User>, lookup: ProfileLookup, insertReply: InsertReply)
    requires lookup.Found? ==> lookup.profile.id == userId
    requires insertReply.Inserted? && user.Some? ==> insertReply.row.id == NewProfile(userId, user.value).id
    ensures ResolveProfile(userId, user, lookup, insertReply).outcome.Fulfilled?
            ==> ResolveProfile(userId, user, lookup, insertReply).outcome.value.id == userId
  {
    if !lookup.Found? && user.Some? {
      NewProfileFields(userId, user.value);
    }
  }

  // ---------------------------------------------------------------------------
  // Auth provider replies.

  /** The call `signInUser` makes: `signUp` (with the display name as metadata) or
      `signInWithPassword`. */
  datatype AuthCall =
    | SignUp(email: string, password: string, displayName: string)
    | SignInWithPassword(email: string, password: string)

  /** The provider's reply `{data: {user, session}, error}`. */
  datatype AuthReply = AuthSucceeded(user: Option<User>, session: Option<Session>) | AuthFailed(message: Option<string>)

  // ---------------------------------------------------------------------------
  // The slice.

  /** The auth slice of the store; each method is a reducer case or a thunk that
      dispatches reducer cases in the order the source does. */
  class AuthStore {
    var session: Option<Session>
    var profile: Option<Profile>
    var isLoading: bool
    var error: Option<string>

    function State(): AuthState
      reads this
    {
      AuthState(session, profile, isLoading, error)
    }

    constructor ()
      ensures State() == InitialAuthState
    {
      session, profile, isLoading, error := None, None, false, None;
    }

    /** `setSession`: stores the session; loading ends and the error clears; the
        profile stays. */
    method SetSession(s: Option<Session>)
      modifies this
      ensures State() == old(State()).(session := s, isLoading := false, error := None)
    {
      session := s;
      isLoading := false;
      error := None;
    }

    /** `setProfile`: changes the profile and nothing else. */
    method SetProfile(p: Option<Profile>)
      modifies this
      ensures State() == old(State()).(profile := p)
    {
      profile := p;
    }

    /** `setAuthLoading`: changes the loading flag and nothing else. */
    method SetAuthLoading(loading: bool)
      modifies this
      ensures State() == old(State()).(isLoading := loading)
    {
      isLoading := loading;
    }

    /** `setAuthError`: stores the error as given and ends loading. */
    method SetAuthError(message: Option<string>)
      modifies this
      ensures State() == old(State()).(error := message, isLoading := false)
    {
      error := message;
      isLoading := false;
    }

    /** `clearAuth`: session and profile gone, not loading, no error, whatever came before. */
    method ClearAuth()
      modifies this
      ensures State() == InitialAuthState
    {
      session := None;
      profile := None;
      isLoading := false;
      error := None;
    }

    /** The `fetchUserProfile.pending` case: clears the error only. */
    method FetchUserProfilePending()
      modifies this
      ensures State() == old(State()).(error := None)
    {
      error := None;
    }

    /** The `fetchUserProfile.fulfilled` and `.rejected` cases; neither touches the
        session or the loading flag. */
    method FetchUserProfileSettled(outcome: ThunkResult<Profile>)
      modifies this
      ensures outcome.Fulfilled? ==> State() == old(State()).(profile := Some(outcome.value), error := None)
      ensures outcome.Rejected? ==>
                State() == old(State()).(profile := None, error := Or(outcome.payload, Some(ProfileFetchFailedMessage)))
    {
      match outcome {
      case Fulfilled(p) =>
        profile := Some(p);
        error := None;
      case Rejected(payload) =>
        profile := None;
        error := if Truthy(payload) then payload else Some(ProfileFetchFailedMessage);
      }
    }

    /** `fetchUserProfile` from dispatch to settlement. */
    method FetchUserProfile(userId: string, user: Option<User>, lookup: ProfileLookup, insertReply: InsertReply)
      returns (f: ProfileFetch)
      modifies this
      ensures f == ResolveProfile(userId, user, lookup, insertReply)
      ensures f.outcome.Fulfilled? ==> State() == old(State()).(profile := Some(f.outcome.value), error := None)
      ensures f.outcome.Rejected? ==>
                State() == old(State()).(profile := None, error := Or(f.outcome.payload, Some(ProfileFetchFailedMessage)))
    {
      FetchUserProfilePending();
      f := ResolveProfile(userId, user, lookup, insertReply);
      FetchUserProfileSettled(f.outcome);
    }

    /** `signInUser`: signs up or signs in; when the reply carries a user, the profile
        is fetched (or created) before the thunk returns the session. The thunk
        never stores the session itself, and loading ends either way. */
    method SignInUser(authMode: string, email: string, password: string, displayName: string,
                      reply: AuthReply, lookup: ProfileLookup, insertReply: InsertReply)
      returns (call: AuthCall, result: ThunkResult<Option<Session>>, fetch: Option<ProfileFetch>)
      modifies this
      ensures call == if authMode == "signup" then SignUp(email, password, displayName)
                      else SignInWithPassword(email, password)
      ensures !isLoading && session == old(session)
      ensures reply.AuthFailed? ==>
                && result == Rejected(reply.message) && fetch.None?
                && error == reply.message && profile == old(profile)
      ensures reply.AuthSucceeded? ==> result == Fulfilled(reply.session)
      ensures reply.AuthSucceeded? && reply.user.None? ==>
                fetch.None? && error == old(error) && profile == old(profile)
      ensures reply.AuthSucceeded? && reply.user.Some? ==>
                && fetch == Some(ResolveProfile(reply.user.value.id, reply.user, lookup, insertReply))
                && (fetch.value.outcome.Fulfilled? ==> profile == Some(fetch.value.outcome.value) && error == None)
                && (fetch.value.outcome.Rejected? ==>
                      profile == None && error == Or(fetch.value.outcome.payload, Some(ProfileFetchFailedMessage)))
    {
      SetAuthLoading(true);
      if authMode == "signup" {
        call := SignUp(email, password, displayName);
      } else {
        call := SignInWithPassword(email, password);
      }
      fetch := None;
      match reply {
      case AuthFailed(message) =>
        SetAuthError(message);
        result := Rejected(message);
      case AuthSucceeded(user, newSession) =>
        if user.Some? {
          var f := FetchUserProfile(user.value.id, user, lookup, insertReply);
          fetch := Some(f);
        }
        result := Fulfilled(newSession);
      }
      SetAuthLoading(false);
    }

    /** `signOutUser`: on success the state is cleared; on failure the error is
        stored and session and profile stay. Loading ends either way. */
    method SignOutUser(reply: BackendReply) returns (result: ThunkResult<bool>)
      modifies this
      ensures reply.Succeeded? ==> result == Fulfilled(true) && State() == InitialAuthState
      ensures reply.Failed? ==>
                && result == Rejected(reply.message)
                && State() == old(State()).(isLoading := false, error := reply.message)
    {
      SetAuthLoading(true);
      match reply {
      case Succeeded =>
        ClearAuth();
        result := Fulfilled(true);
      case Failed(message) =>
        SetAuthError(message);
        result := Rejected(message);
      }
      SetAuthLoading(false);
    }
  }
}
