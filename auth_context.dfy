/**
 * The authentication context of src/contexts/AuthContext.tsx: the signed-in
 * user, the token, the loading flag and the one `localStorage` key ("token")
 * it reads and writes. Backend answers, the clock (`Date.now()`) and the
 * lazy `useState` initialiser's storage read are parameters.
 */
module AuthContext {
  import opened Wrappers
  import opened Text

  datatype User = User(
    id: string,             // _id
    name: string,
    email: string,
    credits: int,
    createdAt: Option<int>,
    lastLogin: Option<int>)

  /** A successful `/auth/login` or `/auth/register` answer: the token beside the user fields. */
  datatype AuthResponse = AuthResponse(token: string, user: User)

  /** Everything the provider holds, including the stored token. */
  datatype Session = Session(user: Option<User>, token: Option<string>, loading: bool, stored: Option<string>)

  const MockMarker := "mock-jwt-token"

  /** The token the fallback paths store: "mock-jwt-token-" followed by the clock. */
  function MockToken(now: nat): (t: string)
    ensures IsPrefix(MockMarker, t)
  {
    MockMarker + "-" + NatToString(now)
  }

  /** The demo user that `initializeAuth` restores for a mock token. */
  function DemoUser(now: nat): User
  {
    User("1", "Usuário Demo", "demo@example.com", 1000, Some(now), Some(now))
  }

  /** The provider as first rendered: the token state is read from storage. */
  function Mount(stored: Option<string>): (s: Session)
    ensures s.user.None? && s.loading && s.token == stored && s.stored == stored
  {
    Session(None, stored, true, stored)
  }

  /**
   * How far `initializeAuth` gets before its first `await`: either it has
   * finished, or it waits on `/auth/me` for the saved token.
   */
  datatype InitStep = Finished(session: Session) | Awaiting(saved: string)

  /**
   * The synchronous part of `initializeAuth`. An empty stored string counts
   * as absent and only ends loading. A token holding the mock marker
   * restores the demo user without asking the backend. Any other token is
   * sent to `/auth/me`, and nothing changes until that call settles.
   */
  function InitStart(s: Session, now: nat): (st: InitStep)
    ensures st.Awaiting? <==>
      s.stored.Some? && s.stored.value != "" && !Contains(s.stored.value, MockMarker)
    ensures st.Awaiting? ==> Some(st.saved) == s.stored
    ensures s.stored.None? || s.stored == Some("") ==> st == Finished(s.(loading := false))
    ensures s.stored.Some? && Contains(s.stored.value, MockMarker) ==>
      st == Finished(Session(Some(DemoUser(now)), s.stored, false, s.stored))
  {
    match s.stored
    case None => Finished(s.(loading := false))
    case Some(saved) =>
      if saved == "" then Finished(s.(loading := false))
      else if Contains(saved, MockMarker) then Finished(Session(Some(DemoUser(now)), s.stored, false, s.stored))
      else Awaiting(saved)
  }

  /**
   * The rest of `initializeAuth`, once `/auth/me` has answered `me` (`None`
   * when the request failed), applied to the state as it is at that moment:
   * the user and the saved token on success; otherwise storage, token and
   * user are cleared. Loading ends either way.
   */
  function InitResolve(s: Session, saved: string, me: Option<User>): (r: Session)
    ensures !r.loading
    ensures me.Some? ==> r == s.(user := me, token := Some(saved), loading := false)
    ensures me.None? ==> r == Session(None, None, false, None)
  {
    if me.Some? then s.(user := me, token := Some(saved), loading := false)
    else Session(None, None, false, None)
  }

  /**
   * `initializeAuth` run without anything happening during the `await`: an
   * empty or missing token changes only the loading flag; a mock token
   * restores the demo user; a real one takes `/auth/me`'s user or is cleared.
   */
  function Init(s: Session, me: Option<User>, now: nat): (r: Session)
    ensures !r.loading
    ensures s.stored.None? || s.stored == Some("") ==> r == s.(loading := false)
    ensures s.stored.Some? && Contains(s.stored.value, MockMarker) ==>
      r == Session(Some(DemoUser(now)), s.stored, false, s.stored)
    ensures s.stored.Some? && s.stored.value != "" && !Contains(s.stored.value, MockMarker) && me.Some? ==>
      r == Session(me, s.stored, false, s.stored)
    ensures s.stored.Some? && s.stored.value != "" && !Contains(s.stored.value, MockMarker) && me.None? ==>
      r == Session(None, None, false, None)
  {
    match InitStart(s, now)
    case Finished(r) => r
    case Awaiting(saved) => InitResolve(s, saved, me)
  }

  /**
   * `login`. A failed request never reaches the caller: it signs in a mock
   * user with the given email and 1000 credits under a mock token.
   */
  function Login(s: Session, email: string, response: Option<AuthResponse>, now: nat): (r: Session)
    ensures r.user.Some? && r.token.Some? && r.stored == r.token && r.loading == s.loading
    ensures response.Some? ==> r.token == Some(response.value.token) && r.user == Some(response.value.user)
    ensures response.None? ==> r.token == Some(MockToken(now))
    ensures response.None? ==> r.user.value.email == email && r.user.value.credits == 1000
  {
    match response
    case Some(resp) => Session(Some(resp.user), Some(resp.token), s.loading, Some(resp.token))
    case None =>
      var mock := User("1", "Usuário Demo", email, 1000, Some(now), Some(now));
      Session(Some(mock), Some(MockToken(now)), s.loading, Some(MockToken(now)))
  }

  /** `register`: like `login`, but the fallback user keeps the given name and gets 100 credits. */
  function Register(s: Session, name: string, email: string, response: Option<AuthResponse>, now: nat): (r: Session)
    ensures r.user.Some? && r.token.Some? && r.stored == r.token && r.loading == s.loading
    ensures response.Some? ==> r.token == Some(response.value.token) && r.user == Some(response.value.user)
    ensures response.None? ==> r.token == Some(MockToken(now))
    ensures response.None? ==>
      r.user.value.name == name && r.user.value.email == email && r.user.value.credits == 100
  {
    match response
    case Some(resp) => Session(Some(resp.user), Some(resp.token), s.loading, Some(resp.token))
    case None =>
      var mock := User("1", name, email, 100, Some(now), Some(now));
      Session(Some(mock), Some(MockToken(now)), s.loading, Some(MockToken(now)))
  }

  /** `logout`: storage entry, token and user are all cleared. */
  function Logout(s: Session): (r: Session)
    ensures r.user.None? && r.token.None? && r.stored.None? && r.loading == s.loading
  {
    Session(None, None, s.loading, None)
  }

  /**
   * `updateProfile({name, email})`: `{...user, ...data}`, where a key that is
   * absent (`None`) keeps the old value. Without a user nothing changes.
   */
  function UpdateProfile(s: Session, name: Option<string>, email: Option<string>): (r: Session)
    ensures s.user.None? ==> r == s
    ensures r.token == s.token && r.stored == s.stored && r.loading == s.loading
    ensures s.user.Some? ==> (
      && r.user.Some?
      && r.user.value.name == name.GetOr(s.user.value.name)
      && r.user.value.email == email.GetOr(s.user.value.email)
      && r.user.value.id == s.user.value.id
      && r.user.value.credits == s.user.value.credits
      && r.user.value.createdAt == s.user.value.createdAt
      && r.user.value.lastLogin == s.user.value.lastLogin)
  {
    match s.user
    case None => s
    case Some(u) => s.(user := Some(u.(name := name.GetOr(u.name), email := email.GetOr(u.email))))
  }

  /** The mock token holds the marker `initializeAuth` looks for. */
  lemma MockTokenIsRecognised(now: nat)
    ensures Contains(MockToken(now), MockMarker)
  {
    assert OccursAt(MockToken(now), MockMarker, 0);
  }

  /**
   * A sign-in that fell back to the mock survives a reload: the next
   * `initializeAuth` keeps the token and signs the demo user in without a
   * backend call, whatever `/auth/me` would have said. The demo user's email
   * is "demo@example.com", not the one typed at sign-in.
   */
  lemma FallbackLoginSurvivesReload(s: Session, email: string, now: nat, me: Option<User>, later: nat)
    ensures var afterLogin := Login(s, email, None, now);
      Init(Mount(afterLogin.stored), me, later) ==
        Session(Some(DemoUser(later)), Some(MockToken(now)), false, Some(MockToken(now)))
  {
    MockTokenIsRecognised(now);
  }

  /**
   * The page is rendered while `initializeAuth` waits on `/auth/me`, so a
   * sign-in can complete in between. When the old token is then rejected,
   * the sign-in is wiped: its stored token, the token state and the user
   * are all cleared, and the user is signed out.
   */
  lemma SignInDuringInitIsWiped(s: Session, saved: string, email: string,
                                response: Option<AuthResponse>, now: nat, later: nat)
    requires InitStart(s, now) == Awaiting(saved)
    ensures var signedIn := Login(s, email, response, later);
      signedIn.user.Some? &&
      InitResolve(signedIn, saved, None) == Session(None, None, false, None)
  {
  }

  /**
   * If instead the old token is accepted, the sign-in's user is replaced by
   * the old token's user and the token state goes back to the old token,
   * while storage keeps the new one.
   */
  lemma SignInDuringInitKeepsNewStorage(s: Session, saved: string, email: string,
                                        response: Option<AuthResponse>, now: nat, later: nat, u: User)
    requires InitStart(s, now) == Awaiting(saved)
    ensures var signedIn := Login(s, email, response, later);
      var r := InitResolve(signedIn, saved, Some(u));
      r.user == Some(u) && r.token == Some(saved) && r.stored == signedIn.stored &&
      (response.None? ==> r.stored != r.token)
  {
    var signedIn := Login(s, email, response, later);
    if response.None? {
      MockTokenIsRecognised(later);
      assert signedIn.stored == Some(MockToken(later));
      assert !Contains(saved, MockMarker);
    }
  }

  /** After `logout` a reload finds no token and signs nobody in. */
  lemma LogoutThenReloadIsSignedOut(s: Session, me: Option<User>, now: nat)
    ensures var r := Init(Mount(Logout(s).stored), me, now);
      r.user.None? && r.token.None? && r.stored.None? && !r.loading
  {
  }

  /** The provider object; each method performs one transition above. */
  class AuthProvider {
    var user: Option<User>
    var token: Option<string>
    var loading: bool
    var stored: Option<string>   // localStorage.getItem('token')

    function Snapshot(): Session
      reads this
    {
      Session(user, token, loading, stored)
    }

    constructor (storage: Option<string>)
      ensures Snapshot() == Mount(storage)
    {
      user, token, loading, stored := None, storage, true, storage;
    }

    /**
     * `initializeAuth` up to its `await`: returns the token it sends to
     * `/auth/me`, or `None` when it has already finished.
     */
    method BeginInitializeAuth(now: nat) returns (awaiting: Option<string>)
      modifies this
      ensures InitStart(old(Snapshot()), now).Finished? ==>
        awaiting.None? && Snapshot() == InitStart(old(Snapshot()), now).session
      ensures InitStart(old(Snapshot()), now).Awaiting? ==>
        awaiting == Some(InitStart(old(Snapshot()), now).saved) && Snapshot() == old(Snapshot())
    {
      var saved := stored;
      awaiting := None;
      if saved.Some? && saved.value != "" {
        if Contains(saved.value, MockMarker) {
          user := Some(DemoUser(now));
          token := saved;
        } else {
          awaiting := saved;
          return;
        }
      }
      loading := false;
    }

    /** `initializeAuth` after `/auth/me` settled with `me`. */
    method FinishInitializeAuth(saved: string, me: Option<User>)
      modifies this
      ensures Snapshot() == InitResolve(old(Snapshot()), saved, me)
    {
      if me.Some? {
        user := me;
        token := Some(saved);
      } else {
        stored := None;
        token := None;
        user := None;
      }
      loading := false;
    }

    /** `initializeAuth` with nothing else running during the `await`. */
    method InitializeAuth(me: Option<User>, now: nat)
      modifies this
      ensures Snapshot() == Init(old(Snapshot()), me, now)
    {
      var awaiting := BeginInitializeAuth(now);
      if awaiting.Some? {
        FinishInitializeAuth(awaiting.value, me);
      }
    }

    method SignIn(email: string, password: string, response: Option<AuthResponse>, now: nat)
      modifies this
      ensures Snapshot() == Login(old(Snapshot()), email, response, now)
    {
      match response {
        case Some(resp) =>
          stored := Some(resp.token);
          token := Some(resp.token);
          user := Some(resp.user);
        case None =>
          var mock := User("1", "Usuário Demo", email, 1000, Some(now), Some(now));
          var mockToken := MockToken(now);
          stored := Some(mockToken);
          token := Some(mockToken);
          user := Some(mock);
      }
    }

    method SignUp(name: string, email: string, password: string, response: Option<AuthResponse>, now: nat)
      modifies this
      ensures Snapshot() == Register(old(Snapshot()), name, email, response, now)
    {
      match response {
        case Some(resp) =>
          stored := Some(resp.token);
          token := Some(resp.token);
          user := Some(resp.user);
        case None =>
          var mock := User("1", name, email, 100, Some(now), Some(now));
          var mockToken := MockToken(now);
          stored := Some(mockToken);
          token := Some(mockToken);
          user := Some(mock);
      }
    }

    method SignOut()
      modifies this
      ensures Snapshot() == Logout(old(Snapshot()))
    {
      stored := None;
      token := None;
      user := None;
    }

    method EditProfile(name: Option<string>, email: Option<string>)
      modifies this
      ensures Snapshot() == UpdateProfile(old(Snapshot()), name, email)
    {
      if user.Some? {
        var u := user.value;
        user := Some(u.(name := name.GetOr(u.name), email := email.GetOr(u.email)));
      }
    }
  }
}
