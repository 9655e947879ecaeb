/**
 * The application shell: where a login lands, the mount-time `authenticate`
 * effect with its stored session and one-shot logout flag, logout, the bearer
 * header, and the route table with its guards.
 */
module App {
  import opened Wrappers
  import opened Domain
  import Browser

  const AdminDashboardPath: string := "/admin-dashboard"
  const HelperDashboardPath: string := "/helper-dashboard"
  const LoginPath: string := "/login"

  /** Where a successful login navigates: admins first, then helpers, everyone else back to login. */
  function PostLoginTarget(u: UserData): (r: string)
    ensures u.isAdmin ==> r == AdminDashboardPath
    ensures !u.isAdmin && HasRole(u, HelperRole) ==> r == HelperDashboardPath
    ensures !u.isAdmin && !HasRole(u, HelperRole) ==> r == LoginPath
  {
    if u.isAdmin then AdminDashboardPath
    else if HasRole(u, HelperRole) then HelperDashboardPath
    else LoginPath
  }

  /** The state `App` keeps about the session. */
  datatype Session = Session(isLoggedIn: bool, user: Option<UserData>, loading: bool, error: Option<string>)

  const InitialSession: Session := Session(false, None, true, None)

  /**
   * The reply to a login request (`/auth/local/login` or `/auth/discord/exchange-code`):
   * an HTTP answer with its status and body, or a request that never got one.
   */
  datatype AuthReply =
    | AuthResponded(status: int, message: Option<string>, token: string, user: Option<UserData>)
    | AuthRequestFailed(message: Option<string>)

  /** What a handler leaves behind: the storage, the session, and a navigation if one was made. */
  datatype AuthOutcome = AuthOutcome(
    items: map<string, string>,
    session: Session,
    navigation: Option<string>,
    requested: bool)

  /** Acting on a login reply: store the token and user and land on the dashboard, or report the error. */
  function AcceptLogin(items: map<string, string>, s: Session, reply: AuthReply,
                       serialize: UserData -> string, failed: string, errored: string): (r: AuthOutcome)
    ensures r.requested && !r.session.loading
    ensures reply.AuthResponded? && reply.status == 200 && reply.user.Some? ==>
      r.session == s.(isLoggedIn := true, user := reply.user, loading := false) &&
      r.items == items[Browser.TokenKey := reply.token][Browser.UserDataKey := serialize(reply.user.value)] &&
      r.navigation == Some(PostLoginTarget(reply.user.value))
    ensures reply.AuthResponded? && Resolves(reply.status) && !(reply.status == 200 && reply.user.Some?) ==>
      r.session == s.(error := Some(MessageOr(reply.message, failed)), loading := false) &&
      r.items == items && r.navigation.None?
    ensures reply.AuthRequestFailed? || !Resolves(reply.status) ==>
      r.session == s.(error := Some(MessageOr(reply.message, errored)), loading := false) &&
      r.items == items && r.navigation.None?
  {
    match reply
    case AuthResponded(status, message, token, user) =>
      if !Resolves(status) then
        AuthOutcome(items, s.(error := Some(MessageOr(message, errored)), loading := false), None, true)
      else if status == 200 && user.Some? then
        AuthOutcome(items[Browser.TokenKey := token][Browser.UserDataKey := serialize(user.value)],
          s.(isLoggedIn := true, user := user, loading := false), Some(PostLoginTarget(user.value)), true)
      else
        AuthOutcome(items, s.(error := Some(MessageOr(message, failed)), loading := false), None, true)
    case AuthRequestFailed(message) =>
      AuthOutcome(items, s.(error := Some(MessageOr(message, errored)), loading := false), None, true)
  }

  /** `handleLocalLogin`. */
  function LocalLogin(items: map<string, string>, s: Session, reply: AuthReply,
                      serialize: UserData -> string): AuthOutcome
  {
    AcceptLogin(items, s.(loading := true, error := None), reply, serialize,
      "Local login failed.", "An error occurred during local login.")
  }

  /** The logout flag is set to the string `'true'`. */
  predicate LoggingOut(items: map<string, string>)
  {
    Browser.Get(items, Browser.LogoutFlagKey) == Some("true")
  }

  /** Both keys are present and non-empty, so the stored session is tried. */
  predicate HasStoredSession(items: map<string, string>)
  {
    Truthy(Browser.Get(items, Browser.TokenKey)) && Truthy(Browser.Get(items, Browser.UserDataKey))
  }

  /**
   * The `authenticate` effect. `parse` stands for `JSON.parse` (`None`: it threw),
   * `code` for the `code` query parameter and `reply` for the exchange reply.
   */
  function Authenticate(items: map<string, string>, s: Session, parse: string -> Option<UserData>,
                        serialize: UserData -> string, code: Option<string>, reply: AuthReply): AuthOutcome
  {
    if LoggingOut(items) then
      AuthOutcome(items - {Browser.LogoutFlagKey}, s.(loading := false), None, false)
    else
      var s1 := s.(loading := true, error := None);
      var restored := StoredUser(items, parse);
      if restored.Some? then
        AuthOutcome(items, s1.(user := restored, isLoggedIn := true, loading := false), None, false)
      else
        var items1 := AfterStoredCheck(items, parse);
        if Truthy(code) then
          AcceptLogin(items1, s1, reply, serialize,
            "Failed to exchange code for user data.", "An error occurred during Discord authentication.")
        else
          AuthOutcome(items1, s1.(loading := false), None, false)
  }

  /** The stored user that logs in without a request: both keys present, parsed, with an id. */
  function StoredUser(items: map<string, string>, parse: string -> Option<UserData>): (r: Option<UserData>)
    ensures r.Some? <==>
      HasStoredSession(items) && parse(items[Browser.UserDataKey]).Some? && HasId(parse(items[Browser.UserDataKey]).value)
    ensures r.Some? ==> r == parse(items[Browser.UserDataKey])
  {
    if HasStoredSession(items) then
      var parsed := parse(items[Browser.UserDataKey]);
      if parsed.Some? && HasId(parsed.value) then parsed else None
    else None
  }

  /** The storage after the stored-session check: both keys go when the user data fails to parse. */
  function AfterStoredCheck(items: map<string, string>, parse: string -> Option<UserData>): (r: map<string, string>)
    ensures HasStoredSession(items) && parse(items[Browser.UserDataKey]).None? ==>
      r == items - {Browser.TokenKey, Browser.UserDataKey}
    ensures !(HasStoredSession(items) && parse(items[Browser.UserDataKey]).None?) ==> r == items
  {
    if HasStoredSession(items) && parse(items[Browser.UserDataKey]).None?
    then items - {Browser.TokenKey, Browser.UserDataKey} else items
  }

  /** `handleLogout`: raise the flag, forget the session and reload on the login page. */
  function Logout(items: map<string, string>, s: Session): AuthOutcome
  {
    AuthOutcome(items[Browser.LogoutFlagKey := "true"] - {Browser.UserDataKey, Browser.TokenKey},
      s.(user := None, isLoggedIn := false, error := None), Some(LoginPath), false)
  }

  /** With the flag raised, `authenticate` consumes it and establishes no session. */
  lemma FlagConsumed(items: map<string, string>, s: Session, parse: string -> Option<UserData>,
                     serialize: UserData -> string, code: Option<string>, reply: AuthReply)
    requires LoggingOut(items)
    ensures var r := Authenticate(items, s, parse, serialize, code, reply);
      r.items == items - {Browser.LogoutFlagKey} && !LoggingOut(r.items) &&
      r.session == s.(loading := false) && r.navigation.None? && !r.requested
  {
  }

  /** Logout sets the flag and removes both credentials; the session is gone. */
  lemma LogoutClears(items: map<string, string>, s: Session)
    ensures var r := Logout(items, s);
      LoggingOut(r.items) && Browser.UserDataKey !in r.items && Browser.TokenKey !in r.items &&
      !r.session.isLoggedIn && r.session.user.None? && r.session.error.None? &&
      (forall k :: (k in items && k != Browser.LogoutFlagKey && k != Browser.UserDataKey &&
                    k != Browser.TokenKey) ==> k in r.items && r.items[k] == items[k])
  {
  }

  /**
   * After logout the reload finds the flag: it is consumed and nobody is logged
   * in; a second run no longer sees it, and with no code nobody is logged in either.
   */
  lemma ReloadAfterLogout(items: map<string, string>, s: Session, parse: string -> Option<UserData>,
                          serialize: UserData -> string, reply: AuthReply)
    ensures var first := Authenticate(Logout(items, s).items, InitialSession, parse, serialize, None, reply);
      var second := Authenticate(first.items, first.session, parse, serialize, None, reply);
      !first.session.isLoggedIn && !first.session.loading && !first.requested &&
      !LoggingOut(first.items) &&
      !second.session.isLoggedIn && second.session.user.None? && !second.requested
  {
    var after := Logout(items, s).items;
    assert LoggingOut(after);
    var first := Authenticate(after, InitialSession, parse, serialize, None, reply);
    assert first.items == after - {Browser.LogoutFlagKey};
    assert !HasStoredSession(first.items);
  }

  /** A stored token and a stored user with an id log in without any request. */
  lemma StoredSessionRestores(items: map<string, string>, s: Session, parse: string -> Option<UserData>,
                              serialize: UserData -> string, code: Option<string>, reply: AuthReply, u: UserData)
    requires !LoggingOut(items) && HasStoredSession(items)
    requires parse(items[Browser.UserDataKey]) == Some(u) && HasId(u)
    ensures var r := Authenticate(items, s, parse, serialize, code, reply);
      r.session == s.(isLoggedIn := true, user := Some(u), loading := false, error := None) &&
      r.items == items && r.navigation.None? && !r.requested
  {
  }

  /** Unparseable stored user data removes both keys; without a code nobody is logged in. */
  lemma CorruptStorageCleared(items: map<string, string>, s: Session, parse: string -> Option<UserData>,
                              serialize: UserData -> string, reply: AuthReply)
    requires !LoggingOut(items) && HasStoredSession(items)
    requires parse(items[Browser.UserDataKey]).None?
    ensures var r := Authenticate(items, s, parse, serialize, None, reply);
      r.items == items - {Browser.TokenKey, Browser.UserDataKey} &&
      r.session == s.(loading := false, error := None) && !r.requested
  {
  }

  /**
   * A successful login followed by a reload restores the same user, provided
   * `JSON.parse` reads back what `JSON.stringify` wrote.
   */
  lemma LoginSurvivesReload(items: map<string, string>, s: Session, reply: AuthReply,
                            parse: string -> Option<UserData>, serialize: UserData -> string,
                            code: Option<string>, reply2: AuthReply)
    requires reply.AuthResponded? && reply.status == 200 && reply.user.Some?
    requires reply.token != "" && HasId(reply.user.value)
    requires parse(serialize(reply.user.value)) == Some(reply.user.value)
    requires serialize(reply.user.value) != ""
    requires !LoggingOut(items)
    ensures var login := LocalLogin(items, s, reply, serialize);
      var reload := Authenticate(login.items, InitialSession, parse, serialize, code, reply2);
      reload.session.isLoggedIn && reload.session.user == reply.user && !reload.requested
  {
    var login := LocalLogin(items, s, reply, serialize);
    assert Browser.Get(login.items, Browser.TokenKey) == Some(reply.token);
    assert Browser.Get(login.items, Browser.UserDataKey) == Some(serialize(reply.user.value));
    assert Browser.Get(login.items, Browser.LogoutFlagKey) == Browser.Get(items, Browser.LogoutFlagKey);
  }

  /** The request interceptor: `Authorization: Bearer <token>` exactly when a token is stored. */
  function AuthorizationHeader(items: map<string, string>): (r: Option<string>)
    ensures r.Some? <==> Truthy(Browser.Get(items, Browser.TokenKey))
    ensures r.Some? ==> r.value == "Bearer " + items[Browser.TokenKey]
  {
    var token := Browser.Get(items, Browser.TokenKey);
    if Truthy(token) then Some("Bearer " + token.value) else None
  }

  /** After a successful login every request carries the new token; after logout none does. */
  lemma LoginAuthorizes(items: map<string, string>, s: Session, reply: AuthReply, serialize: UserData -> string)
    requires reply.AuthResponded? && reply.status == 200 && reply.user.Some? && reply.token != ""
    ensures AuthorizationHeader(LocalLogin(items, s, reply, serialize).items) == Some("Bearer " + reply.token)
    ensures AuthorizationHeader(Logout(items, s).items).None?
  {
  }

  /** The redirect effect of the login pages: admins and helpers only, unparseable data ignored. */
  function LoginPageRedirect(items: map<string, string>, parse: string -> Option<UserData>): (r: Option<string>)
  {
    var stored := Browser.Get(items, Browser.UserDataKey);
    if Truthy(stored) then
      match parse(stored.value)
      case Some(u) =>
        if u.isAdmin then Some(AdminDashboardPath)
        else if HasRole(u, HelperRole) then Some(HelperDashboardPath)
        else None
      case None => None
    else None
  }

  /** The login page sends a stored admin or helper where a fresh login would, and keeps anyone else. */
  lemma LoginPageRedirectAgrees(items: map<string, string>, parse: string -> Option<UserData>)
    ensures var r := LoginPageRedirect(items, parse);
      (r.Some? ==>
        exists u :: (parse(items[Browser.UserDataKey]) == Some(u) &&
          r.value == PostLoginTarget(u) && r.value != LoginPath)) &&
      (r.None? ==>
        !Truthy(Browser.Get(items, Browser.UserDataKey)) ||
        parse(items[Browser.UserDataKey]).None? ||
        PostLoginTarget(parse(items[Browser.UserDataKey]).value) == LoginPath)
  {
    var stored := Browser.Get(items, Browser.UserDataKey);
    if Truthy(stored) && parse(stored.value).Some? {
      var u := parse(stored.value).value;
      assert PostLoginTarget(u) != LoginPath <==> u.isAdmin || HasRole(u, HelperRole);
    }
  }

  // ---------------------------------------------------------------------------
  // Routing

  datatype Route =
    | LoginRoute | LocalLoginRoute | RegisterHelperRoute
    | AcceptRoute | ReviewRoute | PayHelperRoute
    | AdminDashboardRoute | HelperDashboardRoute | RootRoute | FallbackRoute

  /** A matched route and its path parameters (`useParams`). */
  datatype RouteMatch = RouteMatch(route: Route, params: map<string, string>)

  /** The pages a protected route can show inside the authenticated layout. */
  datatype Page = AcceptPage | ReviewPage | PayHelperPage | AdminDashboardPage | HelperDashboardPage

  datatype Screen =
    | LoginScreen | LocalLoginScreen | RegistrationScreen | LoadingScreen
    | Layout(page: Page)

  predicate HasPrefix(s: string, prefix: string)
  {
    |prefix| <= |s| && s[..|prefix|] == prefix
  }

  /** One dynamic path segment: non-empty, no slash. */
  predicate IsSegment(s: string)
  {
    s != "" && '/' !in s
  }

  /** The parameter route `prefix:assignmentId`. */
  predicate MatchesParam(path: string, prefix: string)
  {
    HasPrefix(path, prefix) && IsSegment(path[|prefix|..])
  }

  const AcceptPrefix: string := "/accept-assignment/"
  const ReviewPrefix: string := "/review-assignment/"
  const PayHelperPrefix: string := "/admin/pay-helper/"

  /** The route table, with `*` as the fallback. */
  function Match(path: string): (r: RouteMatch)
    ensures r.route in {AcceptRoute, ReviewRoute, PayHelperRoute} ==> r.params.Keys == {"assignmentId"}
    ensures !(r.route in {AcceptRoute, ReviewRoute, PayHelperRoute}) ==> r.params == map[]
  {
    if path == LoginPath then RouteMatch(LoginRoute, map[])
    else if path == "/local-login" then RouteMatch(LocalLoginRoute, map[])
    else if path == "/register-helper" then RouteMatch(RegisterHelperRoute, map[])
    else if MatchesParam(path, AcceptPrefix) then
      RouteMatch(AcceptRoute, map["assignmentId" := path[|AcceptPrefix|..]])
    else if MatchesParam(path, ReviewPrefix) then
      RouteMatch(ReviewRoute, map["assignmentId" := path[|ReviewPrefix|..]])
    else if MatchesParam(path, PayHelperPrefix) then
      RouteMatch(PayHelperRoute, map["assignmentId" := path[|PayHelperPrefix|..]])
    else if path == AdminDashboardPath then RouteMatch(AdminDashboardRoute, map[])
    else if path == HelperDashboardPath then RouteMatch(HelperDashboardRoute, map[])
    else if path == "/" then RouteMatch(RootRoute, map[])
    else RouteMatch(FallbackRoute, map[])
  }

  /** The element each route renders for the current session. */
  function Render(route: Route, s: Session): Screen
  {
    var signedIn := s.isLoggedIn && s.user.Some?;
    match route
    case LoginRoute => LoginScreen
    case LocalLoginRoute => LocalLoginScreen
    case RegisterHelperRoute => RegistrationScreen
    case AcceptRoute => if signedIn then Layout(AcceptPage) else LoginScreen
    case ReviewRoute => if signedIn then Layout(ReviewPage) else LoginScreen
    case PayHelperRoute => if signedIn then Layout(PayHelperPage) else LoginScreen
    case AdminDashboardRoute =>
      if signedIn && s.user.value.isAdmin then Layout(AdminDashboardPage) else LoginScreen
    case HelperDashboardRoute =>
      if signedIn && HasRole(s.user.value, HelperRole) then Layout(HelperDashboardPage) else LoginScreen
    case RootRoute =>
      if s.loading then LoadingScreen
      else if signedIn && s.user.value.isAdmin then Layout(AdminDashboardPage)
      else if signedIn && HasRole(s.user.value, HelperRole) then Layout(HelperDashboardPage)
      else LoginScreen
    case FallbackRoute => LoginScreen
  }

  /** What a path shows. */
  function Show(path: string, s: Session): Screen
  {
    Render(Match(path).route, s)
  }

  /** No path shows the authenticated layout without a logged-in user. */
  lemma LayoutNeedsLogin(path: string, s: Session)
    ensures Show(path, s).Layout? ==> s.isLoggedIn && s.user.Some?
  {
  }

  /** The admin dashboard shows only for a logged-in admin, and does so at its own path. */
  lemma AdminDashboardGuard(path: string, s: Session)
    ensures Show(path, s) == Layout(AdminDashboardPage) ==>
      s.isLoggedIn && s.user.Some? && s.user.value.isAdmin
    ensures (s.isLoggedIn && s.user.Some? && s.user.value.isAdmin) ==>
      Show(AdminDashboardPath, s) == Layout(AdminDashboardPage)
  {
  }

  /** The helper dashboard shows only for a logged-in helper, and does so at its own path. */
  lemma HelperDashboardGuard(path: string, s: Session)
    ensures Show(path, s) == Layout(HelperDashboardPage) ==>
      s.isLoggedIn && s.user.Some? && HasRole(s.user.value, HelperRole)
    ensures (s.isLoggedIn && s.user.Some? && HasRole(s.user.value, HelperRole)) ==>
      Show(HelperDashboardPath, s) == Layout(HelperDashboardPage)
  {
  }

  /** Once loaded, the root shows the same thing as the page a login lands on. */
  lemma RootAgreesWithLoginTarget(s: Session)
    requires !s.loading && s.isLoggedIn && s.user.Some?
    ensures Show("/", s) == Show(PostLoginTarget(s.user.value), s)
  {
  }

  /** Any path outside the table shows the login page. */
  lemma UnknownPathsShowLogin(path: string, s: Session)
    requires Match(path).route == FallbackRoute
    ensures Show(path, s) == LoginScreen
  {
  }

  /** The state `App` keeps, with its handlers over the browser's storage. */
  class AppShell {
    var isLoggedIn: bool
    var userData: Option<UserData>
    var loading: bool
    var error: Option<string>

    constructor ()
      ensures Current() == InitialSession
    {
      isLoggedIn, userData, loading, error := false, None, true, None;
    }

    function Current(): Session
      reads this
    {
      Session(isLoggedIn, userData, loading, error)
    }

    /** The mount-time `authenticate` effect. */
    method RunAuthenticate(storage: Browser.LocalStorage, parse: string -> Option<UserData>,
                           serialize: UserData -> string, code: Option<string>, reply: AuthReply)
      returns (navigation: Option<string>, requested: bool)
      modifies this, storage
      ensures var r := Authenticate(old(storage.items), old(Current()), parse, serialize, code, reply);
        storage.items == r.items && Current() == r.session &&
        navigation == r.navigation && requested == r.requested
    {
      navigation, requested := None, false;
      var flag := Browser.Get(storage.items, Browser.LogoutFlagKey);
      if flag == Some("true") {
        storage.RemoveItem(Browser.LogoutFlagKey);
        loading := false;
        return;
      }
      loading, error := true, None;
      var restored := TryStoredSession(storage, parse);
      if restored {
        return;
      }
      if Truthy(code) {
        navigation := ApplyLoginReply(storage, reply, serialize,
          "Failed to exchange code for user data.", "An error occurred during Discord authentication.");
        requested := true;
      } else {
        loading := false;
      }
    }

    /** The stored-session block: log in from storage, or drop unparseable credentials. */
    method TryStoredSession(storage: Browser.LocalStorage, parse: string -> Option<UserData>)
      returns (restored: bool)
      modifies this, storage
      ensures restored <==> StoredUser(old(storage.items), parse).Some?
      ensures restored ==>
        Current() == old(Current()).(user := StoredUser(old(storage.items), parse), isLoggedIn := true, loading := false) &&
        storage.items == old(storage.items)
      ensures !restored ==>
        Current() == old(Current()) && storage.items == AfterStoredCheck(old(storage.items), parse)
    {
      restored := false;
      var token := Browser.Get(storage.items, Browser.TokenKey);
      var stored := Browser.Get(storage.items, Browser.UserDataKey);
      if Truthy(token) && Truthy(stored) {
        var currentUser := parse(stored.value);
        match currentUser {
        case Some(u) =>
          if HasId(u) {
            userData, isLoggedIn, loading := Some(u), true, false;
            restored := true;
          }
        case None =>
          ghost var items := storage.items;
          storage.RemoveItem(Browser.TokenKey);
          storage.RemoveItem(Browser.UserDataKey);
          assert storage.items == items - {Browser.TokenKey, Browser.UserDataKey};
        }
      }
    }

    /** The part shared by both logins: act on the reply. */
    method ApplyLoginReply(storage: Browser.LocalStorage, reply: AuthReply, serialize: UserData -> string,
                           failed: string, errored: string) returns (navigation: Option<string>)
      modifies this, storage
      ensures var r := AcceptLogin(old(storage.items), old(Current()), reply, serialize, failed, errored);
        storage.items == r.items && Current() == r.session && navigation == r.navigation
    {
      navigation := None;
      match reply {
      case AuthResponded(status, message, token, user) =>
        if !Resolves(status) {
          error := Some(MessageOr(message, errored));
        } else if status == 200 && user.Some? {
          userData, isLoggedIn := user, true;
          storage.SetItem(Browser.TokenKey, token);
          storage.SetItem(Browser.UserDataKey, serialize(user.value));
          navigation := Some(PostLoginTarget(user.value));
        } else {
          error := Some(MessageOr(message, failed));
        }
      case AuthRequestFailed(message) =>
        error := Some(MessageOr(message, errored));
      }
      loading := false;
    }

    /** `handleLocalLogin`. */
    method HandleLocalLogin(storage: Browser.LocalStorage, reply: AuthReply, serialize: UserData -> string)
      returns (navigation: Option<string>)
      modifies this, storage
      ensures var r := LocalLogin(old(storage.items), old(Current()), reply, serialize);
        storage.items == r.items && Current() == r.session && navigation == r.navigation
    {
      loading, error := true, None;
      navigation := ApplyLoginReply(storage, reply, serialize,
        "Local login failed.", "An error occurred during local login.");
    }

    /** `handleLogout`; the returned path is the full-page reload target. */
    method HandleLogout(storage: Browser.LocalStorage) returns (reload: string)
      modifies this, storage
      ensures var r := Logout(old(storage.items), old(Current()));
        storage.items == r.items && Current() == r.session && Some(reload) == r.navigation
    {
      storage.SetItem(Browser.LogoutFlagKey, "true");
      userData, isLoggedIn, error := None, false, None;
      storage.RemoveItem(Browser.UserDataKey);
      storage.RemoveItem(Browser.TokenKey);
      reload := LoginPath;
    }

    /** The element rendered at `path`. */
    function ScreenAt(path: string): (r: Screen)
      reads this
      ensures r.Layout? ==> isLoggedIn && userData.Some?
    {
      LayoutNeedsLogin(path, Current());
      Show(path, Current())
    }
  }
}
