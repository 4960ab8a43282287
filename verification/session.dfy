/**
  The store's actions as the application runs them: the request is built,
  the request interceptor adds the stored bearer token, the backend's reply
  goes through the response interceptor (which may wipe storage and start a
  navigation), and the store action sees the settled outcome.
 */
module Session {
  import opened Common
  import opened ApiTypes
  import opened LocalStorage
  import opened Http
  import opened UserStore
  import AuthApi
  import UserApi
  import Router
  import Json

  /** One action end to end: the request sent (if any), the store step, and any navigation started. */
  datatype Exchange<T> = Exchange(sent: Option<Request>, step: Step<T>, navigation: Option<string>)

  /** A call from world `w`: the request as it goes out, and the reply as the interceptor settles it. */
  function Transmit<T>(w: World, req: Request, reply: Reply<T>, success: int): (Request, Intercepted<T>)
  {
    (AttachBearer(req, w.storage), InterceptResponse(reply, w.storage, success))
  }

  function LoginVia(w: World, credentials: LoginCredentials, reply: Reply<LoginData>, success: int)
    : (e: Exchange<Option<LoginData>>)
    ensures e.sent.Some? && e.sent.value.url == AuthApi.LoginPath
    ensures e.sent.value.body == CredentialsBody(credentials)
  {
    var (sent, i) := Transmit(w, AuthApi.LoginRequest(credentials), reply, success);
    Exchange(Some(sent), Login(w.(storage := i.storage), i.settled), i.navigation)
  }

  function RegisterVia(w: World, d: RegisterDto, reply: Reply<string>, success: int): (e: Exchange<string>)
    ensures e.sent.Some? && e.sent.value.url == AuthApi.RegisterPath
    ensures e.sent.value.body == RegisterBody(AuthApi.StampRole(d))
  {
    var (sent, i) := Transmit(w, AuthApi.RegisterRequest(d), reply, success);
    Exchange(Some(sent), Register(w.(storage := i.storage), i.settled), i.navigation)
  }

  function LogoutVia(w: World, reply: Reply<string>, success: int): (e: Exchange<()>)
    ensures e.sent.Some? && e.sent.value.url == AuthApi.LogoutPath && e.sent.value.body == NoBody
  {
    var (sent, i) := Transmit(w, AuthApi.LogoutRequest(), reply, success);
    Exchange(Some(sent), Logout(w.(storage := i.storage), i.settled), i.navigation)
  }

  /** Without a token the action throws before any request is made, as the store's action does. */
  function FetchUserInfoVia(w: World, reply: Reply<UserInfo>, success: int): (e: Exchange<UserInfo>)
    ensures e.sent.None? <==> w.token == ""
    ensures w.token == "" ==> e.step == Step(w, Failure(Thrown(NotLoggedInMessage))) && e.navigation.None?
    ensures e.sent.Some? ==> e.sent.value.url == UserApi.UserInfoPath && e.sent.value.verb == Get
  {
    if w.token == "" then Exchange(None, Step(w, Failure(Thrown(NotLoggedInMessage))), None)
    else
      var (sent, i) := Transmit(w, UserApi.GetUserInfoRequest(), reply, success);
      Exchange(Some(sent), FetchUserInfo(w.(storage := i.storage), i.settled), i.navigation)
  }

  // ----- what every exchange shares -----

  /** Every request made carries `Bearer <stored token>` exactly when storage holds a token. */
  lemma LoginSendsStoredBearer(w: World, credentials: LoginCredentials, reply: Reply<LoginData>, success: int)
    ensures var sent := LoginVia(w, credentials, reply, success).sent.value;
      && (AuthorizationHeader in sent.headers <==> StoredToken(w.storage) != "")
      && (StoredToken(w.storage) != "" ==> sent.headers[AuthorizationHeader] == BearerPrefix + StoredToken(w.storage))
  {
  }

  /**
    A 403 during login wipes the two stored keys, keeps the in-memory fields,
    rejects, and sends the user to the expired-session path.
   */
  lemma ForbiddenLoginWipesStorageOnly(w: World, credentials: LoginCredentials, reply: Reply<LoginData>, success: int)
    requires IsForbidden(reply)
    ensures var e := LoginVia(w, credentials, reply, success);
      && e.step.world == w.(storage := ClearCredentials(w.storage))
      && e.step.result == Failure(ApiRejected(TransportRejection(Some(ForbiddenStatus))))
      && e.navigation == Some(SessionExpiredPath)
  {
  }

  /**
    After a 403 the store still holds its token but storage does not, so the
    next request goes out without a credential and every protected page
    sends the user to sign in.
   */
  lemma ForbiddenLeavesStaleStore(w: World, credentials: LoginCredentials, reply: Reply<LoginData>, success: int,
                                  next: Request, path: string)
    requires IsForbidden(reply) && w.token != ""
    requires !Router.IsPublic(Router.Resolve(path))
    ensures var after := LoginVia(w, credentials, reply, success).step.world;
      && after.token == w.token
      && !Mirrored(after)
      && AttachBearer(next, after.storage) == next
      && Router.Navigate(path, after.storage, 1) == Router.Arrived(Router.Resolve(Router.AuthPath))
  {
    var after := LoginVia(w, credentials, reply, success).step.world;
    assert StoredToken(after.storage) == "";
    Router.NavigationSettles(path, after.storage, 1);
  }

  /** The navigation a 403 starts lands on the sign-in page and stays there. */
  lemma ForbiddenNavigationLandsOnAuth<T>(reply: Reply<T>, storage: Storage, success: int)
    requires IsForbidden(reply)
    ensures var i := InterceptResponse(reply, storage, success);
      Router.Navigate(i.navigation.value, i.storage, 1) == Router.Arrived(Router.Resolve(Router.AuthPath))
  {
    Router.LegacyPathsRedirectToAuth(SessionExpiredPath);
    Router.AuthIsPublic();
  }

  // ----- login -----

  /**
    A successful login with a complete payload: the store and storage hold
    the new token and profile, a restart would rebuild them, and protected
    pages open.
   */
  lemma SuccessfulLogin(w: World, credentials: LoginCredentials, token: string, info: UserInfo, msg: string,
                        success: int, path: string)
    requires token != ""
    ensures var e := LoginVia(w, credentials, Delivered(ApiResponse(success, msg, Some(LoginData(token, Some(info))))), success);
      && e.step.world.token == token && e.step.world.userInfo == Some(info)
      && GetItem(e.step.world.storage, TokenKey) == Some(token)
      && Mirrored(e.step.world) && Coupled(e.step.world)
      && e.navigation.None?
      && Router.Navigate(path, e.step.world.storage, 1) == Router.Arrived(Router.Resolve(path))
  {
    var reply := Delivered(ApiResponse(success, msg, Some(LoginData(token, Some(info)))));
    var i := InterceptResponse(reply, w.storage, success);
    LoginRoundTrip(w.(storage := i.storage), i.settled);
    var e := LoginVia(w, credentials, reply, success);
    Router.NavigationSettles(path, e.step.world.storage, 1);
  }

  /** A login rejected for its business code changes neither the store nor storage. */
  lemma RejectedLoginChangesNothing(w: World, credentials: LoginCredentials, body: ApiResponse<LoginData>, success: int)
    requires body.code != success
    ensures var e := LoginVia(w, credentials, Delivered(body), success);
      e.step == Step(w, Failure(ApiRejected(BusinessRejection(body.code, body.msg)))) && e.navigation.None?
  {
  }

  /** A transport failure other than 403 changes neither the store nor storage. */
  lemma FailedLoginChangesNothing(w: World, credentials: LoginCredentials, status: Option<int>, success: int)
    requires status != Some(ForbiddenStatus)
    ensures LoginVia(w, credentials, Failed(status), success).step == Step(w, Failure(ApiRejected(TransportRejection(status))))
  {
  }

  // ----- logout -----

  /**
    Logout signs out whatever the backend answers, 403 included, and
    afterwards requests carry no credential and only public pages open.
   */
  lemma LogoutAlwaysSignsOut(w: World, reply: Reply<string>, success: int, next: Request, path: string)
    ensures var e := LogoutVia(w, reply, success);
      && e.step.world == SignedOut(w.storage)
      && e.step.result == Success(())
      && AttachBearer(next, e.step.world.storage) == next
      && Router.Navigate(path, e.step.world.storage, 1).Arrived?
      && Router.IsPublic(Router.Navigate(path, e.step.world.storage, 1).at)
  {
    var e := LogoutVia(w, reply, success);
    assert StoredToken(e.step.world.storage) == "";
    Router.SignedOutReachesOnlyPublicPages(path, e.step.world.storage, 1);
  }

  // ----- register -----

  /** Registration never changes the store; storage changes only by a 403 wipe. */
  lemma RegisterKeepsSession(w: World, d: RegisterDto, reply: Reply<string>, success: int)
    ensures var e := RegisterVia(w, d, reply, success);
      && e.step.world.token == w.token && e.step.world.userInfo == w.userInfo
      && e.step.world.storage == (if IsForbidden(reply) then ClearCredentials(w.storage) else w.storage)
  {
  }

  // ----- profile refresh -----

  /** A delivered profile replaces only the profile and its stored copy; the token is untouched. */
  lemma FetchUserInfoRefreshesProfile(w: World, info: UserInfo, msg: string, success: int)
    requires w.token != "" && Mirrored(w)
    ensures var e := FetchUserInfoVia(w, Delivered(ApiResponse(success, msg, Some(info))), success);
      && e.step.result == Success(info)
      && e.step.world.token == w.token
      && e.step.world.userInfo == Some(info)
      && Mirrored(e.step.world)
  {
    var reply: Settled<UserInfo> := Resolved(ApiResponse(success, msg, Some(info)));
    FetchUserInfoKeepsMirror(w, reply);
  }
}
