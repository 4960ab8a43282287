/**
  The session store (src/store/user.ts): the in-memory token and profile,
  mirrored into durable storage under `token` and `userInfo` and rehydrated
  from it at start-up. Each action is a pure transition that takes the
  settled outcome of its backend call as an input.
 */
module UserStore {
  import opened Common
  import opened ApiTypes
  import opened LocalStorage
  import opened Http
  import Json

  /** The store's fields together with the durable storage they are mirrored into. */
  datatype World = World(token: string, userInfo: Option<UserInfo>, storage: Storage)

  /** How an action fails: the API call's rejection passed through, or an error the action throws. */
  datatype Failure = ApiRejected(reason: Rejection) | Thrown(message: string)

  /** The world after an action and what the action returned or threw. */
  datatype Step<T> = Step(world: World, result: Result<T, Failure>)

  const NotLoggedInMessage := "未登录"
  const RegisterFailedMessage := "注册失败"
  const FetchUserInfoFailedMessage := "获取用户信息失败"

  /** `msg || fallback`: the server's message unless it is empty. */
  function MessageOr(msg: string, fallback: string): (m: string)
    ensures m != "" <==> msg != "" || fallback != ""
    ensures msg != "" ==> m == msg
    ensures msg == "" ==> m == fallback
  {
    if msg != "" then msg else fallback
  }

  // ----- start-up -----

  /**
    The initial state: the stored token (or `''`) and the parsed stored
    profile, where a missing or empty entry reads as `null`. Text that does
    not parse makes the initialiser throw.
   */
  function Rehydrate(storage: Storage): (r: Result<World, Json.ParseError>)
    ensures r.Success? ==> r.value.storage == storage && r.value.token == StoredToken(storage)
    ensures UserInfoKey !in storage || storage[UserInfoKey] == "" ==> r.Success? && r.value.userInfo.None?
    ensures UserInfoKey in storage && storage[UserInfoKey] != "" ==>
      match Json.Decode(storage[UserInfoKey])
      case Success(u) => r.Success? && r.value.userInfo == u
      case Failure(_) => r.Failure?
  {
    var text := GetItem(storage, UserInfoKey);
    var parsed := Json.Decode(if text.None? || text.value == "" then Json.NullText else text.value);
    match parsed
    case Success(u) => Success(World(StoredToken(storage), u, storage))
    case Failure(e) => Failure(e)
  }

  /** Storage mirrors the fields: a restart would rebuild exactly this state. */
  ghost predicate Mirrored(w: World)
  {
    Rehydrate(w.storage) == Success(w)
  }

  /** A fresh state is mirrored by construction. */
  lemma RehydratedIsMirrored(storage: Storage)
    requires Rehydrate(storage).Success?
    ensures Mirrored(Rehydrate(storage).value)
  {
  }

  /** The coupling one might expect of a session: no token exactly when no profile. */
  predicate Coupled(w: World)
  {
    (w.token == "") <==> w.userInfo.None?
  }

  /** Storage after the store writes a token and a profile. */
  function Persist(storage: Storage, token: string, userInfo: Option<UserInfo>): Storage
  {
    SetItem(SetItem(storage, TokenKey, token), UserInfoKey, Json.Encode(userInfo))
  }

  // ----- actions -----

  /**
    `login`: on a resolved reply the fields take the payload's token (or `''`)
    and profile (or `null`), both are written to storage, and the payload is
    returned; a rejection passes through and changes nothing.
   */
  function Login(w: World, reply: Settled<LoginData>): (s: Step<Option<LoginData>>)
    ensures reply.Rejected? ==> s == Step(w, Failure(ApiRejected(reply.reason)))
    ensures reply.Resolved? ==> s.result == Success(reply.response.data)
    ensures reply.Resolved? ==>
      var d := reply.response.data;
      && s.world.token == (if d.Some? then d.value.token else "")
      && s.world.userInfo == (if d.Some? then d.value.userInfo else None)
      && GetItem(s.world.storage, TokenKey) == Some(s.world.token)
      && GetItem(s.world.storage, UserInfoKey) == Some(Json.Encode(s.world.userInfo))
      && (forall k :: k != TokenKey && k != UserInfoKey ==> GetItem(s.world.storage, k) == GetItem(w.storage, k))
  {
    match reply
    case Rejected(reason) => Step(w, Failure(ApiRejected(reason)))
    case Resolved(response) =>
      var token := if response.data.Some? && response.data.value.token != "" then response.data.value.token else "";
      var info := if response.data.Some? && response.data.value.userInfo.Some? then response.data.value.userInfo else None;
      Step(World(token, info, Persist(w.storage, token, info)), Success(response.data))
  }

  /**
    `register`: never touches the store. A non-empty payload is returned;
    otherwise the action throws the server's message, or a default one.
   */
  function Register(w: World, reply: Settled<string>): (s: Step<string>)
    ensures s.world == w
    ensures s.result.Success? <==> reply.Resolved? && reply.response.data.Some? && reply.response.data.value != ""
    ensures s.result.Success? ==> s.result.value == reply.response.data.value
    ensures reply.Rejected? ==> s.result == Failure(ApiRejected(reply.reason))
    ensures reply.Resolved? && s.result.Failure? ==>
      s.result == Failure(Thrown(MessageOr(reply.response.msg, RegisterFailedMessage)))
      && s.result.error.message != ""
      && (reply.response.msg != "" ==> s.result.error.message == reply.response.msg)
      && (reply.response.msg == "" ==> s.result.error.message == RegisterFailedMessage)
  {
    match reply
    case Rejected(reason) => Step(w, Failure(ApiRejected(reason)))
    case Resolved(response) =>
      if response.data.Some? && response.data.value != "" then Step(w, Success(response.data.value))
      else Step(w, Failure(Thrown(MessageOr(response.msg, RegisterFailedMessage))))
  }

  /** The state every logout leaves behind. */
  function SignedOut(storage: Storage): World
  {
    World("", None, RemoveItem(RemoveItem(storage, TokenKey), UserInfoKey))
  }

  /**
    `logout`: whatever the backend answers, the fields are cleared, both keys
    are removed, and the action completes normally.
   */
  function Logout(w: World, reply: Settled<string>): (s: Step<()>)
    ensures s.result == Success(())
    ensures s.world.token == "" && s.world.userInfo == None
    ensures s.world.storage.Keys == w.storage.Keys - {TokenKey, UserInfoKey}
    ensures forall k :: k in s.world.storage ==> s.world.storage[k] == w.storage[k]
  {
    Step(SignedOut(w.storage), Success(()))
  }

  /**
    `fetchUserInfo`: without a token it throws before calling the backend.
    A resolved reply with a profile replaces the profile and its stored copy
    and nothing else; a reply without one throws; a rejection passes through.
   */
  function FetchUserInfo(w: World, reply: Settled<UserInfo>): (s: Step<UserInfo>)
    ensures w.token == "" ==> s == Step(w, Failure(Thrown(NotLoggedInMessage)))
    ensures s.result.Success? <==> w.token != "" && reply.Resolved? && reply.response.data.Some?
    ensures s.result.Success? ==>
      && s.result.value == reply.response.data.value
      && s.world == w.(userInfo := Some(s.result.value),
                       storage := SetItem(w.storage, UserInfoKey, Json.Encode(Some(s.result.value))))
    ensures s.result.Failure? ==> s.world == w
    ensures w.token != "" && reply.Rejected? ==> s.result == Failure(ApiRejected(reply.reason))
    ensures w.token != "" && reply.Resolved? && reply.response.data.None? ==>
      s.result == Failure(Thrown(MessageOr(reply.response.msg, FetchUserInfoFailedMessage)))
      && (reply.response.msg == "" ==> s.result.error.message == FetchUserInfoFailedMessage)
  {
    if w.token == "" then Step(w, Failure(Thrown(NotLoggedInMessage)))
    else
      match reply
      case Rejected(reason) => Step(w, Failure(ApiRejected(reason)))
      case Resolved(response) =>
        match response.data
        case Some(info) =>
          Step(w.(userInfo := Some(info), storage := SetItem(w.storage, UserInfoKey, Json.Encode(Some(info)))),
               Success(info))
        case None => Step(w, Failure(Thrown(MessageOr(response.msg, FetchUserInfoFailedMessage))))
  }

  /** `setToken`: replaces the token and its stored copy, and nothing else. */
  function SetToken(w: World, token: string): (r: World)
    ensures r.token == token && r.userInfo == w.userInfo
    ensures GetItem(r.storage, TokenKey) == Some(token)
    ensures forall k :: k != TokenKey ==> GetItem(r.storage, k) == GetItem(w.storage, k)
  {
    w.(token := token, storage := SetItem(w.storage, TokenKey, token))
  }

  // ----- storage mirrors the store -----

  /** A restart right after a resolved login gives back the same token and profile. */
  lemma LoginRoundTrip(w: World, reply: Settled<LoginData>)
    requires reply.Resolved?
    ensures Mirrored(Login(w, reply).world)
  {
    var s := Login(w, reply).world;
    Json.DecodeEncode(s.userInfo);
    if s.userInfo.Some? {
      Json.EncodeDistinguishesNull(s.userInfo);
      assert Json.Encode(s.userInfo) != "";
    }
  }

  /** A rejected login leaves a mirrored state mirrored (it changes nothing). */
  lemma LoginKeepsMirror(w: World, reply: Settled<LoginData>)
    requires Mirrored(w)
    ensures Mirrored(Login(w, reply).world)
  {
    if reply.Resolved? {
      LoginRoundTrip(w, reply);
    }
  }

  lemma LogoutMirrors(w: World, reply: Settled<string>)
    ensures Mirrored(Logout(w, reply).world)
  {
  }

  lemma FetchUserInfoKeepsMirror(w: World, reply: Settled<UserInfo>)
    requires Mirrored(w)
    ensures Mirrored(FetchUserInfo(w, reply).world)
  {
    var s := FetchUserInfo(w, reply);
    if s.result.Success? {
      Json.DecodeEncode(s.world.userInfo);
      assert Json.Encode(s.world.userInfo)[0] == '{';
      assert StoredToken(s.world.storage) == StoredToken(w.storage);
    }
  }

  lemma SetTokenKeepsMirror(w: World, token: string)
    requires Mirrored(w)
    ensures Mirrored(SetToken(w, token))
  {
  }

  // ----- logout -----

  /** Logging out twice leaves the state logging out once does, whatever either backend call did. */
  lemma LogoutIdempotent(w: World, first: Settled<string>, second: Settled<string>)
    ensures Logout(Logout(w, first).world, second) == Logout(w, first)
  {
  }

  // ----- the token/profile coupling -----

  /** Logging out restores the coupling. */
  lemma LogoutCouples(w: World, reply: Settled<string>)
    ensures Coupled(Logout(w, reply).world)
  {
  }

  /** A login whose payload carries a token and a profile establishes the coupling. */
  lemma CompleteLoginCouples(w: World, reply: Settled<LoginData>)
    requires reply.Resolved? && reply.response.data.Some?
    requires reply.response.data.value.token != "" && reply.response.data.value.userInfo.Some?
    ensures Coupled(Login(w, reply).world)
  {
  }

  /** Refreshing a profile keeps a coupled state coupled. */
  lemma FetchUserInfoKeepsCoupling(w: World, reply: Settled<UserInfo>)
    requires Coupled(w)
    ensures Coupled(FetchUserInfo(w, reply).world)
  {
  }

  /**
    The code does not keep the coupling everywhere: a resolved login whose
    payload lacks the profile leaves a token without a profile.
   */
  lemma PartialLoginDecouples(w: World, token: string)
    requires token != ""
    ensures !Coupled(Login(w, Resolved(ApiResponse(0, "", Some(LoginData(token, None))))).world)
  {
  }

  /** `setToken` keeps the coupling exactly when the new token agrees with the profile's presence. */
  lemma SetTokenCoupling(w: World, token: string)
    ensures Coupled(SetToken(w, token)) <==> ((token == "") <==> w.userInfo.None?)
  {
  }
}
