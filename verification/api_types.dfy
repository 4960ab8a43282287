/**
  The data shapes exchanged with the identity backend (src/types/api.ts) and the
  request payloads declared next to the API functions (src/api/auth.ts).
 */
module ApiTypes {
  import opened Common

  /** The envelope of every backend reply: a business code, a message and an optional payload. */
  datatype ApiResponse<T> = ApiResponse(code: int, msg: string, data: Option<T>)

  /** One member of a serialised JSON object whose value is a string. */
  datatype Member = Member(key: string, value: string)

  /**
    The user profile. The session code never looks inside it, so it is kept
    opaque: a JSON object given by its members in order.
   */
  datatype UserInfo = UserInfo(members: seq<Member>)

  /** The payload of a successful login: a bearer token and the profile (either may be missing). */
  datatype LoginData = LoginData(token: string, userInfo: Option<UserInfo>)

  /** Password-login credentials. */
  datatype LoginCredentials = LoginCredentials(email: string, password: string)

  /**
    A registration payload: the declared fields, the optional role list, and
    every other field the caller put on the object (such as `source`).
   */
  datatype RegisterDto = RegisterDto(
    username: string,
    password: string,
    email: string,
    roles: Option<seq<string>>,
    extra: map<string, string>)
}
