/** The request builders of the authentication endpoints (src/api/auth.ts). */
module AuthApi {
  import opened Common
  import opened ApiTypes
  import opened Http

  const LoginPath := "/public/auth/login/email"
  const RegisterPath := "/public/auth/register"
  const LogoutPath := "/public/auth/logout"

  /** The only role a self-registered account may ask for. */
  const MerchantRole := "ROLE_MERCHANT"

  /** Password login posts the credentials as they are. */
  function LoginRequest(credentials: LoginCredentials): (r: Request)
    ensures r.verb == Post && r.url == LoginPath
    ensures r.body == CredentialsBody(credentials)
  {
    Request(Post, LoginPath, DefaultHeaders, CredentialsBody(credentials))
  }

  /** Overwrites whatever roles the caller supplied with the merchant role alone. */
  function StampRole(d: RegisterDto): (r: RegisterDto)
    ensures r.roles == Some([MerchantRole])
    ensures r.username == d.username && r.password == d.password && r.email == d.email
    ensures r.extra == d.extra
  {
    d.(roles := Some([MerchantRole]))
  }

  /** Stamping twice yields the payload stamping once does. */
  lemma StampRoleIdempotent(d: RegisterDto)
    ensures StampRole(StampRole(d)) == StampRole(d)
  {
  }

  /** Two payloads that differ only in their roles are sent identically. */
  lemma StampRoleIgnoresCallerRoles(d: RegisterDto, roles: Option<seq<string>>)
    ensures StampRole(d.(roles := roles)) == StampRole(d)
  {
  }

  function RegisterRequest(d: RegisterDto): (r: Request)
    ensures r.verb == Post && r.url == RegisterPath
    ensures r.body.RegisterBody? && r.body.registration == StampRole(d)
  {
    Request(Post, RegisterPath, DefaultHeaders, RegisterBody(StampRole(d)))
  }

  function LogoutRequest(): (r: Request)
    ensures r.verb == Post && r.url == LogoutPath && r.body == NoBody
  {
    Request(Post, LogoutPath, DefaultHeaders, NoBody)
  }
}
