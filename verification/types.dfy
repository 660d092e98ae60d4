/**
 * Values shared by every part of the API-access model: the error taxonomy of
 * access.go, the credential record kept in the active bucket, the token
 * transports and the values a JWT claim may hold.
 */
module AccessTypes {

  datatype Option<+T> = None | Some(value: T)

  /** The distinct error returns of access.go (their message text is not modelled). */
  datatype Error =
    | EmptyKey                    // "key must not be empty"
    | EmptyPassword               // "password must not be empty"
    | DeriveFailed                // user.New returned an error
    | ClaimCollision(claim: string) // a custom claim reuses an internal claim name
    | SignFailed                  // jwt.New returned an error
    | UnrecognizedTokenStore      // the token store is neither a header nor a cookie
    | ActiveInUse                 // "email already actively in use"
    | AlreadyPending              // "email already pending in use" / "email already in use"
    | GrantUnreadable             // no stored grant to decode in updateGrant
    | Unauthorized                // "unauthorized attempt to update grant"
    | UpdateFailed(cause: Error)  // "failed to update APIAccess grant for ..."
    | NotAuthorized               // "User Not Authorized" (Login on an unknown key)
    | NoCookie                    // the request carries no access-token cookie

  /** Success or failure of an operation that returns only an error. */
  datatype Outcome = Pass | Fail(error: Error)

  /** A value or the error that replaced it. */
  datatype Result<+T> = Ok(value: T) | Err(error: Error)

  /** What the password-hashing collaborator derives from a password. */
  datatype Credentials = Credentials(hash: string, salt: string)

  /** A grant record as stored under its key in the active bucket. */
  datatype Record = Record(email: string, hash: string, salt: string)

  /**
   * The dynamic type of Config.TokenStore: an http.Header, an http.Cookie or
   * anything else.
   */
  datatype Transport = Header | Cookie | Other

  /** A claim value: the numeric `exp`, the string `access`, or a custom claim. */
  datatype Value = Num(n: int) | Str(s: string) | Flag(b: bool)

  /** Name of the cookie that carries the token (access.go:22). */
  const ACCESS_COOKIE: string := "_apiAccessToken"

  /** The two claims setToken writes itself. */
  const EXP_CLAIM: string := "exp"
  const ACCESS_CLAIM: string := "access"
}
