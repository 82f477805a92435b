/** The session store (src/app/services/auth.service.ts): one browser storage
    slot under the key `auth_token` and a "current user" subject whose latest
    value is either null or `{token}`. The storage medium may be missing (a
    non-browser run); reading then yields null, and writing throws.

    The session as a value and its transitions are pure functions; the
    `AuthService` class holds the same state in fields and its methods are
    proved to perform those transitions. */
module Auth {
  import opened Models

  const ApiUrl: string := "http://localhost/api"
  const TokenKey: string := "auth_token"

  /** `storageAvailable` is `typeof localStorage !== 'undefined'`; `stored`
      is the value under `TokenKey`; `user` is the subject's latest value,
      `Some(t)` standing for `{token: t}`. */
  datatype Session = Session(storageAvailable: bool, stored: Option<string>, user: Option<string>)

  datatype Headers = Headers(authorization: string, contentType: string)

  /** `getToken()`. */
  function TokenOf(s: Session): Option<string> {
    if s.storageAvailable then s.stored else None
  }

  /** `isAuthenticated()`: `!!getToken()`. */
  predicate Authenticated(s: Session) {
    Truthy(TokenOf(s))
  }

  /** `getHeaders()`: the token goes through a template literal, so a missing
      one is rendered as the text `null`. */
  function HeadersOf(s: Session): Headers {
    var token := match TokenOf(s) case Some(t) => t case None => "null";
    Headers("Bearer " + token, "application/json")
  }

  /** The state right after construction: the subject starts at null and is
      moved to `{token}` when a truthy token is stored. */
  function Initial(storageAvailable: bool, stored: Option<string>): Session {
    var s := Session(storageAvailable, stored, None);
    if Truthy(TokenOf(s)) then s.(user := TokenOf(s)) else s
  }

  /** `setToken(t)`: write the slot, then notify. Without storage the write
      throws before anything changes. */
  function SetTokenNext(s: Session, t: string): Session {
    if s.storageAvailable then Session(true, Some(t), Some(t)) else s
  }

  /** `logout()`: clear the slot when there is one, then notify null. */
  function LogoutNext(s: Session): Session {
    if s.storageAvailable then s.(stored := None, user := None) else s.(user := None)
  }

  /** After `setToken(t)` the token reads back as `t` and the subject holds
      `{token: t}`; with no storage nothing changes. */
  lemma SetTokenThenGet(s: Session, t: string)
    ensures s.storageAvailable ==> TokenOf(SetTokenNext(s, t)) == Some(t) && SetTokenNext(s, t).user == Some(t)
    ensures !s.storageAvailable ==> SetTokenNext(s, t) == s && TokenOf(SetTokenNext(s, t)) == None
  {
  }

  /** Storing the same token twice leaves the state storing it once leaves. */
  lemma SetTokenIdempotent(s: Session, t: string)
    ensures SetTokenNext(SetTokenNext(s, t), t) == SetTokenNext(s, t)
  {
  }

  /** After `logout()` no token is read, the subject is null and the session
      is not authenticated, whether or not storage exists. */
  lemma LogoutClears(s: Session)
    ensures TokenOf(LogoutNext(s)) == None
    ensures LogoutNext(s).user == None
    ensures !Authenticated(LogoutNext(s))
    ensures HeadersOf(LogoutNext(s)).authorization == "Bearer null"
  {
  }

  /** Authenticated exactly when a non-empty token is stored in available
      storage. */
  lemma AuthenticatedIff(s: Session)
    ensures Authenticated(s) <==> s.storageAvailable && s.stored.Some? && s.stored.value != ""
  {
  }

  /** The subject starts as `{token}` exactly when a non-empty token is
      readable; no storage reads as no token. */
  lemma InitialSubject(storageAvailable: bool, stored: Option<string>)
    ensures Initial(storageAvailable, stored).user
            == if storageAvailable && Truthy(stored) then stored else None
    ensures Authenticated(Initial(storageAvailable, stored)) <==> storageAvailable && Truthy(stored)
    ensures !storageAvailable ==> TokenOf(Initial(storageAvailable, stored)) == None
  {
  }

  /** The authorization header carries the readable token after "Bearer ". */
  lemma HeadersCarryToken(s: Session)
    ensures var h := HeadersOf(s).authorization;
      h[..7] == "Bearer "
      && h[7..] == (if TokenOf(s).Some? then TokenOf(s).value else "null")
  {
  }

  /** The request bodies of the two authentication calls. */
  datatype AuthBody =
    | Credentials(email: string, password: string)
    | SecondFactor(tempToken: Option<string>, code: string)

  datatype AuthRequest = AuthRequest(url: string, body: AuthBody)

  function LoginCall(email: string, password: string): AuthRequest {
    AuthRequest(ApiUrl + "/login", Credentials(email, password))
  }

  function VerifyLogin2faCall(tempToken: Option<string>, code: string): AuthRequest {
    AuthRequest(ApiUrl + "/2fa/login", SecondFactor(tempToken, code))
  }

  class AuthService {
    var storageAvailable: bool
    var stored: Option<string>
    var currentUser: Option<string>

    function Snapshot(): Session
      reads this
    {
      Session(storageAvailable, stored, currentUser)
    }

    /** The service reads whatever the storage already holds. */
    constructor (storageAvailable: bool, stored: Option<string>)
      ensures Snapshot() == Initial(storageAvailable, stored)
    {
      this.storageAvailable := storageAvailable;
      this.stored := stored;
      this.currentUser := None;
      var token := if storageAvailable then stored else None;
      if Truthy(token) {
        this.currentUser := token;
      }
    }

    function GetToken(): Option<string>
      reads this
    {
      TokenOf(Snapshot())
    }

    predicate IsAuthenticated()
      reads this
    {
      Authenticated(Snapshot())
    }

    function GetHeaders(): Headers
      reads this
    {
      HeadersOf(Snapshot())
    }

    /** `ok` is false when the storage write throws. */
    method SetToken(token: string) returns (ok: bool)
      modifies this
      ensures ok == old(storageAvailable)
      ensures Snapshot() == SetTokenNext(old(Snapshot()), token)
    {
      if !storageAvailable {
        return false;
      }
      stored := Some(token);
      currentUser := Some(token);
      ok := true;
    }

    method Logout() returns (navigateTo: string)
      modifies this
      ensures Snapshot() == LogoutNext(old(Snapshot()))
      ensures navigateTo == "/login"
    {
      if storageAvailable {
        stored := None;
      }
      currentUser := None;
      navigateTo := "/login";
    }

    /** The service's own reaction to a successful second-factor response:
        store the token when the response carries a truthy one. `ok` is false
        when that store throws, which fails the call. */
    method OnVerifyLogin2fa(token: Option<string>) returns (ok: bool)
      modifies this
      ensures ok == (!Truthy(token) || old(storageAvailable))
      ensures Snapshot() == if Truthy(token) then SetTokenNext(old(Snapshot()), token.value) else old(Snapshot())
    {
      ok := true;
      if Truthy(token) {
        ok := SetToken(token.value);
      }
    }
  }
}
