/** The login screen's state machine (src/app/components/login/login.component.ts):
    credentials, then an optional second-factor challenge, then a stored
    token. Each backend call is split into the request it issues and the
    handler of its response or error; navigation is returned as its target. */
module Login {
  import opened Models
  import Auth

  /** A login response: the truthiness of `2fa_required`, `temp_token` and
      `token`. */
  datatype LoginResponse = LoginResponse(twoFactorRequired: bool, tempToken: Option<string>, token: Option<string>)

  /** The `error` field of a failed call: absent, or a body whose `message`
      may be missing. */
  datatype ErrorBody = NoBody | Body(message: Option<string>)

  const LoginFailed: string := "Login failed"
  const VerificationFailed: string := "Verification failed"
  const ProfilePath: string := "/profile"

  /** `err.error.message || fallback`; `None` when reading `err.error.message`
      throws because there is no `err.error`. */
  function ErrorText(err: ErrorBody, fallback: string): (r: Option<string>)
    ensures err.NoBody? <==> r.None?
    ensures err.Body? && Truthy(err.message) ==> r == err.message
    ensures err.Body? && !Truthy(err.message) ==> r == Some(fallback)
  {
    match err
    case NoBody => None
    case Body(m) => Some(if Truthy(m) then m.value else fallback)
  }

  class LoginComponent {
    const auth: Auth.AuthService
    var email: string
    var password: string
    var twoFactorCode: string
    var twoFactorRequired: bool
    var tempToken: Option<string>
    var errorMessage: string

    constructor (auth: Auth.AuthService)
      ensures this.auth == auth
      ensures email == "" && password == "" && twoFactorCode == ""
      ensures !twoFactorRequired && tempToken == Some("") && errorMessage == ""
    {
      this.auth := auth;
      email, password, twoFactorCode := "", "", "";
      twoFactorRequired := false;
      tempToken := Some("");
      errorMessage := "";
    }

    /** `login()` posts the entered credentials. */
    function LoginRequest(): (r: Auth.AuthRequest)
      reads this
      ensures r.url == Auth.ApiUrl + "/login" && r.body == Auth.Credentials(email, password)
    {
      Auth.LoginCall(email, password)
    }

    /** The challenge branch is tested first, so a response carrying both a
        challenge and a token is a challenge. A token without a challenge is
        stored and leads to the profile page, unless storing throws. */
    method OnLoginResponse(res: LoginResponse) returns (navigateTo: Option<string>)
      modifies this, auth
      ensures email == old(email) && password == old(password)
      ensures twoFactorCode == old(twoFactorCode) && errorMessage == old(errorMessage)
      ensures res.twoFactorRequired ==>
        twoFactorRequired && tempToken == res.tempToken
        && auth.Snapshot() == old(auth.Snapshot()) && navigateTo == None
      ensures !res.twoFactorRequired ==>
        twoFactorRequired == old(twoFactorRequired) && tempToken == old(tempToken)
      ensures !res.twoFactorRequired && Truthy(res.token) ==>
        auth.Snapshot() == Auth.SetTokenNext(old(auth.Snapshot()), res.token.value)
        && navigateTo == (if old(auth.storageAvailable) then Some(ProfilePath) else None)
      ensures !res.twoFactorRequired && !Truthy(res.token) ==>
        auth.Snapshot() == old(auth.Snapshot()) && navigateTo == None
    {
      navigateTo := None;
      if res.twoFactorRequired {
        twoFactorRequired := true;
        tempToken := res.tempToken;
      } else if Truthy(res.token) {
        var ok := auth.SetToken(res.token.value);
        if ok {
          navigateTo := Some(ProfilePath);
        }
      }
    }

    /** A failed login shows the backend's message or the fallback, and
        leaves the challenge state alone. */
    method OnLoginError(err: ErrorBody)
      modifies this
      ensures errorMessage == match ErrorText(err, LoginFailed) case Some(m) => m case None => old(errorMessage)
      ensures twoFactorRequired == old(twoFactorRequired) && tempToken == old(tempToken)
      ensures email == old(email) && password == old(password) && twoFactorCode == old(twoFactorCode)
    {
      var text := ErrorText(err, LoginFailed);
      if text.Some? {
        errorMessage := text.value;
      }
    }

    /** `verify2fa()` posts the stored temporary token with the entered code. */
    function Verify2faRequest(): (r: Auth.AuthRequest)
      reads this
      ensures r.url == Auth.ApiUrl + "/2fa/login" && r.body == Auth.SecondFactor(tempToken, twoFactorCode)
    {
      Auth.VerifyLogin2faCall(tempToken, twoFactorCode)
    }

    /** A successful verification: the service stores a truthy token, then the
        component stores it again and navigates. Neither `tempToken` nor
        `twoFactorRequired` is reset. If the service's store throws, the call
        fails and its error handler itself throws (there is no `err.error`),
        so nothing else happens. */
    method OnVerify2faResponse(token: Option<string>) returns (navigateTo: Option<string>)
      modifies this, auth
      ensures auth.Snapshot() == if Truthy(token) then Auth.SetTokenNext(old(auth.Snapshot()), token.value) else old(auth.Snapshot())
      ensures navigateTo == if Truthy(token) && old(auth.storageAvailable) then Some(ProfilePath) else None
      ensures twoFactorRequired == old(twoFactorRequired) && tempToken == old(tempToken)
      ensures errorMessage == old(errorMessage) && twoFactorCode == old(twoFactorCode)
      ensures email == old(email) && password == old(password)
    {
      navigateTo := None;
      var ok := auth.OnVerifyLogin2fa(token);
      if ok && Truthy(token) {
        var stored := auth.SetToken(token.value);
        if stored {
          navigateTo := Some(ProfilePath);
        }
      }
    }

    /** A failed verification shows the backend's message or the fallback and
        keeps the pending challenge. */
    method OnVerify2faError(err: ErrorBody)
      modifies this
      ensures errorMessage == match ErrorText(err, VerificationFailed) case Some(m) => m case None => old(errorMessage)
      ensures twoFactorRequired == old(twoFactorRequired) && tempToken == old(tempToken)
      ensures email == old(email) && password == old(password) && twoFactorCode == old(twoFactorCode)
    {
      var text := ErrorText(err, VerificationFailed);
      if text.Some? {
        errorMessage := text.value;
      }
    }
  }

  /** A login answered by a challenge leaves a fresh session
      unauthenticated, the verification that returns a token authenticates
      it, and logging out ends it. */
  method TwoFactorLogin(email: string, password: string, code: string, temp: string, token: string)
    returns (afterChallenge: bool, afterVerify: bool, afterLogout: bool)
    requires token != ""
    ensures !afterChallenge && afterVerify && !afterLogout
  {
    var auth := new Auth.AuthService(true, None);
    var login := new LoginComponent(auth);
    login.email, login.password := email, password;
    assert login.LoginRequest().body == Auth.Credentials(email, password);
    var nav := login.OnLoginResponse(LoginResponse(true, Some(temp), Some(token)));
    afterChallenge := auth.IsAuthenticated();
    login.twoFactorCode := code;
    assert login.Verify2faRequest().body == Auth.SecondFactor(Some(temp), code);
    nav := login.OnVerify2faResponse(Some(token));
    afterVerify := auth.IsAuthenticated();
    var path := auth.Logout();
    afterLogout := auth.IsAuthenticated();
  }
}
