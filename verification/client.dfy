/** The WeBack API client: resolving the login credentials, building the login request, and the
    cached AWS session that is renewed through the WeBack login and the Cognito credential
    exchange. The network, boto3 and MD5 are supplied from outside as a `Backend`, and the
    current time is a parameter. */
module Client {
  import opened Wrappers

  const AppVersion: string := "android_3.9.3"
  const LoginMissing: string := "Login is not provided via params or class constructor"
  const PasswordMissing: string := "Password is not provided via params or class constructor"

  /** The JSON body posted to the WeBack login endpoint. */
  datatype LoginRequest = LoginRequest(appVersion: string, password: string, userAccount: string)

  /** The decoded JSON answer of the login endpoint, returned as it is. */
  type LoginResponse = map<string, string>

  /** The `Credentials` entry of a Cognito answer; each key may be missing. */
  datatype Credentials = Credentials(
    accessKeyId: Option<string>,
    secretKey: Option<string>,
    sessionToken: Option<string>,
    expiration: Option<int>)

  /** A Cognito `get_credentials_for_identity` answer; `Credentials` may be missing. */
  datatype CognitoResponse = CognitoResponse(credentials: Option<Credentials>)

  /** A boto3 session as built from Cognito credentials. */
  datatype AwsSession = AwsSession(accessKeyId: string, secretKey: string, sessionToken: string, region: string)

  /** What the client calls but does not define: MD5 hex digests, the HTTPS login
      (request, then JSON decoding) and the Cognito exchange (region, identity id, token). */
  datatype Backend = Backend(
    md5hex: string -> string,
    post: LoginRequest -> Result<LoginResponse>,
    cognito: (string, string, string) -> Result<CognitoResponse>)

  /** The fields of a `WebackApi` object. */
  datatype ApiState = ApiState(
    apiLogin: Option<string>,
    apiPassword: Option<string>,
    awsSession: Option<AwsSession>,
    awsIdentityId: Option<string>,
    expirationTime: Option<int>)

  /** The request `auth` posts: an explicit argument wins over the stored value; the login is
      resolved and checked before the password. */
  function BuildLoginRequest(st: ApiState, login: Option<string>, password: Option<string>, md5hex: string -> string)
    : (r: Result<LoginRequest>)
    ensures login.None? && st.apiLogin.None? ==> r == Err(Raised(LoginMissing))
    ensures (login.Some? || st.apiLogin.Some?) && password.None? && st.apiPassword.None?
            ==> r == Err(Raised(PasswordMissing))
    ensures r.Ok? <==> (login.Some? || st.apiLogin.Some?) && (password.Some? || st.apiPassword.Some?)
    ensures r.Ok? ==> r.value.appVersion == AppVersion
    ensures r.Ok? && login.Some? ==> r.value.userAccount == login.value
    ensures r.Ok? && login.None? ==> r.value.userAccount == st.apiLogin.value
    ensures r.Ok? && password.Some? ==> r.value.password == md5hex(password.value)
    ensures r.Ok? && password.None? ==> r.value.password == md5hex(st.apiPassword.value)
  {
    var user :=
      if login.Some? then Ok(login.value)
      else if st.apiLogin.Some? then Ok(st.apiLogin.value)
      else Err(Raised(LoginMissing));
    if user.Err? then Err(user.error)
    else
      var secret :=
        if password.Some? then Ok(password.value)
        else if st.apiPassword.Some? then Ok(st.apiPassword.value)
        else Err(Raised(PasswordMissing));
      if secret.Err? then Err(secret.error)
      else Ok(LoginRequest(AppVersion, md5hex(secret.value), user.value))
  }

  /** `auth`: the login endpoint's answer to the request, or the credential failure when no
      request could be built, in which case nothing is posted. */
  function Auth(st: ApiState, login: Option<string>, password: Option<string>, backend: Backend)
    : (r: Result<LoginResponse>)
    ensures login.None? && st.apiLogin.None? ==> r == Err(Raised(LoginMissing))
    ensures (login.Some? || st.apiLogin.Some?) && password.None? && st.apiPassword.None?
            ==> r == Err(Raised(PasswordMissing))
    ensures (login.Some? || st.apiLogin.Some?) && (password.Some? || st.apiPassword.Some?) ==>
            r == backend.post(BuildLoginRequest(st, login, password, backend.md5hex).value)
  {
    var req := BuildLoginRequest(st, login, password, backend.md5hex);
    if req.Err? then Err(req.error) else backend.post(req.value)
  }

  /** `is_renewal_required`: whether the expiration time has passed; an unset expiration
      time has no time zone to read and raises. */
  function IsRenewalRequired(st: ApiState, now: int): (r: Result<bool>)
    ensures r.Ok? <==> st.expirationTime.Some?
    ensures r.Err? ==> r.error == AttributeError
    ensures r.Ok? ==> (r.value <==> st.expirationTime.value < now)
  {
    match st.expirationTime
    case None => Err(AttributeError)
    case Some(expiration) => Ok(expiration < now)
  }

  /** `make_session_from_cognito`: a session with the three Cognito keys and the region. */
  function MakeSessionFromCognito(awsCreds: CognitoResponse, region: string): (r: Result<AwsSession>)
    ensures r.Ok? <==> awsCreds.credentials.Some? && awsCreds.credentials.value.accessKeyId.Some?
                       && awsCreds.credentials.value.secretKey.Some?
                       && awsCreds.credentials.value.sessionToken.Some?
    ensures r.Ok? ==> r.value.region == region
                      && Some(r.value.accessKeyId) == awsCreds.credentials.value.accessKeyId
                      && Some(r.value.secretKey) == awsCreds.credentials.value.secretKey
                      && Some(r.value.sessionToken) == awsCreds.credentials.value.sessionToken
  {
    match awsCreds.credentials
    case None => Err(KeyError("Credentials"))
    case Some(c) =>
      if c.accessKeyId.None? then Err(KeyError("AccessKeyId"))
      else if c.secretKey.None? then Err(KeyError("SecretKey"))
      else if c.sessionToken.None? then Err(KeyError("SessionToken"))
      else Ok(AwsSession(c.accessKeyId.value, c.secretKey.value, c.sessionToken.value, region))
  }

  /** The second half of `get_session`: log in, record the identity id, exchange the login
      token for AWS credentials, record their expiration, then build and record the session.
      A failure at any step keeps what the earlier steps recorded. */
  function Renew(st: ApiState, backend: Backend): (res: (Result<AwsSession>, ApiState))
    ensures res.1.apiLogin == st.apiLogin && res.1.apiPassword == st.apiPassword
    ensures res.0.Ok? ==> res.1.awsSession == Some(res.0.value)
    ensures res.0.Err? ==> res.1.awsSession == st.awsSession
    ensures Auth(st, None, None, backend).Err? ==> res == (Err(Auth(st, None, None, backend).error), st)
  {
    match Auth(st, None, None, backend)
    case Err(e) => (Err(e), st)
    case Ok(wd) =>
      if "Region_Info" !in wd then (Err(KeyError("Region_Info")), st)
      else if "Identity_Id" !in wd then (Err(KeyError("Identity_Id")), st)
      else
        var region := wd["Region_Info"];
        var st1 := st.(awsIdentityId := Some(wd["Identity_Id"]));
        if "Token" !in wd then (Err(KeyError("Token")), st1)
        else
          match backend.cognito(region, wd["Identity_Id"], wd["Token"])
          case Err(e) => (Err(e), st1)
          case Ok(awsCreds) =>
            if awsCreds.credentials.None? then (Err(KeyError("Credentials")), st1)
            else
              var st2 := st1.(expirationTime := awsCreds.credentials.value.expiration);
              match MakeSessionFromCognito(awsCreds, region)
              case Err(e) => (Err(e), st2)
              case Ok(sess) => (Ok(sess), st2.(awsSession := Some(sess)))
  }

  /** `get_session` on a snapshot of the client's fields: the session it returns and the fields after. */
  function GetSessionSpec(st: ApiState, now: int, backend: Backend): (res: (Result<AwsSession>, ApiState))
    ensures res.1.apiLogin == st.apiLogin && res.1.apiPassword == st.apiPassword
    ensures res.0.Ok? ==> res.1.awsSession == Some(res.0.value)
    ensures res.0.Ok? && st.awsSession.Some? && res.0.value != st.awsSession.value ==>
              st.expirationTime.Some? && st.expirationTime.value < now
  {
    if st.awsSession.None? then Renew(st, backend)
    else
      match IsRenewalRequired(st, now)
      case Err(e) => (Err(e), st)
      case Ok(false) => (Ok(st.awsSession.value), st)
      case Ok(true) => Renew(st, backend)
  }

  class WebackApi {
    var awsSession: Option<AwsSession>
    var awsIdentityId: Option<string>
    var expirationTime: Option<int>
    /** Set by the constructor and read nowhere. */
    var awsSessionExpiration: Option<int>
    const apiLogin: Option<string>
    const apiPassword: Option<string>

    function State(): ApiState
      reads this
    {
      ApiState(apiLogin, apiPassword, awsSession, awsIdentityId, expirationTime)
    }

    /** The constructor keeps a given session but not its expiration, so `expiration_time`
        starts unset. */
    constructor (login: Option<string>, password: Option<string>, awsSession: Option<AwsSession>,
                 awsSessionExpiration: Option<int>)
      ensures State() == ApiState(login, password, awsSession, None, None)
      ensures this.awsSessionExpiration == None
    {
      this.awsSession := awsSession;
      this.awsSessionExpiration := None;
      apiLogin := login;
      apiPassword := password;
      awsIdentityId := None;
      expirationTime := None;
    }

    /** `get_session`: reuse the cached session while it is current, otherwise renew it step by step. */
    method GetSession(now: int, backend: Backend) returns (r: Result<AwsSession>)
      modifies this`awsSession, this`awsIdentityId, this`expirationTime
      ensures (r, State()) == GetSessionSpec(old(State()), now, backend)
    {
      if awsSession.Some? {
        var renewal := IsRenewalRequired(State(), now);
        if renewal.Err? {
          return Err(renewal.error);
        }
        if !renewal.value {
          return Ok(awsSession.value);
        }
      }
      var weback := Auth(State(), None, None, backend);
      if weback.Err? {
        return Err(weback.error);
      }
      var wd := weback.value;
      if "Region_Info" !in wd {
        return Err(KeyError("Region_Info"));
      }
      var region := wd["Region_Info"];
      if "Identity_Id" !in wd {
        return Err(KeyError("Identity_Id"));
      }
      awsIdentityId := Some(wd["Identity_Id"]);
      if "Token" !in wd {
        return Err(KeyError("Token"));
      }
      var exchange := backend.cognito(region, wd["Identity_Id"], wd["Token"]);
      if exchange.Err? {
        return Err(exchange.error);
      }
      var awsCreds := exchange.value;
      if awsCreds.credentials.None? {
        return Err(KeyError("Credentials"));
      }
      expirationTime := awsCreds.credentials.value.expiration;
      var sess := MakeSessionFromCognito(awsCreds, region);
      if sess.Err? {
        return Err(sess.error);
      }
      awsSession := Some(sess.value);
      r := Ok(sess.value);
    }
  }

  /** A current cached session is returned as it is; nothing is posted and no field changes. */
  lemma CachedSessionReused(st: ApiState, now: int, backend: Backend)
    requires st.awsSession.Some? && st.expirationTime.Some? && now <= st.expirationTime.value
    ensures GetSessionSpec(st, now, backend) == (Ok(st.awsSession.value), st)
  {
  }

  /** A cached session without an expiration time makes `get_session` raise, changing nothing. */
  lemma UnsetExpirationFails(st: ApiState, now: int, backend: Backend)
    requires st.awsSession.Some? && st.expirationTime.None?
    ensures GetSessionSpec(st, now, backend) == (Err(AttributeError), st)
  {
  }

  /** So a session handed to the constructor cannot be used: the first `get_session` raises. */
  lemma ConstructorSessionFails(login: Option<string>, password: Option<string>, sess: AwsSession,
                                now: int, backend: Backend)
    ensures GetSessionSpec(ApiState(login, password, Some(sess), None, None), now, backend).0 == Err(AttributeError)
  {
  }

  /** Without a cached session, or once it has expired, `get_session` renews in full. */
  lemma ExpiredSessionRenewed(st: ApiState, now: int, backend: Backend)
    requires st.awsSession.None? || (st.expirationTime.Some? && st.expirationTime.value < now)
    ensures GetSessionSpec(st, now, backend) == Renew(st, backend)
  {
  }

  /** Whatever path it takes, a session that `get_session` returns is the one it leaves cached,
      and the stored credentials never change. */
  lemma ReturnedSessionIsStored(st: ApiState, now: int, backend: Backend)
    ensures var (r, st') := GetSessionSpec(st, now, backend);
            st'.apiLogin == st.apiLogin && st'.apiPassword == st.apiPassword
            && (r.Ok? ==> st'.awsSession == Some(r.value))
  {
  }

  /** A successful renewal records the login answer's identity id and the Cognito expiration
      time, and caches the session built from the Cognito credentials and the login's region. */
  lemma RenewalRecords(st: ApiState, backend: Backend)
    requires Renew(st, backend).0.Ok?
    ensures var wd := Auth(st, None, None, backend);
            wd.Ok? && "Region_Info" in wd.value && "Identity_Id" in wd.value && "Token" in wd.value
            && var exchange := backend.cognito(wd.value["Region_Info"], wd.value["Identity_Id"], wd.value["Token"]);
            exchange.Ok? && exchange.value.credentials.Some?
            && var (r, st') := Renew(st, backend);
            st' == st.(awsIdentityId := Some(wd.value["Identity_Id"]),
                       expirationTime := exchange.value.credentials.value.expiration,
                       awsSession := Some(r.value))
            && MakeSessionFromCognito(exchange.value, wd.value["Region_Info"]) == r
  {
  }

  /** Missing credentials fail the renewal before anything is posted or recorded. */
  lemma MissingCredentialsChangeNothing(st: ApiState, backend: Backend)
    requires st.apiLogin.None? || st.apiPassword.None?
    ensures Renew(st, backend).0.Err? && Renew(st, backend).1 == st
  {
  }

  /** A failed Cognito exchange leaves the new identity id recorded, while the cached session
      and the expiration time keep their old values. */
  lemma ExchangeFailureKeepsIdentity(st: ApiState, backend: Backend)
    requires Auth(st, None, None, backend).Ok?
    requires var wd := Auth(st, None, None, backend).value;
             "Region_Info" in wd && "Identity_Id" in wd && "Token" in wd
             && backend.cognito(wd["Region_Info"], wd["Identity_Id"], wd["Token"]).Err?
    ensures var (r, st') := Renew(st, backend);
            r.Err? && st' == st.(awsIdentityId := Some(Auth(st, None, None, backend).value["Identity_Id"]))
  {
  }

  /** Two `get_session` calls at the same time: when the first leaves an unexpired session, the
      second returns that same session and changes nothing, whatever the backend does. */
  lemma ConsecutiveCallsShareSession(st: ApiState, now: int, backend: Backend, backend': Backend)
    requires GetSessionSpec(st, now, backend).0.Ok?
    requires var st' := GetSessionSpec(st, now, backend).1;
             st'.expirationTime.Some? && now <= st'.expirationTime.value
    ensures var (r, st') := GetSessionSpec(st, now, backend);
            GetSessionSpec(st', now, backend') == (r, st')
  {
  }
}
