/**
 * The session of one Mobli client object (com.mobli.android.Mobli): the access
 * token, its expiry and the user id; how they are set, checked and cleared; how the
 * token is attached to outgoing requests; and the interactive login flow that
 * fills them in.
 *
 * Times are milliseconds since the Unix epoch and are passed in as `now`.
 */
module MobliApi {
  import opened Wrappers
  import opened TextUtil
  import opened Bundles
  import opened Transport

  // Strings of the authorization flow.
  const REDIRECT_URI_START := "mobli"
  const REDIRECT_URI_END := "://authorize"
  const BASIC_PERMISSIONS: seq<string> := ["basic"]
  const TOKEN := "access_token"
  const EXPIRES := "expires_in"
  const USER_ID := "user_id"

  // Server endpoints.
  const AUTHORIZE_BASE_URL := "https://oauth.mobli.com"
  const DIALOG_AUTHORIZE_URL := AUTHORIZE_BASE_URL + "/authorize"
  const API_BASE_URL := "https://api.mobli.com/"

  // Messages.
  const LOGIN_FAILED := "Failed to receive access token."
  const CLIENT_ID_MISSING := "You must specify your CLIENT_ID when instantiating a Mobli object. See README for details."
  const CLIENT_SECRET_MISSING := "You must specify your CLIENT_SECRET when instantiating a Mobli object. See README for details."

  datatype IllegalArgumentException = IllegalArgumentException(message: string)

  /** A vendor-level error reported to a listener. */
  datatype MobliError = MobliError(message: string)

  /** An error of the web dialog; it is only ever passed along. */
  datatype DialogError = DialogError(message: string)

  /** The identity of a listener object (dialog or request listener) supplied by the application. */
  type ListenerId = nat

  /** A call of one `DialogListener` method. */
  datatype DialogEvent =
    | OnComplete(values: map<string, string>)
    | OnMobliError(error: MobliError)
    | OnError(dialogError: DialogError)
    | OnCancel

  /** A listener call together with the listener that received it. */
  datatype DialogDelivery = DialogDelivery(listener: ListenerId, event: DialogEvent)

  /**
   * Who is told when a dialog ends: the login flow's own listener (which stores the
   * session and then reports to the listener kept by `authorize`) or an
   * application listener handed to `dialog` directly.
   */
  datatype DialogListener = AuthFlow | Caller(id: ListenerId)

  /** What is handed to the login dialog: endpoint, query parameters, redirect URI and listener. */
  datatype DialogRequest = DialogRequest(endpoint: string, params: map<string, string>, redirectUri: string, listener: DialogListener)

  /** The three session fields as one value; an expiry of 0 means "never expires". */
  datatype Session = Session(token: Option<string>, expires: int, userId: Option<string>)
  {
    /**
     * `isSessionValid`: a token is present and it never expires or has not expired yet.
     * So a valid session has a token, a token with the 0 sentinel is valid, and an
     * expiry that has been reached is never valid.
     */
    predicate IsValid(now: int)
      ensures IsValid(now) ==> token.Some?
      ensures token.Some? && expires == 0 ==> IsValid(now)
      ensures expires != 0 && expires <= now ==> !IsValid(now)
    {
      token.Some? && (expires == 0 || now < expires)
    }
  }

  /** The three ways a session can stand at a given time. */
  lemma ValidityCases(s: Session, t: int)
    ensures s.token.None? ==> !s.IsValid(t)
    ensures s.token.Some? && s.expires == 0 ==> s.IsValid(t)
    ensures s.token.Some? && s.expires != 0 ==> (s.IsValid(t) <==> t < s.expires)
  {
  }

  /** The expiry after `setAccessExpiresIn(expiresIn)` at time `now`, when it was `expires`. */
  function ExpiresAfter(expires: int, expiresIn: Option<string>, now: int): (e: int)
    requires expiresIn.Some? ==> IsLongNumeral(expiresIn.value)
    ensures expiresIn.None? ==> e == expires
    ensures expiresIn == Some("0") ==> e == 0
    ensures expiresIn.Some? && expiresIn.value[0] != '-' ==> e == 0 || now <= e
    ensures expiresIn.Some? && expiresIn.value[0] == '-' ==> e <= now
    ensures expiresIn.Some? && e != 0 ==> (e - now) % 1000 == 0
  {
    match expiresIn
    case None => expires
    case Some(d) => if d == "0" then 0 else now + LongValue(d) * 1000
  }

  /** A missing `expires_in` leaves the expiry as it was. */
  lemma NullExpiresInKeepsExpiry(expires: int, now: int)
    ensures ExpiresAfter(expires, None, now) == expires
  {
  }

  /** "0" is the never-expires sentinel: a stored token then stays valid at every time. */
  lemma ZeroExpiresInNeverExpires(s: Session, now: int, t: int)
    requires s.token.Some?
    ensures ExpiresAfter(s.expires, Some("0"), now) == 0
    ensures Session(s.token, ExpiresAfter(s.expires, Some("0"), now), s.userId).IsValid(t)
  {
  }

  /**
   * Any other numeral `d`, signed or not, sets the expiry to `now` plus `d` seconds in
   * milliseconds; unless that sum is 0, the token is valid exactly before it.
   */
  lemma DurationExpiresIn(s: Session, d: string, now: int, t: int)
    requires IsLongNumeral(d) && d != "0" && s.token.Some?
    ensures ExpiresAfter(s.expires, Some(d), now) == now + LongValue(d) * 1000
    ensures now + LongValue(d) * 1000 != 0 ==>
      (Session(s.token, ExpiresAfter(s.expires, Some(d), now), s.userId).IsValid(t) <==> t < now + LongValue(d) * 1000)
  {
  }

  /**
   * A computed expiry that happens to be exactly 0 (a negative duration that cancels
   * `now`, or any zero duration at time 0) is read as the never-expires sentinel.
   */
  lemma ComputedZeroExpiryNeverExpires(s: Session, d: string, now: int, t: int)
    requires IsLongNumeral(d) && d != "0" && s.token.Some?
    requires now + LongValue(d) * 1000 == 0
    ensures ExpiresAfter(s.expires, Some(d), now) == 0
    ensures Session(s.token, ExpiresAfter(s.expires, Some(d), now), s.userId).IsValid(t)
  {
  }

  /** For example, "-5" at time 5000 never expires. */
  lemma NegativeDurationCanNeverExpire(s: Session, t: int)
    requires s.token.Some?
    ensures IsLongNumeral("-5") && ExpiresAfter(s.expires, Some("-5"), 5000) == 0
    ensures Session(s.token, ExpiresAfter(s.expires, Some("-5"), 5000), s.userId).IsValid(t)
  {
    assert "-5"[1..] == "5";
    assert DigitsValue("5") == DigitsValue("") * 10 + 5;
  }

  /**
   * Only the literal "0" is the sentinel: "00", "000", ... parse to zero seconds,
   * so the expiry becomes `now` itself and the session is already invalid.
   */
  lemma ZeroPaddedExpiresInExpiresAtOnce(s: Session, d: string, now: int, t: int)
    requires IsDecimal(d) && |d| >= 2
    requires forall i :: 0 <= i < |d| ==> d[i] == '0'
    requires now != 0 && now <= t
    ensures IsLongNumeral(d) && ExpiresAfter(s.expires, Some(d), now) == now
    ensures !Session(s.token, ExpiresAfter(s.expires, Some(d), now), s.userId).IsValid(t)
  {
    assert d[0] == '0';
    DigitsValueZeroIff(d);
  }

  /** `logout`: no token, expiry 0, user id kept; no time has a valid session. */
  function LoggedOut(s: Session): (r: Session)
    ensures r.token.None? && r.expires == 0 && r.userId == s.userId
    ensures forall t :: !r.IsValid(t)
  {
    Session(None, 0, s.userId)
  }

  /**
   * The parameters after the access token is attached: `access_token` is set to
   * the token exactly when the session is valid, and no other key changes.
   */
  function WithSessionToken(params: map<string, string>, s: Session, now: int): (r: map<string, string>)
    ensures r.Keys == if s.IsValid(now) then params.Keys + {TOKEN} else params.Keys
    ensures forall k :: k in params && k != TOKEN ==> r[k] == params[k]
    ensures s.IsValid(now) ==> r[TOKEN] == s.token.value
    ensures !s.IsValid(now) && TOKEN in params ==> r[TOKEN] == params[TOKEN]
  {
    if s.IsValid(now) then params[TOKEN := s.token.value] else params
  }

  /** The redirect URI the dialog watches for: "mobli" + client id + "://authorize". */
  function RedirectUri(clientId: string): (uri: string)
    ensures |uri| == |REDIRECT_URI_START| + |clientId| + |REDIRECT_URI_END|
    ensures REDIRECT_URI_START <= uri && uri[|uri| - |REDIRECT_URI_END|..] == REDIRECT_URI_END
  {
    REDIRECT_URI_START + clientId + REDIRECT_URI_END
  }

  /** Different client ids give different redirect URIs. */
  lemma RedirectUriInjective(a: string, b: string)
    requires RedirectUri(a) == RedirectUri(b)
    ensures a == b
  {
    var ra, rb := RedirectUri(a), RedirectUri(b);
    assert |a| == |b|;
    assert ra[5..5 + |a|] == a;
    assert rb[5..5 + |b|] == b;
  }

  /**
   * The parameters `dialog` writes before the token: `redirect_uri`, `client_id` and
   * `response_type` are set (overwriting the caller's values), every other key kept.
   */
  function AuthorizeParams(params: map<string, string>, clientId: string): (r: map<string, string>)
    ensures r.Keys == params.Keys + {"redirect_uri", "client_id", "response_type"}
    ensures r["redirect_uri"] == RedirectUri(clientId)
    ensures r["client_id"] == clientId
    ensures r["response_type"] == "token"
    ensures forall k :: k in params && k != "redirect_uri" && k != "client_id" && k != "response_type" ==> r[k] == params[k]
  {
    params["redirect_uri" := RedirectUri(clientId)]["client_id" := clientId]["response_type" := "token"]
  }

  /**
   * The parameters `startDialogAuth` begins with: `scope` is present exactly when
   * the permission list is non-empty, it is the list joined by single spaces, and
   * the list can be read back from it when no permission contains a space.
   */
  function ScopeParams(permissions: seq<string>): (r: map<string, string>)
    ensures "scope" in r <==> |permissions| > 0
    ensures r.Keys <= {"scope"}
    ensures "scope" in r ==> r["scope"] == Join(" ", permissions)
    ensures "scope" in r && NoneContains(permissions, ' ') ==> Split(r["scope"], ' ') == permissions
  {
    if |permissions| == 0 then map[]
    else
      if NoneContains(permissions, ' ') then SplitJoin(permissions, ' '); map["scope" := Join(" ", permissions)]
      else map["scope" := Join(" ", permissions)]
  }

  /**
   * The end of a completed login dialog: the values' token, expiry and user id are
   * stored, and the stored listener is told `onComplete(values)` exactly when that
   * session is valid, and otherwise the fixed vendor error.
   */
  function CompleteLogin(s: Session, values: map<string, string>, now: int): (r: (Session, DialogEvent))
    requires EXPIRES in values ==> IsLongNumeral(values[EXPIRES])
    ensures r.0 == Session(GetString(values, TOKEN), ExpiresAfter(s.expires, GetString(values, EXPIRES), now), GetString(values, USER_ID))
    ensures r.1 == OnComplete(values) <==> r.0.IsValid(now)
    ensures r.1 != OnComplete(values) ==> r.1 == OnMobliError(MobliError(LOGIN_FAILED))
  {
    var stored := Session(GetString(values, TOKEN), ExpiresAfter(s.expires, GetString(values, EXPIRES), now), GetString(values, USER_ID));
    (stored, if stored.IsValid(now) then OnComplete(values) else OnMobliError(MobliError(LOGIN_FAILED)))
  }

  /** A dialog result without a token is reported as the vendor error and leaves no valid session. */
  lemma LoginWithoutTokenFails(s: Session, values: map<string, string>, now: int)
    requires EXPIRES in values ==> IsLongNumeral(values[EXPIRES])
    requires TOKEN !in values
    ensures CompleteLogin(s, values, now).1 == OnMobliError(MobliError(LOGIN_FAILED))
    ensures !CompleteLogin(s, values, now).0.IsValid(now)
  {
  }

  /** A token with `expires_in` "0" always logs in, and the session never expires. */
  lemma LoginWithNeverExpiringToken(s: Session, values: map<string, string>, now: int, t: int)
    requires TOKEN in values && EXPIRES in values && values[EXPIRES] == "0"
    ensures CompleteLogin(s, values, now).1 == OnComplete(values)
    ensures CompleteLogin(s, values, now).0.IsValid(t)
  {
  }

  /**
   * Without `expires_in` the previous expiry is kept, so a token that was received
   * is still reported as "Failed to receive access token." when an earlier session
   * had already expired.
   */
  lemma StaleExpiryRejectsReceivedToken(s: Session, values: map<string, string>, now: int)
    requires TOKEN in values && EXPIRES !in values
    requires s.expires != 0 && s.expires <= now
    ensures CompleteLogin(s, values, now).0.token == Some(values[TOKEN])
    ensures CompleteLogin(s, values, now).1 == OnMobliError(MobliError(LOGIN_FAILED))
  {
  }

  /** One Mobli client object. */
  class Mobli {
    var accessToken: Option<string>
    var accessExpires: int
    const clientId: string
    const clientSecret: string
    var userId: Option<string>
    /** The listener kept by the last `authorize`. */
    var authDialogListener: Option<ListenerId>
    /** Every `DialogListener` call made by the login flow, in order. */
    ghost var dialogLog: seq<DialogDelivery>
    /**
     * Login dialogs shown and not yet finished. Each shown dialog ends in exactly
     * one call of the login flow's listener, so the handlers below need one.
     */
    ghost var pendingAuthDialogs: nat

    /** The session fields as one value. */
    function CurrentSession(): Session
      reads this
    {
      Session(accessToken, accessExpires, userId)
    }

    /** `isSessionValid()` at time `now`: never without a token, always with the 0 sentinel, never once the expiry is reached. */
    predicate IsSessionValid(now: int)
      reads this
      ensures IsSessionValid(now) ==> accessToken.Some?
      ensures accessToken.Some? && accessExpires == 0 ==> IsSessionValid(now)
      ensures accessExpires != 0 && accessExpires <= now ==> !IsSessionValid(now)
    {
      CurrentSession().IsValid(now)
    }

    /** Storing the credentials of a client object that passed the null checks. */
    constructor (clientId: string, clientSecret: string)
      ensures this.clientId == clientId && this.clientSecret == clientSecret
      ensures CurrentSession() == Session(None, 0, None)
      ensures authDialogListener == None && dialogLog == [] && pendingAuthDialogs == 0
    {
      this.clientId := clientId;
      this.clientSecret := clientSecret;
      accessToken := None;
      accessExpires := 0;
      userId := None;
      authDialogListener := None;
      dialogLog := [];
      pendingAuthDialogs := 0;
    }

    /**
     * The public constructor: a missing client id, then a missing client secret, is
     * an `IllegalArgumentException`; otherwise both are stored unchanged and there is
     * no session yet.
     */
    static method Create(clientId: Option<string>, clientSecret: Option<string>) returns (r: Result<Mobli, IllegalArgumentException>)
      ensures clientId.None? ==> r == Failure(IllegalArgumentException(CLIENT_ID_MISSING))
      ensures clientId.Some? && clientSecret.None? ==> r == Failure(IllegalArgumentException(CLIENT_SECRET_MISSING))
      ensures clientId.Some? && clientSecret.Some? ==>
        && r.Success? && fresh(r.value)
        && r.value.clientId == clientId.value && r.value.clientSecret == clientSecret.value
        && r.value.CurrentSession() == Session(None, 0, None)
        && r.value.authDialogListener == None && r.value.dialogLog == [] && r.value.pendingAuthDialogs == 0
    {
      if clientId.None? {
        return Failure(IllegalArgumentException(CLIENT_ID_MISSING));
      }
      if clientSecret.None? {
        return Failure(IllegalArgumentException(CLIENT_SECRET_MISSING));
      }
      var m := new Mobli(clientId.value, clientSecret.value);
      r := Success(m);
    }

    method GetAccessToken() returns (token: Option<string>)
      ensures token == accessToken
    {
      token := accessToken;
    }

    method GetAccessExpires() returns (time: int)
      ensures time == accessExpires
    {
      time := accessExpires;
    }

    method GetUserId() returns (id: Option<string>)
      ensures id == userId
    {
      id := userId;
    }

    method GetClientId() returns (id: string)
      ensures id == clientId
    {
      id := clientId;
    }

    method GetClientSecret() returns (secret: string)
      ensures secret == clientSecret
    {
      secret := clientSecret;
    }

    method SetAccessToken(token: Option<string>)
      modifies this`accessToken
      ensures accessToken == token
    {
      accessToken := token;
    }

    method SetAccessExpires(time: int)
      modifies this`accessExpires
      ensures accessExpires == time
    {
      accessExpires := time;
    }

    method SetUserId(id: Option<string>)
      modifies this`userId
      ensures userId == id
    {
      userId := id;
    }

    /** `setAccessExpiresIn`: ignores `null`, "0" means never, else `now` plus the seconds in milliseconds. */
    method SetAccessExpiresIn(expiresIn: Option<string>, now: int)
      requires expiresIn.Some? ==> IsLongNumeral(expiresIn.value)
      modifies this`accessExpires
      ensures accessExpires == ExpiresAfter(old(accessExpires), expiresIn, now)
    {
      if expiresIn.Some? {
        var expires := if expiresIn.value == "0" then 0 else now + LongValue(expiresIn.value) * 1000;
        SetAccessExpires(expires);
      }
    }

    /** `logout`: the token is dropped and the expiry reset; the user id stays. */
    method Logout()
      modifies this`accessToken, this`accessExpires
      ensures CurrentSession() == LoggedOut(old(CurrentSession()))
      ensures forall t :: !IsSessionValid(t)
    {
      SetAccessToken(None);
      SetAccessExpires(0);
    }

    /**
     * The synchronous request: the token is put into the caller's own parameter
     * bundle when the session is valid, and the transport is called once with
     * `baseUrl + relativePath` as it stands, the verb and the updated parameters.
     */
    method Request(baseUrl: string, relativePath: string, params: Bundle, httpMethod: string, now: int,
                   transport: HttpCall -> TransportOutcome)
      returns (outcome: TransportOutcome)
      modifies params
      ensures params.entries == WithSessionToken(old(params.entries), CurrentSession(), now)
      ensures outcome == transport(HttpCall(baseUrl + relativePath, httpMethod, params.entries))
    {
      if IsSessionValid(now) {
        var token := GetAccessToken();
        params.PutString(TOKEN, token.value);
      }
      var url := baseUrl + relativePath;
      outcome := transport(HttpCall(url, httpMethod, params.entries));
    }

    /** `request(relativePath, params, httpMethod)`: the API base URL. */
    method RequestApi(relativePath: string, params: Bundle, httpMethod: string, now: int,
                      transport: HttpCall -> TransportOutcome)
      returns (outcome: TransportOutcome)
      modifies params
      ensures params.entries == WithSessionToken(old(params.entries), CurrentSession(), now)
      ensures outcome == transport(HttpCall(API_BASE_URL + relativePath, httpMethod, params.entries))
    {
      outcome := Request(API_BASE_URL, relativePath, params, httpMethod, now, transport);
    }

    /** `request(relativePath, params)`: a GET to the API base URL. */
    method RequestGet(relativePath: string, params: Bundle, now: int, transport: HttpCall -> TransportOutcome)
      returns (outcome: TransportOutcome)
      modifies params
      ensures params.entries == WithSessionToken(old(params.entries), CurrentSession(), now)
      ensures outcome == transport(HttpCall(API_BASE_URL + relativePath, "GET", params.entries))
    {
      outcome := RequestApi(relativePath, params, "GET", now, transport);
    }

    /** `request(relativePath)`: a GET to the API base URL with only the token, if any. */
    method RequestPath(relativePath: string, now: int, transport: HttpCall -> TransportOutcome)
      returns (outcome: TransportOutcome)
      ensures outcome == transport(HttpCall(API_BASE_URL + relativePath, "GET", WithSessionToken(map[], CurrentSession(), now)))
    {
      var params := new Bundle();
      outcome := RequestGet(relativePath, params, now, transport);
    }

    /**
     * `dialog`: the redirect URI, client id and response type are written into the
     * caller's bundle, then the token when the session is valid; the dialog is
     * shown (with the parameters as they then are) only when the Internet
     * permission is granted. Without it an alert is shown instead, so no login
     * dialog becomes pending and the login flow's handlers cannot be called.
     * The bundle is updated either way.
     */
    method Dialog(params: Bundle, listener: DialogListener, internetGranted: bool, now: int)
      returns (shown: Option<DialogRequest>)
      modifies params, this`pendingAuthDialogs
      ensures pendingAuthDialogs == old(pendingAuthDialogs) + if shown.Some? && listener.AuthFlow? then 1 else 0
      ensures params.entries == WithSessionToken(AuthorizeParams(old(params.entries), clientId), CurrentSession(), now)
      ensures shown == if internetGranted then Some(DialogRequest(DIALOG_AUTHORIZE_URL, params.entries, RedirectUri(clientId), listener)) else None
    {
      var redirectUri := REDIRECT_URI_START + clientId + REDIRECT_URI_END;
      params.PutString("redirect_uri", redirectUri);
      params.PutString("client_id", clientId);
      params.PutString("response_type", "token");
      if IsSessionValid(now) {
        var token := GetAccessToken();
        params.PutString(TOKEN, token.value);
      }
      if internetGranted {
        shown := Some(DialogRequest(DIALOG_AUTHORIZE_URL, params.entries, redirectUri, listener));
        if listener.AuthFlow? {
          pendingAuthDialogs := pendingAuthDialogs + 1;
        }
      } else {
        shown := None;
      }
    }

    /** `startDialogAuth`: a fresh bundle with the scope, handed to `dialog` with the login flow's listener. */
    method StartDialogAuth(permissions: seq<string>, internetGranted: bool, now: int)
      returns (shown: Option<DialogRequest>)
      modifies this`pendingAuthDialogs
      ensures pendingAuthDialogs == old(pendingAuthDialogs) + if internetGranted then 1 else 0
      ensures shown == if internetGranted
        then Some(DialogRequest(DIALOG_AUTHORIZE_URL, WithSessionToken(AuthorizeParams(ScopeParams(permissions), clientId), CurrentSession(), now), RedirectUri(clientId), AuthFlow))
        else None
    {
      var params := new Bundle();
      if |permissions| > 0 {
        params.PutString("scope", Join(" ", permissions));
      }
      shown := Dialog(params, AuthFlow, internetGranted, now);
    }

    /** `authorize(permissions, listener)`: keeps the listener, then starts the login dialog. */
    method Authorize(permissions: seq<string>, listener: ListenerId, internetGranted: bool, now: int)
      returns (shown: Option<DialogRequest>)
      modifies this`authDialogListener, this`pendingAuthDialogs
      ensures authDialogListener == Some(listener)
      ensures pendingAuthDialogs == old(pendingAuthDialogs) + if internetGranted then 1 else 0
      ensures shown == if internetGranted
        then Some(DialogRequest(DIALOG_AUTHORIZE_URL, WithSessionToken(AuthorizeParams(ScopeParams(permissions), clientId), CurrentSession(), now), RedirectUri(clientId), AuthFlow))
        else None
    {
      authDialogListener := Some(listener);
      shown := StartDialogAuth(permissions, internetGranted, now);
    }

    /** `authorize(listener)`: the basic permissions only. */
    method AuthorizeBasic(listener: ListenerId, internetGranted: bool, now: int)
      returns (shown: Option<DialogRequest>)
      modifies this`authDialogListener, this`pendingAuthDialogs
      ensures authDialogListener == Some(listener)
      ensures pendingAuthDialogs == old(pendingAuthDialogs) + if internetGranted then 1 else 0
      ensures shown == if internetGranted
        then Some(DialogRequest(DIALOG_AUTHORIZE_URL, WithSessionToken(AuthorizeParams(map["scope" := "basic"], clientId), CurrentSession(), now), RedirectUri(clientId), AuthFlow))
        else None
    {
      shown := Authorize(BASIC_PERMISSIONS, listener, internetGranted, now);
    }

    /**
     * The login flow's `onComplete(values)`: stores token, expiry and user id from
     * the values, then tells the listener kept by the latest `authorize` either
     * `onComplete(values)` or the vendor error, as `CompleteLogin` decides.
     */
    method OnAuthDialogComplete(values: map<string, string>, now: int)
      requires authDialogListener.Some? && pendingAuthDialogs > 0
      requires EXPIRES in values ==> IsLongNumeral(values[EXPIRES])
      modifies this`accessToken, this`accessExpires, this`userId, this`dialogLog, this`pendingAuthDialogs
      ensures pendingAuthDialogs == old(pendingAuthDialogs) - 1
      ensures CurrentSession() == CompleteLogin(old(CurrentSession()), values, now).0
      ensures dialogLog == old(dialogLog) + [DialogDelivery(authDialogListener.value, CompleteLogin(old(CurrentSession()), values, now).1)]
    {
      SetAccessToken(GetString(values, TOKEN));
      SetAccessExpiresIn(GetString(values, EXPIRES), now);
      SetUserId(GetString(values, USER_ID));
      pendingAuthDialogs := pendingAuthDialogs - 1;
      if IsSessionValid(now) {
        dialogLog := dialogLog + [DialogDelivery(authDialogListener.value, OnComplete(values))];
      } else {
        dialogLog := dialogLog + [DialogDelivery(authDialogListener.value, OnMobliError(MobliError(LOGIN_FAILED)))];
      }
    }

    /** The login flow's `onError`: passed on unchanged; the session is untouched. */
    method OnAuthDialogError(error: DialogError)
      requires authDialogListener.Some? && pendingAuthDialogs > 0
      modifies this`dialogLog, this`pendingAuthDialogs
      ensures pendingAuthDialogs == old(pendingAuthDialogs) - 1
      ensures dialogLog == old(dialogLog) + [DialogDelivery(authDialogListener.value, OnError(error))]
      ensures CurrentSession() == old(CurrentSession())
    {
      pendingAuthDialogs := pendingAuthDialogs - 1;
      dialogLog := dialogLog + [DialogDelivery(authDialogListener.value, OnError(error))];
    }

    /** The login flow's `onMobliError`: passed on unchanged; the session is untouched. */
    method OnAuthDialogMobliError(error: MobliError)
      requires authDialogListener.Some? && pendingAuthDialogs > 0
      modifies this`dialogLog, this`pendingAuthDialogs
      ensures pendingAuthDialogs == old(pendingAuthDialogs) - 1
      ensures dialogLog == old(dialogLog) + [DialogDelivery(authDialogListener.value, OnMobliError(error))]
      ensures CurrentSession() == old(CurrentSession())
    {
      pendingAuthDialogs := pendingAuthDialogs - 1;
      dialogLog := dialogLog + [DialogDelivery(authDialogListener.value, OnMobliError(error))];
    }

    /** The login flow's `onCancel`: passed on; the session is untouched. */
    method OnAuthDialogCancel()
      requires authDialogListener.Some? && pendingAuthDialogs > 0
      modifies this`dialogLog, this`pendingAuthDialogs
      ensures pendingAuthDialogs == old(pendingAuthDialogs) - 1
      ensures dialogLog == old(dialogLog) + [DialogDelivery(authDialogListener.value, OnCancel)]
      ensures CurrentSession() == old(CurrentSession())
    {
      pendingAuthDialogs := pendingAuthDialogs - 1;
      dialogLog := dialogLog + [DialogDelivery(authDialogListener.value, OnCancel)];
    }
  }
}
