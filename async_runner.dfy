/**
 * The asynchronous request runner (com.mobli.android.AsyncMobliRunner): how the end
 * of one request is routed to exactly one listener callback, and the public-token
 * exchange that stores a client-credentials token in the shared client object.
 *
 * Each request body runs to completion here as one sequential step.
 */
module AsyncRunner {
  import opened Wrappers
  import opened Bundles
  import opened Transport
  import MobliApi

  /** The identity of an object the caller passes as `state`. */
  type ObjectId = nat

  /** The caller's opaque `state`; `None` is Java's `null`. */
  type CallerState = Option<ObjectId>

  /** A call of one `RequestListener` method. */
  datatype RequestEvent =
    | OnComplete(response: string, state: CallerState)
    | OnIOException(error: IOError, state: CallerState)
    | OnFileNotFoundException(error: IOError, state: CallerState)
    | OnMalformedURLException(error: IOError, state: CallerState)
    | OnMobliError(mobliError: MobliApi.MobliError, state: CallerState)

  /** A listener call together with the application listener that received it. */
  datatype RequestDelivery = RequestDelivery(listener: MobliApi.ListenerId, event: RequestEvent)

  /**
   * The listener a request reports to: an application listener, or the wrapper
   * `obtainPublicToken` puts in front of one. `tokenOf` is what reading the body as a
   * JSON object and taking its `access_token` string gives, `None` when either throws.
   */
  datatype RequestListener =
    | Caller(id: MobliApi.ListenerId)
    | PublicTokenWrapper(original: MobliApi.ListenerId, tokenOf: string -> Option<string>)

  /** The application listener that finally receives the call. */
  function Target(listener: RequestListener): MobliApi.ListenerId
  {
    match listener
    case Caller(id) => id
    case PublicTokenWrapper(original, _) => original
  }

  /** The `catch` clauses of the request thread, in the order they are written. */
  const CATCH_ORDER: seq<ExceptionClass> := [FileNotFoundException, MalformedURLException, IOException]

  /** Java's choice of handler: the first clause whose class the thrown exception is an instance of. */
  function FirstCatch(clauses: seq<ExceptionClass>, thrown: ExceptionClass): (i: Option<nat>)
    ensures i.Some? ==> i.value < |clauses| && InstanceOf(thrown, clauses[i.value])
    ensures i.Some? ==> forall j :: 0 <= j < i.value ==> !InstanceOf(thrown, clauses[j])
    ensures i.None? ==> forall j :: 0 <= j < |clauses| ==> !InstanceOf(thrown, clauses[j])
  {
    if |clauses| == 0 then None
    else if InstanceOf(thrown, clauses[0]) then Some(0)
    else
      match FirstCatch(clauses[1..], thrown)
      case None => None
      case Some(k) => Some(k + 1)
  }

  /**
   * The body of the `catch` clause for class `caught`: each clause calls its own
   * callback with the exception and the caller's state.
   */
  function Handler(caught: ExceptionClass, e: IOError, state: CallerState): (ev: RequestEvent)
    ensures ev.state == state && !ev.OnComplete? && !ev.OnMobliError? && ev.error == e
    ensures ev.OnFileNotFoundException? <==> caught == FileNotFoundException
    ensures ev.OnMalformedURLException? <==> caught == MalformedURLException
    ensures ev.OnIOException? <==> caught == IOException
  {
    match caught
    case FileNotFoundException => OnFileNotFoundException(e, state)
    case MalformedURLException => OnMalformedURLException(e, state)
    case IOException => OnIOException(e, state)
  }

  /**
   * The callback one transport outcome leads to. The caller's state is passed on
   * unchanged, `onMobliError` is never chosen, a body goes to `onComplete`, and each
   * exception class to its own callback: a `FileNotFoundException` is an
   * `IOException` too, but its earlier clause catches it.
   */
  function Route(outcome: TransportOutcome, state: CallerState): (ev: RequestEvent)
    ensures ev.state == state
    ensures !ev.OnMobliError?
    ensures outcome.Returned? ==> ev == OnComplete(outcome.response, state)
    ensures outcome.Threw? && outcome.error.cls == FileNotFoundException ==> ev == OnFileNotFoundException(outcome.error, state)
    ensures outcome.Threw? && outcome.error.cls == MalformedURLException ==> ev == OnMalformedURLException(outcome.error, state)
    ensures outcome.Threw? && outcome.error.cls == IOException ==> ev == OnIOException(outcome.error, state)
  {
    match outcome
    case Returned(response) => OnComplete(response, state)
    case Threw(e) =>
      var clause := FirstCatch(CATCH_ORDER, e.cls);
      assert InstanceOf(e.cls, CATCH_ORDER[2]);
      Handler(CATCH_ORDER[clause.value], e, state)
  }

  /** With the general clause written first, a `FileNotFoundException` would reach `onIOException`. */
  lemma CatchOrderMatters(e: IOError, state: CallerState)
    requires e.cls == FileNotFoundException
    ensures FirstCatch([IOException, FileNotFoundException, MalformedURLException], e.cls) == Some(0)
    ensures FirstCatch(CATCH_ORDER, e.cls) == Some(0)
    ensures Handler(IOException, e, state) != Route(Threw(e), state)
  {
  }

  /**
   * The token left in the client after the wrapper sees `ev`: it changes only to a
   * token read from a success body, it always does then, and it is never cleared.
   */
  function PublicTokenAfter(token: Option<string>, ev: RequestEvent, tokenOf: string -> Option<string>): (r: Option<string>)
    ensures r == token || (ev.OnComplete? && r == tokenOf(ev.response) && r.Some?)
    ensures ev.OnComplete? && tokenOf(ev.response).Some? ==> r == tokenOf(ev.response)
    ensures token.Some? ==> r.Some?
  {
    if ev.OnComplete? && tokenOf(ev.response).Some? then tokenOf(ev.response) else token
  }

  /** The client-credentials parameters of `obtainPublicToken`; they carry no access token of their own. */
  function PublicTokenParams(clientId: string, clientSecret: string): (p: map<string, string>)
    ensures p.Keys == {"client_id", "client_secret", "grant_type", "scope"} && "access_token" !in p
    ensures p["client_id"] == clientId && p["client_secret"] == clientSecret
  {
    map["client_id" := clientId, "client_secret" := clientSecret, "grant_type" := "client_credentials", "scope" := "shared"]
  }

  /**
   * The call the public-token exchange makes against a session `s` at time `now`:
   * the client-credentials parameters, plus the session's token exactly when it is valid.
   */
  function PublicTokenCall(clientId: string, clientSecret: string, s: MobliApi.Session, now: int): (call: HttpCall)
    ensures call.params.Keys - {"access_token"} == PublicTokenParams(clientId, clientSecret).Keys
    ensures "access_token" in call.params <==> s.IsValid(now)
    ensures s.IsValid(now) ==> call.params["access_token"] == s.token.value
  {
    HttpCall(MobliApi.AUTHORIZE_BASE_URL + "/shared", "POST", MobliApi.WithSessionToken(PublicTokenParams(clientId, clientSecret), s, now))
  }

  /**
   * The public-token call sends the four client-credentials parameters, plus an
   * `access_token` only when a session is already valid, as a POST to the
   * authorization server's "/shared".
   */
  lemma PublicTokenCallShape(clientId: string, clientSecret: string, s: MobliApi.Session, now: int)
    ensures var call := PublicTokenCall(clientId, clientSecret, s, now);
      && call.url == "https://oauth.mobli.com/shared" && call.httpMethod == "POST"
      && call.params.Keys == {"client_id", "client_secret", "grant_type", "scope"} + (if s.IsValid(now) then {"access_token"} else {})
      && call.params["client_id"] == clientId && call.params["client_secret"] == clientSecret
      && call.params["grant_type"] == "client_credentials" && call.params["scope"] == "shared"
  {
  }

  /**
   * A public token received after a login session has expired keeps that expiry,
   * so it is invalid at once and no later request carries it.
   */
  lemma PublicTokenAfterExpiredSession(s: MobliApi.Session, ev: RequestEvent, tokenOf: string -> Option<string>, now: int)
    requires s.expires != 0 && s.expires <= now
    ensures var after := MobliApi.Session(PublicTokenAfter(s.token, ev, tokenOf), s.expires, s.userId);
      !after.IsValid(now) && forall p :: MobliApi.WithSessionToken(p, after, now) == p
  {
  }

  class AsyncMobliRunner {
    const mobli: MobliApi.Mobli
    /** Every `RequestListener` call made for the application, in order. */
    ghost var requestLog: seq<RequestDelivery>

    constructor (mobli: MobliApi.Mobli)
      ensures this.mobli == mobli && requestLog == []
    {
      this.mobli := mobli;
      requestLog := [];
    }

    /**
     * One listener call. An application listener is simply called. The public-token
     * wrapper forwards every callback, with the same arguments, to its original
     * listener; before forwarding `onComplete` it stores the token read from the body
     * when there is one, and ignores a body it cannot read.
     */
    method Notify(listener: RequestListener, ev: RequestEvent)
      modifies this`requestLog, mobli`accessToken
      ensures requestLog == old(requestLog) + [RequestDelivery(Target(listener), ev)]
      ensures mobli.accessToken == match listener
        case Caller(_) => old(mobli.accessToken)
        case PublicTokenWrapper(_, tokenOf) => PublicTokenAfter(old(mobli.accessToken), ev, tokenOf)
    {
      match listener
      case Caller(id) =>
        requestLog := requestLog + [RequestDelivery(id, ev)];
      case PublicTokenWrapper(original, tokenOf) =>
        if ev.OnComplete? {
          var publicAccessToken := tokenOf(ev.response);
          if publicAccessToken.Some? {
            mobli.SetAccessToken(publicAccessToken);
          }
        }
        requestLog := requestLog + [RequestDelivery(original, ev)];
    }

    /**
     * `request(baseUrl, relativePath, parameters, httpMethod, listener, state)`: one
     * synchronous request, then exactly one listener call, chosen by `Route` from the
     * transport's answer, carrying the caller's state.
     */
    method RequestAt(baseUrl: string, relativePath: string, params: Bundle, httpMethod: string,
                     listener: RequestListener, state: CallerState, now: int,
                     transport: HttpCall -> TransportOutcome)
      modifies params, this`requestLog, mobli`accessToken
      ensures params.entries == MobliApi.WithSessionToken(old(params.entries), old(mobli.CurrentSession()), now)
      ensures var ev := Route(transport(HttpCall(baseUrl + relativePath, httpMethod, params.entries)), state);
        && requestLog == old(requestLog) + [RequestDelivery(Target(listener), ev)]
        && mobli.accessToken == match listener
          case Caller(_) => old(mobli.accessToken)
          case PublicTokenWrapper(_, tokenOf) => PublicTokenAfter(old(mobli.accessToken), ev, tokenOf)
    {
      var outcome := mobli.Request(baseUrl, relativePath, params, httpMethod, now, transport);
      var ev := Route(outcome, state);
      Notify(listener, ev);
    }

    /** `request(relativePath, parameters, httpMethod, listener, state)`: the API base URL. */
    method Request(relativePath: string, params: Bundle, httpMethod: string, listener: MobliApi.ListenerId, state: CallerState,
                   now: int, transport: HttpCall -> TransportOutcome)
      modifies params, this`requestLog, mobli`accessToken
      ensures params.entries == MobliApi.WithSessionToken(old(params.entries), old(mobli.CurrentSession()), now)
      ensures mobli.accessToken == old(mobli.accessToken)
      ensures requestLog == old(requestLog) +
        [RequestDelivery(listener, Route(transport(HttpCall(MobliApi.API_BASE_URL + relativePath, httpMethod, params.entries)), state))]
    {
      RequestAt(MobliApi.API_BASE_URL, relativePath, params, httpMethod, Caller(listener), state, now, transport);
    }

    /** `request(relativePath, parameters, listener, state)`: a GET. */
    method RequestGet(relativePath: string, params: Bundle, listener: MobliApi.ListenerId, state: CallerState,
                      now: int, transport: HttpCall -> TransportOutcome)
      modifies params, this`requestLog, mobli`accessToken
      ensures params.entries == MobliApi.WithSessionToken(old(params.entries), old(mobli.CurrentSession()), now)
      ensures mobli.accessToken == old(mobli.accessToken)
      ensures requestLog == old(requestLog) +
        [RequestDelivery(listener, Route(transport(HttpCall(MobliApi.API_BASE_URL + relativePath, "GET", params.entries)), state))]
    {
      Request(relativePath, params, "GET", listener, state, now, transport);
    }

    /** `request(relativePath, parameters, listener)`: a GET with a `null` state. */
    method RequestGetStateless(relativePath: string, params: Bundle, listener: MobliApi.ListenerId,
                               now: int, transport: HttpCall -> TransportOutcome)
      modifies params, this`requestLog, mobli`accessToken
      ensures params.entries == MobliApi.WithSessionToken(old(params.entries), old(mobli.CurrentSession()), now)
      ensures mobli.accessToken == old(mobli.accessToken)
      ensures requestLog == old(requestLog) +
        [RequestDelivery(listener, Route(transport(HttpCall(MobliApi.API_BASE_URL + relativePath, "GET", params.entries)), None))]
    {
      Request(relativePath, params, "GET", listener, None, now, transport);
    }

    /** `request(relativePath, listener, state)`: a GET with a fresh, empty bundle. */
    method RequestPath(relativePath: string, listener: MobliApi.ListenerId, state: CallerState,
                       now: int, transport: HttpCall -> TransportOutcome)
      modifies this`requestLog, mobli`accessToken
      ensures mobli.accessToken == old(mobli.accessToken)
      ensures requestLog == old(requestLog) +
        [RequestDelivery(listener, Route(transport(HttpCall(MobliApi.API_BASE_URL + relativePath, "GET",
                                                            MobliApi.WithSessionToken(map[], old(mobli.CurrentSession()), now))), state))]
    {
      var params := new Bundle();
      Request(relativePath, params, "GET", listener, state, now, transport);
    }

    /** `request(relativePath, listener)`: a GET with a fresh, empty bundle and a `null` state. */
    method RequestPathStateless(relativePath: string, listener: MobliApi.ListenerId,
                                now: int, transport: HttpCall -> TransportOutcome)
      modifies this`requestLog, mobli`accessToken
      ensures mobli.accessToken == old(mobli.accessToken)
      ensures requestLog == old(requestLog) +
        [RequestDelivery(listener, Route(transport(HttpCall(MobliApi.API_BASE_URL + relativePath, "GET",
                                                            MobliApi.WithSessionToken(map[], old(mobli.CurrentSession()), now))), None))]
    {
      var params := new Bundle();
      Request(relativePath, params, "GET", listener, None, now, transport);
    }

    /**
     * `obtainPublicToken(originalListener, state)`: POSTs the client credentials to
     * the authorization server's "/shared". The original listener is called exactly
     * once, with exactly what the plain routing gives, so a body without a readable
     * token is still `onComplete`. On such a success the token read from the body
     * replaces the stored one; otherwise, and on every failure, the token stays.
     * Expiry and user id are never touched.
     */
    method ObtainPublicToken(originalListener: MobliApi.ListenerId, state: CallerState, tokenOf: string -> Option<string>,
                             now: int, transport: HttpCall -> TransportOutcome)
      modifies this`requestLog, mobli`accessToken
      ensures var outcome := transport(PublicTokenCall(mobli.clientId, mobli.clientSecret, old(mobli.CurrentSession()), now));
        && requestLog == old(requestLog) + [RequestDelivery(originalListener, Route(outcome, state))]
        && (outcome.Returned? && tokenOf(outcome.response).Some? ==> mobli.accessToken == tokenOf(outcome.response))
        && (!(outcome.Returned? && tokenOf(outcome.response).Some?) ==> mobli.accessToken == old(mobli.accessToken))
      ensures mobli.accessExpires == old(mobli.accessExpires) && mobli.userId == old(mobli.userId)
    {
      var clientId := mobli.GetClientId();
      var clientSecret := mobli.GetClientSecret();
      var params := new Bundle();
      params.PutString("client_id", clientId);
      params.PutString("client_secret", clientSecret);
      params.PutString("grant_type", "client_credentials");
      params.PutString("scope", "shared");
      assert params.entries == PublicTokenParams(clientId, clientSecret);
      var listener := PublicTokenWrapper(originalListener, tokenOf);
      RequestAt(MobliApi.AUTHORIZE_BASE_URL, "/shared", params, "POST", listener, state, now, transport);
    }
  }
}
