/**
 * The decision flow of `JDAImpl.login` as a function of its inputs. The network calls and the
 * token file are abstract: the file is a `TokenFile`, and each HTTP call's reply is a field of
 * `Network`. The effect records the requests made, the token kept, the document handed to
 * `writeJson` and the client built.
 */
module Login {
  import opened Wrappers
  import opened TokenStore

  /** An HTTP request the flow sends. */
  datatype Request =
    | GetGateway(authorization: string)       // GET /api/gateway with this authorization header
    | PostLogin(email: string, password: string) // POST /api/auth/login

  /** The reply to a gateway request. */
  datatype GatewayReply =
    | Url(url: string)     // a JSON object whose "url" is this string
    | NoUrl                // a JSON reply without a string "url" (a rejected token, say): JSONException
    | GatewayUnreachable   // the call itself failed: UnirestException

  /** The reply to the login request. */
  datatype LoginReply =
    | Issued(token: string) // a non-empty JSON body whose "token" is this string
    | EmptyBody             // a null or empty body
    | NoToken               // a non-empty body that is not a JSON object with a string "token"
    | LoginUnreachable      // the call itself failed: UnirestException

  /** The replies the three HTTP calls of one login would receive. */
  datatype Network = Network(cached: GatewayReply, login: LoginReply, afterLogin: GatewayReply)

  /** How a call of `login` ends: it returns, or it throws one of these exceptions. */
  datatype Outcome = Returned | ThrewIllegalArgument | ThrewLogin | ThrewJson

  /** The transport client, recorded only by the gateway it was built with (null: None). */
  datatype WebSocketClient = WebSocketClient(gateway: Option<string>)

  /** Everything one call of `login` does. */
  datatype Effect = Effect(
    outcome: Outcome,
    requests: seq<Request>,
    authToken: Option<string>,
    written: Option<Config>,
    client: Option<WebSocketClient>)

  /** An argument `login` accepts: neither null nor empty. */
  predicate Present(s: Option<string>)
  {
    s.Some? && |s.value| > 0
  }

  /** The cached token for `email`: present only when the tokens object maps it to a string. */
  function CachedToken(tokens: map<string, Value>, email: string): (t: Option<string>)
    ensures t.Some? <==> email in tokens && tokens[email].Str?
    ensures t.Some? ==> tokens[email] == Str(t.value)
  {
    if email in tokens && tokens[email].Str? then Some(tokens[email].s) else None
  }

  /** The gateway obtained with the cached token, if there is one and the reply carries a url. */
  function CachedGateway(cached: Option<string>, reply: GatewayReply): (g: Option<string>)
    ensures g.Some? <==> cached.Some? && reply.Url?
    ensures g.Some? ==> g.value == reply.url
  {
    if cached.Some? && reply.Url? then Some(reply.url) else None
  }

  /** The gateway request sent with the cached token, if there is one. */
  function Probe(cached: Option<string>): (r: seq<Request>)
  {
    if cached.Some? then [GetGateway(cached.value)] else []
  }

  /** The arguments are valid, the document has a tokens object, and no cached gateway was obtained. */
  predicate ReachesFreshLogin(email: Option<string>, password: Option<string>, file: TokenFile, net: Network)
  {
    && Present(email) && Present(password)
    && ReadConfig(file).tokens.Some?
    && CachedGateway(CachedToken(ReadConfig(file).tokens.value, email.value), net.cached).None?
  }

  /**
   * One call of `login(email, password)` on a client whose token is `token0` and whose
   * transport client is `client0`.
   */
  function LoginSpec(
    token0: Option<string>, client0: Option<WebSocketClient>,
    email: Option<string>, password: Option<string>, file: TokenFile, net: Network): (e: Effect)
    // invalid arguments: nothing is read, sent, written or changed
    ensures !Present(email) || !Present(password) ==>
      e == Effect(ThrewIllegalArgument, [], token0, None, client0)
    // a document without a tokens object: the lookup throws before any request
    ensures Present(email) && Present(password) && ReadConfig(file).tokens.None? ==>
      e == Effect(ThrewJson, [], token0, None, client0)
    // cached path: one gateway request with the cached token, no login request
    ensures Present(email) && Present(password) && ReadConfig(file).tokens.Some? ==>
      var cfg := ReadConfig(file);
      var cached := CachedToken(cfg.tokens.value, email.value);
      CachedGateway(cached, net.cached).Some? ==>
        && e.outcome == Returned
        && e.requests == [GetGateway(cached.value)]
        && e.authToken == cached
        && e.written == Some(cfg)
        && e.client == Some(WebSocketClient(Some(net.cached.url)))
    // fresh path: the cached attempt (if any), then the login request, then a gateway request
    // with the fresh token
    ensures ReachesFreshLogin(email, password, file, net) ==>
      var cfg := ReadConfig(file);
      var tokens := cfg.tokens.value;
      var em := email.value;
      var cached := CachedToken(tokens, em);
      && e.requests == Probe(cached) + [PostLogin(em, password.value)]
                       + (if net.login.Issued? then [GetGateway(net.login.token)] else [])
      && (net.login.EmptyBody? ==> e.outcome == ThrewLogin)
      && (net.login.NoToken? ==> e.outcome == ThrewJson)
      && (net.login.LoginUnreachable? ==>
            e.outcome == Returned && e.written == Some(cfg) && e.client == Some(WebSocketClient(None)))
      && (!net.login.Issued? ==> e.authToken == if cached.Some? then cached else token0)
      && (net.login.Issued? ==>
            && e.authToken == Some(net.login.token)
            && (e.outcome == Returned <==> !net.afterLogin.NoUrl?)
            && (net.afterLogin.NoUrl? ==> e.outcome == ThrewJson)
            && (net.afterLogin.Url? ==> e.client == Some(WebSocketClient(Some(net.afterLogin.url))))
            && (e.outcome == Returned ==>
                  e.written == Some(cfg.(tokens := Some(tokens[em := Str(net.login.token)])))))
    // the document is written and the client built exactly when login returns
    ensures e.outcome == Returned <==> e.written.Some?
    ensures e.outcome != Returned ==> e.client == client0
    ensures e.outcome == Returned ==>
      && e.client.Some?
      && e.written.value.rest == ReadConfig(file).rest
      && (e.client.value.gateway.None? <==>
            ReachesFreshLogin(email, password, file, net)
            && (net.login.LoginUnreachable? || (net.login.Issued? && net.afterLogin.GatewayUnreachable?)))
    ensures |e.requests| <= 3
    ensures Present(email) && Present(password) && ReadConfig(file).tokens.Some? ==> |e.requests| >= 1
  {
    if !Present(email) || !Present(password) then
      Effect(ThrewIllegalArgument, [], token0, None, client0)
    else
      var em, pw := email.value, password.value;
      var cfg := ReadConfig(file);
      if cfg.tokens.None? then
        Effect(ThrewJson, [], token0, None, client0)
      else
        var tokens := cfg.tokens.value;
        var cached := CachedToken(tokens, em);
        var token1 := if cached.Some? then cached else token0;
        var gateway := CachedGateway(cached, net.cached);
        if gateway.Some? then
          Effect(Returned, Probe(cached), token1, Some(cfg), Some(WebSocketClient(gateway)))
        else
          var asked := Probe(cached) + [PostLogin(em, pw)];
          match net.login
          case LoginUnreachable => Effect(Returned, asked, token1, Some(cfg), Some(WebSocketClient(None)))
          case EmptyBody => Effect(ThrewLogin, asked, token1, None, client0)
          case NoToken => Effect(ThrewJson, asked, token1, None, client0)
          case Issued(t) =>
            var cfg' := cfg.(tokens := Some(tokens[em := Str(t)]));
            var all := asked + [GetGateway(t)];
            match net.afterLogin
            case Url(u) => Effect(Returned, all, Some(t), Some(cfg'), Some(WebSocketClient(Some(u))))
            case GatewayUnreachable => Effect(Returned, all, Some(t), Some(cfg'), Some(WebSocketClient(None)))
            case NoUrl => Effect(ThrewJson, all, Some(t), None, client0)
  }

  /**
   * A fresh login stores its token under `email` and leaves every other account's entry and
   * every other top-level member of the document as it was.
   */
  lemma FreshLoginKeepsOtherAccounts(
    token0: Option<string>, client0: Option<WebSocketClient>,
    email: Option<string>, password: Option<string>, file: TokenFile, net: Network)
    requires ReachesFreshLogin(email, password, file, net)
    requires net.login.Issued?
    requires LoginSpec(token0, client0, email, password, file, net).outcome == Returned
    ensures
      var e := LoginSpec(token0, client0, email, password, file, net);
      var before := ReadConfig(file).tokens.value;
      var after := e.written.value.tokens.value;
      && after.Keys == before.Keys + {email.value}
      && after[email.value] == Str(net.login.token)
      && (forall k :: k in before && k != email.value ==> after[k] == before[k])
      && e.written.value.rest == ReadConfig(file).rest
  {
  }

  /**
   * A login that returned, and whose login call (if it made one) issued a token, leaves the
   * written document holding the token it kept under `email`, even when the gateway call
   * after a fresh login failed. A later login for the same account that reads that document
   * back reuses the token with a single gateway request and sends no login request, whatever
   * password it is given.
   */
  lemma {:induction false} SecondLoginReusesToken(
    token0: Option<string>, client0: Option<WebSocketClient>,
    email: Option<string>, password: Option<string>, password2: Option<string>,
    file: TokenFile, net: Network, net2: Network)
    requires Present(password2)
    requires LoginSpec(token0, client0, email, password, file, net).outcome == Returned
    requires ReachesFreshLogin(email, password, file, net) ==> net.login.Issued?
    requires net2.cached.Url?
    ensures
      var e := LoginSpec(token0, client0, email, password, file, net);
      var e2 := LoginSpec(e.authToken, e.client, email, password2, Parsed(e.written.value), net2);
      && e.authToken.Some?
      && e2.outcome == Returned
      && e2.requests == [GetGateway(e.authToken.value)]
      && e2.authToken == e.authToken
      && e2.written == e.written
      && e2.client == Some(WebSocketClient(Some(net2.cached.url)))
  {
    var e := LoginSpec(token0, client0, email, password, file, net);
    var w := e.written.value;
    assert Present(email) && Present(password);
    assert w.tokens.Some? && CachedToken(w.tokens.value, email.value) == e.authToken;
  }

  /** No token file; the login succeeds with token T1 and gateway wss://gw/1. */
  lemma FirstLoginScenario(token0: Option<string>, client0: Option<WebSocketClient>, unused: GatewayReply)
    ensures
      var e := LoginSpec(token0, client0, Some("a@b.com"), Some("pw"), Missing,
                         Network(unused, Issued("T1"), Url("wss://gw/1")));
      && e.outcome == Returned
      && e.requests == [PostLogin("a@b.com", "pw"), GetGateway("T1")]
      && e.authToken == Some("T1")
      && e.client == Some(WebSocketClient(Some("wss://gw/1")))
      && e.written == Some(Config(Some(map["a@b.com" := Str("T1")]), map["version" := Num(1)]))
  {
  }

  /** The stored token T1 is revoked; a fresh login obtains T2, which replaces T1 in the file. */
  lemma RevokedTokenScenario(token0: Option<string>, client0: Option<WebSocketClient>, rest: map<string, Value>)
    ensures
      var e := LoginSpec(token0, client0, Some("a@b.com"), Some("pw"),
                         Parsed(Config(Some(map["a@b.com" := Str("T1")]), rest)),
                         Network(NoUrl, Issued("T2"), Url("wss://gw/2")));
      && e.outcome == Returned
      && e.requests == [GetGateway("T1"), PostLogin("a@b.com", "pw"), GetGateway("T2")]
      && e.authToken == Some("T2")
      && e.written == Some(Config(Some(map["a@b.com" := Str("T2")]), rest))
  {
    assert map["a@b.com" := Str("T1")]["a@b.com" := Str("T2")] == map["a@b.com" := Str("T2")];
  }
}
