/**
 * HttpAccessService: the decision to bypass the proxy, the acquisition of an
 * HTTP client (two cached pooled clients and their shared connection
 * manager, or a new client per call), the proxy, credential, charset and
 * timeout settings applied to a new client, and the release of a connection.
 * The commons-httpclient objects carry only the fields the service sets.
 */
module HttpAccess {
  import opened Wrappers
  import opened JavaText
  import opened GlobSpec
  import Matcher

  /** The properties `init` loads; every string may be missing (`null`). */
  datatype Config = Config(
    proxyHost: JString,
    proxyPort: JString,
    proxyUserName: JString,
    proxyPassword: JString,
    hostName: JString,
    domainName: JString,
    realm: JString,
    noProxyFor: JString,
    contentCharset: JString,
    elementCharset: JString,
    socketTimeout: JString,
    connectionTimeout: JString,
    connectionPoolEnabled: bool,
    poolMaxTotalConnections: JString,
    poolMaxConnectionsPerHost: JString)

  /** No property set; pooling off, its default. */
  function Unconfigured(): Config {
    Config(None, None, None, None, None, None, None, None, None, None, None, None, false, None, None)
  }

  /** What `method.getURI()` yields: `MalformedUri` is a `URIException`; a parsed URI may have no host. */
  datatype RequestUri = MalformedUri | Uri(host: JString)

  /** The text the matcher receives for a host: a `null` host concatenated with the
      sentinel reads as the four letters "null". */
  function HostText(host: JString): string {
    match host
    case Some(h) => h
    case None => "null"
  }

  /** `bNoProxy`: a proxy is configured, a no-proxy list is configured, the URI could be
      read, and its host matches one of the comma-separated patterns, taken untrimmed. */
  predicate Bypass(cfg: Config, uri: RequestUri) {
    IsNotBlank(cfg.proxyHost) && IsNotBlank(cfg.noProxyFor) && uri.Uri?
    && Matcher.MatchesAny(Split(cfg.noProxyFor.value), HostText(uri.host))
  }

  /** The bypass decision as `getHttpClient` takes it, with the array matcher; a
      `URIException` is logged and leaves the proxy in use. */
  method ResolveBypass(cfg: Config, uri: RequestUri) returns (noProxy: bool)
    ensures noProxy <==> IsNotBlank(cfg.proxyHost) && IsNotBlank(cfg.noProxyFor) && uri.Uri?
                         && exists k :: 0 <= k < |Split(cfg.noProxyFor.value)|
                                       && Glob(Split(cfg.noProxyFor.value)[k], HostText(uri.host))
    ensures noProxy == Bypass(cfg, uri)
  {
    noProxy := false;
    if IsNotBlank(cfg.proxyHost) {
      if IsNotBlank(cfg.noProxyFor) {
        match uri
        case MalformedUri =>
        case Uri(host) =>
          var matched, _ := Matcher.MatchesList(Some(Split(cfg.noProxyFor.value)), HostText(host));
          noProxy := matched;
      }
    }
  }

  /** Trailing commas drop only empty patterns, which match only the empty host: for any
      other host the decision is the same over all the comma-separated fields. */
  lemma BypassOverAllFields(cfg: Config, uri: RequestUri)
    requires uri.Uri? && HostText(uri.host) != []
    requires IsNotBlank(cfg.proxyHost) && IsNotBlank(cfg.noProxyFor)
    ensures Bypass(cfg, uri) <==> exists k :: 0 <= k < |Fields(cfg.noProxyFor.value)|
                                             && Glob(Fields(cfg.noProxyFor.value)[k], HostText(uri.host))
  {
    var s := cfg.noProxyFor.value;
    var h := HostText(uri.host);
    var ps := Split(s);
    var fs := Fields(s);
    if Bypass(cfg, uri) {
      var k :| 0 <= k < |ps| && Glob(ps[k], h);
      assert k < |fs| && fs[k] == ps[k];
      assert Glob(fs[k], h);
      assert exists j :: 0 <= j < |Fields(cfg.noProxyFor.value)| && Glob(Fields(cfg.noProxyFor.value)[j], HostText(uri.host));
    } else {
      forall k | 0 <= k < |fs|
        ensures !Glob(fs[k], h)
      {
        if k < |ps| {
          assert fs[k] == ps[k];
        } else {
          assert fs[k] == [];
          EmptyPatternMatchesOnlyEmpty(h);
        }
      }
    }
  }

  /** The proxy used in the examples below. */
  function ExampleConfig(noProxyFor: string): Config {
    Unconfigured().(proxyHost := Some("proxy"), noProxyFor := Some(noProxyFor))
  }

  /** Patterns are not trimmed: "a, *" holds the patterns "a" and " *", so the second one
      does not match "b", which keeps the proxy, while "a" bypasses it. */
  lemma BypassUntrimmed()
    ensures Split("a, *") == ["a", " *"]
    ensures !Bypass(ExampleConfig("a, *"), Uri(Some("b")))
    ensures Bypass(ExampleConfig("a, *"), Uri(Some("a")))
  {
    JoinFields(["a", " *"]);
    assert Join(["a", " *"]) == "a, *";
    assert !IsWhitespace("proxy"[0]) && !IsWhitespace("a, *"[0]);
    assert Glob(["a", " *"][0], "a");
  }

  /** An unreadable URI keeps the proxy; a missing host is matched as the text "null";
      without a proxy host nothing is bypassed, whatever the list says. */
  lemma BypassEdgeCases()
    ensures !Bypass(ExampleConfig("*"), MalformedUri)
    ensures Bypass(ExampleConfig("null"), Uri(None))
    ensures !Bypass(Unconfigured().(noProxyFor := Some("*")), Uri(Some("localhost")))
  {
    assert !IsWhitespace("proxy"[0]) && !IsWhitespace("null"[0]);
    assert Split("null") == ["null"];
    LiteralPatternIsEquality("null", "null");
    assert Glob(Split("null")[0], HostText(None));
  }

  /** A URI without a host is decided exactly as one whose host is the text "null". */
  lemma MissingHostReadsNull(cfg: Config)
    ensures Bypass(cfg, Uri(None)) == Bypass(cfg, Uri(Some("null")))
    ensures IsNotBlank(cfg.proxyHost) && IsNotBlank(cfg.noProxyFor) ==>
              (Bypass(cfg, Uri(None)) <==> exists k :: 0 <= k < |Split(cfg.noProxyFor.value)|
                                                      && Glob(Split(cfg.noProxyFor.value)[k], "null"))
  {
  }

  datatype Proxy = Proxy(host: string, port: int)

  datatype AuthScope = AuthScope(host: JString, port: int, realm: JString)

  datatype Credentials =
    | NTCredentials(userName: JString, password: JString, host: string, domain: string)
    | UsernamePasswordCredentials(userName: JString, password: JString)

  /**
   * The credentials the configuration describes: NTLM when a host name and a domain
   * are set, otherwise user name and password when both are set, otherwise none. They
   * are built whether or not the request bypasses the proxy, and the `NTCredentials`
   * constructor, like the `UsernamePasswordCredentials` one it extends, throws
   * `IllegalArgumentException` for a `null` user name.
   */
  function ProxyCredentials(cfg: Config): Result<Option<Credentials>, Error> {
    if IsNotBlank(cfg.hostName) && IsNotBlank(cfg.domainName) then
      if cfg.proxyUserName.None? then Failure(IllegalArgument)
      else Success(Some(NTCredentials(cfg.proxyUserName, cfg.proxyPassword, cfg.hostName.value, cfg.domainName.value)))
    else if IsNotBlank(cfg.proxyUserName) && IsNotBlank(cfg.proxyPassword) then
      Success(Some(UsernamePasswordCredentials(cfg.proxyUserName, cfg.proxyPassword)))
    else Success(None)
  }

  /** Credentials were built. */
  predicate HasCredentials(cfg: Config) {
    ProxyCredentials(cfg).Success? && ProxyCredentials(cfg).value.Some?
  }

  /** Which kind of credentials each configuration yields, and when building them throws. */
  lemma CredentialKinds(cfg: Config)
    ensures ProxyCredentials(cfg).Failure? <==>
              IsNotBlank(cfg.hostName) && IsNotBlank(cfg.domainName) && cfg.proxyUserName.None?
    ensures ProxyCredentials(cfg).Failure? ==> ProxyCredentials(cfg).error == IllegalArgument
    ensures HasCredentials(cfg) <==>
              (IsNotBlank(cfg.hostName) && IsNotBlank(cfg.domainName) && cfg.proxyUserName.Some?)
              || (!(IsNotBlank(cfg.hostName) && IsNotBlank(cfg.domainName))
                  && IsNotBlank(cfg.proxyUserName) && IsNotBlank(cfg.proxyPassword))
    ensures HasCredentials(cfg) ==>
              (ProxyCredentials(cfg).value.value.NTCredentials? <==> IsNotBlank(cfg.hostName) && IsNotBlank(cfg.domainName))
              && ProxyCredentials(cfg).value.value.userName == cfg.proxyUserName
              && ProxyCredentials(cfg).value.value.password == cfg.proxyPassword
  {
  }

  const ContentCharsetKey: string := "http.protocol.content-charset"
  const ElementCharsetKey: string := "http.protocol.element-charset"

  /** The proxy is set when host and port are present, the port is numeric, and the
      request does not bypass the proxy. */
  predicate ProxyWanted(cfg: Config, noProxy: bool) {
    IsNotBlank(cfg.proxyHost) && IsNotBlank(cfg.proxyPort) && IsNumeric(cfg.proxyPort) && !noProxy
  }

  /** The parameters after the content and then the element charset are set. */
  function WithCharsets(cfg: Config, parameters: map<string, string>): map<string, string> {
    var p := if IsNotBlank(cfg.contentCharset) then parameters[ContentCharsetKey := cfg.contentCharset.value] else parameters;
    if IsNotBlank(cfg.elementCharset) then p[ElementCharsetKey := cfg.elementCharset.value] else p
  }

  /** What the configuration step reads and writes: the client's host configuration, state
      and parameters, the timeout of its connection manager, and the method's flag. */
  datatype ClientState = ClientState(
    proxy: Option<Proxy>,
    proxyCredentials: map<AuthScope, Credentials>,
    authenticationPreemptive: bool,
    parameters: map<string, string>,
    soTimeout: Option<int>,
    connectionTimeout: Option<int>,
    doAuthentication: bool)

  /** A new client on a manager whose timeout is `connectionTimeout`, for a method whose
      flag is `doAuthentication`. */
  function NewClientState(connectionTimeout: Option<int>, doAuthentication: bool): ClientState {
    ClientState(None, map[], false, map[], None, connectionTimeout, doAuthentication)
  }

  /** The state reached and the `NumberFormatException` raised on the way, if any. */
  datatype Configured = Configured(state: ClientState, failure: Option<Error>)

  /** The proxy, when it is wanted; a numeric port beyond 32 bits throws. */
  function ProxyStep(cfg: Config, noProxy: bool, s: ClientState): (r: Configured)
    ensures r.state == s.(proxy := r.state.proxy)
    ensures !ProxyWanted(cfg, noProxy) ==> r == Configured(s, None)
    ensures r.failure.Some? ==> r.state == s && r.failure.value == NumberFormat(cfg.proxyPort)
  {
    if !ProxyWanted(cfg, noProxy) then Configured(s, None)
    else
      match ParseInt(cfg.proxyPort)
      case Success(port) => Configured(s.(proxy := Some(Proxy(cfg.proxyHost.value, port))), None)
      case Failure(e) => Configured(s, Some(e))
  }

  /** Credentials for the proxy, when there are some and the proxy is not bypassed: the
      port is parsed again, whether or not a proxy was set. Building the credentials may
      throw even for a bypassed request. */
  function CredentialsStep(cfg: Config, noProxy: bool, s: ClientState): (r: Configured)
    ensures r.state == s.(proxyCredentials := r.state.proxyCredentials,
                          authenticationPreemptive := r.state.authenticationPreemptive,
                          doAuthentication := r.state.doAuthentication)
    ensures ProxyCredentials(cfg).Success? && (!HasCredentials(cfg) || noProxy) ==> r == Configured(s, None)
    ensures ProxyCredentials(cfg).Failure? ==> r == Configured(s, Some(IllegalArgument))
    ensures r.failure.Some? ==>
              r.state == s && r.failure.value == (if ProxyCredentials(cfg).Failure? then IllegalArgument
                                                  else NumberFormat(cfg.proxyPort))
  {
    match ProxyCredentials(cfg)
    case Failure(e) => Configured(s, Some(e))
    case Success(cred) =>
      if cred.None? || noProxy then Configured(s, None)
      else
        match ParseInt(cfg.proxyPort)
        case Success(port) =>
          Configured(s.(proxyCredentials := s.proxyCredentials[AuthScope(cfg.proxyHost, port, cfg.realm) := cred.value],
                        authenticationPreemptive := true, doAuthentication := true), None)
        case Failure(e) => Configured(s, Some(e))
  }

  /** The two charsets go into the client's parameters. */
  function CharsetStep(cfg: Config, s: ClientState): (r: ClientState)
    ensures r == s.(parameters := r.parameters)
    ensures s.parameters.Keys <= r.parameters.Keys
  {
    s.(parameters := WithCharsets(cfg, s.parameters))
  }

  function SocketTimeoutStep(cfg: Config, s: ClientState): (r: Configured)
    ensures r.state == s.(soTimeout := r.state.soTimeout)
    ensures IsBlank(cfg.socketTimeout) ==> r == Configured(s, None)
    ensures r.failure.Some? ==> r.state == s && r.failure.value == NumberFormat(cfg.socketTimeout)
  {
    if IsBlank(cfg.socketTimeout) then Configured(s, None)
    else
      match ParseInt(cfg.socketTimeout)
      case Success(t) => Configured(s.(soTimeout := Some(t)), None)
      case Failure(e) => Configured(s, Some(e))
  }

  /** The connection timeout goes to the client's connection manager. */
  function ConnectionTimeoutStep(cfg: Config, s: ClientState): (r: Configured)
    ensures r.state == s.(connectionTimeout := r.state.connectionTimeout)
    ensures IsBlank(cfg.connectionTimeout) ==> r == Configured(s, None)
    ensures r.failure.Some? ==> r.state == s && r.failure.value == NumberFormat(cfg.connectionTimeout)
  {
    if IsBlank(cfg.connectionTimeout) then Configured(s, None)
    else
      match ParseInt(cfg.connectionTimeout)
      case Success(t) => Configured(s.(connectionTimeout := Some(t)), None)
      case Failure(e) => Configured(s, Some(e))
  }

  /**
   * The settings `getHttpClient` applies to a client it has just created, in the
   * source's order: proxy, proxy credentials, charsets, socket timeout, connection
   * timeout. A failing `parseInt` stops the sequence and leaves what came before
   * in place.
   */
  function Configure(cfg: Config, noProxy: bool, s: ClientState): Configured {
    var c1 := ProxyStep(cfg, noProxy, s);
    if c1.failure.Some? then c1
    else
      var c2 := CredentialsStep(cfg, noProxy, c1.state);
      if c2.failure.Some? then c2
      else
        var c3 := SocketTimeoutStep(cfg, CharsetStep(cfg, c2.state));
        if c3.failure.Some? then c3
        else ConnectionTimeoutStep(cfg, c3.state)
  }

  /** On a new client the proxy is set exactly when it is wanted and the numeric port fits
      in 32 bits; a numeric port that does not fit makes the call fail. */
  lemma ProxySetting(cfg: Config, noProxy: bool, s: ClientState)
    requires s.proxy == None
    ensures var r := Configure(cfg, noProxy, s);
            r.state.proxy.Some? <==> ProxyWanted(cfg, noProxy) && DigitsValue(cfg.proxyPort.value) <= MaxInt
    ensures var r := Configure(cfg, noProxy, s);
            r.state.proxy.Some? ==> r.state.proxy.value == Proxy(cfg.proxyHost.value, DigitsValue(cfg.proxyPort.value))
    ensures ProxyWanted(cfg, noProxy) && DigitsValue(cfg.proxyPort.value) > MaxInt ==>
              Configure(cfg, noProxy, s) == Configured(s, Some(NumberFormat(cfg.proxyPort)))
  {
    if IsNumeric(cfg.proxyPort) {
      ParseIntOfNumeric(cfg.proxyPort);
    }
    var c1 := ProxyStep(cfg, noProxy, s);
    if c1.failure.None? {
      var c2 := CredentialsStep(cfg, noProxy, c1.state);
      assert c2.state.proxy == c1.state.proxy;
      if c2.failure.None? {
        var c3 := SocketTimeoutStep(cfg, CharsetStep(cfg, c2.state));
        assert c3.state.proxy == c1.state.proxy;
      }
    }
  }

  /** On a new client, for a method in any state, the credentials and the preemptive flag
      are set, and the method's authentication switched on, exactly when credentials were
      built, the proxy is not bypassed and the proxy port parses. */
  lemma CredentialsSetting(cfg: Config, noProxy: bool, s: ClientState)
    requires s.proxyCredentials == map[] && !s.authenticationPreemptive
    ensures var r := Configure(cfg, noProxy, s);
            var applied := HasCredentials(cfg) && !noProxy && ParseInt(cfg.proxyPort).Success?;
            (r.state.authenticationPreemptive <==> applied)
            && r.state.doAuthentication == (s.doAuthentication || applied)
    ensures var r := Configure(cfg, noProxy, s);
            var applied := HasCredentials(cfg) && !noProxy && ParseInt(cfg.proxyPort).Success?;
            (applied ==>
               r.state.proxyCredentials ==
               map[AuthScope(cfg.proxyHost, ParseInt(cfg.proxyPort).value, cfg.realm) := ProxyCredentials(cfg).value.value])
            && (!applied ==> r.state.proxyCredentials == map[])
  {
    var c1 := ProxyStep(cfg, noProxy, s);
    if c1.failure.None? {
      var c2 := CredentialsStep(cfg, noProxy, c1.state);
      if c2.failure.None? {
        var c3 := SocketTimeoutStep(cfg, CharsetStep(cfg, c2.state));
        assert c3.state.proxyCredentials == c2.state.proxyCredentials;
        assert c3.state.doAuthentication == c2.state.doAuthentication;
        assert c3.state.authenticationPreemptive == c2.state.authenticationPreemptive;
      }
    }
  }

  /** A bypassed request gets neither proxy nor credentials, and its method is left as it was. */
  lemma BypassLeavesProxyAlone(cfg: Config, s: ClientState)
    ensures var r := Configure(cfg, true, s);
            r.state.proxy == s.proxy && r.state.proxyCredentials == s.proxyCredentials
            && r.state.authenticationPreemptive == s.authenticationPreemptive
            && r.state.doAuthentication == s.doAuthentication
  {
  }

  /** Credentials without a usable proxy port make the call fail at the second parse of the
      port, even when no proxy host is set and nothing asked for a proxy. */
  lemma CredentialsNeedProxyPort(cfg: Config, s: ClientState)
    requires HasCredentials(cfg) && IsBlank(cfg.proxyPort)
    ensures Configure(cfg, false, s) == Configured(s, Some(NumberFormat(cfg.proxyPort)))
  {
    assert !IsNumeric(cfg.proxyPort) by {
      if cfg.proxyPort.Some? && cfg.proxyPort.value != [] {
        assert IsWhitespace(cfg.proxyPort.value[0]);
      }
    }
    assert !(IsNotBlank(cfg.proxyPort) && IsNumeric(cfg.proxyPort));
    assert ParseInt(cfg.proxyPort).Failure? by {
      if cfg.proxyPort.Some? && cfg.proxyPort.value != [] {
        var x := cfg.proxyPort.value;
        assert IsWhitespace(x[0]) && x[0] != '-' && x[0] != '+' && !IsDigit(x[0]);
      }
    }
  }

  /** A failure is either a `NumberFormatException` on one of the three numeric settings,
      one that `parseInt` indeed rejects, or the `IllegalArgumentException` of NTLM
      credentials without a user name. */
  lemma ConfigureFailure(cfg: Config, noProxy: bool, s: ClientState)
    ensures var r := Configure(cfg, noProxy, s);
            r.failure.Some? ==>
              (r.failure.value.NumberFormat?
               && r.failure.value.input in {cfg.proxyPort, cfg.socketTimeout, cfg.connectionTimeout}
               && ParseInt(r.failure.value.input).Failure?)
              || (r.failure.value == IllegalArgument && ProxyCredentials(cfg).Failure?)
  {
  }

  /** NTLM credentials without a user name make every configuration fail, a bypassed
      request included, unless the proxy port has already failed to parse. */
  lemma NtlmWithoutUserNameFails(cfg: Config, noProxy: bool, s: ClientState)
    requires IsNotBlank(cfg.hostName) && IsNotBlank(cfg.domainName) && cfg.proxyUserName.None?
    ensures Configure(cfg, true, s) == Configured(s, Some(IllegalArgument))
    ensures var c1 := ProxyStep(cfg, noProxy, s);
            Configure(cfg, noProxy, s) ==
              (if c1.failure.Some? then c1 else Configured(c1.state, Some(IllegalArgument)))
  {
  }

  /** Without failure both charsets and both timeouts are in place. */
  lemma ConfigureSuccess(cfg: Config, noProxy: bool, s: ClientState)
    ensures var r := Configure(cfg, noProxy, s);
            r.failure.None? ==>
              r.state.parameters == WithCharsets(cfg, s.parameters)
              && r.state.soTimeout == (if IsNotBlank(cfg.socketTimeout) then Some(ParseInt(cfg.socketTimeout).value) else s.soTimeout)
              && r.state.connectionTimeout ==
                   (if IsNotBlank(cfg.connectionTimeout) then Some(ParseInt(cfg.connectionTimeout).value) else s.connectionTimeout)
  {
    var c1 := ProxyStep(cfg, noProxy, s);
    if c1.failure.None? {
      assert c1.state.parameters == s.parameters && c1.state.soTimeout == s.soTimeout;
      assert c1.state.connectionTimeout == s.connectionTimeout;
      var c2 := CredentialsStep(cfg, noProxy, c1.state);
      if c2.failure.None? {
        assert c2.state.parameters == s.parameters && c2.state.soTimeout == s.soTimeout;
        assert c2.state.connectionTimeout == s.connectionTimeout;
      }
    }
  }

  /** The settings happen in order and an exception stops them: a failing call never
      sets the manager's timeout, the socket timeout is only set once the charsets are,
      and the charsets only once the credentials that apply are in place. */
  lemma ConfigureOrder(cfg: Config, noProxy: bool, s: ClientState)
    ensures var r := Configure(cfg, noProxy, s);
            r.failure.Some? ==> r.state.connectionTimeout == s.connectionTimeout
    ensures var r := Configure(cfg, noProxy, s);
            r.state.soTimeout != s.soTimeout ==> r.state.parameters == WithCharsets(cfg, s.parameters)
    ensures var r := Configure(cfg, noProxy, s);
            r.state.parameters != s.parameters ==>
              ProxyCredentials(cfg).Success?
              && (r.state.authenticationPreemptive <==> s.authenticationPreemptive || (HasCredentials(cfg) && !noProxy))
  {
    var c1 := ProxyStep(cfg, noProxy, s);
    if c1.failure.None? {
      var c2 := CredentialsStep(cfg, noProxy, c1.state);
      if c2.failure.None? {
        var c3 := SocketTimeoutStep(cfg, CharsetStep(cfg, c2.state));
        assert c3.state.parameters == WithCharsets(cfg, c2.state.parameters);
      }
    }
  }

  /** The charsets land under their two keys, and nothing else changes. */
  lemma CharsetKeys(cfg: Config, parameters: map<string, string>)
    ensures var p := WithCharsets(cfg, parameters);
            (forall key :: key in p <==>
               key in parameters || (key == ContentCharsetKey && IsNotBlank(cfg.contentCharset))
               || (key == ElementCharsetKey && IsNotBlank(cfg.elementCharset)))
            && (IsNotBlank(cfg.contentCharset) ==> p[ContentCharsetKey] == cfg.contentCharset.value)
            && (IsNotBlank(cfg.elementCharset) ==> p[ElementCharsetKey] == cfg.elementCharset.value)
            && (forall key :: key in parameters && key != ContentCharsetKey && key != ElementCharsetKey ==> p[key] == parameters[key])
  {
  }

  /** The connection manager: the pool's `MultiThreadedHttpConnectionManager` or the
      manager a client creates for itself. */
  class ConnectionManager {
    const multiThreaded: bool
    var connectionTimeout: Option<int>
    /** The idle times passed to `closeIdleConnections`, oldest first. */
    var idleClosures: seq<int>

    constructor (multiThreaded: bool)
      ensures this.multiThreaded == multiThreaded && connectionTimeout == None && idleClosures == []
    {
      this.multiThreaded := multiThreaded;
      connectionTimeout := None;
      idleClosures := [];
    }
  }

  class HttpClient {
    const connectionManager: ConnectionManager
    var proxy: Option<Proxy>
    var proxyCredentials: map<AuthScope, Credentials>
    var authenticationPreemptive: bool
    var parameters: map<string, string>
    var soTimeout: Option<int>

    constructor (connectionManager: ConnectionManager)
      ensures this.connectionManager == connectionManager
      ensures proxy == None && proxyCredentials == map[] && !authenticationPreemptive
      ensures parameters == map[] && soTimeout == None
    {
      this.connectionManager := connectionManager;
      proxy := None;
      proxyCredentials := map[];
      authenticationPreemptive := false;
      parameters := map[];
      soTimeout := None;
    }
  }

  class HttpMethod {
    const uri: RequestUri
    var doAuthentication: bool
    var released: bool

    /** A new method authenticates by default, as `HttpMethodBase` does. */
    constructor (uri: RequestUri)
      ensures this.uri == uri && doAuthentication && !released
    {
      this.uri := uri;
      doAuthentication := true;
      released := false;
    }
  }

  /** What configuring reads off a client, its manager and the method. */
  function StateOf(client: HttpClient, m: HttpMethod): ClientState
    reads client, client.connectionManager, m
  {
    ClientState(client.proxy, client.proxyCredentials, client.authenticationPreemptive,
                client.parameters, client.soTimeout, client.connectionManager.connectionTimeout,
                m.doAuthentication)
  }

  /** The side effects of `releaseConnection`, in the order they happen. */
  datatype Effect = MethodReleased(request: HttpMethod) | IdleConnectionsClosed(manager: ConnectionManager, idleTime: int)

  class HttpAccessService {
    const config: Config
    /** The pooled client used through the proxy. */
    var proxiedClient: HttpClient?
    /** The pooled client used when the proxy is bypassed. */
    var directClient: HttpClient?
    /** The connection manager both pooled clients share. */
    var connectionManager: ConnectionManager?
    ghost var effects: seq<Effect>

    /** Pooled clients exist only with pooling on, share the one multi-threaded manager,
        and are two different clients. */
    ghost predicate Valid()
      reads this
    {
      (connectionManager == null ==> proxiedClient == null && directClient == null)
      && (connectionManager != null ==> connectionManager.multiThreaded && config.connectionPoolEnabled)
      && (proxiedClient != null ==> proxiedClient.connectionManager == connectionManager)
      && (directClient != null ==> directClient.connectionManager == connectionManager)
      && (proxiedClient != null && directClient != null ==> proxiedClient != directClient)
    }

    /** The cached client a request takes, by its bypass decision. */
    function Slot(noProxy: bool): HttpClient?
      reads this
    {
      if noProxy then directClient else proxiedClient
    }

    constructor (config: Config)
      ensures this.config == config && Valid()
      ensures proxiedClient == null && directClient == null && connectionManager == null && effects == []
    {
      this.config := config;
      proxiedClient := null;
      directClient := null;
      connectionManager := null;
      effects := [];
    }

    /** The proxy block of `getHttpClient`. */
    method SetProxy(client: HttpClient, m: HttpMethod, noProxy: bool) returns (failure: Option<Error>)
      modifies client
      ensures var c := ProxyStep(config, noProxy, old(StateOf(client, m)));
              StateOf(client, m) == c.state && failure == c.failure
    {
      if IsNotBlank(config.proxyHost) && IsNotBlank(config.proxyPort) && IsNumeric(config.proxyPort) {
        if !noProxy {
          var port := ParseInt(config.proxyPort);
          if port.Failure? {
            return Some(port.error);
          }
          client.proxy := Some(Proxy(config.proxyHost.value, port.value));
        }
      }
      return None;
    }

    /** The credentials block of `getHttpClient`. */
    method SetCredentials(client: HttpClient, m: HttpMethod, noProxy: bool) returns (failure: Option<Error>)
      modifies client, m
      ensures var c := CredentialsStep(config, noProxy, old(StateOf(client, m)));
              StateOf(client, m) == c.state && failure == c.failure
      ensures m.released == old(m.released)
    {
      var cred := ProxyCredentials(config);
      if cred.Failure? {
        return Some(cred.error);
      }
      if cred.value.Some? && !noProxy {
        var port := ParseInt(config.proxyPort);
        if port.Failure? {
          return Some(port.error);
        }
        client.proxyCredentials := client.proxyCredentials[AuthScope(config.proxyHost, port.value, config.realm) := cred.value.value];
        client.authenticationPreemptive := true;
        m.doAuthentication := true;
      }
      return None;
    }

    /** The charset and timeout blocks of `getHttpClient`. */
    method SetParameters(client: HttpClient, m: HttpMethod) returns (failure: Option<Error>)
      modifies client, client.connectionManager
      ensures var c1 := SocketTimeoutStep(config, CharsetStep(config, old(StateOf(client, m))));
              var c := if c1.failure.Some? then c1 else ConnectionTimeoutStep(config, c1.state);
              StateOf(client, m) == c.state && failure == c.failure
      ensures client.connectionManager.idleClosures == old(client.connectionManager.idleClosures)
    {
      if IsNotBlank(config.contentCharset) {
        client.parameters := client.parameters[ContentCharsetKey := config.contentCharset.value];
      }
      if IsNotBlank(config.elementCharset) {
        client.parameters := client.parameters[ElementCharsetKey := config.elementCharset.value];
      }
      if IsNotBlank(config.socketTimeout) {
        var timeout := ParseInt(config.socketTimeout);
        if timeout.Failure? {
          return Some(timeout.error);
        }
        client.soTimeout := Some(timeout.value);
      }
      if IsNotBlank(config.connectionTimeout) {
        var timeout := ParseInt(config.connectionTimeout);
        if timeout.Failure? {
          return Some(timeout.error);
        }
        client.connectionManager.connectionTimeout := Some(timeout.value);
      }
      return None;
    }

    /** The proxy, credential, charset and timeout blocks of `getHttpClient`, in order, on a client it has just created. */
    method ApplyConfiguration(client: HttpClient, m: HttpMethod, noProxy: bool) returns (failure: Option<Error>)
      modifies client, client.connectionManager, m
      ensures var c := Configure(config, noProxy, old(StateOf(client, m)));
              StateOf(client, m) == c.state && failure == c.failure
      ensures client.connectionManager.idleClosures == old(client.connectionManager.idleClosures)
      ensures m.released == old(m.released)
    {
      failure := SetProxy(client, m, noProxy);
      if failure.Some? {
        return;
      }
      failure := SetCredentials(client, m, noProxy);
      if failure.Some? {
        return;
      }
      failure := SetParameters(client, m);
    }

    /**
     * `getHttpClient`. With pooling on, a cached client for the request's bypass
     * decision is returned as it is; otherwise the shared manager is created if
     * missing, the pool sizing runs (as written it can only fail), and a new client
     * on that manager is cached before it is configured. With pooling off, every
     * call configures a new client with a manager of its own.
     */
    method GetHttpClient(m: HttpMethod) returns (r: Result<HttpClient, Error>)
      requires Valid()
      modifies this, m, connectionManager
      ensures Valid() && effects == old(effects)
      ensures m.released == old(m.released)
      ensures old(connectionManager) != null ==> old(connectionManager).idleClosures == old(connectionManager.idleClosures)
      ensures old(connectionManager) != null ==> connectionManager == old(connectionManager)
      // pooling off: nothing cached changes and a new client with its own manager is configured
      ensures !config.connectionPoolEnabled ==>
                unchanged(this)
                && var c := Configure(config, Bypass(config, m.uri), NewClientState(None, old(m.doAuthentication)));
                   m.doAuthentication == c.state.doAuthentication
                   && (r.Success? <==> c.failure.None?)
                   && (r.Failure? ==> r.error == c.failure.value)
                   && (r.Success? ==> fresh(r.value) && fresh(r.value.connectionManager)
                                      && !r.value.connectionManager.multiThreaded && StateOf(r.value, m) == c.state)
      // pooled hit: the cached client is returned and nothing changes
      ensures config.connectionPoolEnabled && old(Slot(Bypass(config, m.uri))) != null ==>
                r == Success(old(Slot(Bypass(config, m.uri))))
                && unchanged(this) && unchanged(m) && unchanged(r.value) && unchanged(r.value.connectionManager)
      // pooled miss: the manager exists (new only if it was missing), then the sizing fails on an empty value
      ensures config.connectionPoolEnabled && old(Slot(Bypass(config, m.uri))) == null ==>
                connectionManager != null && (old(connectionManager) == null ==> fresh(connectionManager))
      ensures config.connectionPoolEnabled && old(Slot(Bypass(config, m.uri))) == null
              && (IsEmpty(config.poolMaxConnectionsPerHost) || IsEmpty(config.poolMaxTotalConnections)) ==>
                r == Failure(NumberFormat(if IsEmpty(config.poolMaxConnectionsPerHost)
                                          then config.poolMaxConnectionsPerHost
                                          else config.poolMaxTotalConnections))
                && proxiedClient == old(proxiedClient) && directClient == old(directClient)
                && unchanged(m) && (old(connectionManager) != null ==> unchanged(connectionManager))
      // pooled miss otherwise: a new client on the shared manager fills exactly the chosen slot
      ensures config.connectionPoolEnabled && old(Slot(Bypass(config, m.uri))) == null
              && !IsEmpty(config.poolMaxConnectionsPerHost) && !IsEmpty(config.poolMaxTotalConnections) ==>
                var noProxy := Bypass(config, m.uri);
                var client := Slot(noProxy);
                var c := Configure(config, noProxy,
                                   NewClientState(if old(connectionManager) == null then None
                                                  else old(connectionManager.connectionTimeout),
                                                  old(m.doAuthentication)));
                client != null && fresh(client) && client.connectionManager == connectionManager
                && Slot(!noProxy) == old(Slot(!noProxy))
                && StateOf(client, m) == c.state
                && r == (if c.failure.None? then Success(client) else Failure(c.failure.value))
    {
      var noProxy := ResolveBypass(config, m.uri);
      var client: HttpClient;
      if config.connectionPoolEnabled {
        var cached := if noProxy then directClient else proxiedClient;
        if cached != null {
          return Success(cached);
        }
        if connectionManager == null {
          connectionManager := new ConnectionManager(true);
        }
        if IsEmpty(config.poolMaxConnectionsPerHost) {
          // parseInt of a null or empty string always throws
          var size := ParseInt(config.poolMaxConnectionsPerHost);
          return Failure(size.error);
        }
        if IsEmpty(config.poolMaxTotalConnections) {
          var size := ParseInt(config.poolMaxTotalConnections);
          return Failure(size.error);
        }
        client := new HttpClient(connectionManager);
        if noProxy {
          directClient := client;
        } else {
          proxiedClient := client;
        }
      } else {
        var own := new ConnectionManager(false);
        client := new HttpClient(own);
      }
      var failure := ApplyConfiguration(client, m, noProxy);
      r := if failure.None? then Success(client) else Failure(failure.value);
    }

    /** `releaseConnection`: the method is released first; then, for a client without
        pooling, its manager closes every idle connection (idle time 0). */
    method ReleaseConnection(client: HttpClient?, m: HttpMethod)
      modifies this, m, if client == null then {} else {client.connectionManager}
      ensures m.released && m.doAuthentication == old(m.doAuthentication)
      ensures proxiedClient == old(proxiedClient) && directClient == old(directClient)
      ensures connectionManager == old(connectionManager)
      ensures var closes := client != null && !config.connectionPoolEnabled;
              effects == old(effects) + [MethodReleased(m)]
                         + (if closes then [IdleConnectionsClosed(client.connectionManager, 0)] else [])
              && (client != null ==>
                    client.connectionManager.idleClosures ==
                    old(client.connectionManager.idleClosures) + (if closes then [0] else [])
                    && client.connectionManager.connectionTimeout == old(client.connectionManager.connectionTimeout))
    {
      m.released := true;
      effects := effects + [MethodReleased(m)];
      if client != null && !config.connectionPoolEnabled {
        client.connectionManager.idleClosures := client.connectionManager.idleClosures + [0];
        effects := effects + [IdleConnectionsClosed(client.connectionManager, 0)];
      }
    }
  }
}
