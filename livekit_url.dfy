/**
 * The `livekit://` URL resolver: from the parts of a
 * `livekit://[identity@]host[:port]/[room]?api_key=..&api_secret=..&ttl=..`
 * URL to the server address, the credentials, the room, the identity and the
 * token that a client needs to join, and the join-page link built from them.
 */
module LivekitUrl {
  import opened Wrappers
  import opened Decimal
  import opened QueryString

  const Scheme := "livekit"
  const DefaultPort: nat := 7880
  const SecurePort: nat := 443
  const MaxPort: nat := 65535
  const DefaultApiKey := "devkey"
  const DefaultApiSecret := "secret"
  const DefaultTtl := "6h"
  const IdentityPrefix := "lkcli-"
  const JoinPrefix := "https://meet.livekit.io/custom?liveKitUrl="
  const TokenSeparator := "&token="

  /**
   * A URL as `urllib.parse.urlparse` splits it: the scheme, the user name of
   * the userinfo (RFC 3986 section 3.2.1), the host name, the port number as
   * written, the path and the raw query. `urlparse` never gives an empty
   * host name (it gives none instead); for `Some("")` this record would render
   * an empty host where Python renders `None`.
   */
  datatype Url = Url(
    scheme: string,
    username: Option<string>,
    hostname: Option<string>,
    port: Option<nat>,
    path: string,
    query: string)

  /** The arguments handed to the token issuer. */
  datatype TokenRequest = TokenRequest(
    apiKey: string, apiSecret: string, roomName: string, identity: string, ttl: string)

  /** The record the resolver returns. */
  datatype Descriptor = Descriptor(
    url: string, token: string, apiKey: string, apiSecret: string,
    room: string, identity: string, ttl: string)

  datatype Error =
    | InvalidScheme(scheme: string)   // the resolver's own ValueError
    | PortOutOfRange(port: nat)       // urlparse's ValueError on reading the port
    | TokenFailed(reason: string)     // whatever the token issuer raises

  /** The token issuer: signs a request, or fails with a reason. */
  type Issuer = TokenRequest -> Result<string, string>

  /** Python renders a missing host name as `None` inside an f-string. */
  function HostText(hostname: Option<string>): (text: string)
    ensures hostname.Some? ==> text == hostname.value
    ensures text == "None" <==> hostname == None || hostname == Some("None")
  {
    match hostname
    case Some(h) => h
    case None => "None"
  }

  /** `split.port or 7880`: a missing port and port 0 both fall back to the default. */
  function EffectivePort(port: Option<nat>): (p: nat)
    ensures p > 0
    ensures port.Some? && port.value != 0 ==> p == port.value
    ensures port.None? || port == Some(0) ==> p == DefaultPort
  {
    if port.Some? && port.value != 0 then port.value else DefaultPort
  }

  /** The transport is secure exactly on port 443. */
  function Transport(port: nat): (t: string)
    ensures t == "wss" <==> port == SecurePort
    ensures t == "wss" || t == "ws"
  {
    if port == SecurePort then "wss" else "ws"
  }

  predicate HasPrefix(s: string, prefix: string) {
    |prefix| <= |s| && s[..|prefix|] == prefix
  }

  /** The last position of c in s. */
  function LastIndexOf(s: string, c: char): (i: nat)
    requires c in s
    ensures i < |s| && s[i] == c && c !in s[i + 1..]
  {
    if s[|s| - 1] == c then |s| - 1
    else
      var i := LastIndexOf(s[..|s| - 1], c);
      assert s[i + 1..] == s[..|s| - 1][i + 1..] + [s[|s| - 1]];
      i
  }

  lemma {:induction false} LastIndexOfBefore(a: string, c: char, b: string)
    requires c !in b
    ensures LastIndexOf(a + [c] + b, c) == |a|
    decreases |b|
  {
    var s := a + [c] + b;
    if b != [] {
      assert s[|s| - 1] == b[|b| - 1];
      assert s[..|s| - 1] == a + [c] + b[..|b| - 1];
      LastIndexOfBefore(a, c, b[..|b| - 1]);
    }
  }

  /**
   * Reads a server URL back into its host and port: `wss://host` is port 443,
   * `ws://host:port` splits at the last colon.
   */
  function ParseServerUrl(s: string): Option<(string, nat)>
  {
    if HasPrefix(s, "wss://") then Some((s[6..], SecurePort))
    else if HasPrefix(s, "ws://") && ':' in s[5..] then
      var rest := s[5..];
      var i := LastIndexOf(rest, ':');
      var digits := rest[i + 1..];
      if digits != [] && AllDigits(digits) then Some((rest[..i], ParseDecimal(digits))) else None
    else None
  }

  lemma ParseSecureUrl(host: string)
    ensures ParseServerUrl("wss://" + host) == Some((host, SecurePort))
  {
    var s := "wss://" + host;
    assert s[..6] == "wss://" && s[6..] == host;
  }

  lemma ParsePlainUrl(host: string, digits: string)
    requires digits != [] && AllDigits(digits)
    ensures ParseServerUrl("ws://" + host + ":" + digits) == Some((host, ParseDecimal(digits)))
  {
    var s := "ws://" + host + ":" + digits;
    assert s[2] == ':';
    assert !HasPrefix(s, "wss://");
    assert s[..5] == "ws://";
    var rest := s[5..];
    assert rest == host + [':'] + digits;
    assert ':' !in digits;
    LastIndexOfBefore(host, ':', digits);
    assert rest[..|host|] == host && rest[|host| + 1..] == digits;
  }

  /**
   * `{transport}://{host}:{port}`, with the port left out on port 443. The
   * URL determines the host and the port it was built from, for every host (a
   * host with colons in it included).
   */
  function ServerUrl(host: string, port: nat): (url: string)
    ensures ParseServerUrl(url) == Some((host, port))
    ensures HasPrefix(url, "wss://") <==> port == SecurePort
    ensures port == SecurePort ==> url == "wss://" + host
    ensures port != SecurePort ==> url == "ws://" + host + ":" + DecimalString(port)
  {
    if port != SecurePort then
      var digits := DecimalString(port);
      var url := Transport(port) + "://" + host + ":" + digits;
      assert url == "ws://" + host + ":" + digits;
      assert url[2] == ':' && url[..5] == "ws://";
      ParsePlainUrl(host, digits);
      ParseDecimalString(port);
      url
    else
      var url := Transport(port) + "://" + host;
      assert url == "wss://" + host;
      assert url[..6] == "wss://";
      ParseSecureUrl(host);
      url
  }

  /** `split.username or f'lkcli-{pid}'`: a missing or empty user name falls back to the process id. */
  function Identity(username: Option<string>, pid: nat): (id: string)
    ensures id != ""
    ensures username.Some? && username.value != "" ==> id == username.value
    ensures username.None? || username.value == "" ==>
              && id == IdentityPrefix + DecimalString(pid)
              && ParseDecimal(id[|IdentityPrefix|..]) == pid
  {
    if username.Some? && username.value != "" then username.value
    else
      var id := IdentityPrefix + DecimalString(pid);
      assert id[|IdentityPrefix|..] == DecimalString(pid);
      ParseDecimalString(pid);
      id
  }

  /** `split.path[1:]`: the path without its first character. */
  function Room(path: string): (room: string)
    ensures |path| <= 1 <==> room == ""
    ensures |path| >= 1 ==> path == [path[0]] + room
  {
    if path == "" then "" else path[1..]
  }

  /** The token request the resolver derives from a URL. */
  function Request(u: Url, pid: nat): (req: TokenRequest)
    ensures var pairs := ParseQsl(u.query);
            && req.apiKey == FirstOr(pairs, "api_key", DefaultApiKey)
            && req.apiSecret == FirstOr(pairs, "api_secret", DefaultApiSecret)
            && req.ttl == FirstOr(pairs, "ttl", DefaultTtl)
            && req.roomName == Room(u.path)
            && req.identity == Identity(u.username, pid)
  {
    ParseQsFirstWins(u.query, "api_key", DefaultApiKey);
    ParseQsFirstWins(u.query, "api_secret", DefaultApiSecret);
    ParseQsFirstWins(u.query, "ttl", DefaultTtl);
    var qs := ParseQs(u.query);
    TokenRequest(
      GetFirst(qs, "api_key", DefaultApiKey),
      GetFirst(qs, "api_secret", DefaultApiSecret),
      Room(u.path),
      Identity(u.username, pid),
      GetFirst(qs, "ttl", DefaultTtl))
  }

  /** The request a descriptor's own fields make. */
  function Echo(d: Descriptor): TokenRequest
  {
    TokenRequest(d.apiKey, d.apiSecret, d.room, d.identity, d.ttl)
  }

  /** Reading `split.port` succeeds exactly for ports up to 65535, and the effective port is then a valid one. */
  predicate PortInRange(port: Option<nat>)
    ensures PortInRange(port) ==> 0 < EffectivePort(port) <= MaxPort
    ensures !PortInRange(port) ==> port.Some? && port.value > MaxPort
  {
    port.None? || port.value <= MaxPort
  }

  /** `parse_livekit_url`: resolves a split URL, given the process id and the token issuer. */
  function Resolve(u: Url, pid: nat, issue: Issuer): (r: Result<Descriptor, Error>)
    ensures u.scheme != Scheme ==> r == Err(InvalidScheme(u.scheme))
    ensures u.scheme == Scheme && !PortInRange(u.port) ==> r == Err(PortOutOfRange(u.port.value))
    ensures r.Ok? <==> u.scheme == Scheme && PortInRange(u.port) && issue(Request(u, pid)).Ok?
    ensures u.scheme == Scheme && PortInRange(u.port) && issue(Request(u, pid)).Err? ==>
              r == Err(TokenFailed(issue(Request(u, pid)).error))
    ensures r.Ok? ==> Echo(r.value) == Request(u, pid)
    ensures r.Ok? ==> r.value.token == issue(Echo(r.value)).value
    ensures r.Ok? ==> r.value.url == ServerUrl(HostText(u.hostname), EffectivePort(u.port))
  {
    if u.scheme != Scheme then Err(InvalidScheme(u.scheme))
    else if !PortInRange(u.port) then Err(PortOutOfRange(u.port.value))
    else
      var url := ServerUrl(HostText(u.hostname), EffectivePort(u.port));
      var req := Request(u, pid);
      match issue(req)
      case Err(e) => Err(TokenFailed(e))
      case Ok(token) =>
        Ok(Descriptor(url, token, req.apiKey, req.apiSecret, req.roomName, req.identity, req.ttl))
  }

  /** A URL whose scheme is not `livekit` is rejected before any token is requested: the issuer makes no difference. */
  lemma ResolveRejectsScheme(u: Url, pid: nat, issue1: Issuer, issue2: Issuer)
    requires u.scheme != Scheme
    ensures Resolve(u, pid, issue1) == Resolve(u, pid, issue2) == Err(InvalidScheme(u.scheme))
  {
  }

  /**
   * The resolved server URL names the URL's host and the effective port: the
   * explicit port when present and non-zero, 7880 otherwise; it is secure
   * exactly on port 443, where it has no port suffix.
   */
  lemma ResolveServerAddress(u: Url, pid: nat, issue: Issuer)
    requires Resolve(u, pid, issue).Ok?
    ensures var url := Resolve(u, pid, issue).value.url;
            var port := if u.port.None? || u.port == Some(0) then DefaultPort else u.port.value;
            && ParseServerUrl(url) == Some((HostText(u.hostname), port))
            && (HasPrefix(url, "wss://") <==> port == SecurePort)
            && (port == SecurePort ==> url == "wss://" + HostText(u.hostname))
  {
  }

  /**
   * `api_key`, `api_secret` and `ttl` are the first value the query gives for
   * each name (blank values never count), and their defaults otherwise.
   */
  lemma ResolveQueryValues(u: Url, pid: nat, issue: Issuer)
    requires Resolve(u, pid, issue).Ok?
    ensures var d := Resolve(u, pid, issue).value;
            var pairs := ParseQsl(u.query);
            && d.apiKey == FirstOr(pairs, "api_key", DefaultApiKey)
            && d.apiSecret == FirstOr(pairs, "api_secret", DefaultApiSecret)
            && d.ttl == FirstOr(pairs, "ttl", DefaultTtl)
            && (d.apiKey == DefaultApiKey || d.apiKey in ValuesOf(pairs, "api_key"))
  {
    FirstOrValues(ParseQsl(u.query), "api_key", DefaultApiKey);
  }

  /**
   * The identity is the URL's user name when it is non-empty, and otherwise
   * `lkcli-` followed by the decimal digits of the process id.
   */
  lemma ResolveIdentity(u: Url, pid: nat, issue: Issuer)
    requires Resolve(u, pid, issue).Ok?
    ensures var id := Resolve(u, pid, issue).value.identity;
            && (u.username.Some? && u.username.value != "" ==> id == u.username.value)
            && (u.username.None? || u.username.value == "" ==>
                  var digits := id[|IdentityPrefix|..];
                  && id == IdentityPrefix + DecimalString(pid)
                  && HasPrefix(id, IdentityPrefix) && AllDigits(digits) && digits != []
                  && ParseDecimal(digits) == pid)
  {
    var id := Resolve(u, pid, issue).value.identity;
    if u.username.None? || u.username.value == "" {
      assert id[..|IdentityPrefix|] == IdentityPrefix;
      assert id[|IdentityPrefix|..] == DecimalString(pid);
    }
  }

  /** The room is the path without its leading character; further `/` are kept. */
  lemma ResolveRoom(u: Url, pid: nat, issue: Issuer)
    requires Resolve(u, pid, issue).Ok?
    ensures var room := Resolve(u, pid, issue).value.room;
            && (room == "" <==> u.path == "" || |u.path| == 1)
            && (HasPrefix(u.path, "/") ==> u.path == "/" + room)
  {
    var room := Resolve(u, pid, issue).value.room;
    if HasPrefix(u.path, "/") {
      assert u.path[0] == '/';
      assert u.path == [u.path[0]] + room;
    }
  }

  /** Reads a join-page link back into the server URL and the token. */
  function ParseJoinUrl(s: string): Option<(string, string)>
  {
    if HasPrefix(s, JoinPrefix) && '&' in s[|JoinPrefix|..] then
      var rest := s[|JoinPrefix|..];
      var i := IndexOf(rest, '&');
      if HasPrefix(rest[i..], TokenSeparator) then Some((rest[..i], rest[i + |TokenSeparator|..]))
      else None
    else None
  }

  lemma ParseJoinText(url: string, token: string)
    requires '&' !in url
    ensures ParseJoinUrl(JoinPrefix + url + TokenSeparator + token) == Some((url, token))
  {
    var s := JoinPrefix + url + TokenSeparator + token;
    assert s[..|JoinPrefix|] == JoinPrefix;
    var rest := s[|JoinPrefix|..];
    assert rest == url + ['&'] + ("token=" + token);
    IndexOfAfter(url, '&', "token=" + token);
    assert rest[..|url|] == url;
    assert rest[|url|..] == TokenSeparator + token;
    assert rest[|url|..][..|TokenSeparator|] == TokenSeparator;
    assert rest[|url| + |TokenSeparator|..] == token;
  }

  /**
   * The join-page link printed for a resolved URL. It carries the server URL
   * and the token unchanged, and reads back as them when the server URL holds
   * no `&`.
   */
  function JoinUrl(url: string, token: string): (link: string)
    ensures HasPrefix(link, JoinPrefix)
    ensures '&' !in url ==> ParseJoinUrl(link) == Some((url, token))
  {
    var link := JoinPrefix + url + TokenSeparator + token;
    assert link[..|JoinPrefix|] == JoinPrefix;
    if '&' in url then link
    else
      ParseJoinText(url, token);
      link
  }

  lemma ServerUrlNoAmpersand(host: string, port: nat)
    requires '&' !in host
    ensures '&' !in ServerUrl(host, port)
  {
    var digits := DecimalString(port);
    assert '&' !in digits;
  }

  /**
   * `print_livekit_server_url`: the printed link, or the error the resolver
   * raised. When the host holds no `&`, the link gives back the resolved
   * server URL and token.
   */
  function JoinLine(u: Url, pid: nat, issue: Issuer): (r: Result<string, Error>)
    ensures r.Err? <==> Resolve(u, pid, issue).Err?
    ensures r.Err? ==> r.error == Resolve(u, pid, issue).error
    ensures r.Ok? ==> r.value == JoinUrl(Resolve(u, pid, issue).value.url, Resolve(u, pid, issue).value.token)
    ensures r.Ok? && '&' !in HostText(u.hostname) ==>
              ParseJoinUrl(r.value) == Some((Resolve(u, pid, issue).value.url, Resolve(u, pid, issue).value.token))
  {
    match Resolve(u, pid, issue)
    case Err(e) => Err(e)
    case Ok(d) =>
      if '&' in HostText(u.hostname) then Ok(JoinUrl(d.url, d.token))
      else
        ServerUrlNoAmpersand(HostText(u.hostname), EffectivePort(u.port));
        Ok(JoinUrl(d.url, d.token))
  }
}
