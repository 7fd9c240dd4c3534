# livekit_tools: the `livekit://` URL resolver in Dafny

This project models `parse_livekit_url` from `livekit_tools`. The function turns a URL of the form

    livekit://[identity@]host[:port]/[room]?api_key=K&api_secret=S&ttl=DUR

into the record a client needs to join a LiveKit room:

- `url`: the server URL.
- `token`: the access token.
- `api_key`, `api_secret`, `room`, `identity` and `ttl`: the values the token was requested with.

The project also models the join-page link that `print_livekit_server_url` prints.

Files and modules:

- `wrappers.dfy` (`Wrappers`): `Option` and `Result`. These stand in for Python's `None` and for raised exceptions.
- `decimal.dfy` (`Decimal`): how Python renders a process id in an f-string (`DecimalString`), and its inverse (`ParseDecimal`).
- `query_string.dfy` (`QueryString`): the part of `urllib.parse.parse_qs` that decides which values the resolver sees:
  - split the query on `&`;
  - split each field on its first `=`;
  - drop fields without `=`;
  - drop blank values;
  - group the values by name, keeping their order.
- `livekit_url.dfy` (`LivekitUrl`): the resolver `Resolve`, its parts, and the join link `JoinLine`.
  - The parts are the effective port, the transport, the server URL, the query lookups with defaults, the identity and the room.
  - Each part has a partner: `ParseServerUrl` reads a server URL back, and `ParseJoinUrl` reads a join link back.
- `examples_resolve.dfy` (`ResolveExamples`): resolutions of concrete URLs, worked out by proof.

Inputs the model takes as parameters:

- `Resolve` receives the URL already split, as a `Url` record holding what `urllib.parse.urlparse` returns: scheme, user name, host name, port, path and raw query.
- The process id (`os.getpid()`) is the parameter `pid`.
- The token issuer `create_access_token` is the parameter `issue`, a function from a `TokenRequest` to `Ok(token)` or `Err(reason)`.
  - `Err(reason)` stands for any exception the issuer raises, such as a ttl it cannot parse. The resolver passes it on unchanged as `TokenFailed(reason)`.

Python's `or`, slicing and f-strings make these cases behave as follows, and the model does the same:

- An explicit port 0 falls back to 7880, as an explicit empty user name falls back to `lkcli-<pid>`. Both come from Python's `or`.
- The room is everything after the first character of the path, further `/` included. It is not just the first path segment.
- A URL without a host name renders the host as `None`, as the f-string does.
- A port above 65535 is refused with `PortOutOfRange`. `urlparse` raises this error when `split.port` is read, after the scheme check.

## Model

| member | source | states |
|---|---|---|
| `LivekitUrl.Resolve` | src/livekit_tools/livekit_url.py:7-24 | the scheme must be exactly `livekit`; otherwise the result is `InvalidScheme`. A port above 65535 gives `PortOutOfRange`. The result is `Ok` exactly when the scheme and port are accepted and the issuer accepts the derived request. When the issuer fails, the result is `TokenFailed` with the issuer's own reason. A successful record echoes exactly the request the token was issued for, and its token is the issuer's answer to the record's own `api_key`, `api_secret`, `room`, `identity` and `ttl` |
| `LivekitUrl.ResolveRejectsScheme` | src/livekit_tools/livekit_url.py:9-10 | a scheme other than `livekit` is rejected whatever the issuer does, so no token is requested |
| `LivekitUrl.EffectivePort` | src/livekit_tools/livekit_url.py:12 | the port is the explicit one when it is present and non-zero, and 7880 when it is absent or 0; it is never 0 |
| `LivekitUrl.PortInRange` | src/livekit_tools/livekit_url.py:12 | reading the port succeeds exactly when it is absent or at most 65535, and the effective port is then between 1 and 65535 |
| `LivekitUrl.Transport` | src/livekit_tools/livekit_url.py:13 | the transport is `wss` if and only if the port is 443, and `ws` otherwise |
| `LivekitUrl.HostText` | src/livekit_tools/livekit_url.py:14 | the rendered host is the host name when there is one; the text is `None` exactly when there is no host name (or the host name is literally `None`) |
| `LivekitUrl.ServerUrl` | src/livekit_tools/livekit_url.py:13-14 | reading back the server URL gives the host and the port it was built from, for every host (colons included) and every port. It starts with `wss://` if and only if the port is 443, and then it is exactly `wss://host` with no port suffix; otherwise it is `ws://host:port` |
| `LivekitUrl.ResolveServerAddress` | src/livekit_tools/livekit_url.py:12-14 | a resolved server URL names the URL's host and the effective port: the explicit port unless it is absent or 0, in which case it is 7880. The URL is secure exactly on 443, and then has no port suffix |
| `QueryString.Split` | src/livekit_tools/livekit_url.py:16 | splitting the query on `&` gives at least one part, and no part contains `&` |
| `QueryString.JoinSplit` | src/livekit_tools/livekit_url.py:16 | joining the parts of a split with the separator gives the query back |
| `QueryString.SplitJoin` | src/livekit_tools/livekit_url.py:16 | splitting a join of separator-free parts gives the parts back |
| `QueryString.ParseField` | src/livekit_tools/livekit_url.py:16 | a kept field is `name=value` split at its first `=`, with a name without `=` and a non-blank value. A field is dropped only when it has no `=`, or when its first `=` is its last character (a blank value) |
| `QueryString.ParseQsl` | src/livekit_tools/livekit_url.py:16 | every parsed pair has a name without `=` or `&` and a non-blank value without `&` |
| `QueryString.ParseQslEncodeQuery` | src/livekit_tools/livekit_url.py:16 | for any list of such pairs, parsing `k1=v1&k2=v2&...` gives the list back, in order |
| `QueryString.ParseQslConcat` | src/livekit_tools/livekit_url.py:16 | the fields on either side of an `&` are parsed independently, and their pairs are concatenated |
| `QueryString.BlankValueDropped` | src/livekit_tools/livekit_url.py:16 | a `name=` field with a blank value contributes nothing to the parsed query |
| `QueryString.BlankThenValue` | src/livekit_tools/livekit_url.py:16 | `name=&name=value` parses to the single pair `(name, value)` |
| `QueryString.GroupValues` | src/livekit_tools/livekit_url.py:16 | a name is a key of the `parse_qs` dictionary exactly when some pair has that name; its list holds all of that name's values, in order of appearance |
| `QueryString.ParseQs` | src/livekit_tools/livekit_url.py:16 | every name in the `parse_qs` dictionary maps to a non-empty list holding all of the query's values for it, in order, none of them blank; a name that is not a key has no values |
| `QueryString.FirstOr` | src/livekit_tools/livekit_url.py:17-19 | the result is the value of the first pair with the given name, or the default when no pair has that name |
| `QueryString.FirstOrValues` | src/livekit_tools/livekit_url.py:17-19 | the first-or-default lookup is the default when the name has no values, and otherwise the first of its values |
| `QueryString.GetFirst` | src/livekit_tools/livekit_url.py:17-19 | `qs.get(name, [default])[0]` is the default when the name is not a key, and otherwise the first value in its list; it is always the default or one of that name's values |
| `QueryString.ParseQsFirstWins` | src/livekit_tools/livekit_url.py:16-19 | `qs.get(name, [default])[0]` on the `parse_qs` dictionary equals the value of the first pair with that name in the query, or the default |
| `LivekitUrl.ResolveQueryValues` | src/livekit_tools/livekit_url.py:16-19 | in a resolved record, `api_key`, `api_secret` and `ttl` are each the first non-blank value the query gives for that name, or `devkey`, `secret` and `6h` respectively; `api_key` is either the default or one of the query's values for it |
| `LivekitUrl.Request` | src/livekit_tools/livekit_url.py:16-23 | the request sent to the issuer carries, for `api_key`, `api_secret` and `ttl`, the first query value for each name or its default, plus the derived room and identity |
| `Decimal.DecimalString` | src/livekit_tools/livekit_url.py:20 | a rendered process id is a non-empty string of decimal digits, with no leading zero unless it is `0` |
| `Decimal.ParseDecimalString` | src/livekit_tools/livekit_url.py:20 | reading back the rendered digits gives the process id |
| `Decimal.DecimalStringInjective` | src/livekit_tools/livekit_url.py:20 | different process ids render differently |
| `LivekitUrl.Identity` | src/livekit_tools/livekit_url.py:20 | the identity is never empty. It is the user name when that is non-empty, and otherwise exactly `lkcli-` plus the decimal text of the process id, whose digits read back as the process id |
| `LivekitUrl.ResolveIdentity` | src/livekit_tools/livekit_url.py:20 | the identity is the URL's user name when it is non-empty; otherwise it is exactly `lkcli-` followed by the decimal text of the process id, a non-empty run of digits that reads back as the process id |
| `LivekitUrl.Room` | src/livekit_tools/livekit_url.py:21 | the room is empty exactly when the path has at most one character; otherwise the path is its first character followed by the room |
| `LivekitUrl.ResolveRoom` | src/livekit_tools/livekit_url.py:21 | a resolved room is empty exactly for an empty path or a one-character path such as `/`; a path starting with `/` is `/` + room, with later `/` kept in the room |
| `LivekitUrl.JoinUrl` | src/livekit_tools/livekit_url.py:30 | the link starts with `https://meet.livekit.io/custom?liveKitUrl=`; when the server URL holds no `&`, the link `...liveKitUrl=<url>&token=<token>` reads back as exactly that server URL and token |
| `LivekitUrl.JoinLine` | src/livekit_tools/livekit_url.py:26-30 | the printed line fails exactly when resolution fails, with the same error. Otherwise it is exactly the join link built from the resolved server URL and token, for every host. When the host holds no `&`, it reads back as that server URL and token |
| `ResolveExamples.UserAndQueryOverrides` | src/livekit_tools/livekit_url.py:7-24 | `livekit://alice@host.example/myroom?api_key=k1&api_secret=s1&ttl=1h` resolves to `ws://host.example:7880`, `k1`, `s1`, `1h`, room `myroom` and identity `alice` |
| `ResolveExamples.SecurePortDefaults` | src/livekit_tools/livekit_url.py:12-19 | `livekit://host.example:443/room` resolves to `wss://host.example`, with no port suffix, and to the defaults `devkey`, `secret` and `6h` |
| `ResolveExamples.BlankValueAndPortZero` | src/livekit_tools/livekit_url.py:12-21 | for `livekit://@host.example:0/?api_key=&api_key=k2`, port 0 gives 7880, the blank value is skipped so `api_key` is `k2`, the empty user name gives `lkcli-<pid>`, and `/` gives the empty room |
| `ResolveExamples.OtherSchemeRejected` | src/livekit_tools/livekit_url.py:9-10 | `http://host.example/room` is rejected with `InvalidScheme("http")` |
| `ResolveExamples.PortAboveRangeRejected` | src/livekit_tools/livekit_url.py:12 | `livekit://host.example:70000/` is rejected with `PortOutOfRange(70000)` |

## Left out

- `create_access_token` (the `livekit_token` module) is not part of this model. It signs a JWT with HMAC, parses the ttl and reads the clock. Here it is the `issue` parameter: the model states which request the resolver makes and what it returns, but not the token's contents.
- `os.getpid()` is a process query. It is the `pid` parameter.
- `urllib.parse.urlparse` is library code: splitting the URL as RFC 3986 describes, lower-casing the scheme and the host name, stripping IPv6 brackets, and raising `ValueError` on a non-numeric port. `Resolve` takes the split record as input. Only the port range check (0 to 65535) is modelled, because the resolver hits it when it reads the port.
- Percent-decoding and `+` to space in `parse_qs` are not modelled. Query names and values are taken as already decoded text.
- `print_livekit_server_url` prints its output, and in verbose mode it also prints a dump of the record. Both are I/O. `JoinLine` models only the printed link, and the verbose dump is not modelled.
- The `typer` command-line wiring (`livekit_url.py:33-35` and `__main__.py`) is I/O with no logic.
- `InvalidScheme` carries only the rejected scheme. The source's `ValueError` message quotes the whole URL text, which the split `Url` record does not keep.
- The returned Python `dict` is modelled as the `Descriptor` record, which has the same seven keys.
