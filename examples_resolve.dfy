/** Worked resolutions of concrete URLs. */
module ResolveExamples {
  import opened Wrappers
  import opened Decimal
  import opened QueryString
  import opened LivekitUrl

  lemma DefaultPortText()
    ensures DecimalString(DefaultPort) == "7880"
  {
    assert DigitChar(7) == '7' && DigitChar(8) == '8' && DigitChar(0) == '0';
    assert DecimalString(7) == "7";
    assert DecimalString(78) == "78";
    assert DecimalString(788) == "788";
  }

  lemma SampleServerUrl()
    ensures ServerUrl("host.example", DefaultPort) == "ws://host.example:7880"
  {
    DefaultPortText();
    assert "ws" + "://" + "host.example" + ":" + "7880" == "ws://host.example:7880";
  }

  lemma SampleQueryPairs()
    ensures ParseQsl("api_key=k1&api_secret=s1&ttl=1h")
            == [("api_key", "k1"), ("api_secret", "s1"), ("ttl", "1h")]
  {
    var pairs := [("api_key", "k1"), ("api_secret", "s1"), ("ttl", "1h")];
    assert EncodeQuery(pairs) == "api_key=k1&api_secret=s1&ttl=1h";
    ParseQslEncodeQuery(pairs);
  }

  lemma SampleQuery()
    ensures var pairs := ParseQsl("api_key=k1&api_secret=s1&ttl=1h");
            && FirstOr(pairs, "api_key", DefaultApiKey) == "k1"
            && FirstOr(pairs, "api_secret", DefaultApiSecret) == "s1"
            && FirstOr(pairs, "ttl", DefaultTtl) == "1h"
  {
    SampleQueryPairs();
  }

  /** `livekit://alice@host.example/myroom?api_key=k1&api_secret=s1&ttl=1h` */
  lemma UserAndQueryOverrides(u: Url, pid: nat, issue: Issuer)
    requires u == Url("livekit", Some("alice"), Some("host.example"), None, "/myroom",
                      "api_key=k1&api_secret=s1&ttl=1h")
    requires issue(TokenRequest("k1", "s1", "myroom", "alice", "1h")).Ok?
    ensures var r := Resolve(u, pid, issue);
            && r.Ok?
            && r.value.url == "ws://host.example:7880"
            && r.value.apiKey == "k1" && r.value.apiSecret == "s1" && r.value.ttl == "1h"
            && r.value.room == "myroom" && r.value.identity == "alice"
  {
    SampleQuery();
    assert Request(u, pid) == TokenRequest("k1", "s1", "myroom", "alice", "1h");
    SampleServerUrl();
  }

  lemma EmptyQuery()
    ensures ParseQsl("") == []
  {
    ParseQslEncodeQuery([]);
  }

  /** `livekit://host.example:443/room`: secure, no port suffix, every default. */
  lemma SecurePortDefaults(u: Url, pid: nat, issue: Issuer)
    requires u == Url("livekit", None, Some("host.example"), Some(443), "/room", "")
    requires issue(TokenRequest("devkey", "secret", "room", IdentityPrefix + DecimalString(pid), "6h")).Ok?
    ensures var r := Resolve(u, pid, issue);
            && r.Ok?
            && r.value.url == "wss://host.example"
            && r.value.apiKey == "devkey" && r.value.apiSecret == "secret" && r.value.ttl == "6h"
  {
    EmptyQuery();
    assert ServerUrl("host.example", SecurePort) == "wss://host.example";
    assert Request(u, pid) == TokenRequest("devkey", "secret", "room", IdentityPrefix + DecimalString(pid), "6h");
  }

  lemma BlankQueryPairs()
    ensures ParseQsl("api_key=&api_key=k2") == [("api_key", "k2")]
  {
    assert "api_key=&api_key=k2" == "api_key" + "=&" + "api_key" + "=" + "k2";
    BlankThenValue("api_key", "k2");
  }

  lemma BlankQuery()
    ensures FirstOr(ParseQsl("api_key=&api_key=k2"), "api_key", DefaultApiKey) == "k2"
    ensures FirstOr(ParseQsl("api_key=&api_key=k2"), "api_secret", DefaultApiSecret) == DefaultApiSecret
    ensures FirstOr(ParseQsl("api_key=&api_key=k2"), "ttl", DefaultTtl) == DefaultTtl
  {
    BlankQueryPairs();
  }

  /**
   * `livekit://@host.example:0/?api_key=&api_key=k2`: port 0 falls back to
   * 7880, the blank `api_key` value is skipped, the empty user name falls back
   * to the process id and `/` gives the empty room.
   */
  lemma BlankValueAndPortZero(u: Url, pid: nat, issue: Issuer)
    requires u == Url("livekit", Some(""), Some("host.example"), Some(0), "/", "api_key=&api_key=k2")
    requires issue(TokenRequest("k2", "secret", "", IdentityPrefix + DecimalString(pid), "6h")).Ok?
    ensures var r := Resolve(u, pid, issue);
            && r.Ok?
            && r.value.url == "ws://host.example:7880"
            && r.value.apiKey == "k2" && r.value.room == ""
            && r.value.identity == IdentityPrefix + DecimalString(pid)
  {
    BlankQuery();
    assert Request(u, pid) == TokenRequest("k2", "secret", "", IdentityPrefix + DecimalString(pid), "6h");
    SampleServerUrl();
  }

  /** `http://host.example/room` is rejected with the scheme it carried. */
  lemma OtherSchemeRejected(pid: nat, issue: Issuer)
    ensures Resolve(Url("http", None, Some("host.example"), None, "/room", ""), pid, issue)
            == Err(InvalidScheme("http"))
  {
  }

  /** `livekit://host.example:70000/` is refused by the URL splitter's port check. */
  lemma PortAboveRangeRejected(pid: nat, issue: Issuer)
    ensures Resolve(Url("livekit", None, Some("host.example"), Some(70000), "/", ""), pid, issue)
            == Err(PortOutOfRange(70000))
  {
  }
}
