/** The transport that a saved profile is given, and what the connect path makes of it. */
module Transport {
  import opened Seqs

  datatype Ssh = Ssh(host: string, port: int, username: string, password: string, authType: string,
                     fallbackIPs: seq<string>)

  datatype Payload = Payload(enabled: bool, template: string, sendTiming: string, readResponse: bool,
                             allowStatuses: seq<int>)

  datatype HttpProxy = HttpProxy(host: string, port: int, connectMethod: string, fallbackIPs: seq<string>)

  datatype Tls = Tls(enabled: bool, serverName: string, insecureSkipVerify: bool, alpn: seq<string>)

  datatype TConf = TConf(mode: string, chain: seq<string>, httpProxy: Option<HttpProxy>, tls: Option<Tls>,
                         payload: Payload)

  predicate ModeHasProxy(mode: string) { mode == "http_proxy" || mode == "http_proxy_tls_sni" }

  predicate ModeHasTls(mode: string) { mode == "tls_sni" || mode == "http_proxy_tls_sni" }

  function FilledPayload(mode: string, payload: Payload): Payload
  {
    payload.(
      sendTiming :=
        if payload.sendTiming != "" then payload.sendTiming
        else if mode == "http_proxy" then "after_proxy_socket_before_ssh"
        else if ModeHasTls(mode) then "after_tls_before_ssh"
        else "before_ssh",
      allowStatuses := if payload.allowStatuses == [] then [101, 200, 204, 302] else payload.allowStatuses)
  }

  function FilledProxy(mode: string, given: Option<HttpProxy>, ssh: Ssh): HttpProxy
  {
    var proxy := if given.Some? then given.value else HttpProxy(ssh.host, ssh.port, "socket", []);
    var port := if proxy.port <= 0 then ssh.port else proxy.port;
    proxy.(
      host := if proxy.host == "" then ssh.host else proxy.host,
      port := if mode == "http_proxy_tls_sni" && port == 80 then 443 else port,
      connectMethod := if proxy.connectMethod == "" then "socket" else proxy.connectMethod)
  }

  function FilledTls(given: Option<Tls>, ssh: Ssh): Tls
  {
    var tls := if given.Some? then given.value else Tls(true, ssh.host, true, ["http/1.1"]);
    Tls(true, if tls.serverName == "" then ssh.host else tls.serverName, tls.insecureSkipVerify,
        if tls.alpn == [] then ["http/1.1"] else tls.alpn)
  }

  function Chain(mode: string, withPayload: bool): seq<string>
  {
    ["tcp"] + (if ModeHasProxy(mode) then ["http_proxy"] else []) + (if ModeHasTls(mode) then ["tls"] else [])
            + (if withPayload then ["payload"] else []) + ["ssh"]
  }

  function Build(mode: string, payload: Payload, proxy: Option<HttpProxy>, tls: Option<Tls>, ssh: Ssh): TConf
  {
    TConf(
      mode,
      Chain(mode, payload.enabled),
      if ModeHasProxy(mode) then Some(FilledProxy(mode, proxy, ssh)) else None,
      if ModeHasTls(mode) then Some(FilledTls(tls, ssh)) else None,
      FilledPayload(mode, payload))
  }

  method FillPayload(mode: string, payload: Payload) returns (r: Payload)
    ensures r == FilledPayload(mode, payload)
  {
    r := payload;
    if r.sendTiming == "" {
      if mode == "http_proxy" {
        r := r.(sendTiming := "after_proxy_socket_before_ssh");
      } else if ModeHasTls(mode) {
        r := r.(sendTiming := "after_tls_before_ssh");
      } else {
        r := r.(sendTiming := "before_ssh");
      }
    }
    if |r.allowStatuses| == 0 {
      r := r.(allowStatuses := [101, 200, 204, 302]);
    }
  }

  method FillProxy(mode: string, hp: Option<HttpProxy>, ssh: Ssh) returns (proxy: HttpProxy)
    ensures proxy == FilledProxy(mode, hp, ssh)
  {
    proxy := HttpProxy(ssh.host, ssh.port, "socket", []);
    if hp.Some? {
      proxy := hp.value;
    }
    if proxy.host == "" {
      proxy := proxy.(host := ssh.host);
    }
    if proxy.port <= 0 {
      proxy := proxy.(port := ssh.port);
    }
    if proxy.connectMethod == "" {
      proxy := proxy.(connectMethod := "socket");
    }
    if mode == "http_proxy_tls_sni" && proxy.port == 80 {
      proxy := proxy.(port := 443);
    }
  }

  method FillTls(tlsCfg: Option<Tls>, ssh: Ssh) returns (tc: Tls)
    ensures tc == FilledTls(tlsCfg, ssh)
  {
    tc := Tls(true, ssh.host, true, ["http/1.1"]);
    if tlsCfg.Some? {
      tc := tlsCfg.value;
    }
    if tc.serverName == "" {
      tc := tc.(serverName := ssh.host);
    }
    if |tc.alpn| == 0 {
      tc := tc.(alpn := ["http/1.1"]);
    }
    tc := tc.(enabled := true);
  }

  method BuildTransport(mode: string, payload: Payload, hp: Option<HttpProxy>, tlsCfg: Option<Tls>, ssh: Ssh)
    returns (t: TConf)
    ensures t == Build(mode, payload, hp, tlsCfg, ssh)
  {
    var filled := FillPayload(mode, payload);
    var chain := ["tcp"];
    var outProxy: Option<HttpProxy> := None;
    var outTls: Option<Tls> := None;
    if ModeHasProxy(mode) {
      var proxy := FillProxy(mode, hp, ssh);
      outProxy := Some(proxy);
      chain := chain + ["http_proxy"];
    }
    if ModeHasTls(mode) {
      var tc := FillTls(tlsCfg, ssh);
      outTls := Some(tc);
      chain := chain + ["tls"];
    }
    if filled.enabled {
      chain := chain + ["payload"];
    }
    chain := chain + ["ssh"];
    assert chain == Chain(mode, payload.enabled);
    t := TConf(mode, chain, outProxy, outTls, filled);
  }

  // ------------------------------------------------------------ the connect path

  predicate UsesHttpProxy(t: TConf) { ModeHasProxy(t.mode) || "http_proxy" in t.chain }

  predicate UsesTls(t: TConf) { ModeHasTls(t.mode) || "tls" in t.chain }

  datatype Dial = Endpoint(host: string, port: int) | NoProxyConfig | InvalidEndpoint

  function DialEndpoint(ssh: Ssh, t: TConf): Dial
  {
    if UsesHttpProxy(t) && t.httpProxy.None? then NoProxyConfig
    else
      var host := if UsesHttpProxy(t) then t.httpProxy.value.host else ssh.host;
      var port := if UsesHttpProxy(t) then t.httpProxy.value.port else ssh.port;
      if host == "" || port <= 0 then InvalidEndpoint else Endpoint(host, port)
  }

  /** The connect path meets no configuration error: it has an endpoint to dial, and the TLS settings
      and server name when it needs them. */
  predicate Dialable(ssh: Ssh, t: TConf)
  {
    && DialEndpoint(ssh, t).Endpoint?
    && (UsesTls(t) ==> t.tls.Some? && t.tls.value.serverName != "")
  }

  lemma ChainIsMode(mode: string, payload: Payload, proxy: Option<HttpProxy>, tls: Option<Tls>, ssh: Ssh)
    ensures UsesHttpProxy(Build(mode, payload, proxy, tls, ssh)) <==> ModeHasProxy(mode)
    ensures UsesTls(Build(mode, payload, proxy, tls, ssh)) <==> ModeHasTls(mode)
  {
    assert "http_proxy"[0] == 'h' && "tls"[1] == 'l' && "tcp"[1] == 'c' && "payload"[0] == 'p' && "ssh"[0] == 's';
  }

  /** A built transport always dials: the proxy when the mode has one, the SSH server otherwise; and
      never port 80 with TLS through a proxy. */
  lemma BuiltDials(mode: string, payload: Payload, proxy: Option<HttpProxy>, tls: Option<Tls>, ssh: Ssh)
    requires ssh.host != "" && ssh.port > 0
    ensures var t := Build(mode, payload, proxy, tls, ssh);
            && Dialable(ssh, t)
            && (!ModeHasProxy(mode) ==> DialEndpoint(ssh, t) == Endpoint(ssh.host, ssh.port))
            && (UsesHttpProxy(t) && UsesTls(t) ==> DialEndpoint(ssh, t).port != 80)
  {
    ChainIsMode(mode, payload, proxy, tls, ssh);
    if ModeHasProxy(mode) && ModeHasTls(mode) {
      assert "http_proxy"[0] != "tls_sni"[0];
      assert mode == "http_proxy_tls_sni";
    }
  }

  /** The links of the chain for each of the four modes, in order. */
  lemma ChainOfMode(pay: bool)
    ensures var p: seq<string> := if pay then ["payload"] else [];
      && Chain("direct", pay) == ["tcp"] + p + ["ssh"]
      && Chain("http_proxy", pay) == ["tcp", "http_proxy"] + p + ["ssh"]
      && Chain("tls_sni", pay) == ["tcp", "tls"] + p + ["ssh"]
      && Chain("http_proxy_tls_sni", pay) == ["tcp", "http_proxy", "tls"] + p + ["ssh"]
  {
    assert "direct"[0] == 'd' && "http_proxy"[0] == 'h' && "tls_sni"[0] == 't';
    assert |"http_proxy_tls_sni"| > |"http_proxy"|;
  }

  /** What a request gives is what is dialled; what it leaves out comes from the SSH server, and port 80 is 443 under
      TLS through a proxy. */
  lemma GivenIsDialled(mode: string, payload: Payload, proxy: Option<HttpProxy>, tls: Option<Tls>, ssh: Ssh)
    requires ssh.host != "" && ssh.port > 0
    ensures var t := Build(mode, payload, proxy, tls, ssh);
      && (mode == "http_proxy" && proxy.Some? && proxy.value.host != "" && proxy.value.port > 0 ==>
            DialEndpoint(ssh, t) == Endpoint(proxy.value.host, proxy.value.port))
      && (mode == "http_proxy_tls_sni" && proxy.Some? && proxy.value.host != "" && proxy.value.port > 0 ==>
            DialEndpoint(ssh, t)
            == Endpoint(proxy.value.host, if proxy.value.port == 80 then 443 else proxy.value.port))
      && (mode == "http_proxy" && (proxy.Some? ==> proxy.value.host == "" && proxy.value.port <= 0) ==>
            DialEndpoint(ssh, t) == Endpoint(ssh.host, ssh.port))
      && (mode == "http_proxy_tls_sni" && (proxy.Some? ==> proxy.value.host == "" && proxy.value.port <= 0) ==>
            DialEndpoint(ssh, t) == Endpoint(ssh.host, if ssh.port == 80 then 443 else ssh.port))
  {
    ChainIsMode(mode, payload, proxy, tls, ssh);
    assert |"http_proxy_tls_sni"| > |"http_proxy"|;
  }

  /** The server name and the payload of a request are kept as well, with the defaults only where there is none. */
  lemma GivenIsKept(mode: string, payload: Payload, proxy: Option<HttpProxy>, tls: Option<Tls>, ssh: Ssh)
    requires mode in ["direct", "http_proxy", "tls_sni", "http_proxy_tls_sni"]
    ensures var t := Build(mode, payload, proxy, tls, ssh);
      && (t.tls.Some? ==>
            && t.tls.value.enabled
            && t.tls.value.serverName
               == (if tls.Some? && tls.value.serverName != "" then tls.value.serverName else ssh.host)
            && t.tls.value.insecureSkipVerify == (tls.Some? ==> tls.value.insecureSkipVerify)
            && t.tls.value.alpn == (if tls.Some? && tls.value.alpn != [] then tls.value.alpn else ["http/1.1"]))
      && (t.httpProxy.Some? ==>
            && t.httpProxy.value.connectMethod
               == (if proxy.Some? && proxy.value.connectMethod != "" then proxy.value.connectMethod else "socket")
            && t.httpProxy.value.fallbackIPs == (if proxy.Some? then proxy.value.fallbackIPs else []))
      && t.payload.(sendTiming := payload.sendTiming, allowStatuses := payload.allowStatuses) == payload
      && (payload.allowStatuses != [] ==> t.payload.allowStatuses == payload.allowStatuses)
      && (payload.allowStatuses == [] ==> t.payload.allowStatuses == [101, 200, 204, 302])
      && t.payload.sendTiming
         == (if payload.sendTiming != "" then payload.sendTiming
             else if t.tls.Some? then "after_tls_before_ssh"
             else if t.httpProxy.Some? then "after_proxy_socket_before_ssh"
             else "before_ssh")
  {
    assert "direct"[0] == 'd' && "http_proxy"[0] == 'h' && "tls_sni"[0] == 't';
    assert |"http_proxy_tls_sni"| > |"http_proxy"|;
  }

  /** Building again from what was built changes nothing. */
  lemma BuildTwice(mode: string, payload: Payload, proxy: Option<HttpProxy>, tls: Option<Tls>, ssh: Ssh)
    requires ssh.host != "" && ssh.port > 0
    ensures var t := Build(mode, payload, proxy, tls, ssh);
            Build(mode, t.payload, t.httpProxy, t.tls, ssh) == t
  {
    assert |"after_proxy_socket_before_ssh"| > 0 && |"after_tls_before_ssh"| > 0 && |"before_ssh"| > 0;
  }
}
