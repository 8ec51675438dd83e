/**
 * The announced URL (`main`, the three lines after argument parsing): the IP to show,
 * the scheme from `--tls`, and the port suffix, which is dropped for 80 and for 443
 * whatever the scheme.
 *
 * `ParseUrl` reads a URL of that shape back; it is the partner the properties of the
 * composition are stated against.
 */
module Announce {
  import opened Wrappers
  import opened Text
  import LanIp

  /**
   * The command-line settings: share directory, `-p/--port`, `--ip` and `--tls`.
   * `dir` only feeds `os.chdir`, which is not modelled; no function reads it.
   */
  datatype Config = Config(dir: string, port: int, forcedIp: Option<string>, tls: bool)

  function Scheme(tls: bool): string {
    if tls then "https" else "http"
  }

  /** `args.ip or lan_ip()`: a given, non-empty `--ip` verbatim (the resolver never runs), otherwise the resolver's outcome. */
  function ChooseIp(forcedIp: Option<string>, probe: Option<string>, lookup: Option<seq<string>>)
    : (r: Result<string, LanIp.ResolveError>)
    ensures forcedIp.Some? && forcedIp.value != "" ==> r == Success(forcedIp.value)
    ensures forcedIp.None? || forcedIp.value == "" ==> r == LanIp.LanIp(probe, lookup)
  {
    if forcedIp.Some? && forcedIp.value != "" then Success(forcedIp.value) else LanIp.LanIp(probe, lookup)
  }

  /** The suffix is omitted for these two ports, independently of the scheme. */
  predicate PortOmitted(port: int) {
    port == 80 || port == 443
  }

  /** A prefix survives appending. */
  lemma PrefixExtends(s: string, t: string, p: string)
    requires StartsWith(s, p)
    ensures StartsWith(s + t, p)
  {
  }

  /** Whatever follows, a URL opened with the scheme of `tls` and "://" starts as a browser reads that scheme. */
  lemma SchemePrefix(tls: bool, ip: string, suffix: string)
    ensures tls ==> StartsWith(Scheme(tls) + "://" + ip + suffix + "/", "https://")
    ensures !tls ==> StartsWith(Scheme(tls) + "://" + ip + suffix + "/", "http://")
    ensures !tls ==> !StartsWith(Scheme(tls) + "://" + ip + suffix + "/", "https://")
  {
    var head := Scheme(tls) + "://";
    var p := if tls then "https://" else "http://";
    assert StartsWith(head, p);
    PrefixExtends(head, ip, p);
    PrefixExtends(head + ip, suffix, p);
    PrefixExtends(head + ip + suffix, "/", p);
    if !tls {
      var url := head + ip + suffix + "/";
      assert url[4] == head[4] == ':';
    }
  }

  /** The URL as the program composes it: scheme, "://", ip, ":port" unless the port is 80 or 443, "/". */
  function AnnounceUrl(tls: bool, ip: string, port: int): (url: string)
    ensures tls ==> StartsWith(url, "https://")
    ensures !tls ==> StartsWith(url, "http://") && !StartsWith(url, "https://")
    ensures |url| > 0 && url[|url| - 1] == '/'
    ensures PortOmitted(port) <==> url == Scheme(tls) + "://" + ip + "/"
    ensures !PortOmitted(port) ==> url == Scheme(tls) + "://" + ip + ":" + IntToDecimal(port) + "/"
  {
    var suffix := if PortOmitted(port) then "" else ":" + IntToDecimal(port);
    SchemePrefix(tls, ip, suffix);
    var head := Scheme(tls) + "://" + ip;
    assert PortOmitted(port) ==> head + suffix == head;
    assert !PortOmitted(port) ==> head + suffix == head + ":" + IntToDecimal(port);
    assert !PortOmitted(port) ==> |head + suffix + "/"| > |head + "/"|;
    head + suffix + "/"
  }

  /** The URL printed (and rendered as a QR code) for a configuration and the resolver's inputs. */
  function Announcement(cfg: Config, probe: Option<string>, lookup: Option<seq<string>>)
    : (r: Result<string, LanIp.ResolveError>)
    ensures r.Success? <==> ChooseIp(cfg.forcedIp, probe, lookup).Success?
    ensures r.Success? ==> r.value == AnnounceUrl(cfg.tls, ChooseIp(cfg.forcedIp, probe, lookup).value, cfg.port)
    ensures r.Success? ==> |r.value| > 0 && r.value[|r.value| - 1] == '/'
    ensures r.Success? ==> (cfg.tls <==> StartsWith(r.value, "https://"))
    ensures r.Failure? <==> (cfg.forcedIp.None? || cfg.forcedIp.value == "") && probe.None? && lookup.None?
  {
    match ChooseIp(cfg.forcedIp, probe, lookup)
    case Success(ip) => Success(AnnounceUrl(cfg.tls, ip, cfg.port))
    case Failure(e) => Failure(e)
  }

  // ---------- reading a URL back ----------

  /** An endpoint a browser would connect to: scheme, host and port. */
  datatype Endpoint = Endpoint(tls: bool, host: string, port: int)

  /** The port a browser assumes when a URL names none. */
  function DefaultPort(tls: bool): int {
    if tls then 443 else 80
  }

  /** A host that a URL of this shape can carry unambiguously (an IPv4 address or a name). */
  predicate PlainHost(h: string) {
    forall i :: 0 <= i < |h| ==> h[i] != ':' && h[i] != '/'
  }

  /** Position of the first `c` in `s`, or |s| when there is none. */
  function IndexOf(s: string, c: char): (k: nat)
    ensures k <= |s|
    ensures forall j :: 0 <= j < k ==> s[j] != c
    ensures k < |s| ==> s[k] == c
  {
    if s == [] then 0
    else if s[0] == c then 0
    else 1 + IndexOf(s[1..], c)
  }

  /** Reads "host[:digits]/" after the scheme. */
  function ParseAuthority(tls: bool, rest: string): Option<Endpoint> {
    if |rest| == 0 || rest[|rest| - 1] != '/' then None
    else
      var body := rest[..|rest| - 1];
      var i := IndexOf(body, ':');
      if i == |body| then
        if PlainHost(body) then Some(Endpoint(tls, body, DefaultPort(tls))) else None
      else
        var host, digits := body[..i], body[i + 1..];
        if PlainHost(host) && |digits| > 0 && AllDigits(digits)
        then Some(Endpoint(tls, host, DecimalValue(digits)))
        else None
  }

  /** Reads "http[s]://host[:digits]/" back into the endpoint it designates. */
  function ParseUrl(url: string): Option<Endpoint> {
    if StartsWith(url, "https://") then ParseAuthority(true, url[8..])
    else if StartsWith(url, "http://") then ParseAuthority(false, url[7..])
    else None
  }

  /** Stripping the scheme: what follows "scheme://" is read as the authority of that scheme. */
  lemma ParseAfterScheme(tls: bool, rest: string)
    ensures ParseUrl(Scheme(tls) + "://" + rest) == ParseAuthority(tls, rest)
  {
    var url := Scheme(tls) + "://" + rest;
    if tls {
      assert url[..8] == "https://";
      assert url[8..] == rest;
    } else {
      assert url[..7] == "http://";
      assert url[4] == ':';
      assert url[7..] == rest;
    }
  }

  /** A plain host followed by ":" and a numeral: the first ':' is the one before the numeral. */
  lemma {:induction false} ColonAfterHost(host: string, digits: string)
    requires PlainHost(host)
    ensures IndexOf(host + ":" + digits, ':') == |host|
  {
    if host != [] {
      assert (host + ":" + digits)[1..] == host[1..] + ":" + digits;
      ColonAfterHost(host[1..], digits);
    }
  }

  /** "host:digits/" reads back as that host and the numeral's value. */
  lemma AuthorityWithPort(tls: bool, host: string, digits: string)
    requires PlainHost(host) && |digits| > 0 && AllDigits(digits)
    ensures ParseAuthority(tls, host + ":" + digits + "/") == Some(Endpoint(tls, host, DecimalValue(digits)))
  {
    var rest := host + ":" + digits + "/";
    var body := rest[..|rest| - 1];
    assert body == host + ":" + digits;
    ColonAfterHost(host, digits);
    assert body[..|host|] == host;
    assert body[|host| + 1..] == digits;
  }

  /** "scheme://host:digits/" reads back as that scheme, host and port. */
  lemma ParseWithPort(tls: bool, host: string, port: nat)
    requires PlainHost(host)
    ensures ParseUrl(Scheme(tls) + "://" + host + ":" + IntToDecimal(port) + "/") == Some(Endpoint(tls, host, port))
  {
    var digits := IntToDecimal(port);
    assert |digits| > 0 && AllDigits(digits) && DecimalValue(digits) == port;
    var rest := host + ":" + digits + "/";
    assert Scheme(tls) + "://" + host + ":" + digits + "/" == Scheme(tls) + "://" + rest;
    ParseAfterScheme(tls, rest);
    AuthorityWithPort(tls, host, digits);
  }

  /** "scheme://host/" reads back as that scheme and host, at the scheme's default port. */
  lemma ParseWithoutPort(tls: bool, host: string)
    requires PlainHost(host)
    ensures ParseUrl(Scheme(tls) + "://" + host + "/") == Some(Endpoint(tls, host, DefaultPort(tls)))
  {
    var rest := host + "/";
    assert Scheme(tls) + "://" + host + "/" == Scheme(tls) + "://" + rest;
    ParseAfterScheme(tls, rest);
    assert rest[..|rest| - 1] == host;
  }

  /**
   * What the announced URL designates: the given host, the requested scheme, and the bound
   * port unless the port is 80 or 443, in which case the scheme's default port.
   */
  lemma AnnouncedEndpoint(tls: bool, ip: string, port: nat)
    requires PlainHost(ip)
    ensures ParseUrl(AnnounceUrl(tls, ip, port))
      == Some(Endpoint(tls, ip, if PortOmitted(port) then DefaultPort(tls) else port))
  {
    if PortOmitted(port) {
      ParseWithoutPort(tls, ip);
    } else {
      ParseWithPort(tls, ip, port);
    }
  }

  /**
   * The announced URL leads to the requested port exactly when the port is not the other
   * scheme's default: https on 80 and http on 443 send the browser elsewhere.
   */
  lemma AnnouncedPortFaithful(tls: bool, ip: string, port: nat)
    requires PlainHost(ip)
    ensures ParseUrl(AnnounceUrl(tls, ip, port)) == Some(Endpoint(tls, ip, port))
      <==> !(tls && port == 80) && !(!tls && port == 443)
  {
    AnnouncedEndpoint(tls, ip, port);
  }

  /**
   * The discrepancy on the two inputs that show it: HTTPS served on port 80 is announced
   * as "https://ip/", which designates port 443, and HTTP served on 443 as "http://ip/",
   * which designates port 80.
   */
  lemma CrossSchemeDefaultsMisannounced(ip: string)
    requires PlainHost(ip)
    ensures AnnounceUrl(true, ip, 80) == "https://" + ip + "/"
    ensures ParseUrl(AnnounceUrl(true, ip, 80)) == Some(Endpoint(true, ip, 443))
    ensures AnnounceUrl(false, ip, 443) == "http://" + ip + "/"
    ensures ParseUrl(AnnounceUrl(false, ip, 443)) == Some(Endpoint(false, ip, 80))
  {
    AnnouncedEndpoint(true, ip, 80);
    AnnouncedEndpoint(false, ip, 443);
  }

  /** The URL the program evidently means: the port suffix is dropped only for the scheme's own default port. */
  function IntendedUrl(tls: bool, ip: string, port: int): (url: string)
    ensures tls ==> StartsWith(url, "https://")
    ensures |url| > 0 && url[|url| - 1] == '/'
    ensures !tls ==> StartsWith(url, "http://") && !StartsWith(url, "https://")
    ensures port == DefaultPort(tls) <==> url == Scheme(tls) + "://" + ip + "/"
    ensures port != DefaultPort(tls) ==> url == Scheme(tls) + "://" + ip + ":" + IntToDecimal(port) + "/"
  {
    var suffix := if port == DefaultPort(tls) then "" else ":" + IntToDecimal(port);
    SchemePrefix(tls, ip, suffix);
    var head := Scheme(tls) + "://" + ip;
    assert port == DefaultPort(tls) ==> head + suffix == head;
    assert port != DefaultPort(tls) ==> head + suffix == head + ":" + IntToDecimal(port);
    assert port != DefaultPort(tls) ==> |head + suffix + "/"| > |head + "/"|;
    head + suffix + "/"
  }

  /** The intended URL always designates the requested scheme, host and port. */
  lemma IntendedUrlRoundTrip(tls: bool, ip: string, port: nat)
    requires PlainHost(ip)
    ensures ParseUrl(IntendedUrl(tls, ip, port)) == Some(Endpoint(tls, ip, port))
  {
    if port == DefaultPort(tls) {
      ParseWithoutPort(tls, ip);
    } else {
      ParseWithPort(tls, ip, port);
    }
  }

  /** The intended URL differs from the announced one only in the two cross-scheme cases. */
  lemma IntendedDiffersOnlyCrossScheme(tls: bool, ip: string, port: int)
    ensures IntendedUrl(tls, ip, port) != AnnounceUrl(tls, ip, port)
      <==> (tls && port == 80) || (!tls && port == 443)
  {
  }

  /** Two ports that both keep their suffix are announced differently. */
  lemma SuffixedPortsDistinguished(tls: bool, ip: string, p: int, q: int)
    requires !PortOmitted(p) && !PortOmitted(q)
    ensures AnnounceUrl(tls, ip, p) == AnnounceUrl(tls, ip, q) ==> p == q
  {
    if AnnounceUrl(tls, ip, p) == AnnounceUrl(tls, ip, q) {
      var prefix := Scheme(tls) + "://" + ip + ":";
      var u := AnnounceUrl(tls, ip, p);
      assert u == prefix + IntToDecimal(p) + "/";
      assert u == prefix + IntToDecimal(q) + "/";
      assert IntToDecimal(p) == u[|prefix|..|u| - 1];
      assert IntToDecimal(q) == u[|prefix|..|u| - 1];
      IntToDecimalInjective(p, q);
    }
  }

  /** A non-empty `--ip` is announced verbatim and the resolver's inputs play no part. */
  lemma ForcedIpIgnoresResolver(cfg: Config, probe: Option<string>, lookup: Option<seq<string>>,
                                probe': Option<string>, lookup': Option<seq<string>>)
    requires cfg.forcedIp.Some? && cfg.forcedIp.value != ""
    ensures Announcement(cfg, probe, lookup) == Announcement(cfg, probe', lookup')
      == Success(AnnounceUrl(cfg.tls, cfg.forcedIp.value, cfg.port))
  {
  }

  /** Example: a resolved address and port 8000 over plain HTTP. */
  lemma PlainHttpExample()
    ensures Announcement(Config("/tmp/share", 8000, None, false), Some("192.168.1.5"), Some([]))
      == Success("http://192.168.1.5:8000/")
  {
    assert IntToDecimal(8000) == "8000" by {
      assert NatToDecimal(8) == "8";
      assert NatToDecimal(80) == "80";
      assert NatToDecimal(800) == "800";
      assert NatToDecimal(8000) == "8000";
    }
    assert ChooseIp(None, Some("192.168.1.5"), Some([])) == Success("192.168.1.5");
    assert AnnounceUrl(false, "192.168.1.5", 8000) == "http://192.168.1.5:8000/";
  }

  /** Example: a forced address over HTTPS on port 443. */
  lemma ForcedHttpsExample()
    ensures Announcement(Config(".", 443, Some("10.0.0.9"), true), None, None)
      == Success("https://10.0.0.9/")
  {
    assert ChooseIp(Some("10.0.0.9"), None, None) == Success("10.0.0.9");
    assert AnnounceUrl(true, "10.0.0.9", 443) == "https://10.0.0.9/";
  }

  /** The usage note's case: a forced Wi-Fi address on port 80 over plain HTTP. */
  lemma UsageNoteExample()
    ensures Announcement(Config(".", 80, Some("192.168.1.42"), false), None, None)
      == Success("http://192.168.1.42/")
  {
    assert ChooseIp(Some("192.168.1.42"), None, None) == Success("192.168.1.42");
    assert AnnounceUrl(false, "192.168.1.42", 80) == "http://192.168.1.42/";
  }
}
