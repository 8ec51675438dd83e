/**
 * The LAN IP resolver (`lan_ip`): a three-step fallback chain, first success wins.
 * The two OS queries are inputs: `probe` is the source address the UDP connect
 * trick reported (None when the socket raised OSError), `lookup` the IPv4 addresses
 * `getaddrinfo(gethostname())` enumerated, in order (None when that call raised).
 * Only the probe sits inside the `try`: a failed lookup escapes as an error.
 */
module LanIp {
  import opened Wrappers
  import opened Text

  /** The hard fallback when neither query yields an address. */
  const Fallback: string := "127.0.0.1"

  /** Addresses the hostname walk passes over: loopback ("127.") and zero ("0.") prefixes. */
  predicate Skipped(ip: string) {
    StartsWith(ip, "127.") || StartsWith(ip, "0.")
  }

  /** Position at which the hostname walk returns: the first address not skipped, or |addrs| when none qualifies. */
  function FirstRoutableIndex(addrs: seq<string>): (k: nat)
    ensures k <= |addrs|
    ensures forall j :: 0 <= j < k ==> Skipped(addrs[j])
    ensures k < |addrs| ==> !Skipped(addrs[k])
  {
    if addrs == [] then 0
    else if !Skipped(addrs[0]) then 0
    else 1 + FirstRoutableIndex(addrs[1..])
  }

  /** Steps 2 and 3: the first hostname address not skipped, else the fallback. */
  function HostnameChoice(addrs: seq<string>): (ip: string)
    ensures (forall j :: 0 <= j < |addrs| ==> Skipped(addrs[j])) ==> ip == Fallback
    ensures (exists j :: 0 <= j < |addrs| && !Skipped(addrs[j])) ==>
      exists k :: 0 <= k < |addrs| && ip == addrs[k] && !Skipped(ip) && forall j :: 0 <= j < k ==> Skipped(addrs[j])
  {
    var k := FirstRoutableIndex(addrs);
    if k < |addrs| then addrs[k] else Fallback
  }

  /** The hostname lookup raised (`socket.gaierror`), which `lan_ip` does not catch. */
  datatype ResolveError = HostLookupFailed

  /** `lan_ip()`: the probe result unfiltered, else the hostname walk, else the lookup's error. */
  function LanIp(probe: Option<string>, lookup: Option<seq<string>>): (r: Result<string, ResolveError>)
    ensures probe.Some? ==> r == Success(probe.value)
    ensures probe.None? ==> (r.Failure? <==> lookup.None?)
    ensures probe.None? && lookup.Some? ==> r == Success(HostnameChoice(lookup.value))
  {
    match probe
    case Some(a) => Success(a)
    case None =>
      match lookup
      case None => Failure(HostLookupFailed)
      case Some(addrs) => Success(HostnameChoice(addrs))
  }

  /** The hostname walk answers a routable listed address exactly when it does not answer the fallback. */
  lemma ResolvedIsRoutableOrFallback(addrs: seq<string>)
    ensures var ip := HostnameChoice(addrs);
      (ip in addrs && !Skipped(ip)) != (ip == Fallback)
  {
  }

  /** Loopback and zero addresses enumerated before the others only move the walk's stopping point along. */
  lemma {:induction false} SkippedPrefixShiftsIndex(skipped: seq<string>, addrs: seq<string>)
    requires forall j :: 0 <= j < |skipped| ==> Skipped(skipped[j])
    ensures FirstRoutableIndex(skipped + addrs) == |skipped| + FirstRoutableIndex(addrs)
  {
    if skipped != [] {
      assert (skipped + addrs)[0] == skipped[0];
      assert (skipped + addrs)[1..] == skipped[1..] + addrs;
      SkippedPrefixShiftsIndex(skipped[1..], addrs);
    } else {
      assert skipped + addrs == addrs;
    }
  }

  /** Loopback and zero addresses enumerated before the others change nothing: they are skipped. */
  lemma SkippedPrefixIgnored(skipped: seq<string>, addrs: seq<string>)
    requires forall j :: 0 <= j < |skipped| ==> Skipped(skipped[j])
    ensures HostnameChoice(skipped + addrs) == HostnameChoice(addrs)
  {
    SkippedPrefixShiftsIndex(skipped, addrs);
    var k := FirstRoutableIndex(addrs);
    if k < |addrs| {
      assert (skipped + addrs)[|skipped| + k] == addrs[k];
    }
  }

  /** Addresses enumerated after the first routable one are never consulted. */
  lemma LaterAddressesIgnored(addrs: seq<string>, ip: string, rest: seq<string>, rest': seq<string>)
    requires forall j :: 0 <= j < |addrs| ==> Skipped(addrs[j])
    requires !Skipped(ip)
    ensures HostnameChoice(addrs + [ip] + rest) == ip == HostnameChoice(addrs + [ip] + rest')
  {
    SkippedPrefixIgnored(addrs, [ip] + rest);
    SkippedPrefixIgnored(addrs, [ip] + rest');
    assert addrs + [ip] + rest == addrs + ([ip] + rest);
    assert addrs + [ip] + rest' == addrs + ([ip] + rest');
  }

  /**
   * The uncaught lookup on the input that shows it: no route for the probe and a
   * hostname that does not resolve make `lan_ip` raise instead of answering "127.0.0.1".
   */
  lemma UnresolvableHostEscapes()
    ensures LanIp(None, None) == Failure(HostLookupFailed)
  {
  }

  /** The resolver as its fallback chain intends it: a failed lookup counts as no addresses. */
  function BestEffortLanIp(probe: Option<string>, lookup: Option<seq<string>>): (ip: string)
    ensures probe.Some? ==> ip == probe.value
    ensures probe.None? && lookup.None? ==> ip == Fallback
    ensures LanIp(probe, lookup).Success? ==> ip == LanIp(probe, lookup).value
  {
    match probe
    case Some(a) => a
    case None => HostnameChoice(if lookup.Some? then lookup.value else [])
  }

  /** Without a probe result the intended resolver answers a routable address, or exactly the fallback. */
  lemma BestEffortRoutableOrFallback(lookup: Option<seq<string>>)
    ensures var ip := BestEffortLanIp(None, lookup);
      ip == Fallback || (lookup.Some? && ip in lookup.value && !Skipped(ip))
  {
  }
}
