# quickshare — the decisions inside the plumbing

quickshare is a single script that shares a directory on the local network. It prints
a QR code of the share URL and serves the directory over HTTP, or over HTTPS with a
throw-away self-signed certificate. Almost all of it is I/O. This project models the
three pure decisions inside it. The OS results they depend on are passed in as
parameters.

- **LAN IP resolver** (`lan_ip`, module `LanIp`). It first tries the probe result (the
  address the UDP-connect trick reports), returned unfiltered. Otherwise it returns the
  first hostname address that starts with neither `127.` nor `0.`, in enumeration order.
  Otherwise it returns `127.0.0.1`.
- **Announced URL** (`main`, module `Announce`). A non-empty `--ip` is used as given,
  and otherwise the resolver's answer. Then `https` or `http`, then `:port` unless the
  port is 80 or 443, then `/`. A small URL reader, `ParseUrl`, reads such a URL back
  into the endpoint a browser would connect to. It is the partner the URL's properties
  are stated against.
- **Certificate reuse** (`make_temp_cert`, module `Cert`). The cached PEM is reused
  exactly when it exists and its age is strictly under 86400 seconds. Otherwise the
  external generator rewrites it, and a non-zero exit aborts.

`Text` renders integers the way Python's `str` does. `Wrappers` holds `Option` and
`Result`.

Two behaviours of the code look unintended; both are modelled as written and logged
under Findings. The port suffix is dropped for both 80 and 443 under either scheme, so
`--tls -p 80` announces a URL that designates port 443, although the usage notes at
quickshare.py:12 treat port 80 as the plain-HTTP port. The hostname lookup in `lan_ip`
is outside its `try`, so its failure escapes, although the docstring at quickshare.py:22
calls the resolver best-effort and the code ends in a fallback.

## Model

| member | source | states |
|---|---|---|
| `Text.NatToDecimal` | quickshare.py:78 | the decimal rendering of a non-negative port is a non-empty digit string without leading zeros that reads back as the port |
| `Text.IntToDecimal` | quickshare.py:78 | a negative port (argparse accepts any int) renders as `-` followed by the digits of its magnitude; a non-negative one as its digits; in both, no leading zero, as Python's `str` gives |
| `Text.IntToDecimalInjective` | quickshare.py:78 | distinct ports render as distinct strings |
| `LanIp.Skipped` | quickshare.py:33 | an address is passed over exactly when it starts with "127." or "0." |
| `LanIp.FirstRoutableIndex` | quickshare.py:31-34 | the hostname walk stops at the first address that starts with neither "127." nor "0.", and every earlier address starts with one of them |
| `LanIp.HostnameChoice` | quickshare.py:31-36 | with no qualifying address the answer is exactly "127.0.0.1"; otherwise it is a listed address that qualifies and every earlier one is skipped |
| `LanIp.LanIp` | quickshare.py:21-36 | a probe result is returned as is, without filtering and whatever the lookup gives; without one, a failed hostname lookup is an error; otherwise the answer is the hostname walk's |
| `LanIp.ResolvedIsRoutableOrFallback` | quickshare.py:31-36 | the walk answers either a listed qualifying address or the fallback, never both |
| `LanIp.SkippedPrefixShiftsIndex` | quickshare.py:31-34 | loopback and zero addresses enumerated first only shift where the walk stops |
| `LanIp.SkippedPrefixIgnored` | quickshare.py:31-34 | loopback and zero addresses enumerated before the others do not change the answer |
| `LanIp.LaterAddressesIgnored` | quickshare.py:33-34 | addresses after the first qualifying one are never consulted |
| `LanIp.UnresolvableHostEscapes` | quickshare.py:24-31 | with no probe result and a hostname that does not resolve, `lan_ip` raises instead of answering "127.0.0.1" |
| `LanIp.BestEffortLanIp` | quickshare.py:21-36 | corrected resolver: it always answers; with no probe and a failed lookup it answers the fallback; wherever `lan_ip` succeeds it agrees with it |
| `LanIp.BestEffortRoutableOrFallback` | quickshare.py:31-36 | without a probe result, the corrected resolver answers a listed qualifying address or exactly "127.0.0.1" |
| `Announce.Scheme` | quickshare.py:77 | "https" under `--tls`, "http" otherwise |
| `Announce.PortOmitted` | quickshare.py:78 | the suffix is dropped exactly for ports 80 and 443, with no reference to the scheme |
| `Announce.ChooseIp` | quickshare.py:76 | a non-empty `--ip` is used verbatim and always succeeds; an absent or empty one defers to `lan_ip` and its outcome |
| `Announce.AnnounceUrl` | quickshare.py:77-78 | starts with "https://" under `--tls` and with "http://" (not "https://") otherwise; always ends in "/"; the port suffix is missing exactly when the port is 80 or 443, whatever the scheme; for any other port it is ":" + the decimal port |
| `Announce.Announcement` | quickshare.py:76-78 | the printed URL is the composed URL of the chosen IP, the `--tls` scheme and the port, and exists exactly when choosing the IP succeeds; it ends in "/" and starts with "https://" exactly under `--tls`; it fails exactly when no `--ip` is given, the probe fails and the hostname lookup fails |
| `Announce.AuthorityWithPort` | quickshare.py:78 | "host:" + a numeral + "/" reads back as that host and the numeral's value |
| `Announce.ParseWithPort` | quickshare.py:78 | "scheme://host:" + the decimal port + "/" reads back as that scheme, host and port |
| `Announce.ParseWithoutPort` | quickshare.py:78 | "scheme://host/" reads back as that scheme and host, at the scheme's default port |
| `Announce.AnnouncedEndpoint` | quickshare.py:78 | the announced URL designates the requested scheme and host, and the requested port, except for ports 80 and 443, where it designates the scheme's default port |
| `Announce.AnnouncedPortFaithful` | quickshare.py:78 | the announced URL leads to the requested port exactly when the setting is not https on 80 or http on 443 |
| `Announce.CrossSchemeDefaultsMisannounced` | quickshare.py:78 | https on port 80 is announced as "https://ip/", which designates 443; http on port 443 as "http://ip/", which designates 80 |
| `Announce.IntendedUrl` | quickshare.py:77-78 | corrected URL: starts with "https://" under `--tls` and "http://" otherwise, ends in "/", and the suffix is dropped exactly when the port is the scheme's own default |
| `Announce.IntendedUrlRoundTrip` | quickshare.py:77-78 | the corrected URL always reads back as the requested scheme, host and port |
| `Announce.IntendedDiffersOnlyCrossScheme` | quickshare.py:78 | the corrected and the written URL differ exactly for https on 80 and http on 443 |
| `Announce.SuffixedPortsDistinguished` | quickshare.py:78 | two ports other than 80 and 443 never produce the same URL |
| `Announce.ForcedIpIgnoresResolver` | quickshare.py:76 | with a non-empty `--ip` the announcement does not depend on the probe or the lookup at all |
| `Announce.PlainHttpExample` | quickshare.py:76-78 | resolved 192.168.1.5, port 8000, no TLS gives "http://192.168.1.5:8000/" |
| `Announce.UsageNoteExample` | quickshare.py:12-13 | the usage note's `--ip 192.168.1.42 -p 80` without TLS gives "http://192.168.1.42/" |
| `Announce.ForcedHttpsExample` | quickshare.py:76-78 | forced 10.0.0.9, port 443, TLS gives "https://10.0.0.9/" |
| `Cert.Reusable` | quickshare.py:53 | the cached file is reusable exactly when it exists and now - mtime < 86400 |
| `Cert.MakeTempCert` | quickshare.py:50-63 | the PEM is reused, unchanged, exactly when it exists and now < mtime + 86400; otherwise the generator runs and leaves a file stamped now, or its failure aborts |
| `Cert.ReuseAntitone` | quickshare.py:53 | a file reused at some moment would be reused at every earlier moment |
| `Cert.GeneratesAtMostOncePerWindow` | quickshare.py:53-62 | after a successful provision, every later call before the file's mtime + 86400 reuses it |
| `Cert.ProvisionIdempotent` | quickshare.py:53-63 | a second call at the same moment reuses what the first left |
| `Cert.FutureFileAlwaysReused` | quickshare.py:53 | a file whose mtime lies in the future (skewed clock) is always reused |

## Findings

| source | as written | input that shows it | evidently intended | confidence | as-written member | corrected member |
|---|---|---|---|---|---|---|
| quickshare.py:78 | the `:port` suffix is dropped whenever the port is 80 or 443, whatever the scheme | `--tls -p 80` announces `https://ip/` (port 443); `-p 443` without `--tls` announces `http://ip/` (port 80) | drop the suffix only for the scheme's default port, so the URL reaches the requested port | medium, not executed | `Announce.CrossSchemeDefaultsMisannounced` | `Announce.IntendedUrlRoundTrip` |
| quickshare.py:31 | `getaddrinfo(gethostname())` is outside the `try`, so its error escapes `lan_ip` | no route for the UDP probe and a hostname that does not resolve | fall through to the `127.0.0.1` fallback like the probe step does | medium, not executed | `LanIp.UnresolvableHostEscapes` | `LanIp.BestEffortLanIp` |

`Announce.AnnounceUrl`, `LanIp.LanIp` and their composition `Announce.Announcement` stay
as written, because they model the code. The corrected members stand beside them with
their properties proved.

## Left out

- The UDP socket, `connect`, `getsockname`, `gethostname` and `getaddrinfo` are OS networking. Their results are the parameters `probe` and `lookup`. A lookup failure of any kind is one `HostLookupFailed`.
- The `openssl` subprocess and the PEM contents are a foreign process. Only "regenerated", "reused" and "generator failed" are modelled. Reuse never looks at the content: a fresh but corrupt file is reused.
- `Cert.MakeTempCert`: `time.time()` and `st_mtime` are floats, and the model uses whole seconds. The regenerated file's mtime is taken to be the same `now` that the age test used.
- The fixed temp-directory path (`tempfile.gettempdir()/quickshare.pem`) and races between processes writing it are left out. The path is not a parameter.
- QR rendering (`qrcode` or the `qrencode` command) and all console output are an optional library, a shell tool and terminal I/O.
- `os.chdir`, `TCPServer`, the `SSLContext` wrapping, `serve_forever` and the Ctrl-C handling are process-global state, the network server, TLS and signal handling. So a port outside 0..65535 is modelled only up to the URL, which is composed before the bind fails.
- Port 0 makes `TCPServer` bind an ephemeral port the OS picks, and neither `AnnounceUrl` nor `IntendedUrl` shows it (both announce `:0`). Wherever the model speaks of the port a URL leads to, it means the requested `-p` value, not the port the OS bound.
- `argparse` parsing and the Python version check are library plumbing. `Config` holds their results.
- `Announce.ParseUrl` reads only hosts without ':' or '/' (`PlainHost`), and only non-negative ports. A forced IPv6 address such as `::1` is announced without brackets, and no reader recovers it.
