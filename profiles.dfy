/**
 * The values server.go builds before it hands them to net/http: the listen
 * address, the fixed timeouts, the two TLS profiles, the ACME manager
 * settings with its split host list, and the redirect handler's answer.
 */
module Profiles {
  import opened Basics
  import opened Numeric

  /** time.Second, in Go's Duration unit (nanoseconds). */
  const Second: int := 1_000_000_000

  /** Protocol versions as their wire values: TLS 1.0 (RFC 2246) and TLS 1.2 (RFC 5246). */
  const VersionTLS10: int := 0x0301
  const VersionTLS12: int := 0x0303

  /** Named groups, identified in the TLS handshake by their code points. */
  datatype Curve = CurveP256 | CurveP384 | CurveP521 | X25519
  {
    function Id(): int
    {
      match this
      case CurveP256 => 23
      case CurveP384 => 24
      case CurveP521 => 25
      case X25519 => 29
    }
  }

  /** The cipher suites the modern profile lists, by their code points. */
  datatype CipherSuite =
    | TlsChacha20Poly1305Sha256
    | TlsAes256GcmSha384
    | TlsAes128GcmSha256
    | TlsEcdheEcdsaWithAes128GcmSha256
    | TlsEcdheRsaWithAes128GcmSha256
    | TlsEcdheRsaWithAes256GcmSha384
    | TlsEcdheRsaWithAes128CbcSha256
  {
    function Id(): int
    {
      match this
      case TlsChacha20Poly1305Sha256 => 0x1303
      case TlsAes256GcmSha384 => 0x1302
      case TlsAes128GcmSha256 => 0x1301
      case TlsEcdheEcdsaWithAes128GcmSha256 => 0xC02B
      case TlsEcdheRsaWithAes128GcmSha256 => 0xC02F
      case TlsEcdheRsaWithAes256GcmSha384 => 0xC030
      case TlsEcdheRsaWithAes128CbcSha256 => 0xC027
    }
  }

  /** The autocert.Manager settings: accept the CA's terms, contact email,
      host whitelist and the directory the certificates are cached in. */
  datatype CertManager = CertManager(acceptTOS: bool, email: string, hostWhitelist: seq<string>, cacheDir: string)

  /** The fields of tls.Config the server sets; getCertificate is the
      manager whose GetCertificate callback is installed, if any. An empty
      cipherSuites means Go's default list. */
  datatype TlsConfig = TlsConfig(
    minVersion: int,
    preferServerCipherSuites: bool,
    curvePreferences: seq<Curve>,
    cipherSuites: seq<CipherSuite>,
    getCertificate: Option<CertManager>)

  /** What answers requests: the process-wide DefaultServeMux, the ACME
      manager's HTTP-01 responder, or the redirect-everything handler. */
  datatype Handler = DefaultServeMux | AcmeHttpHandler(manager: CertManager) | RedirectAll(host: string)

  /** The fields of http.Server the server sets; durations in nanoseconds, 0 meaning none. */
  datatype HttpServer = HttpServer(
    addr: string,
    handler: Handler,
    readHeaderTimeout: int,
    readTimeout: int,
    writeTimeout: int,
    idleTimeout: int,
    tlsConfig: Option<TlsConfig>)

  /** A listener a Start* call runs: the server, the certificate and key
      files for ListenAndServeTLS (None for plain HTTP), and whether it runs
      in a background goroutine. */
  datatype Listener = Listener(server: HttpServer, tlsFiles: Option<(string, string)>, background: bool)

  /** The timeouts every builder sets, against the net/http default of none. */
  predicate HasFixedTimeouts(s: HttpServer)
  {
    && s.readHeaderTimeout == 30 * Second
    && s.readTimeout == 60 * Second
    && s.writeTimeout == 60 * Second
    && s.idleTimeout == 10 * Second
  }

  /** fmt.Sprintf(":%d", p): the listen address for port p. */
  function PortAddr(p: Int64): (addr: string)
    ensures |addr| >= 2 && addr[0] == ':'
    ensures addr[1..] == FormatInt(p)
    ensures ParseInt64(addr[1..]) == Parsed(p)
  {
    FormatIntRoundTrip(p);
    assert (":" + FormatInt(p))[1..] == FormatInt(p);
    ":" + FormatInt(p)
  }

  /** An http.Server on addr with the fixed timeouts. */
  function TimedServer(addr: string, tlsConfig: Option<TlsConfig>): (s: HttpServer)
    ensures HasFixedTimeouts(s) && s.addr == addr && s.tlsConfig == tlsConfig
    ensures s.handler == DefaultServeMux
  {
    HttpServer(addr, DefaultServeMux, 30 * Second, 60 * Second, 60 * Second, 10 * Second, tlsConfig)
  }

  /** The server http.ListenAndServe(addr, h) builds: no timeouts at all. */
  function PlainServer(addr: string, h: Handler): (s: HttpServer)
    ensures s.addr == addr && s.handler == h && s.tlsConfig.None?
    ensures s.readHeaderTimeout == s.readTimeout == s.writeTimeout == s.idleTimeout == 0
  {
    HttpServer(addr, h, 0, 0, 0, 0, None)
  }

  /** The compatible profile of StartTLS and ConfiguredTLSServer. */
  function CompatProfile(getCertificate: Option<CertManager>): (c: TlsConfig)
    ensures c.minVersion == VersionTLS10 && c.preferServerCipherSuites
    ensures c.curvePreferences == [CurveP256, X25519]
    ensures c.cipherSuites == [] && c.getCertificate == getCertificate
  {
    TlsConfig(VersionTLS10, true, [CurveP256, X25519], [], getCertificate)
  }

  /** The modern profile of StartTLSModern. */
  function ModernProfile(): (c: TlsConfig)
    ensures c.minVersion == VersionTLS12 && c.preferServerCipherSuites
    ensures c.curvePreferences == [CurveP521, CurveP384, CurveP256]
    ensures |c.cipherSuites| == 7 && c.getCertificate.None?
    ensures c.cipherSuites[0] == TlsChacha20Poly1305Sha256 && c.cipherSuites[6] == TlsEcdheRsaWithAes128CbcSha256
    ensures forall i, j :: 0 <= i < j < |c.cipherSuites| ==> c.cipherSuites[i].Id() != c.cipherSuites[j].Id()
    ensures seq(7, i requires 0 <= i < 7 => c.cipherSuites[i].Id())
      == [0x1303, 0x1302, 0x1301, 0xC02B, 0xC02F, 0xC030, 0xC027]
  {
    TlsConfig(VersionTLS12, true, [CurveP521, CurveP384, CurveP256],
      [ TlsChacha20Poly1305Sha256,
        TlsAes256GcmSha384,
        TlsAes128GcmSha256,
        TlsEcdheEcdsaWithAes128GcmSha256,
        TlsEcdheRsaWithAes128GcmSha256,
        TlsEcdheRsaWithAes256GcmSha384,
        TlsEcdheRsaWithAes128CbcSha256 ],
      None)
  }

  /** The profiles differ only where the source says: the modern one raises
      the minimum version, changes the curves and pins the suites. */
  lemma ProfilesCompared()
    ensures ModernProfile().minVersion > CompatProfile(None).minVersion
    ensures ModernProfile().preferServerCipherSuites == CompatProfile(None).preferServerCipherSuites
    ensures X25519 !in ModernProfile().curvePreferences && X25519 in CompatProfile(None).curvePreferences
  {
  }

  /** strings.Split(s, " "): the pieces between single spaces, empty ones kept. */
  function Split(s: string): (pieces: seq<string>)
    ensures |pieces| >= 1
  {
    if s == [] then [""]
    else if s[0] == ' ' then [""] + Split(s[1..])
    else
      var rest := Split(s[1..]);
      [[s[0]] + rest[0]] + rest[1..]
  }

  /** strings.Join(pieces, " "), the inverse of Split. */
  function Join(pieces: seq<string>): string
    requires |pieces| >= 1
  {
    if |pieces| == 1 then pieces[0] else pieces[0] + " " + Join(pieces[1..])
  }

  function SpaceCount(s: string): nat
  {
    if s == [] then 0 else (if s[0] == ' ' then 1 else 0) + SpaceCount(s[1..])
  }

  predicate NoSpace(piece: string) { forall i :: 0 <= i < |piece| ==> piece[i] != ' ' }

  /** Rejoining the pieces gives the input back. */
  lemma {:induction false} JoinSplit(s: string)
    ensures Join(Split(s)) == s
  {
    if s != [] {
      JoinSplit(s[1..]);
      var rest := Split(s[1..]);
      if s[0] == ' ' {
        assert ([""] + rest)[1..] == rest;
        assert s == " " + s[1..];
      } else if |rest| == 1 {
        assert s == [s[0]] + rest[0];
      } else {
        assert ([[s[0]] + rest[0]] + rest[1..])[1..] == rest[1..];
        assert Join(rest) == rest[0] + " " + Join(rest[1..]);
        assert s == [s[0]] + s[1..];
      }
    }
  }

  /** No piece contains a space, and there is one piece more than there are spaces. */
  lemma {:induction false} SplitPieces(s: string)
    ensures forall k :: 0 <= k < |Split(s)| ==> NoSpace(Split(s)[k])
    ensures |Split(s)| == SpaceCount(s) + 1
  {
    if s != [] {
      SplitPieces(s[1..]);
      var rest := Split(s[1..]);
      if s[0] != ' ' {
        var pieces := Split(s);
        assert pieces[0] == [s[0]] + rest[0];
        assert NoSpace(rest[0]);
        forall k | 0 <= k < |pieces| ensures NoSpace(pieces[k]) {
          if k > 0 { assert pieces[k] == rest[k]; }
        }
      }
    }
  }

  /** Splitting a join of space-free pieces gives the pieces back. */
  lemma {:induction false} SplitJoin(pieces: seq<string>)
    requires |pieces| >= 1
    requires forall k :: 0 <= k < |pieces| ==> NoSpace(pieces[k])
    ensures Split(Join(pieces)) == pieces
  {
    if |pieces| == 1 {
      SplitNoSpace(pieces[0]);
    } else {
      SplitJoin(pieces[1..]);
      SplitPrefix(pieces[0], Join(pieces[1..]));
      assert [pieces[0]] + pieces[1..] == pieces;
    }
  }

  lemma {:induction false} SplitNoSpace(piece: string)
    requires NoSpace(piece)
    ensures Split(piece) == [piece]
  {
    if piece != [] {
      SplitNoSpace(piece[1..]);
      assert [piece[0]] + piece[1..] == piece;
    }
  }

  lemma {:induction false} SplitPrefix(piece: string, tail: string)
    requires NoSpace(piece)
    ensures Split(piece + " " + tail) == [piece] + Split(tail)
  {
    var s := piece + " " + tail;
    if piece == [] {
      assert s == " " + tail && s[1..] == tail;
    } else {
      assert s[1..] == piece[1..] + " " + tail;
      SplitPrefix(piece[1..], tail);
      assert [piece[0]] + piece[1..] == piece;
    }
  }

  /** The settings StartTLSAuto and StartTLSAutocert give the ACME manager:
      terms accepted, the email, the space-separated domains as whitelist,
      certificates cached in "secrets". */
  function ManagerFor(email: string, domains: string): (m: CertManager)
    ensures m.acceptTOS && m.email == email && m.cacheDir == "secrets"
    ensures |m.hostWhitelist| >= 1 && Join(m.hostWhitelist) == domains
    ensures |m.hostWhitelist| == SpaceCount(domains) + 1
    ensures forall k :: 0 <= k < |m.hostWhitelist| ==> NoSpace(m.hostWhitelist[k])
  {
    JoinSplit(domains);
    SplitPieces(domains);
    CertManager(true, email, Split(domains), "secrets")
  }

  const StatusMovedPermanently: int := 301

  /** A response as the redirect handler writes it. */
  datatype Redirect = Redirect(status: int, location: string)

  /** redirectHandler.ServeHTTP: a permanent redirect (section 15.4.2 of
      RFC 9110) to the configured host followed by the request URL, with
      the host used exactly as given. */
  function RedirectTarget(host: string, requestURL: string): (r: Redirect)
    ensures r.status == StatusMovedPermanently
    ensures |r.location| == |host| + |requestURL|
    ensures r.location[..|host|] == host && r.location[|host|..] == requestURL
  {
    Redirect(StatusMovedPermanently, host + requestURL)
  }

  /** The redirect a handler answers a request with: the redirect-everything
      handler always redirects to RedirectTarget; the default mux and the
      ACME responder are foreign code and give none here. */
  function RedirectOf(h: Handler, requestURL: string): (r: Option<Redirect>)
    ensures r.Some? <==> h.RedirectAll?
    ensures h.RedirectAll? ==> r == Some(RedirectTarget(h.host, requestURL))
  {
    match h
    case RedirectAll(host) => Some(RedirectTarget(host, requestURL))
    case _ => None
  }
}
