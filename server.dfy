/**
 * The Server of package server (server.go and config.go): the port, the
 * production flag and the three configuration maps, the typed getters over
 * the active map, how construction fills them in, and the listeners the
 * Start* operations run.
 */
module Fragmenta {
  import opened Basics
  import opened Numeric
  import opened Profiles

  const DefaultPort: Int64 := 3000

  /** The outcome of reading and decoding secrets/fragmenta.json: the file
      could not be read, its JSON did not decode into a map of string maps,
      or the decoded top-level object. */
  datatype ConfigFile = Unreadable | Malformed | Loaded(data: map<string, map<string, string>>)

  /** The errors readConfig returns. */
  datatype ConfigError = OpenError | ReadError | PortError(portString: string)

  /** data[name] in Go: a missing environment reads as an empty (nil) map. */
  function Section(data: map<string, map<string, string>>, name: string): (m: map<string, string>)
    ensures name in data ==> m == data[name]
    ensures name !in data ==> m == map[]
  {
    if name in data then data[name] else map[]
  }

  /** The environment whose map is active. */
  function ActiveSection(production: bool): (name: string)
    ensures name == "production" || name == "development"
  {
    if production then "production" else "development"
  }

  /** A value read from a map, "" when the key is absent. */
  function Lookup(m: map<string, string>, key: string): (v: string)
    ensures key in m ==> v == m[key]
    ensures key !in m ==> v == ""
  {
    if key in m then m[key] else ""
  }

  class Server {
    var port: Int64
    var production: bool
    var configProduction: map<string, string>
    var configDevelopment: map<string, string>
    var configTest: map<string, string>

    /** The struct literal of New: production iff FRAG_ENV is exactly
        "production", port 3000, three empty maps. */
    constructor (fragEnv: string)
      ensures production <==> fragEnv == "production"
      ensures port == DefaultPort
      ensures configProduction == map[] && configDevelopment == map[] && configTest == map[]
    {
      production := fragEnv == "production";
      port := DefaultPort;
      configProduction := map[];
      configDevelopment := map[];
      configTest := map[];
    }

    /** Port: the port the server listens on, the one PortString renders. */
    function Port(): (p: Int64)
      reads this
      ensures p == port
      ensures PortString() == PortAddr(p)
    {
      port
    }

    /** Mode: "Production" exactly when the production flag is set, else "Development". */
    function Mode(): (mode: string)
      reads this
      ensures mode == "Production" <==> production
      ensures mode == "Production" || mode == "Development"
    {
      if production then "Production" else "Development"
    }

    /** Production: whether the server runs in production mode. */
    function Production(): (p: bool)
      reads this
      ensures p <==> Mode() == "Production"
    {
      production
    }

    /** Configuration: the active map, chosen by the production flag. */
    function Configuration(): (m: map<string, string>)
      reads this
      ensures production ==> m == configProduction
      ensures !production ==> m == configDevelopment
    {
      if production then configProduction else configDevelopment
    }

    /** Config: the active map's value for key, or "" when it has none. */
    function Config(key: string): (v: string)
      reads this
      ensures key in Configuration() ==> v == Configuration()[key]
      ensures key !in Configuration() ==> v == ""
    {
      Lookup(Configuration(), key)
    }

    /** ConfigInt: the value as a base-10 int64, or 0 when it is absent, not
        a decimal literal or out of range; it never fails. */
    function ConfigInt(key: string): (n: Int64)
      reads this
      ensures ParseInt64(Config(key)).Parsed? ==> n == ParseInt64(Config(key)).value
      ensures !ParseInt64(Config(key)).Parsed? ==> n == 0
      ensures Config(key) == "" ==> n == 0
    {
      var v := Config(key);
      if v != "" then
        match ParseInt64(v)
        case Parsed(i) => i
        case _ => 0
      else 0
    }

    /** ConfigBool: true for the literal "yes" and nothing else. */
    function ConfigBool(key: string): (b: bool)
      reads this
      ensures b <==> Config(key) == "yes"
    {
      Config(key) == "yes"
    }

    /**
     * readConfig, given what reading and decoding the file produced. Both
     * failures return before anything changes. Otherwise all three maps are
     * replaced, and a non-empty "port" in the active map is converted with
     * Atoi and stored even when the conversion fails, in which case the
     * error is returned.
     */
    method ReadConfig(file: ConfigFile) returns (err: Option<ConfigError>)
      modifies this
      ensures production == old(production)
      ensures file == Unreadable ==> err == Some(OpenError) && unchanged(this)
      ensures file == Malformed ==> err == Some(ReadError) && unchanged(this)
      ensures file.Loaded? ==>
        && configDevelopment == Section(file.data, "development")
        && configProduction == Section(file.data, "production")
        && configTest == Section(file.data, "test")
      ensures file.Loaded? && Config("port") == "" ==> err == None && port == old(port)
      ensures file.Loaded? && Config("port") != "" ==>
        && port == ParseValue(ParseInt64(Config("port")))
        && (err == None <==> ParseInt64(Config("port")).Parsed?)
        && (err != None ==> err == Some(PortError(Config("port"))))
    {
      match file {
        case Unreadable =>
          return Some(OpenError);
        case Malformed =>
          return Some(ReadError);
        case Loaded(data) =>
          configDevelopment := Section(data, "development");
          configProduction := Section(data, "production");
          configTest := Section(data, "test");
          var portString := Config("port");
          err := None;
          if portString != "" {
            var parsed := ParseInt64(portString);
            port := ParseValue(parsed);
            if !parsed.Parsed? {
              err := Some(PortError(portString));
            }
          }
      }
    }

    /** readArguments, given the value of the -p flag (0 when absent):
        only a positive value replaces the port. */
    method ReadArguments(p: Int64)
      modifies this`port
      ensures p > 0 ==> port == p
      ensures p <= 0 ==> port == old(port)
    {
      if p > 0 {
        port := p;
      }
    }

    /** PortString: ":" then the port in decimal, which reads back as the port. */
    function PortString(): (addr: string)
      reads this
      ensures addr == PortAddr(port) && addr[1..] == FormatInt(port)
      ensures |addr| >= 2 && addr[0] == ':' && ParseInt64(addr[1..]) == Parsed(port)
    {
      PortAddr(port)
    }

    /** Start: plain HTTP on PortString() with the fixed timeouts. */
    function Start(): (l: Listener)
      reads this
      ensures l.server == TimedServer(PortString(), None)
      ensures l.server.addr == PortString() && HasFixedTimeouts(l.server)
      ensures l.server.handler == DefaultServeMux
      ensures l.server.tlsConfig.None? && l.tlsFiles.None? && !l.background
    {
      Listener(TimedServer(PortString(), None), None, false)
    }

    /** StartTLS: the compatible profile with a certificate and key from files. */
    function StartTLS(cert: string, key: string): (l: Listener)
      reads this
      ensures l.server == TimedServer(PortString(), Some(CompatProfile(None)))
      ensures l.server.addr == PortString() && HasFixedTimeouts(l.server)
      ensures l.server.handler == DefaultServeMux
      ensures l.server.tlsConfig == Some(CompatProfile(None))
      ensures l.tlsFiles == Some((cert, key)) && !l.background
    {
      Listener(TimedServer(PortString(), Some(CompatProfile(None))), Some((cert, key)), false)
    }

    /** StartTLSModern: as StartTLS with the modern profile. */
    function StartTLSModern(cert: string, key: string): (l: Listener)
      reads this
      ensures l.server == TimedServer(PortString(), Some(ModernProfile()))
      ensures l.server.addr == PortString() && HasFixedTimeouts(l.server)
      ensures l.server.handler == DefaultServeMux
      ensures l.server.tlsConfig == Some(ModernProfile())
      ensures l.tlsFiles == Some((cert, key)) && !l.background
    {
      Listener(TimedServer(PortString(), Some(ModernProfile())), Some((cert, key)), false)
    }

    /** ConfiguredTLSServer: the compatible profile with the manager's
        certificate callback installed. */
    function ConfiguredTLSServer(manager: CertManager): (s: HttpServer)
      reads this
      ensures s == TimedServer(PortString(), Some(CompatProfile(Some(manager))))
      ensures s.addr == PortString() && HasFixedTimeouts(s) && s.handler == DefaultServeMux
      ensures s.tlsConfig.Some? && s.tlsConfig.value.getCertificate == Some(manager)
      ensures s.tlsConfig.value.(getCertificate := None) == CompatProfile(None)
    {
      TimedServer(PortString(), Some(CompatProfile(Some(manager))))
    }

    /** StartTLSAuto: a background listener on :80 for the ACME HTTP-01
        responder, then TLS with certificates from the manager. */
    function StartTLSAuto(email: string, domains: string): (ls: seq<Listener>)
      reads this
      ensures |ls| == 2
      ensures ls[0].background && ls[0].tlsFiles.None? && ls[0].server == PlainServer(":80", AcmeHttpHandler(ManagerFor(email, domains)))
      ensures ls[1] == Listener(ConfiguredTLSServer(ManagerFor(email, domains)), Some(("", "")), false)
    {
      var manager := ManagerFor(email, domains);
      [ Listener(PlainServer(":80", AcmeHttpHandler(manager)), None, true),
        Listener(ConfiguredTLSServer(manager), Some(("", "")), false) ]
    }

    /** StartTLSAutocert: as StartTLSAuto without the :80 listener. */
    function StartTLSAutocert(email: string, domains: string): (ls: seq<Listener>)
      reads this
      ensures ls == StartTLSAuto(email, domains)[1..]
    {
      [Listener(ConfiguredTLSServer(ManagerFor(email, domains)), Some(("", "")), false)]
    }

    /** StartRedirectAll: a background listener on port p whose only
        behaviour is the redirect to host. */
    function StartRedirectAll(p: Int64, host: string): (ls: seq<Listener>)
      ensures |ls| == 1 && ls[0].background && ls[0].tlsFiles.None?
      ensures ls[0].server == PlainServer(PortAddr(p), RedirectAll(host))
      ensures forall url :: RedirectOf(ls[0].server.handler, url) == Some(RedirectTarget(host, url))
    {
      [Listener(PlainServer(PortAddr(p), RedirectAll(host)), None, true)]
    }
  }

  /**
   * New: build the server for the given FRAG_ENV value, read the
   * configuration file, and, only when that succeeded, apply the -p flag.
   * The server is returned together with readConfig's error.
   */
  method New(fragEnv: string, file: ConfigFile, flagPort: Int64) returns (s: Server, err: Option<ConfigError>)
    ensures fresh(s)
    ensures s.production <==> fragEnv == "production"
    ensures !file.Loaded? ==> err.Some? && s.port == DefaultPort
    ensures file == Unreadable ==> err == Some(OpenError)
    ensures file == Malformed ==> err == Some(ReadError)
    ensures !file.Loaded? ==> s.configDevelopment == map[] && s.configProduction == map[] && s.configTest == map[]
    ensures file.Loaded? ==>
      && s.configDevelopment == Section(file.data, "development")
      && s.configProduction == Section(file.data, "production")
      && s.configTest == Section(file.data, "test")
    ensures file.Loaded? ==> s.Configuration() == Section(file.data, ActiveSection(s.production))
    ensures file.Loaded? && s.Config("port") != "" && !ParseInt64(s.Config("port")).Parsed? ==>
      err == Some(PortError(s.Config("port"))) && s.port == ParseValue(ParseInt64(s.Config("port")))
    ensures err == None <==>
      file.Loaded? && (s.Config("port") == "" || ParseInt64(s.Config("port")).Parsed?)
    ensures err == None ==> s.port == StartupPort(s.Config("port"), flagPort)
  {
    s := new Server(fragEnv);
    err := s.ReadConfig(file);
    if err != None {
      return;
    }
    s.ReadArguments(flagPort);
  }

  /** ConfigInt reads back any int64 stored in its decimal form. */
  lemma ConfigIntOfFormatted(s: Server, key: string, n: Int64)
    requires s.Config(key) == FormatInt(n)
    ensures s.ConfigInt(key) == n
  {
    FormatIntRoundTrip(n);
  }

  /** The port a successful construction ends with: the -p flag when it is
      positive, else the active configuration's port, else 3000. */
  function StartupPort(configPort: string, flagPort: Int64): Int64
  {
    if flagPort > 0 then flagPort
    else if configPort != "" && ParseInt64(configPort).Parsed? then ParseInt64(configPort).value
    else DefaultPort
  }

  /** The three cases of the precedence: config port 5000 with -p 6000, the
      config alone, and neither. */
  lemma PortPrecedence()
    ensures StartupPort("5000", 6000) == 6000
    ensures StartupPort("5000", 0) == 5000
    ensures StartupPort("", 0) == DefaultPort
  {
    FormatIntRoundTrip(5000);
    calc {
      FormatInt(5000);
      NatDigits(500) + "0";
      NatDigits(50) + "0" + "0";
      NatDigits(5) + "0" + "0" + "0";
      "5000";
    }
  }
}
