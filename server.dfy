/** The inference proxy of `server/cmd/server/main.go`: the configuration
    read from the environment by `newCfg`, and the request rewrite the
    proxy's director applies before forwarding a request to the inference
    service. */
module Server {
  import opened GoStrconv

  const PatVar := "GITHUB_MODELS_PAT"
  const UrlVar := "GITHUB_MODELS_URL"
  const FairUseVar := "FAIR_USE_TOKEN"
  const PortVar := "PORT"
  const Authorization := "Authorization"

  /** The process environment; a variable that is not in the map is unset. */
  type Env = map<string, string>

  /** `os.Getenv`: an unset variable reads as the empty string. */
  function Getenv(env: Env, name: string): string {
    if name in env then env[name] else ""
  }

  /** The part of a parsed `*url.URL` the model looks at. */
  datatype Url = Url(scheme: string, host: string, path: string)

  /** What `url.Parse` answers: a URL, or the text of its error. */
  datatype Parsed = Parsed(url: Url) | ParseFailed(cause: string)

  /** The `cfg` struct. */
  datatype Cfg = Cfg(accessToken: string, inferenceUrl: Url, fairUseToken: string, port: int)

  /** The errors `newCfg` can return. */
  datatype ConfigError =
    | NotSet(name: string)
    | BadUrl(cause: string)
    | BadPort(numError: NumError)

  datatype CfgResult = Configured(cfg: Cfg) | Failed(error: ConfigError)

  /** What the port error puts before the wrapped `Atoi` error. */
  const PortErrorPrefix := "Failed to parse given port value to int: "

  /** The text of each error, as `err.Error()` gives it. */
  function Message(e: ConfigError): string {
    match e
    case NotSet(name) => name + " environment variable not set"
    case BadUrl(cause) => "Failed to parse given URL string: " + cause
    case BadPort(e) => PortErrorPrefix + NumErrorMessage(e)
  }

  /** `newCfg()`: the access token, the URL, the fair-use token and the port
      are read and checked in that order, and the first check that fails
      decides the error; `parse` stands for `url.Parse`. A configuration
      holds the variables' own values, with the URL parsed and the port
      read as a decimal integer, and neither token is empty. */
  function NewCfg(env: Env, parse: string -> Parsed): (r: CfgResult)
    ensures r.Configured? ==>
              && r.cfg.accessToken == Getenv(env, PatVar) != ""
              && r.cfg.fairUseToken == Getenv(env, FairUseVar) != ""
              && parse(Getenv(env, UrlVar)) == Parsed(r.cfg.inferenceUrl)
              && Atoi(Getenv(env, PortVar)) == Ok(r.cfg.port)
  {
    var pat := Getenv(env, PatVar);
    if pat == "" then Failed(NotSet(PatVar))
    else
      var rawUrl := Getenv(env, UrlVar);
      if rawUrl == "" then Failed(NotSet(UrlVar))
      else
        match parse(rawUrl)
        case ParseFailed(cause) => Failed(BadUrl(cause))
        case Parsed(u) =>
          var fairUse := Getenv(env, FairUseVar);
          if fairUse == "" then Failed(NotSet(FairUseVar))
          else
            var port := Getenv(env, PortVar);
            if port == "" then Failed(NotSet(PortVar))
            else
              match Atoi(port)
              case Err(e) => Failed(BadPort(e))
              case Ok(n) => Configured(Cfg(pat, u, fairUse, n))
  }

  /** Each error is returned exactly when every check before it passed and
      its own check failed; a configuration is returned exactly when every
      check passed. */
  lemma ValidationOrder(env: Env, parse: string -> Parsed)
    ensures NewCfg(env, parse) == Failed(NotSet(PatVar)) <==> Getenv(env, PatVar) == ""
    ensures NewCfg(env, parse) == Failed(NotSet(UrlVar)) <==>
              Getenv(env, PatVar) != "" && Getenv(env, UrlVar) == ""
    ensures forall cause :: NewCfg(env, parse) == Failed(BadUrl(cause)) <==>
              Getenv(env, PatVar) != "" && Getenv(env, UrlVar) != "" && parse(Getenv(env, UrlVar)) == ParseFailed(cause)
    ensures NewCfg(env, parse) == Failed(NotSet(FairUseVar)) <==>
              Getenv(env, PatVar) != "" && Getenv(env, UrlVar) != "" && parse(Getenv(env, UrlVar)).Parsed?
              && Getenv(env, FairUseVar) == ""
    ensures NewCfg(env, parse) == Failed(NotSet(PortVar)) <==>
              Getenv(env, PatVar) != "" && Getenv(env, UrlVar) != "" && parse(Getenv(env, UrlVar)).Parsed?
              && Getenv(env, FairUseVar) != "" && Getenv(env, PortVar) == ""
    ensures forall e :: NewCfg(env, parse) == Failed(BadPort(e)) <==>
              Getenv(env, PatVar) != "" && Getenv(env, UrlVar) != "" && parse(Getenv(env, UrlVar)).Parsed?
              && Getenv(env, FairUseVar) != "" && Getenv(env, PortVar) != "" && Atoi(Getenv(env, PortVar)) == Err(e)
    ensures NewCfg(env, parse).Configured? <==>
              Getenv(env, PatVar) != "" && Getenv(env, UrlVar) != "" && parse(Getenv(env, UrlVar)).Parsed?
              && Getenv(env, FairUseVar) != "" && Getenv(env, PortVar) != "" && Atoi(Getenv(env, PortVar)).Ok?
  {
  }

  /** A variable set to the empty string is treated exactly like an unset
      one. */
  lemma EmptySameAsUnset(env: Env, name: string, parse: string -> Parsed)
    ensures NewCfg(env[name := ""], parse) == NewCfg(env - {name}, parse)
  {
    forall v ensures Getenv(env[name := ""], v) == Getenv(env - {name}, v) {
    }
  }

  /** The port of a configuration is the number the PORT text spells, and
      a PORT that is not a decimal `int64` is rejected with Atoi's error. */
  lemma PortIsParsed(env: Env, parse: string -> Parsed)
    ensures NewCfg(env, parse).Configured? ==>
              && WellFormed(Getenv(env, PortVar))
              && NewCfg(env, parse).cfg.port == Meaning(Getenv(env, PortVar))
              && MinInt64 <= NewCfg(env, parse).cfg.port <= MaxInt64
    ensures NewCfg(env, parse).Failed? && NewCfg(env, parse).error.BadPort? ==>
              && NewCfg(env, parse).error.numError.func == "Atoi"
              && NewCfg(env, parse).error.numError.num == Getenv(env, PortVar)
              && (!WellFormed(Getenv(env, PortVar)) || !(MinInt64 <= Meaning(Getenv(env, PortVar)) <= MaxInt64))
  {
    AtoiMeaning(Getenv(env, PortVar));
  }

  /** With the other three variables valid, a PORT written in decimal is the
      configured port, for every `int64`. */
  lemma PortRoundTrip(env: Env, parse: string -> Parsed, n: int)
    requires Getenv(env, PatVar) != "" && Getenv(env, UrlVar) != "" && parse(Getenv(env, UrlVar)).Parsed?
    requires Getenv(env, FairUseVar) != ""
    requires MinInt64 <= n <= MaxInt64
    ensures NewCfg(env[PortVar := Itoa(n)], parse).Configured?
    ensures NewCfg(env[PortVar := Itoa(n)], parse).cfg.port == n
  {
    var env' := env[PortVar := Itoa(n)];
    assert Getenv(env', PatVar) == Getenv(env, PatVar);
    assert Getenv(env', UrlVar) == Getenv(env, UrlVar);
    assert Getenv(env', FairUseVar) == Getenv(env, FairUseVar);
    assert Getenv(env', PortVar) == Itoa(n);
    AtoiItoa(n);
  }

  /** The text `main` logs for an unset variable names that variable, which
      is one of the four `newCfg` reads and is unset or empty. */
  lemma UnsetMessage(env: Env, parse: string -> Parsed)
    requires NewCfg(env, parse).Failed? && NewCfg(env, parse).error.NotSet?
    ensures var n := NewCfg(env, parse).error.name;
            && (n == PatVar || n == UrlVar || n == FairUseVar || n == PortVar)
            && Getenv(env, n) == ""
            && Message(NewCfg(env, parse).error) == n + " environment variable not set"
  {
  }

  /** The text `main` logs for a bad port wraps the message of Atoi's own
      error on the PORT text. A well-formed PORT can only be out of range; a
      PORT that, after its optional sign, does not start with a digit is a
      syntax error. */
  lemma PortErrorMessage(env: Env, parse: string -> Parsed)
    requires NewCfg(env, parse).Failed? && NewCfg(env, parse).error.BadPort?
    ensures var e := NewCfg(env, parse).error.numError;
            && Message(NewCfg(env, parse).error) == PortErrorPrefix + NumErrorMessage(e)
            && e == Atoi(Getenv(env, PortVar)).error
            && e.func == "Atoi" && e.num == Getenv(env, PortVar)
    ensures WellFormed(Getenv(env, PortVar)) ==> NewCfg(env, parse).error.numError.err == Range
    ensures var port := Getenv(env, PortVar);
            var body := if port[0] == '+' || port[0] == '-' then port[1..] else port;
            body == [] || !IsDigit(body[0]) ==> NewCfg(env, parse).error.numError.err == Syntax
  {
    var port := Getenv(env, PortVar);
    assert port != [] && NewCfg(env, parse).error == BadPort(Atoi(port).error);
    AtoiMeaning(port);
    AtoiErrorKind(port);
  }

  /** `strings.HasSuffix(s, t)`. */
  predicate HasSuffix(s: string, t: string) {
    |t| <= |s| && s[|s| - |t|..] == t
  }

  /** `HasSuffix` means that `s` is something followed by `t`. */
  lemma HasSuffixMeans(s: string, t: string)
    ensures HasSuffix(s, t) <==> exists u :: s == u + t
  {
    if HasSuffix(s, t) {
      assert s == s[..|s| - |t|] + t;
    }
    if exists u :: s == u + t {
      var u :| s == u + t;
      assert s[|s| - |t|..] == t;
    }
  }

  /** Request headers, keyed by canonical header name. */
  type Header = map<string, seq<string>>

  /** `Header.Get`: the first value of the key, or "" when there is none. */
  function HeaderGet(h: Header, key: string): string {
    if key in h && h[key] != [] then h[key][0] else ""
  }

  /** The rule of the director: the request carries the fair-use token when
      its Authorization value ends with it. */
  predicate UsesFairUseToken(c: Cfg, h: Header) {
    HasSuffix(HeaderGet(h, Authorization), c.fairUseToken)
  }

  /** The headers after the director: a request that ends its Authorization
      value with the fair-use token is authorized with the access token
      instead (`Header.Set` leaves that one value); every other header, and
      every other request, is left as it was. */
  function Rewrite(c: Cfg, h: Header): (r: Header)
    ensures UsesFairUseToken(c, h) ==> Authorization in r && r[Authorization] == ["Bearer " + c.accessToken]
    ensures !UsesFairUseToken(c, h) ==> r == h
    ensures forall k :: k != Authorization ==> (k in r <==> k in h)
    ensures forall k :: k in h && k != Authorization ==> r[k] == h[k]
  {
    if UsesFairUseToken(c, h) then h[Authorization := ["Bearer " + c.accessToken]] else h
  }

  /** A request whose Authorization value is any text followed by the
      fair-use token is forwarded with the access token. */
  lemma FairUseTokenIsExchanged(c: Cfg, h: Header, u: string)
    requires HeaderGet(h, Authorization) == u + c.fairUseToken
    ensures HeaderGet(Rewrite(c, h), Authorization) == "Bearer " + c.accessToken
  {
    HasSuffixMeans(HeaderGet(h, Authorization), c.fairUseToken);
  }

  /** With a configuration `newCfg` returned, a request without an
      Authorization value is never given the access token: the rewrite does
      not fire merely because the fair-use token is empty. */
  lemma NoAuthorizationNoExchange(env: Env, parse: string -> Parsed, h: Header)
    requires NewCfg(env, parse).Configured?
    requires HeaderGet(h, Authorization) == ""
    ensures Rewrite(NewCfg(env, parse).cfg, h) == h
  {
  }

  /** The fields of `*http.Request` that the director writes. */
  class Request {
    var header: Header
    var host: string

    constructor (header: Header, host: string)
      ensures this.header == header && this.host == host
    {
      this.header := header;
      this.host := host;
    }
  }

  /** The `proxy.Director` closure of `getProxy`, after the default director
      of the reverse proxy has run: it exchanges the fair-use token for the
      access token and always sends the request to the inference host. */
  method Director(c: Cfg, req: Request)
    modifies req
    ensures req.header == Rewrite(c, old(req.header))
    ensures req.host == c.inferenceUrl.host
  {
    if HasSuffix(HeaderGet(req.header, Authorization), c.fairUseToken) {
      req.header := req.header[Authorization := ["Bearer " + c.accessToken]];
    }
    req.host := c.inferenceUrl.host;
  }
}
