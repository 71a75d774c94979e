/**
  The decision rules of the launcher's web front end (cogs/AstroWebServer.py): the
  password-hash bootstrap and login, the pages' redirects, the status API's log tail and
  admin filter, the busy gate of the three admin endpoints, and the listen URL.

  Requests arrive as their inputs: `login` is the value of the secure "login" cookie
  (`None` when absent or invalid), and SHA-256 is the parameter `sha256`, a function to
  64-character hex digests.
 */
module Web {
  import opened Wrappers
  import opened Text
  import opened Presence
  import Supervisor

  /** A `hexdigest()` of SHA-256: 64 characters (FIPS 180-4 digests are 256 bits). */
  type HexDigest = s: string | |s| == 64
    witness "0000000000000000000000000000000000000000000000000000000000000000"

  /** The cookie value that marks an administrator. */
  const AdminCookie: string := "admin"

  predicate IsAdmin(login: Option<string>)
  {
    login == Some(AdminCookie)
  }

  /** A stored password hash is either unset ("") or a full digest. */
  predicate WellFormedHash(h: string)
  {
    h == "" || |h| == 64
  }

  /** The check in `WebServer.__init__`: a configured hash whose length is not 64 is
      dropped, so the hash in use is always unset or a full digest. */
  function CheckedHash(configured: string): (h: string)
    ensures WellFormedHash(h)
    ensures h == configured || h == ""
    ensures |configured| == 64 ==> h == configured
  {
    if |configured| != 64 then "" else configured
  }

  /** A page the handlers render. */
  datatype Page =
    | IndexPage(isAdmin: bool, title: string)
    | LoginPage(isAdmin: bool, hashSet: bool, title: string)

  /** The settings the status API exposes. */
  datatype SettingsView = SettingsView(
    MaxServerFramerate: Option<string>,
    PublicIP: Option<string>,
    ServerName: Option<string>,
    MaximumPlayerCount: Option<string>,
    OwnerName: Option<string>,
    Port: Option<string>)

  /** The JSON document of `APIRequestHandler.get`, without `status` and `stats`. */
  datatype StatusReply = StatusReply(admin: bool, settings: SettingsView, players: Option<PlayerList>, logs: string)

  /** What a handler sends back. */
  datatype Reply =
    | Render(page: Page)
    | Redirect(location: string)
    | Message(message: string)
    | Status(status: StatusReply)

  /** `MainHandler.get`: the status page, or the login page while no password is set. */
  function MainGet(passwordHash: string, login: Option<string>, settings: Supervisor.ServerSettings): (r: Reply)
    ensures r == Redirect("/login") <==> passwordHash == ""
    ensures passwordHash != "" ==> r.Render?
    ensures r.Render? ==> r.page.IndexPage? && r.page.isAdmin == IsAdmin(login)
    ensures r.Render? ==> r.page.title == "Dedicated Server Status for " + Supervisor.AddressKey(settings)
  {
    if passwordHash != "" then
      Render(IndexPage(IsAdmin(login), "Dedicated Server Status for " + Supervisor.PyStr(settings.PublicIP) + ":" + Supervisor.PyStr(settings.Port)))
    else Redirect("/login")
  }

  /** `LoginHandler.get`: administrators go home, everyone else sees the login form, told
      whether a password has been chosen yet. */
  function LoginGet(passwordHash: string, login: Option<string>): (r: Reply)
    ensures r == Redirect("/") <==> IsAdmin(login)
    ensures !IsAdmin(login) ==> r.Render?
    ensures r.Render? ==> r.page.LoginPage? && !r.page.isAdmin && (r.page.hashSet <==> passwordHash != "")
  {
    if !IsAdmin(login) then Render(LoginPage(IsAdmin(login), passwordHash != "", "Dedicated Server Status Login"))
    else Redirect("/")
  }

  /** `LogoutHandler.get`: forget the login cookie and go home. */
  function LogoutGet(login: Option<string>): (r: (Option<string>, Reply))
    ensures r.0 == None && r.1 == Redirect("/")
  {
    (None, Redirect("/"))
  }

  /** The effect of one `LoginHandler.post`: the hash in use afterwards, the hash handed to
      the launcher configuration (if any), the login cookie afterwards, and the reply. */
  datatype LoginResult = LoginResult(passwordHash: string, storedHash: Option<string>, login: Option<string>, reply: Reply)

  /** `LoginHandler.post`: the first post chooses the password, later ones check it. */
  function Login(passwordHash: string, login: Option<string>, password: string, sha256: string -> HexDigest): (r: LoginResult)
    ensures passwordHash == "" ==>
              r.passwordHash == sha256(password) && r.storedHash == Some(sha256(password)) &&
              r.login == login && r.reply == Redirect("/login")
    ensures passwordHash != "" ==> r.passwordHash == passwordHash && r.storedHash == None
    ensures passwordHash != "" ==> (r.reply == Redirect("/") <==> sha256(password) == passwordHash)
    ensures passwordHash != "" ==> (r.login == Some(AdminCookie) || r.login == login)
    ensures passwordHash != "" && sha256(password) != passwordHash ==> r.login == login && r.reply == Redirect("/login")
    ensures WellFormedHash(passwordHash) ==> WellFormedHash(r.passwordHash)
  {
    if passwordHash == "" then
      var h := sha256(password);
      LoginResult(h, Some(h), login, Redirect("/login"))
    else
      var sent := sha256(password);
      if sent == passwordHash then LoginResult(passwordHash, None, Some(AdminCookie), Redirect("/"))
      else LoginResult(passwordHash, None, login, Redirect("/login"))
  }

  /** Choosing a password and then posting it again logs in as administrator. */
  lemma ChosenPasswordLogsIn(password: string, sha256: string -> HexDigest, login: Option<string>)
    ensures var chosen := Login("", login, password, sha256);
            var again := Login(chosen.passwordHash, chosen.login, password, sha256);
            IsAdmin(again.login) && again.reply == Redirect("/")
  {
  }

  /** Once a password is chosen, only a password with the same digest grants the cookie. */
  lemma OnlyMatchingPasswordLogsIn(passwordHash: string, login: Option<string>, password: string, sha256: string -> HexDigest)
    requires passwordHash != "" && !IsAdmin(login)
    ensures IsAdmin(Login(passwordHash, login, password, sha256).login) <==> sha256(password) == passwordHash
  {
  }

  /** The three admin endpoints. */
  datatype Endpoint = SaveEndpoint | RebootEndpoint | ShutdownEndpoint

  /** The action a thread is started on: the target and the arguments the handler passes. */
  datatype Job = SaveGame | SaveAndShutdown | KillServer(reason: string, second: bool)

  function JobFor(e: Endpoint): Job
  {
    match e
    case SaveEndpoint => SaveGame
    case RebootEndpoint => SaveAndShutdown
    case ShutdownEndpoint => KillServer("Website Request", true)
  }

  /** The outcome of one admin post: the message, the new `busy` flag, the started job. */
  datatype GateResult = GateResult(message: string, busy: bool, job: Option<Job>)

  /** The gate shared by `SaveRequestHandler`, `RebootRequestHandler` and
      `ShutdownRequestHandler`: authenticate, then start a job only when not busy. */
  function Gate(isAdmin: bool, busy: bool, e: Endpoint): (g: GateResult)
    ensures !isAdmin ==> g.message == "Not Authenticated" && g.busy == busy && g.job == None
    ensures isAdmin ==> g.message == "Success" && g.busy
    ensures isAdmin ==> (g.job.Some? <==> !busy)
    ensures g.job.Some? ==> g.job.value == JobFor(e)
  {
    if isAdmin then
      if !busy then GateResult("Success", true, Some(JobFor(e)))
      else GateResult("Success", busy, None)
    else GateResult("Not Authenticated", busy, None)
  }

  /** Two admin posts in a row start at most one job, since nothing in cogs/AstroDedicatedServer.py or cogs/AstroWebServer.py resets `busy`. */
  lemma GateIsSingleFlight(busy: bool, first: Endpoint, second: Endpoint)
    ensures Gate(true, Gate(true, busy, first).busy, second).job == None
  {
  }

  /** `APIRequestHandler.get` keeps this many log lines. */
  const LogLines: nat := 200

  /** Python's `xs[-n:]`; for `n == 0` that slice is the whole list. */
  function LastN<T>(xs: seq<T>, n: nat): (r: seq<T>)
    ensures n > 0 ==> |r| == if |xs| < n then |xs| else n
    ensures n == 0 ==> r == xs
    ensures |r| <= |xs| && r == xs[|xs| - |r|..]
  {
    if n == 0 || |xs| <= n then xs else xs[|xs| - n..]
  }

  /** `'\n'.join(logs.split('\n')[-200:])`. */
  function LogTail(logs: string): string
  {
    Join(LastN(Split(logs, '\n'), LogLines), '\n')
  }

  /** The tail's lines are exactly the last (at most 200) lines of the log. */
  lemma LogTailLines(logs: string)
    ensures Split(LogTail(logs), '\n') == LastN(Split(logs, '\n'), LogLines)
    ensures |Split(LogTail(logs), '\n')| <= LogLines
  {
    var lines := Split(logs, '\n');
    var kept := LastN(lines, LogLines);
    assert forall i :: 0 <= i < |kept| ==> kept[i] == lines[|lines| - |kept| + i];
    SplitJoin(kept, '\n');
  }

  /** A log of at most 200 lines is returned whole. */
  lemma LogTailOfShortLog(logs: string)
    requires |Split(logs, '\n')| <= LogLines
    ensures LogTail(logs) == logs
  {
    JoinSplit(logs, '\n');
  }

  /** The tail is the end of the log. */
  lemma LogTailIsSuffix(logs: string)
    ensures |LogTail(logs)| <= |logs|
    ensures logs[|logs| - |LogTail(logs)|..] == LogTail(logs)
  {
    var lines := Split(logs, '\n');
    JoinSplit(logs, '\n');
    if |lines| > LogLines {
      var head := lines[..|lines| - LogLines];
      var tail := lines[|lines| - LogLines..];
      assert lines == head + tail;
      JoinAppend(head, tail, '\n');
      assert logs == Join(head, '\n') + ['\n'] + LogTail(logs);
    }
  }

  /** `APIRequestHandler.get`: the status document; only administrators get the log. */
  function ApiGet(login: Option<string>, logs: string, settings: Supervisor.ServerSettings,
                  players: Option<PlayerList>): (r: StatusReply)
    ensures r.admin == IsAdmin(login)
    ensures !IsAdmin(login) ==> r.logs == ""
    ensures IsAdmin(login) ==> r.logs == LogTail(logs)
    ensures IsAdmin(login) ==> |Split(r.logs, '\n')| <= LogLines
    ensures IsAdmin(login) ==> |r.logs| <= |logs| && r.logs == logs[|logs| - |r.logs|..]
    ensures r.players == players
    ensures r.settings == SettingsView(settings.MaxServerFramerate, settings.PublicIP, settings.ServerName,
                                       settings.MaximumPlayerCount, settings.OwnerName, settings.Port)
  {
    LogTailLines(logs);
    LogTailIsSuffix(logs);
    var tail := LogTail(logs);
    StatusReply(
      IsAdmin(login),
      SettingsView(settings.MaxServerFramerate, settings.PublicIP, settings.ServerName,
                   settings.MaximumPlayerCount, settings.OwnerName, settings.Port),
      players,
      if IsAdmin(login) then tail else "")
  }

  /** Whether `run` serves HTTPS: enabled in the launcher configuration and both the key
      and the certificate file exist. */
  function UsesSsl(enabled: bool, keyExists: bool, certExists: bool): bool
  {
    enabled && keyExists && certExists
  }

  /** The URL `run` announces. */
  function ListenUrl(ssl: bool, port: int, sslPort: int): string
  {
    if ssl then "https://localhost" + (if sslPort != 443 then ":" + IntToDecimal(sslPort) else "")
    else "http://localhost" + (if port != 80 then ":" + IntToDecimal(port) else "")
  }

  /** The port is left out of the URL exactly when it is the scheme's default, and when
      it is written, the digits after "localhost:" read back as the port. */
  lemma ListenUrlPortSuffix(ssl: bool, port: int, sslPort: int)
    ensures var p := if ssl then sslPort else port;
            var base := if ssl then "https://localhost" else "http://localhost";
            var url := ListenUrl(ssl, port, sslPort);
            (url == base <==> p == (if ssl then 443 else 80)) &&
            (url != base ==> |url| > |base| + 1 && url[..|base| + 1] == base + ":" &&
                             (p >= 0 ==> DecimalValue(url[|base| + 1..]) == p))
  {
    var p := if ssl then sslPort else port;
    var base := if ssl then "https://localhost" else "http://localhost";
    var url := ListenUrl(ssl, port, sslPort);
    if p != (if ssl then 443 else 80) {
      assert url == base + ":" + IntToDecimal(p);
      assert url[|base| + 1..] == IntToDecimal(p);
      if p >= 0 {
        DecimalRoundTrip(p);
      }
    }
  }

  /** The web server object: the hash in use, the launcher configuration's copy of it,
      whether the configuration was rewritten at start-up, the HTTP port and the SSL flag. */
  class WebServer {
    var passwordHash: string
    var launcherHash: string
    var configRewritten: bool
    var port: int
    var ssl: bool

    ghost predicate Valid()
      reads this
    {
      WellFormedHash(passwordHash)
    }

    /** `__init__`: take the configured hash, dropping (and clearing in the configuration)
        one whose length is not 64. */
    constructor (configuredHash: string, webServerPort: int)
      ensures Valid()
      ensures passwordHash == CheckedHash(configuredHash)
      ensures |configuredHash| != 64 ==> launcherHash == "" && configRewritten
      ensures |configuredHash| == 64 ==> launcherHash == configuredHash && !configRewritten
      ensures port == webServerPort && !ssl
    {
      port := webServerPort;
      ssl := false;
      passwordHash := configuredHash;
      launcherHash := configuredHash;
      configRewritten := false;
      new;
      if |passwordHash| != 64 {
        passwordHash := "";
        launcherHash := "";
        configRewritten := true;
      }
    }

    /** `run`: decide on SSL and announce the URL. The certificate and key file names are
        only assigned when SSL is enabled, so a call that finds `ssl` already set by an
        earlier call while SSL is now disabled raises `UnboundLocalError`. */
    method Run(sslEnabled: bool, keyExists: bool, certExists: bool, sslPort: int)
      returns (url: Outcome<string>)
      modifies this`ssl
      ensures ssl == (old(ssl) || UsesSsl(sslEnabled, keyExists, certExists))
      ensures url.Raised? <==> old(ssl) && !sslEnabled
      ensures url.Returned? ==> url.value == ListenUrl(ssl, port, sslPort)
    {
      if sslEnabled && keyExists && certExists {
        ssl := true;
      }
      if ssl && !sslEnabled {
        return Raised;
      }
      url := Returned(ListenUrl(ssl, port, sslPort));
    }

    /** `LoginHandler.post`. */
    method LoginPost(login: Option<string>, password: string, sha256: string -> HexDigest)
      returns (loginAfter: Option<string>, reply: Reply)
      requires Valid()
      modifies this`passwordHash, this`launcherHash
      ensures Valid()
      ensures var r := Login(old(passwordHash), login, password, sha256);
              passwordHash == r.passwordHash && loginAfter == r.login && reply == r.reply &&
              launcherHash == (if r.storedHash.Some? then r.storedHash.value else old(launcherHash))
    {
      loginAfter := login;
      if passwordHash == "" {
        passwordHash := sha256(password);
        launcherHash := passwordHash;
        reply := Redirect("/login");
      } else {
        var sendHash := sha256(password);
        if sendHash == passwordHash {
          loginAfter := Some(AdminCookie);
          reply := Redirect("/");
        } else {
          reply := Redirect("/login");
        }
      }
    }
  }

  /** A post to one of the admin endpoints; the job is the thread it starts. */
  method AdminPost(server: Supervisor.AstroDedicatedServer, login: Option<string>, e: Endpoint)
    returns (reply: Reply, job: Option<Job>)
    modifies server`busy
    ensures var g := Gate(IsAdmin(login), old(server.busy), e);
            reply == Message(g.message) && server.busy == g.busy && job == g.job
  {
    job := None;
    if login == Some(AdminCookie) {
      if !server.busy {
        server.busy := true;
        job := Some(JobFor(e));
      }
      reply := Message("Success");
    } else {
      reply := Message("Not Authenticated");
    }
  }
}
