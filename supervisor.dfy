/**
  The dedicated-server supervisor of cogs/AstroDedicatedServer.py: its settings, the
  address key it registers under, one iteration of the polling loop, the clean-up of
  directory registrations and the kill sequence.

  Calls into code outside the supervisor (the console query, the directory HTTP API,
  process spawning and killing) are not executed: their answers arrive as parameters, and
  every call the supervisor issues is appended, in order, to the field `effects`.
 */
module Supervisor {
  import opened Wrappers
  import opened Presence

  /** The fields of `ServerSettings` that the supervisor and the web front end read.
      `None` is the dataclass default. */
  datatype ServerSettings = ServerSettings(
    PublicIP: Option<string>,
    Port: Option<string>,
    ServerName: Option<string>,
    MaximumPlayerCount: Option<string>,
    OwnerName: Option<string>,
    ServerGuid: Option<string>,
    MaxServerFramerate: Option<string>,
    ConsolePort: Option<string>)

  /** `ServerSettings()`: every field at its default `None`. */
  function DefaultSettings(): ServerSettings
  {
    ServerSettings(None, None, None, None, None, None, None, None)
  }

  /** How an f-string renders an optional string: `None` prints as "None". */
  function PyStr(v: Option<string>): string
  {
    match v
    case None => "None"
    case Some(s) => s
  }

  /** `f'{PublicIP}:{Port}'`, the key the directory service knows this server by. */
  function AddressKey(s: ServerSettings): (key: string)
    ensures |key| == |PyStr(s.PublicIP)| + 1 + |PyStr(s.Port)|
    ensures key[|PyStr(s.PublicIP)|] == ':'
    ensures key[..|PyStr(s.PublicIP)|] == PyStr(s.PublicIP)
    ensures key[|PyStr(s.PublicIP)| + 1..] == PyStr(s.Port)
  {
    PyStr(s.PublicIP) + ":" + PyStr(s.Port)
  }

  /** The position of the last ':' in a string, if any. */
  function LastColon(k: string): (r: Option<nat>)
    ensures r.Some? ==> r.value < |k| && k[r.value] == ':'
    ensures r.Some? ==> forall i :: r.value < i < |k| ==> k[i] != ':'
    ensures r.None? ==> ':' !in k
  {
    if k == [] then None
    else if k[|k| - 1] == ':' then Some(|k| - 1)
    else LastColon(k[..|k| - 1])
  }

  /** The address key splits back into address and port at its last ':' whenever the
      port has no ':' in it (an address may, as IPv6 ones do). */
  lemma AddressKeySplits(s: ServerSettings)
    requires ':' !in PyStr(s.Port)
    ensures LastColon(AddressKey(s)) == Some(|PyStr(s.PublicIP)|)
    ensures AddressKey(s)[..|PyStr(s.PublicIP)|] == PyStr(s.PublicIP)
    ensures AddressKey(s)[|PyStr(s.PublicIP)| + 1..] == PyStr(s.Port)
  {
    var key := AddressKey(s);
    var c := |PyStr(s.PublicIP)|;
    assert forall i :: c < i < |key| ==> key[i] == PyStr(s.Port)[i - c - 1];
    assert key[c] == ':';
  }

  /** The corrected `serverGUID` rule: the configured GUID, or "REGISTER" when it is empty. */
  function ServerGuidFor(settings: ServerSettings): (guid: Option<string>)
    ensures guid != Some("")
    ensures settings.ServerGuid != Some("") ==> guid == settings.ServerGuid
    ensures settings.ServerGuid == Some("") ==> guid == Some("REGISTER")
  {
    if settings.ServerGuid != Some("") then settings.ServerGuid else Some("REGISTER")
  }

  /** `serverGUID` as written: the rule is applied to the defaults that exist before
      `refresh_settings` has run, not to the loaded settings. */
  function ServerGuidAsWritten(loaded: ServerSettings): Option<string>
  {
    ServerGuidFor(DefaultSettings())
  }

  /** As written, the configured GUID never reaches `serverGUID`. */
  lemma ServerGuidAsWrittenIgnoresConfig(loaded: ServerSettings)
    ensures ServerGuidAsWritten(loaded) == None
    ensures loaded.ServerGuid == Some("abc") ==> ServerGuidAsWritten(loaded) != ServerGuidFor(loaded)
  {
  }

  /** The supervised process as `subprocess.Popen` exposes it: `poll()` is `None` while it runs. */
  datatype ProcessStatus = NotStarted | Running(pid: nat) | Exited(pid: nat, code: int)

  /** One record of the directory's `['data']['Games']` list. */
  datatype GameRecord = GameRecord(LobbyID: string)

  /** The directory service's answers: the records found for this address (`None` when the
      query raised), and the lobby ids whose deregistration raises. */
  datatype Directory = Directory(games: Option<seq<GameRecord>>, rejected: set<string>)

  /** A call the supervisor issues to something outside it. */
  datatype Effect =
    | Spawn(dir: string, exe: string, args: seq<string>)   // subprocess.Popen
    | Poll(pid: nat)                                       // process.poll()
    | ListPlayers(consolePort: Option<string>)             // AstroRCON.DSListPlayers
    | GetServer(key: string)                               // AstroAPI.get_server
    | Deregister(lobbyId: string)                          // AstroAPI.deregister_server
    | ListChildren(pid: nat)                               // psutil.Process(pid).children()
    | KillChild(pid: nat)                                  // child.kill()
    | KillSelf                                             // os.kill(os.getpid(), 9)

  /** What one iteration of `server_loop` ends with: the `AttributeError` raised when no
      process was ever started, the restart hand-off, no report, a reported join or leave,
      or the `IndexError` raised when the difference is empty. */
  datatype StepOutcome =
    | AttributeError | Restart | NotReady | NoChange | Joined(name: string) | Left(name: string) | IndexError

  /** The items a loop of calls reaches when it stops at the first call that raises:
      every item up to and including the first failing one. */
  function Attempted<T>(items: seq<T>, failing: set<T>): (reached: seq<T>)
    ensures |reached| <= |items|
    ensures forall i :: 0 <= i < |reached| ==> reached[i] == items[i]
  {
    if items == [] then []
    else if items[0] in failing then [items[0]]
    else [items[0]] + Attempted(items[1..], failing)
  }

  /** When no call fails, every item is reached. */
  lemma {:induction false} AttemptedAll<T>(items: seq<T>, failing: set<T>)
    requires forall i :: 0 <= i < |items| ==> items[i] !in failing
    ensures Attempted(items, failing) == items
  {
    if items != [] {
      AttemptedAll(items[1..], failing);
    }
  }

  /** The loop stops right after the first failing call. */
  lemma {:induction false} AttemptedStops<T>(items: seq<T>, failing: set<T>, k: nat)
    requires k < |items| && items[k] in failing
    requires forall i :: 0 <= i < k ==> items[i] !in failing
    ensures Attempted(items, failing) == items[..k + 1]
  {
    if k > 0 {
      AttemptedStops(items[1..], failing, k - 1);
      assert items[..k + 1] == [items[0]] + items[1..][..k];
    }
  }

  /** `[x['LobbyID'] for x in servers_registered]`. */
  function LobbyIds(games: seq<GameRecord>): seq<string>
  {
    seq(|games|, i requires 0 <= i < |games| => games[i].LobbyID)
  }

  /** One deregistration call per lobby id, in order. */
  function DeregisterCalls(ids: seq<string>): seq<Effect>
  {
    seq(|ids|, i requires 0 <= i < |ids| => Deregister(ids[i]))
  }

  lemma DeregisterCallsSnoc(ids: seq<string>, id: string)
    ensures DeregisterCalls(ids + [id]) == DeregisterCalls(ids) + [Deregister(id)]
  {
  }

  lemma KillCallsSnoc(pids: seq<nat>, pid: nat)
    ensures KillCalls(pids + [pid]) == KillCalls(pids) + [KillChild(pid)]
  {
  }

  /** One kill call per child process, in order. */
  function KillCalls(pids: seq<nat>): seq<Effect>
  {
    seq(|pids|, i requires 0 <= i < |pids| => KillChild(pids[i]))
  }

  /** The calls `deregister_all_server` issues: the query, then one deregistration per
      record until one raises. */
  function DeregisterTrace(key: string, dir: Directory): seq<Effect>
  {
    [GetServer(key)] +
    (if dir.games.Some? then DeregisterCalls(Attempted(LobbyIds(dir.games.value), dir.rejected)) else [])
  }

  /** Every record's deregistration goes through. */
  predicate AllAccepted(games: seq<GameRecord>, rejected: set<string>)
  {
    forall i :: 0 <= i < |games| ==> games[i].LobbyID !in rejected
  }

  /** What `deregister_all_server` returns: the lobby ids, or an escaped exception. */
  function DeregisterResult(dir: Directory): Outcome<seq<string>>
  {
    if dir.games.Some? && AllAccepted(dir.games.value, dir.rejected)
    then Returned(LobbyIds(dir.games.value))
    else Raised
  }

  /** When the query answers and every deregistration goes through, exactly one
      deregistration is issued per record, in query order, after the query, and the
      records' lobby ids are returned. */
  lemma DeregisterAllIssuesOnePerRecord(key: string, dir: Directory)
    requires dir.games.Some? && AllAccepted(dir.games.value, dir.rejected)
    ensures DeregisterTrace(key, dir) == [GetServer(key)] + DeregisterCalls(LobbyIds(dir.games.value))
    ensures |DeregisterTrace(key, dir)| == 1 + |dir.games.value|
    ensures DeregisterResult(dir) == Returned(LobbyIds(dir.games.value))
  {
    AttemptedAll(LobbyIds(dir.games.value), dir.rejected);
  }

  /** An empty query result gives `[]` and issues no deregistration. */
  lemma DeregisterAllOnEmptyQuery(key: string, rejected: set<string>)
    ensures DeregisterTrace(key, Directory(Some([]), rejected)) == [GetServer(key)]
    ensures DeregisterResult(Directory(Some([]), rejected)) == Returned([])
  {
  }

  /** The calls of `kill_server`'s second step: enumerate the children of the supervised
      process (only when there is one) and kill them one by one until a kill raises. */
  function ChildKillTrace(process: ProcessStatus, children: Option<seq<nat>>, failing: set<nat>): seq<Effect>
  {
    if process.NotStarted? then []
    else [ListChildren(process.pid)] + (if children.Some? then KillCalls(Attempted(children.value, failing)) else [])
  }

  /** All calls of `kill_server`: deregistration, child kills, then the self-kill. */
  function KillTrace(key: string, process: ProcessStatus, dir: Directory,
                     children: Option<seq<nat>>, failing: set<nat>): seq<Effect>
  {
    DeregisterTrace(key, dir) + ChildKillTrace(process, children, failing) + [KillSelf]
  }

  lemma KillTraceSplits(before: seq<Effect>, key: string, process: ProcessStatus, dir: Directory,
                        children: Option<seq<nat>>, failing: set<nat>)
    ensures before + DeregisterTrace(key, dir) + ChildKillTrace(process, children, failing) + [KillSelf] ==
            before + KillTrace(key, process, dir, children, failing)
  {
  }

  /** Whatever the directory and the child processes do, the kill sequence enumerates the
      children of a started process and ends with the self-kill. */
  lemma KillAlwaysReachesLaterSteps(key: string, process: ProcessStatus, dir: Directory,
                                    children: Option<seq<nat>>, failing: set<nat>)
    ensures var t := KillTrace(key, process, dir, children, failing);
            t[|t| - 1] == KillSelf && t[0] == GetServer(key)
    ensures !process.NotStarted? ==>
            ListChildren(process.pid) == KillTrace(key, process, dir, children, failing)[|DeregisterTrace(key, dir)|]
    ensures children.Some? && !process.NotStarted? && (forall i :: 0 <= i < |children.value| ==> children.value[i] !in failing) ==>
            KillTrace(key, process, dir, children, failing) ==
            DeregisterTrace(key, dir) + [ListChildren(process.pid)] + KillCalls(children.value) + [KillSelf]
  {
    if children.Some? && (forall i :: 0 <= i < |children.value| ==> children.value[i] !in failing) {
      AttemptedAll(children.value, failing);
    }
  }

  /** The supervisor object. Fields keep the source's names. */
  class AstroDedicatedServer {
    var astroPath: string
    var settings: ServerSettings
    var ipPortCombo: Option<string>
    var process: ProcessStatus
    /** The last console reply; `None` stands for the initial empty dict `{}`. */
    var players: Option<PlayerList>
    var onlinePlayers: seq<string>
    var registered: bool
    var LobbyID: Option<string>
    var serverGUID: Option<string>
    var ready: bool
    /** The single-flight flag the web front end's admin endpoints test and set. */
    var busy: bool
    /** Every call issued outside the supervisor, oldest first. */
    var effects: seq<Effect>

    /** After construction the address key always matches the settings. */
    ghost predicate Valid()
      reads this
    {
      ipPortCombo == Some(AddressKey(settings))
    }

    /** `__init__`, including its `refresh_settings()` call; `loaded` is what the settings
        loader returns. `serverGUID` follows the corrected rule (see `ServerGuidAsWritten`). */
    constructor (astroPath: string, loaded: ServerSettings)
      ensures Valid()
      ensures this.astroPath == astroPath && settings == loaded
      ensures players == None && onlinePlayers == []
      ensures !registered && LobbyID == None && !ready
      ensures serverGUID == ServerGuidFor(loaded)
      ensures process == NotStarted && effects == []
    {
      this.astroPath := astroPath;
      settings := DefaultSettings();
      ipPortCombo := None;
      process := NotStarted;
      players := None;
      onlinePlayers := [];
      registered := false;
      LobbyID := None;
      ready := false;
      effects := [];
      settings := loaded;
      ipPortCombo := Some(AddressKey(loaded));
      serverGUID := ServerGuidFor(loaded);
    }

    /** `refresh_settings`: take the loaded settings and recompute the address key. */
    method RefreshSettings(loaded: ServerSettings)
      modifies this`settings, this`ipPortCombo
      ensures Valid()
      ensures settings == loaded && ipPortCombo == Some(AddressKey(loaded))
    {
      settings := loaded;
      ipPortCombo := Some(AddressKey(settings));
    }

    /** `start`: launch `AstroServer.exe -log` from the server directory. `spawned` is the
        identifier the operating system gives the new process, or `None` when `Popen`
        raises (the executable is missing, say); the supervisor then keeps its old process. */
    method Start(spawned: Option<nat>) returns (out: Outcome<nat>)
      modifies this`process, this`effects
      ensures effects == old(effects) + [Spawn(astroPath, "AstroServer.exe", ["-log"])]
      ensures spawned.Some? ==> process == Running(spawned.value) && out == Returned(spawned.value)
      ensures spawned.None? ==> process == old(process) && out == Raised
    {
      effects := effects + [Spawn(astroPath, "AstroServer.exe", ["-log"])];
      if spawned.None? {
        return Raised;
      }
      process := Running(spawned.value);
      out := Returned(spawned.value);
    }

    /** One iteration of `server_loop`. `exitCode` is what `process.poll()` answers for a
        process that was running (`None` while it still runs); a process already known to
        have exited answers its own code again. `poll` is what the console query answers, if
        it is made: `None` while the server is not ready. */
    method ServerLoopStep(exitCode: Option<int>, poll: Option<PlayerList>) returns (out: StepOutcome)
      modifies this`process, this`players, this`onlinePlayers, this`effects
      ensures old(process).NotStarted? ==>
                out == AttributeError && process == old(process) && effects == old(effects) &&
                players == old(players) && onlinePlayers == old(onlinePlayers)
      ensures old(process).Exited? ==>
                out == Restart && process == old(process) &&
                effects == old(effects) + [Poll(old(process).pid)] &&
                players == old(players) && onlinePlayers == old(onlinePlayers)
      ensures old(process).Running? && exitCode.Some? ==>
                out == Restart && process == Exited(old(process).pid, exitCode.value) &&
                effects == old(effects) + [Poll(old(process).pid)] &&
                players == old(players) && onlinePlayers == old(onlinePlayers)
      ensures old(process).Running? && exitCode.None? ==>
                process == old(process) &&
                effects == old(effects) + [Poll(process.pid), ListPlayers(settings.ConsolePort)]
      ensures old(process).Running? && exitCode.None? && poll.None? ==>
                out == NotReady && players == old(players) && onlinePlayers == old(onlinePlayers)
      ensures old(process).Running? && exitCode.None? && poll.Some? ==>
                players == poll &&
                var current := InGameNames(poll.value.playerInfo);
                match Diff(old(onlinePlayers), current)
                case Joining(joined) =>
                  if joined == {} then out == IndexError && onlinePlayers == old(onlinePlayers)
                  else out.Joined? && out.name in joined && onlinePlayers == current
                case Leaving(left) =>
                  if left == {} then out == IndexError && onlinePlayers == old(onlinePlayers)
                  else out.Left? && out.name in left && onlinePlayers == current
                case SameLength =>
                  out == NoChange && onlinePlayers == old(onlinePlayers)
      ensures poll.Some? && DistinctNames(poll.value.playerInfo) && Distinct(old(onlinePlayers)) ==>
                out != IndexError && Distinct(onlinePlayers)
    {
      if process.NotStarted? {
        return AttributeError;
      }
      effects := effects + [Poll(process.pid)];
      if process.Exited? {
        return Restart;
      }
      if exitCode.Some? {
        process := Exited(process.pid, exitCode.value);
        return Restart;
      }
      effects := effects + [ListPlayers(settings.ConsolePort)];
      if poll.None? {
        return NotReady;
      }
      players := poll;
      var current := InGameNames(poll.value.playerInfo);
      if DistinctNames(poll.value.playerInfo) && Distinct(onlinePlayers) {
        ReportableWhenDistinct(onlinePlayers, poll.value.playerInfo);
      }
      var change := Diff(onlinePlayers, current);
      match change
      case Joining(joined) =>
        if joined == {} {
          return IndexError;
        }
        var name :| name in joined;
        onlinePlayers := current;
        out := Joined(name);
      case Leaving(left) =>
        if left == {} {
          return IndexError;
        }
        var name :| name in left;
        onlinePlayers := current;
        out := Left(name);
      case SameLength =>
        out := NoChange;
    }

    /** `deregister_all_server`: query the directory for this address and deregister every
        record it returns, in order, returning their lobby ids. An exception from any call
        ends the routine early. */
    method DeregisterAllServer(dir: Directory) returns (r: Outcome<seq<string>>)
      requires Valid()
      modifies this`effects
      ensures effects == old(effects) + DeregisterTrace(ipPortCombo.value, dir)
      ensures r == DeregisterResult(dir)
    {
      effects := effects + [GetServer(ipPortCombo.value)];
      if dir.games.None? {
        return Raised;
      }
      var servers := dir.games.value;
      if |servers| > 0 {
        var ok := DeregisterEach(servers, dir.rejected);
        if !ok {
          return Raised;
        }
        return Returned(LobbyIds(servers));
      }
      return Returned([]);
    }

    /** The `for reg_srvr in servers_registered` loop: one deregistration per record, in
        order, until one raises. */
    method DeregisterEach(servers: seq<GameRecord>, rejected: set<string>) returns (ok: bool)
      modifies this`effects
      ensures effects == old(effects) + DeregisterCalls(Attempted(LobbyIds(servers), rejected))
      ensures ok == AllAccepted(servers, rejected)
    {
      ghost var ids := LobbyIds(servers);
      for i := 0 to |servers|
        invariant forall j :: 0 <= j < i ==> servers[j].LobbyID !in rejected
        invariant effects == old(effects) + DeregisterCalls(ids[..i])
      {
        assert ids[..i + 1] == ids[..i] + [servers[i].LobbyID];
        DeregisterCallsSnoc(ids[..i], servers[i].LobbyID);
        effects := effects + [Deregister(servers[i].LobbyID)];
        if servers[i].LobbyID in rejected {
          AttemptedStops(ids, rejected, i);
          return false;
        }
      }
      assert ids[..|servers|] == ids;
      AttemptedAll(ids, rejected);
      return true;
    }

    /** `kill_server`: three steps, each of whose exceptions is swallowed, so the later
        steps always run. `children` is what the child enumeration answers (`None` when it
        raises) and `killFailing` the children whose kill raises. The reason is only logged. */
    method KillServer(reason: string, dir: Directory, children: Option<seq<nat>>, killFailing: set<nat>)
      requires Valid()
      modifies this`effects
      ensures effects == old(effects) + KillTrace(ipPortCombo.value, process, dir, children, killFailing)
    {
      ghost var key := ipPortCombo.value;
      var _ := DeregisterAllServer(dir);
      KillProcessTree(children, killFailing);
      effects := effects + [KillSelf];
      KillTraceSplits(old(effects), key, process, dir, children, killFailing);
    }

    /** The second step of `kill_server`: enumerate the children of the supervised process
        and kill them. Without a process, reading its `pid` raises before any call. */
    method KillProcessTree(children: Option<seq<nat>>, killFailing: set<nat>)
      modifies this`effects
      ensures effects == old(effects) + ChildKillTrace(process, children, killFailing)
    {
      if !process.NotStarted? {
        effects := effects + [ListChildren(process.pid)];
        if children.Some? {
          KillChildren(children.value, killFailing);
        }
      }
    }

    /** The `for child in ...children()` loop: kill each child in turn until a kill raises. */
    method KillChildren(pids: seq<nat>, killFailing: set<nat>)
      modifies this`effects
      ensures effects == old(effects) + KillCalls(Attempted(pids, killFailing))
    {
      for i := 0 to |pids|
        invariant forall j :: 0 <= j < i ==> pids[j] !in killFailing
        invariant effects == old(effects) + KillCalls(pids[..i])
      {
        assert pids[..i + 1] == pids[..i] + [pids[i]];
        KillCallsSnoc(pids[..i], pids[i]);
        effects := effects + [KillChild(pids[i])];
        if pids[i] in killFailing {
          AttemptedStops(pids, killFailing, i);
          return;
        }
      }
      assert pids[..|pids|] == pids;
      AttemptedAll(pids, killFailing);
    }
  }
}
